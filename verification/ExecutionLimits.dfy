// What the guard-rails really guarantee over any run of bars, symbols and day rolls.
// They are consulted only before an entry, so the positions already open when a limit is
// reached can still go past it: by their stop risk, and by their number.
module ExecutionLimits {
  import opened Wrappers
  import Arithmetic
  import opened StrategyRunner
  import opened RiskControls
  import opened ExecutionEngine
  import TradeOutcome

  // What a position still loses if its present stop is hit.
  function Risk(p: Position): int {
    Max(0, -p.Gain(p.sl)) * p.quantity
  }

  predicate Sound(p: Position) {
    && p.lockIdx >= -1 && p.quantity >= 0 && TradeOutcome.StopShortOfTarget(p)
    && (p.maxFavorable == 0 || 0 < p.maxFavorable < p.Gain(p.tp))
  }

  lemma RiskNonNegative(p: Position)
    requires p.quantity >= 0
    ensures Risk(p) >= 0
  {
  }

  lemma LossWithinRisk(p: Position, points: int)
    requires p.quantity >= 0 && points >= p.Gain(p.sl)
    ensures points * p.quantity >= -Risk(p)
  {
    Arithmetic.ProductMonotone(p.quantity, -Max(0, -p.Gain(p.sl)), points);
  }

  // A stop the trail moves is past the entry and short of the best price.
  lemma TrailedGain(c: Config, p: Position, close: int)
    requires p.lockIdx >= -1
    ensures var q := TrailFromClose(c, p, close);
      if q.lockIdx == p.lockIdx then q.sl == p.sl
      else q.lockIdx >= 0 && 0 <= p.Gain(q.sl) < Max(p.maxFavorable, p.Gain(close))
  {
    var q := TrailFromClose(c, p, close);
    if q.lockIdx != p.lockIdx {
      Arithmetic.StepsBehind(c.lockStep, Max(p.maxFavorable, p.Gain(close)), q.lockIdx);
    }
  }

  lemma NoMoreRisk(p: Position, q: Position)
    requires p.quantity == q.quantity >= 0 && -q.Gain(q.sl) <= Max(0, -p.Gain(p.sl))
    ensures Risk(q) <= Risk(p)
  {
    Arithmetic.ProductMonotone(p.quantity, Max(0, -q.Gain(q.sl)), Max(0, -p.Gain(p.sl)));
  }

  lemma TrailKeepsSound(c: Config, p: Position, close: int)
    requires Sound(p) && p.Gain(close) < p.Gain(p.tp)
    ensures Sound(TrailFromClose(c, p, close)) && Risk(TrailFromClose(c, p, close)) <= Risk(p)
  {
    TrailedGain(c, p, close);
    NoMoreRisk(p, TrailFromClose(c, p, close));
  }

  // One bar either closes a position within its remaining risk or does not raise that risk.
  lemma EvaluateWithinRisk(c: Config, p: Position, bar: Bar)
    requires Sound(p) && bar.WellFormed()
    ensures var o := Evaluate(c, p, bar);
      match o.trade
      case Some(t) => t.money >= -Risk(p)
      case None => Sound(o.position) && Risk(o.position) <= Risk(p)
  {
    var o := Evaluate(c, p, bar);
    if o.trade.Some? {
      LossWithinRisk(p, o.trade.value.points);
    } else {
      TrailKeepsSound(c, p, bar.close);
    }
  }

  function RiskAt(m: map<Symbol, Position>, s: Symbol): int {
    if s in m then Risk(m[s]) else 0
  }

  function OpenRisk(universe: seq<Symbol>, m: map<Symbol, Position>): int {
    if universe == [] then 0 else RiskAt(m, universe[0]) + OpenRisk(universe[1..], m)
  }

  ghost predicate Distinct(universe: seq<Symbol>) {
    forall i, j :: 0 <= i < j < |universe| ==> universe[i] != universe[j]
  }

  function SetOf(symbols: seq<Symbol>): set<Symbol> { set t | t in symbols }

  lemma LastApart(symbols: seq<Symbol>)
    requires Distinct(symbols) && symbols != []
    ensures var front, last := symbols[..|symbols| - 1], symbols[|symbols| - 1];
      Distinct(front) && last !in SetOf(front) && SetOf(symbols) == SetOf(front) + {last}
  {
    var front, last := symbols[..|symbols| - 1], symbols[|symbols| - 1];
    assert symbols == front + [last];
    assert forall i :: 0 <= i < |front| ==> front[i] == symbols[i];
  }

  lemma {:induction false} OpenRiskFrame(universe: seq<Symbol>, m: map<Symbol, Position>, n: map<Symbol, Position>)
    requires forall s :: s in universe ==> RiskAt(m, s) == RiskAt(n, s)
    ensures OpenRisk(universe, m) == OpenRisk(universe, n)
  {
    if universe != [] {
      OpenRiskFrame(universe[1..], m, n);
    }
  }

  // Changing one symbol's position changes the sum by that symbol's change.
  lemma {:induction false} OpenRiskDelta(universe: seq<Symbol>, m: map<Symbol, Position>,
      n: map<Symbol, Position>, s: Symbol)
    requires Distinct(universe) && s in universe
    requires forall t :: t != s ==> RiskAt(m, t) == RiskAt(n, t)
    ensures OpenRisk(universe, n) - OpenRisk(universe, m) == RiskAt(n, s) - RiskAt(m, s)
  {
    if universe[0] == s {
      OpenRiskFrame(universe[1..], m, n);
    } else {
      OpenRiskDelta(universe[1..], m, n, s);
    }
  }

  lemma {:induction false} OpenRiskRange(universe: seq<Symbol>, m: map<Symbol, Position>, worst: int)
    requires worst >= 0 && forall s :: s in m ==> 0 <= Risk(m[s]) <= worst
    ensures 0 <= OpenRisk(universe, m) <= |universe| * worst
  {
    if universe != [] {
      OpenRiskRange(universe[1..], m, worst);
      assert |universe| * worst == |universe[1..]| * worst + worst;
    }
  }

  // The position the call would open on that side.
  function Entry(call: BarCall, side: Side): Position {
    OpenPosition(call.symbol, side, call.levels,
      if side.Long? then call.levels.longEntry else call.levels.shortEntry, call.bar.time, call.quantity)
  }

  // A well-formed bar for a known symbol, whose levels risk at most `worst`.
  ghost predicate Admissible(universe: seq<Symbol>, worst: int, call: BarCall) {
    && call.symbol in universe && call.bar.WellFormed()
    && forall side :: Sound(Entry(call, side)) && Risk(Entry(call, side)) <= worst
  }

  ghost predicate BookSound(universe: seq<Symbol>, worst: int, s: EngineState) {
    && s.positions.Keys <= SetOf(universe)
    && forall t :: t in s.positions ==> Sound(s.positions[t]) && 0 <= Risk(s.positions[t]) <= worst
  }

  // The most a day can have lost when an entry is still let through: less than the loss
  // limit, and one worst loss for each trade short of the trade limit.
  function LossBeforeEntry(g: GuardRails, worst: int): int {
    if MaxLoss(g) == 0 || g.maxTradesPerDay < 1 then 0
    else Min(MaxLoss(g) - 1, (g.maxTradesPerDay - 1) * worst)
  }

  // The configured loss, whichever sign it was given with.
  function MaxLoss(g: GuardRails): int { Max(g.maxDailyLoss, -g.maxDailyLoss) }

  // The potential: the day's P&L after every open stop has been paid out.
  ghost predicate Covered(g: GuardRails, universe: seq<Symbol>, worst: int, s: EngineState) {
    && BookSound(universe, worst, s)
    && s.dayPnl >= -(s.dayTrades * worst)
    && s.dayPnl - OpenRisk(universe, s.positions) >= -(LossBeforeEntry(g, worst) + |universe| * worst)
  }

  lemma LossBeforeEntryRange(g: GuardRails, worst: int)
    requires worst >= 0
    ensures 0 <= LossBeforeEntry(g, worst) <= MaxLoss(g)
  {
    if g.maxTradesPerDay >= 1 {
      Arithmetic.ProductMonotone(worst, 0, g.maxTradesPerDay - 1);
    }
  }

  lemma EntryLetThrough(g: GuardRails, worst: int, dayTrades: nat, dayPnl: int)
    requires worst >= 0 && dayPnl >= -(dayTrades * worst) && Blocked(Some(g), dayTrades, dayPnl).None?
    ensures dayPnl >= -LossBeforeEntry(g, worst)
  {
    Arithmetic.ProductMonotone(worst, dayTrades, g.maxTradesPerDay - 1);
  }

  lemma EnterCovered(g: GuardRails, universe: seq<Symbol>, worst: int, s: EngineState, call: BarCall)
    requires worst >= 0 && Admissible(universe, worst, call) && Covered(g, universe, worst, s)
    requires call.symbol !in s.positions
    ensures Covered(g, universe, worst, EnterStep(Some(g), s, call))
  {
    var n := EnterStep(Some(g), s, call);
    if n.positions != s.positions {
      var p := n.positions[call.symbol];
      assert p == Entry(call, p.side);
      RiskNonNegative(p);
      OpenRiskRange(universe, n.positions, worst);
      EntryLetThrough(g, worst, s.dayTrades, s.dayPnl);
    }
  }

  // One more trade costs no more than the risk its position still carried.
  lemma ExitSettled(c: Config, universe: seq<Symbol>, worst: int, s: EngineState, call: BarCall)
    requires Admissible(universe, worst, call) && BookSound(universe, worst, s) && call.symbol in s.positions
    ensures var n := ExitStep(c, s, call).0;
      && BookSound(universe, worst, n)
      && n.dayPnl - RiskAt(n.positions, call.symbol) >= s.dayPnl - RiskAt(s.positions, call.symbol)
      && (if n.dayTrades == s.dayTrades then n.dayPnl == s.dayPnl
          else n.dayTrades == s.dayTrades + 1 && n.dayPnl >= s.dayPnl - worst)
  {
    EvaluateWithinRisk(c, s.positions[call.symbol], call.bar);
    var n := ExitStep(c, s, call).0;
    if call.symbol in n.positions {
      RiskNonNegative(n.positions[call.symbol]);
    }
  }

  lemma OneMoreLoss(worst: int, trades: nat, pnl: int, n: int)
    requires pnl >= -(trades * worst) && n >= pnl - worst
    ensures n >= -((trades + 1) * worst)
  {
  }

  // The other symbols' risk is as it was.
  lemma ExitRisk(c: Config, universe: seq<Symbol>, s: EngineState, call: BarCall)
    requires Distinct(universe) && call.symbol in universe && call.symbol in s.positions
    ensures var n := ExitStep(c, s, call).0;
      OpenRisk(universe, n.positions) - OpenRisk(universe, s.positions)
      == RiskAt(n.positions, call.symbol) - RiskAt(s.positions, call.symbol)
  {
    OpenRiskDelta(universe, s.positions, ExitStep(c, s, call).0.positions, call.symbol);
  }

  lemma ExitCovered(c: Config, g: GuardRails, universe: seq<Symbol>, worst: int, s: EngineState, call: BarCall)
    requires worst >= 0 && Distinct(universe) && Admissible(universe, worst, call) && Covered(g, universe, worst, s)
    requires call.symbol in s.positions
    ensures Covered(g, universe, worst, ExitStep(c, s, call).0)
  {
    var n := ExitStep(c, s, call).0;
    ExitSettled(c, universe, worst, s, call);
    ExitRisk(c, universe, s, call);
    if n.dayTrades != s.dayTrades {
      OneMoreLoss(worst, s.dayTrades, s.dayPnl, n.dayPnl);
    }
  }

  lemma RollCovered(g: GuardRails, universe: seq<Symbol>, worst: int, s: EngineState, day: int)
    requires worst >= 0 && Covered(g, universe, worst, s)
    ensures Covered(g, universe, worst, RollDay(s, day))
  {
    OpenRiskRange(universe, s.positions, worst);
  }

  lemma StepCovered(c: Config, g: GuardRails, universe: seq<Symbol>, worst: int, s: EngineState, call: BarCall)
    requires worst >= 0 && Distinct(universe) && Admissible(universe, worst, call) && Covered(g, universe, worst, s)
    ensures Covered(g, universe, worst, BarStep(c, Some(g), s, call).0)
  {
    RollCovered(g, universe, worst, s, call.bar.time.day);
    var rolled := RollDay(s, call.bar.time.day);
    if call.symbol in rolled.positions {
      ExitCovered(c, g, universe, worst, rolled, call);
    } else {
      EnterCovered(g, universe, worst, rolled, call);
    }
  }

  // Over any bars, symbols and day rolls the day's loss stays within what an entry lets
  // through plus one worst stop loss per symbol, and so within the limit plus that.
  lemma {:induction false} DailyLossBound(c: Config, g: GuardRails, universe: seq<Symbol>, worst: int,
      calls: seq<BarCall>)
    requires worst >= 0 && Distinct(universe)
    requires forall i :: 0 <= i < |calls| ==> Admissible(universe, worst, calls[i])
    ensures var s := RunBars(c, Some(g), INITIAL, calls);
      && Covered(g, universe, worst, s)
      && s.dayPnl >= -(LossBeforeEntry(g, worst) + |universe| * worst)
      && s.dayPnl >= -(MaxLoss(g) + |universe| * worst)
  {
    LossBeforeEntryRange(g, worst);
    if calls == [] {
      OpenRiskRange(universe, map[], worst);
    } else {
      var n := |calls| - 1;
      DailyLossBound(c, g, universe, worst, calls[..n]);
      StepCovered(c, g, universe, worst, RunBars(c, Some(g), INITIAL, calls[..n]), calls[n]);
    }
    OpenRiskRange(universe, RunBars(c, Some(g), INITIAL, calls).positions, worst);
  }

  // ---- the trade count ----

  // The trades closed since the day last rolled.
  function Today(s: EngineState): seq<Trade> {
    if s.dayTrades <= |s.closed| then s.closed[|s.closed| - s.dayTrades..] else s.closed
  }

  function TradesOf(symbol: Symbol, trades: seq<Trade>): nat {
    if trades == [] then 0
    else TradesOf(symbol, trades[..|trades| - 1]) + if trades[|trades| - 1].symbol == symbol then 1 else 0
  }

  lemma {:induction false} TradesOfAtMost(symbol: Symbol, trades: seq<Trade>)
    ensures TradesOf(symbol, trades) <= |trades|
  {
    if trades != [] {
      TradesOfAtMost(symbol, trades[..|trades| - 1]);
    }
  }

  ghost predicate Counted(g: GuardRails, universe: set<Symbol>, s: EngineState) {
    && s.positions.Keys <= universe && s.dayTrades <= |s.closed|
    && (forall t :: t in s.positions ==> s.positions[t].symbol == t)
    && s.dayTrades + |s.positions| <= g.maxTradesPerDay - 1 + |universe|
    && SymbolsCounted(g, s)
  }

  lemma KeysWithin<T>(m: map<Symbol, T>, universe: set<Symbol>)
    requires m.Keys <= universe
    ensures |m| <= |universe|
  {
    SubsetSize(m.Keys, universe);
    assert |m| == |m.Keys|;
  }

  lemma {:induction false} SubsetSize(a: set<Symbol>, b: set<Symbol>)
    requires a <= b
    ensures |a| <= |b|
    decreases a
  {
    if a != {} {
      var x :| x in a;
      SubsetSize(a - {x}, b - {x});
    }
  }

  // One of a symbol's trades more or less leaves the others' as they were.
  ghost predicate SymbolsCounted(g: GuardRails, s: EngineState) {
    forall t :: TradesOf(t, Today(s)) + (if t in s.positions then 1 else 0) <= g.maxTradesPerDay
  }

  lemma EnterSymbols(g: GuardRails, s: EngineState, n: EngineState, symbol: Symbol)
    requires SymbolsCounted(g, s) && s.dayTrades < g.maxTradesPerDay && s.dayTrades <= |s.closed|
    requires n.closed == s.closed && n.dayTrades == s.dayTrades && n.positions.Keys == s.positions.Keys + {symbol}
    ensures SymbolsCounted(g, n)
  {
    assert Today(n) == Today(s);
    TradesOfAtMost(symbol, Today(s));
  }

  lemma EnterCounted(g: GuardRails, universe: set<Symbol>, s: EngineState, call: BarCall)
    requires call.symbol in universe && call.symbol !in s.positions && Counted(g, universe, s)
    ensures Counted(g, universe, EnterStep(Some(g), s, call))
  {
    var n := EnterStep(Some(g), s, call);
    if n.positions != s.positions {
      KeysWithin(n.positions, universe);
      EnterSymbols(g, s, n, call.symbol);
    } else {
      assert Today(n) == Today(s);
    }
  }

  lemma TodayAfterExit(s: EngineState, symbol: Symbol, o: Outcome)
    requires s.dayTrades <= |s.closed| && o.trade.Some?
    ensures forall t :: TradesOf(t, Today(Settle(s, symbol, o).0))
                        == TradesOf(t, Today(s)) + if o.trade.value.symbol == t then 1 else 0
  {
    var n := Settle(s, symbol, o).0;
    assert Today(n) == Today(s) + [o.trade.value];
    assert Today(n)[..|Today(n)| - 1] == Today(s);
  }

  lemma SettleSymbols(g: GuardRails, s: EngineState, symbol: Symbol, o: Outcome)
    requires SymbolsCounted(g, s) && s.dayTrades <= |s.closed| && symbol in s.positions
    requires o.trade.Some? ==> o.trade.value.symbol == symbol
    ensures SymbolsCounted(g, Settle(s, symbol, o).0)
  {
    var n := Settle(s, symbol, o).0;
    if o.trade.Some? {
      TodayAfterExit(s, symbol, o);
    } else {
      assert Today(n) == Today(s);
    }
  }

  lemma SettleSize(s: EngineState, symbol: Symbol, o: Outcome)
    requires symbol in s.positions
    ensures var n := Settle(s, symbol, o).0;
      n.dayTrades + |n.positions| == s.dayTrades + |s.positions| && n.positions.Keys <= s.positions.Keys
  {
    var n := Settle(s, symbol, o).0;
    if o.trade.Some? {
      assert |n.positions| == |s.positions| - 1;
    } else {
      assert n.positions.Keys == s.positions.Keys;
      assert |n.positions| == |n.positions.Keys| == |s.positions|;
    }
  }

  lemma SettleCounted(g: GuardRails, universe: set<Symbol>, s: EngineState, symbol: Symbol, o: Outcome)
    requires symbol in s.positions && Counted(g, universe, s)
    requires o.position.symbol == symbol && (o.trade.Some? ==> o.trade.value.symbol == symbol)
    ensures Counted(g, universe, Settle(s, symbol, o).0)
  {
    SettleSymbols(g, s, symbol, o);
    SettleSize(s, symbol, o);
  }

  lemma StepCounted(c: Config, g: GuardRails, universe: set<Symbol>, s: EngineState, call: BarCall)
    requires g.maxTradesPerDay >= 1 && call.symbol in universe && Counted(g, universe, s)
    ensures Counted(g, universe, BarStep(c, Some(g), s, call).0)
  {
    var rolled := RollDay(s, call.bar.time.day);
    KeysWithin(s.positions, universe);
    if call.symbol in rolled.positions {
      SettleCounted(g, universe, rolled, call.symbol, Evaluate(c, rolled.positions[call.symbol], call.bar));
    } else {
      EnterCounted(g, universe, rolled, call);
    }
  }

  // With N trades allowed and S symbols, a day closes at most N - 1 + S trades, and any one
  // symbol at most N.
  lemma {:induction false} TradeCountBound(c: Config, g: GuardRails, universe: set<Symbol>, calls: seq<BarCall>)
    requires g.maxTradesPerDay >= 1
    requires forall i :: 0 <= i < |calls| ==> calls[i].symbol in universe
    ensures var s := RunBars(c, Some(g), INITIAL, calls);
      && s.dayTrades + |s.positions| <= g.maxTradesPerDay - 1 + |universe|
      && (forall t :: TradesOf(t, Today(s)) <= g.maxTradesPerDay)
      && Counted(g, universe, s)
  {
    if calls != [] {
      var n := |calls| - 1;
      TradeCountBound(c, g, universe, calls[..n]);
      StepCounted(c, g, universe, RunBars(c, Some(g), INITIAL, calls[..n]), calls[n]);
    }
  }
}
