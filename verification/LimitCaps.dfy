// Exactly when the two guard-rail limits are the caps their names say they are. They are
// consulted at entry and counted at exit, so a trade let through just short of the loss
// limit, and symbols held side by side, can pass them.
module LimitCaps {
  import opened Wrappers
  import Arithmetic
  import Levels
  import opened StrategyRunner
  import opened RiskControls
  import opened ExecutionEngine
  import opened ExecutionLimits

  // ---- a run that reaches both bounds ----

  // Levels with a long stop `d` below the long trigger.
  function StopLevels(d: int): Levels.OrderLevels {
    Levels.OrderLevels(d + 80, d + 100, 100, d + 130, d + 50, 2 * d + 50, d + 20)
  }

  // A bar that enters long on those levels, and one that reaches the stop.
  function Enters(symbol: Symbol, d: int, at: int): BarCall {
    BarCall(symbol, StopLevels(d), Bar(Stamp(0, at), d + 100, d + 100, d + 100, d + 100), 1)
  }

  function Stops(symbol: Symbol, d: int, at: int): BarCall {
    BarCall(symbol, StopLevels(d), Bar(Stamp(0, at), d + 100, d + 100, 100, 100), 1)
  }

  // `n` trades one after the other that lose `total` between them, at most `worst` each.
  function RoundTrips(symbol: Symbol, total: int, worst: int, n: nat): (calls: seq<BarCall>)
    decreases n
  {
    if n == 0 then []
    else
      var calls := RoundTrips(symbol, Max(0, total - worst), worst, n - 1);
      var loss := Min(total, worst);
      calls + [Enters(symbol, loss, |calls|)] + [Stops(symbol, loss, |calls| + 1)]
  }

  // The calls so far, and then one that enters each symbol, or one that stops each out.
  function ThenEnter(calls: seq<BarCall>, symbols: seq<Symbol>, d: int): seq<BarCall> {
    if symbols == [] then calls
    else
      var before := ThenEnter(calls, symbols[..|symbols| - 1], d);
      before + [Enters(symbols[|symbols| - 1], d, |before|)]
  }

  function ThenStop(calls: seq<BarCall>, symbols: seq<Symbol>, d: int): seq<BarCall> {
    if symbols == [] then calls
    else
      var before := ThenStop(calls, symbols[..|symbols| - 1], d);
      before + [Stops(symbols[|symbols| - 1], d, |before|)]
  }

  // The day is taken to the last point an entry is let through; then every symbol enters
  // before any of them stops out.
  function WorstDay(g: GuardRails, universe: seq<Symbol>, worst: int): seq<BarCall>
    requires universe != [] && g.maxTradesPerDay >= 1
  {
    var trips := RoundTrips(universe[0], LossBeforeEntry(g, worst), worst, g.maxTradesPerDay - 1);
    ThenStop(ThenEnter(trips, universe, worst), universe, worst)
  }

  ghost predicate AllAdmissible(universe: seq<Symbol>, worst: int, calls: seq<BarCall>) {
    forall i :: 0 <= i < |calls| ==> Admissible(universe, worst, calls[i])
  }

  // One day's bars, each later than the one before.
  ghost predicate IsFeed(calls: seq<BarCall>) {
    forall i :: 0 <= i < |calls| ==> calls[i].bar.time == Stamp(0, i)
  }

  lemma StopCallsAdmissible(universe: seq<Symbol>, worst: int, symbol: Symbol, d: int, at: int)
    requires symbol in universe && 0 <= d <= worst
    ensures Admissible(universe, worst, Enters(symbol, d, at)) && Admissible(universe, worst, Stops(symbol, d, at))
  {
  }

  lemma {:induction false} RoundTripsAdmissible(universe: seq<Symbol>, worst: int, symbol: Symbol, total: int, n: nat)
    requires symbol in universe && 0 <= total && 0 <= worst
    ensures var calls := RoundTrips(symbol, total, worst, n); AllAdmissible(universe, worst, calls) && IsFeed(calls)
  {
    if n > 0 {
      RoundTripsAdmissible(universe, worst, symbol, Max(0, total - worst), n - 1);
      var before := RoundTrips(symbol, Max(0, total - worst), worst, n - 1);
      OneTripAdmissible(universe, worst, before, symbol, Min(total, worst));
    }
  }

  lemma OneTripAdmissible(universe: seq<Symbol>, worst: int, before: seq<BarCall>, symbol: Symbol, loss: int)
    requires symbol in universe && 0 <= loss <= worst && AllAdmissible(universe, worst, before) && IsFeed(before)
    ensures var calls := before + [Enters(symbol, loss, |before|)] + [Stops(symbol, loss, |before| + 1)];
      AllAdmissible(universe, worst, calls) && IsFeed(calls)
  {
    StopCallsAdmissible(universe, worst, symbol, loss, |before|);
    StopCallsAdmissible(universe, worst, symbol, loss, |before| + 1);
  }

  lemma {:induction false} ThenEnterAdmissible(universe: seq<Symbol>, worst: int, calls: seq<BarCall>,
      symbols: seq<Symbol>)
    requires 0 <= worst && (forall t :: t in symbols ==> t in universe)
    requires AllAdmissible(universe, worst, calls) && IsFeed(calls)
    ensures var n := ThenEnter(calls, symbols, worst); AllAdmissible(universe, worst, n) && IsFeed(n)
  {
    if symbols != [] {
      var front := symbols[..|symbols| - 1];
      StopCallsAdmissible(universe, worst, symbols[|symbols| - 1], worst, |ThenEnter(calls, front, worst)|);
      ThenEnterAdmissible(universe, worst, calls, front);
    }
  }

  lemma {:induction false} ThenStopAdmissible(universe: seq<Symbol>, worst: int, calls: seq<BarCall>,
      symbols: seq<Symbol>)
    requires 0 <= worst && (forall t :: t in symbols ==> t in universe)
    requires AllAdmissible(universe, worst, calls) && IsFeed(calls)
    ensures var n := ThenStop(calls, symbols, worst); AllAdmissible(universe, worst, n) && IsFeed(n)
  {
    if symbols != [] {
      var front := symbols[..|symbols| - 1];
      StopCallsAdmissible(universe, worst, symbols[|symbols| - 1], worst, |ThenStop(calls, front, worst)|);
      ThenStopAdmissible(universe, worst, calls, front);
    }
  }

  lemma WorstDayAdmissible(g: GuardRails, universe: seq<Symbol>, worst: int)
    requires universe != [] && g.maxTradesPerDay >= 1 && worst >= 0
    ensures var calls := WorstDay(g, universe, worst); AllAdmissible(universe, worst, calls) && IsFeed(calls)
  {
    var trips := RoundTrips(universe[0], LossBeforeEntry(g, worst), worst, g.maxTradesPerDay - 1);
    LossBeforeEntryRange(g, worst);
    RoundTripsAdmissible(universe, worst, universe[0], LossBeforeEntry(g, worst), g.maxTradesPerDay - 1);
    ThenEnterAdmissible(universe, worst, trips, universe);
    ThenStopAdmissible(universe, worst, ThenEnter(trips, universe, worst), universe);
  }

  lemma RunNext(c: Config, g: GuardRails, calls: seq<BarCall>, call: BarCall)
    ensures RunBars(c, Some(g), INITIAL, calls + [call])
            == BarStep(c, Some(g), RunBars(c, Some(g), INITIAL, calls), call).0
  {
    assert (calls + [call])[..|calls|] == calls;
  }

  // Day 0 with these counters, holding just these symbols, each entered as above.
  ghost predicate OnDay(s: EngineState, trades: nat, pnl: int, held: set<Symbol>, d: int) {
    && (s.currentDay == Some(0) || (s.currentDay.None? && pnl == 0 && trades == 0))
    && s.dayPnl == pnl && s.dayTrades == trades && s.positions.Keys == held
    && forall t :: t in s.positions ==> s.positions[t] == Entry(Enters(t, d, s.positions[t].entryTime.sec), Long)
  }

  ghost predicate RunsTo(c: Config, g: GuardRails, calls: seq<BarCall>, trades: nat, pnl: int,
      held: set<Symbol>, d: int)
  {
    OnDay(RunBars(c, Some(g), INITIAL, calls), trades, pnl, held, d)
  }

  lemma EnterStays(c: Config, g: GuardRails, s: EngineState, symbol: Symbol, trades: nat, pnl: int,
      held: set<Symbol>, d: int, at: int)
    requires OnDay(s, trades, pnl, held, d)
    requires symbol !in held && -MaxLoss(g) < pnl && trades < g.maxTradesPerDay
    ensures OnDay(BarStep(c, Some(g), s, Enters(symbol, d, at)).0, trades, pnl, held + {symbol}, d)
  {
  }

  lemma StopStays(c: Config, g: GuardRails, s: EngineState, symbol: Symbol, trades: nat, pnl: int,
      held: set<Symbol>, d: int, at: int)
    requires OnDay(s, trades, pnl, held, d) && symbol in held && d >= 0
    ensures OnDay(BarStep(c, Some(g), s, Stops(symbol, d, at)).0, trades + 1, pnl - d, held - {symbol}, d)
  {
    var p := s.positions[symbol];
    assert ExitOn(c, p, Stops(symbol, d, at).bar) == Some(Result(p, 100, Stamp(0, at), StopLoss));
  }

  lemma EnterNext(c: Config, g: GuardRails, calls: seq<BarCall>, symbol: Symbol, trades: nat, pnl: int,
      held: set<Symbol>, d: int, at: int)
    requires RunsTo(c, g, calls, trades, pnl, held, d)
    requires symbol !in held && -MaxLoss(g) < pnl && trades < g.maxTradesPerDay
    ensures RunsTo(c, g, calls + [Enters(symbol, d, at)], trades, pnl, held + {symbol}, d)
  {
    RunNext(c, g, calls, Enters(symbol, d, at));
    EnterStays(c, g, RunBars(c, Some(g), INITIAL, calls), symbol, trades, pnl, held, d, at);
  }

  lemma StopNext(c: Config, g: GuardRails, calls: seq<BarCall>, symbol: Symbol, trades: nat, pnl: int,
      held: set<Symbol>, d: int, at: int)
    requires RunsTo(c, g, calls, trades, pnl, held, d) && symbol in held && d >= 0
    ensures RunsTo(c, g, calls + [Stops(symbol, d, at)], trades + 1, pnl - d, held - {symbol}, d)
  {
    RunNext(c, g, calls, Stops(symbol, d, at));
    StopStays(c, g, RunBars(c, Some(g), INITIAL, calls), symbol, trades, pnl, held, d, at);
  }

  lemma OneRoundTrip(c: Config, g: GuardRails, calls: seq<BarCall>, symbol: Symbol, trades: nat, pnl: int,
      loss: int, at: int)
    requires RunsTo(c, g, calls, trades, pnl, {}, loss) && loss >= 0
    requires -MaxLoss(g) < pnl && trades < g.maxTradesPerDay
    ensures RunsTo(c, g, calls + [Enters(symbol, loss, at)] + [Stops(symbol, loss, at + 1)], trades + 1, pnl - loss,
                   {}, loss)
  {
    EnterNext(c, g, calls, symbol, trades, pnl, {}, loss, at);
    StopNext(c, g, calls + [Enters(symbol, loss, at)], symbol, trades, pnl, {} + {symbol}, loss, at + 1);
    assert {} + {symbol} - {symbol} == {};
  }

  // With nothing held the distance of the stops held does not matter.
  lemma NothingHeld(c: Config, g: GuardRails, calls: seq<BarCall>, trades: nat, pnl: int, d: int, e: int)
    requires RunsTo(c, g, calls, trades, pnl, {}, d)
    ensures RunsTo(c, g, calls, trades, pnl, {}, e)
  {
  }

  lemma {:induction false} RoundTripsRun(c: Config, g: GuardRails, symbol: Symbol, total: int, worst: int,
      n: nat, d: int)
    requires 0 <= total < MaxLoss(g) && total <= n * worst && 0 <= worst && n <= g.maxTradesPerDay
    ensures RunsTo(c, g, RoundTrips(symbol, total, worst, n), n, -total, {}, d)
    decreases n
  {
    if n > 0 {
      var rest, loss := Max(0, total - worst), Min(total, worst);
      var before := RoundTrips(symbol, rest, worst, n - 1);
      assert 0 <= rest < MaxLoss(g) && rest <= (n - 1) * worst by {
        Arithmetic.OneLess(n, worst, total);
      }
      RoundTripsRun(c, g, symbol, rest, worst, n - 1, loss);
      OneRoundTrip(c, g, before, symbol, n - 1, -rest, loss, |before|);
      NothingHeld(c, g, RoundTrips(symbol, total, worst, n), n, -total, loss, d);
    }
  }

  lemma {:induction false} ThenEnterRun(c: Config, g: GuardRails, calls: seq<BarCall>, symbols: seq<Symbol>,
      trades: nat, pnl: int, d: int)
    requires RunsTo(c, g, calls, trades, pnl, {}, d) && Distinct(symbols)
    requires -MaxLoss(g) < pnl && trades < g.maxTradesPerDay
    ensures RunsTo(c, g, ThenEnter(calls, symbols, d), trades, pnl, SetOf(symbols), d)
  {
    if symbols != [] {
      var front, last := symbols[..|symbols| - 1], symbols[|symbols| - 1];
      var before := ThenEnter(calls, front, d);
      LastApart(symbols);
      ThenEnterRun(c, g, calls, front, trades, pnl, d);
      EnterNext(c, g, before, last, trades, pnl, SetOf(front), d, |before|);
    }
  }

  lemma {:induction false} ThenStopRun(c: Config, g: GuardRails, calls: seq<BarCall>, symbols: seq<Symbol>,
      trades: nat, pnl: int, held: set<Symbol>, d: int)
    requires RunsTo(c, g, calls, trades, pnl, held, d) && Distinct(symbols) && SetOf(symbols) <= held && d >= 0
    ensures RunsTo(c, g, ThenStop(calls, symbols, d), trades + |symbols|, pnl - |symbols| * d, held - SetOf(symbols), d)
  {
    if symbols == [] {
      assert held - {} == held;
    } else {
      var n := |symbols| - 1;
      var front, last := symbols[..n], symbols[n];
      var before := ThenStop(calls, front, d);
      LastApart(symbols);
      ThenStopRun(c, g, calls, front, trades, pnl, held, d);
      StopNext(c, g, before, last, trades + n, pnl - n * d, held - SetOf(front), d, |before|);
      assert held - SetOf(symbols) == held - SetOf(front) - {last};
      assert pnl - (n + 1) * d == pnl - n * d - d;
    }
  }

  lemma LossSplits(g: GuardRails, worst: int)
    requires worst >= 0 && MaxLoss(g) > 0 && g.maxTradesPerDay >= 1
    ensures 0 <= LossBeforeEntry(g, worst) < MaxLoss(g)
    ensures LossBeforeEntry(g, worst) <= (g.maxTradesPerDay - 1) * worst
  {
    Arithmetic.ProductMonotone(worst, 0, g.maxTradesPerDay - 1);
  }

  lemma WorstDayRun(c: Config, g: GuardRails, universe: seq<Symbol>, total: int, worst: int, n: nat)
    requires worst >= 0 && Distinct(universe) && universe != [] && n < g.maxTradesPerDay
    requires 0 <= total < MaxLoss(g) && total <= n * worst
    ensures var trips := RoundTrips(universe[0], total, worst, n);
      RunsTo(c, g, ThenStop(ThenEnter(trips, universe, worst), universe, worst),
             n + |universe|, -total - |universe| * worst, SetOf(universe) - SetOf(universe), worst)
  {
    var trips := RoundTrips(universe[0], total, worst, n);
    RoundTripsRun(c, g, universe[0], total, worst, n, worst);
    ThenEnterRun(c, g, trips, universe, n, -total, worst);
    ThenStopRun(c, g, ThenEnter(trips, universe, worst), universe, n, -total, SetOf(universe), worst);
  }

  lemma WorstDayTotals(c: Config, g: GuardRails, universe: seq<Symbol>, worst: int)
    requires worst >= 0 && Distinct(universe) && universe != [] && MaxLoss(g) > 0 && g.maxTradesPerDay >= 1
    ensures var s := RunBars(c, Some(g), INITIAL, WorstDay(g, universe, worst));
      && s.dayTrades == g.maxTradesPerDay - 1 + |universe|
      && s.dayPnl == -(LossBeforeEntry(g, worst) + |universe| * worst)
  {
    LossSplits(g, worst);
    WorstDayRun(c, g, universe, LossBeforeEntry(g, worst), worst, g.maxTradesPerDay - 1);
  }

  // Both bounds on a day are reached, and by the same run of bars in time order: N - 1 + S
  // trades, and a loss of all that an entry lets through plus one worst stop loss per symbol.
  lemma BoundsReached(c: Config, g: GuardRails, universe: seq<Symbol>, worst: int)
    requires worst >= 0 && Distinct(universe) && universe != [] && MaxLoss(g) > 0 && g.maxTradesPerDay >= 1
    ensures var calls := WorstDay(g, universe, worst);
      var s := RunBars(c, Some(g), INITIAL, calls);
      && AllAdmissible(universe, worst, calls) && IsFeed(calls)
      && s.dayTrades == g.maxTradesPerDay - 1 + |universe|
      && s.dayPnl == -(LossBeforeEntry(g, worst) + |universe| * worst)
  {
    WorstDayAdmissible(g, universe, worst);
    WorstDayTotals(c, g, universe, worst);
  }

  // With a limit of zero the guard-rails refuse every entry.
  lemma {:induction false} NothingTraded(c: Config, g: GuardRails, calls: seq<BarCall>)
    requires MaxLoss(g) == 0 || g.maxTradesPerDay < 1
    ensures var s := RunBars(c, Some(g), INITIAL, calls); s.positions == map[] && s.dayPnl == 0 && s.dayTrades == 0
  {
    if calls != [] {
      NothingTraded(c, g, calls[..|calls| - 1]);
    }
  }

  // ---- the loss limit ----

  ghost predicate LossCapHolds(c: Config, g: GuardRails, universe: seq<Symbol>, worst: int) {
    forall calls: seq<BarCall> | AllAdmissible(universe, worst, calls) ::
      RunBars(c, Some(g), INITIAL, calls).dayPnl >= -MaxLoss(g)
  }

  // The loss limit caps every run of S symbols risking at most W each exactly when nothing
  // can be traded, or what an entry lets through plus S * W is still within it.
  lemma LossCapIff(c: Config, g: GuardRails, universe: seq<Symbol>, worst: int)
    requires worst >= 0 && Distinct(universe)
    ensures LossCapHolds(c, g, universe, worst)
      <==> || MaxLoss(g) == 0 || g.maxTradesPerDay < 1 || |universe| == 0
           || Min(MaxLoss(g) - 1, (g.maxTradesPerDay - 1) * worst) + |universe| * worst <= MaxLoss(g)
  {
    if MaxLoss(g) == 0 || g.maxTradesPerDay < 1 {
      forall calls: seq<BarCall> | AllAdmissible(universe, worst, calls)
        ensures RunBars(c, Some(g), INITIAL, calls).dayPnl >= -MaxLoss(g)
      {
        NothingTraded(c, g, calls);
      }
    } else if |universe| == 0 || LossBeforeEntry(g, worst) + |universe| * worst <= MaxLoss(g) {
      forall calls: seq<BarCall> | AllAdmissible(universe, worst, calls)
        ensures RunBars(c, Some(g), INITIAL, calls).dayPnl >= -MaxLoss(g)
      {
        LossWithinCap(c, g, universe, worst, calls);
      }
    } else {
      BoundsReached(c, g, universe, worst);
      assert RunBars(c, Some(g), INITIAL, WorstDay(g, universe, worst)).dayPnl < -MaxLoss(g);
    }
  }

  lemma LossWithinCap(c: Config, g: GuardRails, universe: seq<Symbol>, worst: int, calls: seq<BarCall>)
    requires worst >= 0 && Distinct(universe) && AllAdmissible(universe, worst, calls)
    requires |universe| == 0 || LossBeforeEntry(g, worst) + |universe| * worst <= MaxLoss(g)
    ensures RunBars(c, Some(g), INITIAL, calls).dayPnl >= -MaxLoss(g)
  {
    if |universe| == 0 {
      assert calls != [] ==> Admissible(universe, worst, calls[0]);
    } else {
      DailyLossBound(c, g, universe, worst, calls);
    }
  }

  // ---- the trade limit ----

  ghost predicate CallsWithin(universe: set<Symbol>, calls: seq<BarCall>) {
    forall i :: 0 <= i < |calls| ==> calls[i].symbol in universe
  }

  ghost predicate TradeCapHolds(c: Config, g: GuardRails, universe: set<Symbol>) {
    forall calls: seq<BarCall> | CallsWithin(universe, calls) ::
      RunBars(c, Some(g), INITIAL, calls).dayTrades <= g.maxTradesPerDay
  }

  lemma TwoSymbolsPassCap(c: Config, g: GuardRails, universe: set<Symbol>, a: Symbol, b: Symbol)
    requires a in universe && b in universe && a != b && MaxLoss(g) > 0 && g.maxTradesPerDay >= 1
    ensures !TradeCapHolds(c, g, universe)
  {
    BoundsReached(c, g, [a, b], 0);
    var calls := WorstDay(g, [a, b], 0);
    forall i | 0 <= i < |calls| ensures calls[i].symbol in universe {
      assert Admissible([a, b], 0, calls[i]);
    }
    assert CallsWithin(universe, calls);
  }

  lemma TradesWithinCap(c: Config, g: GuardRails, universe: set<Symbol>, calls: seq<BarCall>)
    requires g.maxTradesPerDay >= 0 && CallsWithin(universe, calls)
    requires g.maxTradesPerDay == 0 || |universe| <= 1 || MaxLoss(g) == 0
    ensures RunBars(c, Some(g), INITIAL, calls).dayTrades <= g.maxTradesPerDay
  {
    if MaxLoss(g) == 0 || g.maxTradesPerDay < 1 {
      NothingTraded(c, g, calls);
    } else {
      TradeCountBound(c, g, universe, calls);
    }
  }

  // The trade limit caps every run exactly when no two symbols trade side by side, or when
  // one of the limits is zero and none trades at all.
  lemma TradeCapIff(c: Config, g: GuardRails, universe: set<Symbol>)
    ensures TradeCapHolds(c, g, universe)
      <==> g.maxTradesPerDay >= 0 && (g.maxTradesPerDay == 0 || |universe| <= 1 || MaxLoss(g) == 0)
  {
    if g.maxTradesPerDay < 0 {
      assert CallsWithin(universe, []);
      assert RunBars(c, Some(g), INITIAL, []).dayTrades > g.maxTradesPerDay;
    } else if g.maxTradesPerDay == 0 || |universe| <= 1 || MaxLoss(g) == 0 {
      forall calls: seq<BarCall> | CallsWithin(universe, calls)
        ensures RunBars(c, Some(g), INITIAL, calls).dayTrades <= g.maxTradesPerDay
      {
        TradesWithinCap(c, g, universe, calls);
      }
    } else {
      var a :| a in universe;
      assert |universe - {a}| == |universe| - 1;
      var b :| b in universe - {a};
      TwoSymbolsPassCap(c, g, universe, a, b);
    }
  }
}
