// The backtest and the bar engine on the same five-minute bars. The paper side is driven
// the way the repository's parity test drives it: levels from the anchor bar, then bars
// until the session's first trade.
module Parity {
  import opened Wrappers
  import Arithmetic
  import Rounding
  import opened Levels
  import opened StrategyRunner
  import BarResolution
  import TradeOutcome
  import opened BacktestEngine
  import opened ExecutionEngine

  function M5(bars: seq<Bar>): seq<BarResolution.Window> {
    Windows(Session(bars, None))
  }

  function Calls(symbol: Symbol, levels: OrderLevels, quantity: int, bars: seq<Bar>): (calls: seq<BarCall>)
    ensures |calls| == |bars|
  {
    seq(|bars|, i requires 0 <= i < |bars| => BarCall(symbol, levels, bars[i], quantity))
  }

  // Feed bars until one of them closes a trade.
  function Feed(c: Config, s: EngineState, calls: seq<BarCall>): (EngineState, Option<Trade>)
    decreases |calls|
  {
    if calls == [] then (s, None)
    else
      var next := BarStep(c, None, s, calls[0]);
      if next.1.Some? then next else Feed(c, next.0, calls[1..])
  }

  function PaperSession(c: Config, symbol: Symbol, quantity: int, s: EngineState, bars: seq<Bar>)
      : (EngineState, Option<Trade>)
  {
    var a := AnchorIndex(c, M5(bars));
    if a == |bars| then (s, None)
    else Feed(c, s, Calls(symbol, BuildLevels(c, bars[a].open), quantity, bars[a + 1..]))
  }

  function PaperRun(c: Config, symbol: Symbol, quantity: int, sessions: seq<seq<Bar>>): (EngineState, seq<Trade>) {
    if sessions == [] then (INITIAL, [])
    else
      var n := |sessions| - 1;
      var before := PaperRun(c, symbol, quantity, sessions[..n]);
      var day := PaperSession(c, symbol, quantity, before.0, sessions[n]);
      (day.0, before.1 + if day.1.Some? then [day.1.value] else [])
  }

  function M5Sessions(sessions: seq<seq<Bar>>): (ss: seq<Session>)
    ensures |ss| == |sessions| && forall i :: 0 <= i < |ss| ==> ss[i].Aligned()
  {
    seq(|sessions|, i requires 0 <= i < |sessions| => Session(sessions[i], None))
  }

  // The position the bars leave open, if any.
  function LeftOpen(c: Config, symbol: Symbol, levels: OrderLevels, quantity: int, held: Option<Position>,
      bars: seq<Bar>): Option<Position>
    decreases |bars|
  {
    if bars == [] then held
    else if held.None? then LeftOpen(c, symbol, levels, quantity, DetectEntry(symbol, levels, bars[0], quantity),
                                     bars[1..])
    else
      var o := Evaluate(c, held.value, bars[0]);
      if o.trade.Some? then None else LeftOpen(c, symbol, levels, quantity, Some(o.position), bars[1..])
  }

  function SessionLeavesOpen(c: Config, symbol: Symbol, quantity: int, bars: seq<Bar>): Option<Position> {
    var a := AnchorIndex(c, M5(bars));
    if a == |bars| then None
    else LeftOpen(c, symbol, BuildLevels(c, bars[a].open), quantity, None, bars[a + 1..])
  }

  ghost predicate AllEndFlat(c: Config, symbol: Symbol, quantity: int, sessions: seq<seq<Bar>>) {
    forall i :: 0 <= i < |sessions| ==> SessionLeavesOpen(c, symbol, quantity, sessions[i]).None?
  }

  function HeldIn(s: EngineState, symbol: Symbol): Option<Position> {
    if symbol in s.positions then Some(s.positions[symbol]) else None
  }

  lemma M5Tail(bars: seq<Bar>, i: nat)
    requires i <= |bars|
    ensures M5(bars)[i..] == M5(bars[i..])
  {
  }

  // Feeding bars to the engine is the backtest's scan of them.
  lemma {:induction false} FeedIsScan(c: Config, symbol: Symbol, levels: OrderLevels, quantity: int,
      s: EngineState, bars: seq<Bar>)
    ensures var r := Feed(c, s, Calls(symbol, levels, quantity, bars));
      && r.1 == Scan(c, symbol, levels, quantity, HeldIn(s, symbol), M5(bars))
      && HeldIn(r.0, symbol) == LeftOpen(c, symbol, levels, quantity, HeldIn(s, symbol), bars)
    decreases |bars|
  {
    if bars != [] {
      var calls := Calls(symbol, levels, quantity, bars);
      assert calls[1..] == Calls(symbol, levels, quantity, bars[1..]);
      M5Tail(bars, 1);
      var next := BarStep(c, None, s, calls[0]);
      if symbol in s.positions {
        TradeOutcome.ReplayOne(c, s.positions[symbol], bars[0]);
      }
      if next.1.None? {
        FeedIsScan(c, symbol, levels, quantity, next.0, bars[1..]);
      }
    }
  }

  lemma UnitMoney(t: Trade)
    requires t.money == t.points * t.quantity
    ensures ApplyMoney(t, 1.0) == t
  {
    Arithmetic.RealProductTimes(t.points, t.quantity, 1.0);
    Rounding.RoundIs(Earned(t, 1.0), t.money);
  }

  lemma {:induction false} ScanMoney(c: Config, symbol: Symbol, levels: OrderLevels, quantity: int,
      held: Option<Position>, bars: seq<Bar>)
    ensures var t := Scan(c, symbol, levels, quantity, held, M5(bars));
      t.Some? ==> t.value.money == t.value.points * t.value.quantity
    decreases |bars|
  {
    if bars != [] {
      M5Tail(bars, 1);
      if held.None? {
        ScanMoney(c, symbol, levels, quantity, DetectEntry(symbol, levels, bars[0], quantity), bars[1..]);
      } else {
        TradeOutcome.ReplayOne(c, held.value, bars[0]);
        ScanMoney(c, symbol, levels, quantity, Some(Evaluate(c, held.value, bars[0]).position), bars[1..]);
      }
    }
  }

  // From a flat book a session trades identically on both sides, or not at all on both.
  lemma SessionParity(c: Config, symbol: Symbol, quantity: int, s: EngineState, bars: seq<Bar>)
    requires symbol !in s.positions
    ensures var r := PaperSession(c, symbol, quantity, s, bars);
      && r.1 == PricedTrade(SessionTrade(c, symbol, quantity, M5(bars)), 1.0)
      && HeldIn(r.0, symbol) == SessionLeavesOpen(c, symbol, quantity, bars)
  {
    var a := AnchorIndex(c, M5(bars));
    if a < |bars| {
      var levels := BuildLevels(c, bars[a].open);
      M5Tail(bars, a + 1);
      FeedIsScan(c, symbol, levels, quantity, s, bars[a + 1..]);
      ScanMoney(c, symbol, levels, quantity, None, bars[a + 1..]);
      var t := SessionTrade(c, symbol, quantity, M5(bars));
      if t.Some? {
        UnitMoney(t.value);
      }
    }
  }

  // Over any list of sessions that each end flat, the trade lists are equal.
  lemma {:induction false} RunParity(c: Config, symbol: Symbol, quantity: int, sessions: seq<seq<Bar>>)
    requires AllEndFlat(c, symbol, quantity, sessions)
    ensures var r := PaperRun(c, symbol, quantity, sessions);
      && r.1 == BacktestTrades(c, symbol, quantity, 1.0, M5Sessions(sessions))
      && symbol !in r.0.positions
  {
    if sessions != [] {
      var n := |sessions| - 1;
      RunParity(c, symbol, quantity, sessions[..n]);
      assert M5Sessions(sessions)[..n] == M5Sessions(sessions[..n]);
      SessionParity(c, symbol, quantity, PaperRun(c, symbol, quantity, sessions[..n]).0, sessions[n]);
      assert SessionLeavesOpen(c, symbol, quantity, sessions[n]).None?;
    }
  }

  // A check on the bars alone that makes a session end flat: its last bar is late enough to
  // square off and names no side itself.
  lemma {:induction false} LateQuietEnd(c: Config, symbol: Symbol, levels: OrderLevels, quantity: int,
      held: Option<Position>, bars: seq<Bar>)
    requires bars != [] && bars[|bars| - 1].time.sec >= c.squareOffTime
    requires DetectEntry(symbol, levels, bars[|bars| - 1], quantity).None?
    ensures LeftOpen(c, symbol, levels, quantity, held, bars).None?
    decreases |bars|
  {
    if |bars| > 1 {
      if held.None? {
        LateQuietEnd(c, symbol, levels, quantity, DetectEntry(symbol, levels, bars[0], quantity), bars[1..]);
      } else {
        LateQuietEnd(c, symbol, levels, quantity, Some(Evaluate(c, held.value, bars[0]).position), bars[1..]);
      }
    }
  }

  ghost predicate Agree(c: Config, symbol: Symbol, quantity: int, sessions: seq<seq<Bar>>) {
    PaperRun(c, symbol, quantity, sessions).1 == BacktestTrades(c, symbol, quantity, 1.0, M5Sessions(sessions))
  }

  // Agreement after every prefix of the sessions, whatever session is fed next.
  ghost predicate AgreeOnward(c: Config, symbol: Symbol, quantity: int, sessions: seq<seq<Bar>>) {
    forall k: nat, next: seq<Bar> :: k <= |sessions| ==> Agree(c, symbol, quantity, sessions[..k] + [next])
  }

  // A bar at the anchor minute, then one wide enough to reach both triggers and the stop and
  // the target of `p`.
  function WideSession(c: Config, p: Position, day: int): seq<Bar> {
    var l := BuildLevels(c, p.entry);
    var low := Min(Min(p.sl, p.tp), Min(l.longEntry, l.shortEntry));
    var high := Max(Max(p.sl, p.tp), Max(l.longEntry, l.shortEntry));
    [Bar(Stamp(day, c.anchorTime), p.entry, p.entry, p.entry, p.entry),
     Bar(Stamp(day, c.anchorTime + 300), high, high, low, low)]
  }

  lemma WideBarNamesNoSide(c: Config, symbol: Symbol, quantity: int, p: Position, day: int)
    ensures var wide := WideSession(c, p, day)[1];
      && DetectEntry(symbol, BuildLevels(c, p.entry), wide, quantity).None?
      && Evaluate(c, p, wide).trade.Some? && wide.WellFormed()
  {
  }

  // The backtest has no trade on it; an engine still holding `p` closes `p` there.
  lemma WideSessionParts(c: Config, symbol: Symbol, quantity: int, s: EngineState, day: int)
    requires symbol in s.positions
    ensures var bars := WideSession(c, s.positions[symbol], day);
      && SessionTrade(c, symbol, quantity, M5(bars)).None?
      && PaperSession(c, symbol, quantity, s, bars).1.Some?
  {
    var p := s.positions[symbol];
    var bars, levels := WideSession(c, p, day), BuildLevels(c, p.entry);
    WideBarNamesNoSide(c, symbol, quantity, p, day);
    assert bars[1..] == [bars[1]] && M5(bars)[1..] == M5([bars[1]]) && M5([bars[1]])[1..] == [];
    assert M5(bars)[0].bar == bars[0] && AnchorIndex(c, M5(bars)) == 0;
    assert Scan(c, symbol, levels, quantity, None, M5([bars[1]])).None?;
    var calls := Calls(symbol, levels, quantity, [bars[1]]);
    assert calls[0] == BarCall(symbol, levels, bars[1], quantity);
    assert BarStep(c, None, s, calls[0]).1.Some?;
  }

  lemma RunNextSession(c: Config, symbol: Symbol, quantity: int, sessions: seq<seq<Bar>>, next: seq<Bar>)
    ensures var before := PaperRun(c, symbol, quantity, sessions);
      var day := PaperSession(c, symbol, quantity, before.0, next);
      && PaperRun(c, symbol, quantity, sessions + [next])
         == (day.0, before.1 + if day.1.Some? then [day.1.value] else [])
      && var trade := PricedTrade(SessionTrade(c, symbol, quantity, M5(next)), 1.0);
         BacktestTrades(c, symbol, quantity, 1.0, M5Sessions(sessions + [next]))
         == BacktestTrades(c, symbol, quantity, 1.0, M5Sessions(sessions)) + if trade.Some? then [trade.value] else []
  {
    assert (sessions + [next])[..|sessions|] == sessions;
    assert M5Sessions(sessions + [next])[..|sessions|] == M5Sessions(sessions);
  }

  // A session that leaves a position open is followed, on any day, by one that tells the two
  // apart.
  lemma OpenSessionBreaksParity(c: Config, symbol: Symbol, quantity: int, sessions: seq<seq<Bar>>,
      last: seq<Bar>, day: int)
    requires AllEndFlat(c, symbol, quantity, sessions) && SessionLeavesOpen(c, symbol, quantity, last).Some?
    ensures Agree(c, symbol, quantity, sessions + [last])
    ensures exists next: seq<Bar> :: !Agree(c, symbol, quantity, sessions + [last] + [next])
  {
    RunParity(c, symbol, quantity, sessions);
    RunNextSession(c, symbol, quantity, sessions, last);
    SessionParity(c, symbol, quantity, PaperRun(c, symbol, quantity, sessions).0, last);
    var s := PaperRun(c, symbol, quantity, sessions + [last]).0;
    var next := WideSession(c, s.positions[symbol], day);
    WideSessionParts(c, symbol, quantity, s, day);
    RunNextSession(c, symbol, quantity, sessions + [last], next);
  }

  // An anchor bar and then a bar that names a side leave a position open.
  lemma TwoBarsLeaveOpen(c: Config, symbol: Symbol, quantity: int, a: Bar, b: Bar)
    requires AtAnchorMinute(c, a) && DetectEntry(symbol, BuildLevels(c, a.open), b, quantity).Some?
    ensures SessionLeavesOpen(c, symbol, quantity, [a, b]) == DetectEntry(symbol, BuildLevels(c, a.open), b, quantity)
  {
    var bars, levels := [a, b], BuildLevels(c, a.open);
    assert M5(bars)[0].bar == a && AnchorIndex(c, M5(bars)) == 0;
    assert bars[1..] == [b] && [b][1..] == [];
    assert LeftOpen(c, symbol, levels, quantity, DetectEntry(symbol, levels, b, quantity), [])
        == DetectEntry(symbol, levels, b, quantity);
  }

  // A bar flat just above both triggers, which names the long side.
  function OpenSession(c: Config, open: int, day: int): seq<Bar> {
    var l := BuildLevels(c, open);
    var price := Max(l.longEntry, l.shortEntry) + 1;
    [Bar(Stamp(day, c.anchorTime), open, open, open, open),
     Bar(Stamp(day, c.anchorTime + 300), price, price, price, price)]
  }

  // So no configuration keeps parity over all sessions.
  lemma EveryConfigBreaksParity(c: Config, symbol: Symbol, quantity: int, open: int, day: int)
    ensures SessionLeavesOpen(c, symbol, quantity, OpenSession(c, open, day)).Some?
    ensures exists next: seq<Bar> :: !Agree(c, symbol, quantity, [OpenSession(c, open, day), next])
  {
    var first := OpenSession(c, open, day);
    TwoBarsLeaveOpen(c, symbol, quantity, first[0], first[1]);
    assert first == [first[0], first[1]];
    OpenSessionBreaksParity(c, symbol, quantity, [], first, day + 1);
    var next :| !Agree(c, symbol, quantity, [] + [first] + [next]);
    assert [] + [first] + [next] == [first, next];
  }

  lemma FirstOpenSession(c: Config, symbol: Symbol, quantity: int, sessions: seq<seq<Bar>>) returns (k: nat)
    requires !AllEndFlat(c, symbol, quantity, sessions)
    ensures k < |sessions| && AllEndFlat(c, symbol, quantity, sessions[..k])
    ensures SessionLeavesOpen(c, symbol, quantity, sessions[k]).Some?
  {
    k := 0;
    while SessionLeavesOpen(c, symbol, quantity, sessions[k]).None?
      invariant k < |sessions|
      invariant forall i :: 0 <= i < k ==> SessionLeavesOpen(c, symbol, quantity, sessions[i]).None?
      decreases |sessions| - k
    {
      k := k + 1;
    }
  }

  // The whole condition: parity survives whatever session comes next, after each of these,
  // exactly when these all end flat.
  lemma ParityIffSessionsEndFlat(c: Config, symbol: Symbol, quantity: int, sessions: seq<seq<Bar>>)
    ensures AllEndFlat(c, symbol, quantity, sessions) <==> AgreeOnward(c, symbol, quantity, sessions)
  {
    if AllEndFlat(c, symbol, quantity, sessions) {
      forall k: nat, next: seq<Bar> | k <= |sessions| ensures Agree(c, symbol, quantity, sessions[..k] + [next]) {
        RunParity(c, symbol, quantity, sessions[..k]);
        RunNextSession(c, symbol, quantity, sessions[..k], next);
        SessionParity(c, symbol, quantity, PaperRun(c, symbol, quantity, sessions[..k]).0, next);
      }
    } else {
      var k := FirstOpenSession(c, symbol, quantity, sessions);
      OpenSessionBreaksParity(c, symbol, quantity, sessions[..k], sessions[k], 0);
      assert sessions[..k] + [sessions[k]] == sessions[..k + 1];
    }
  }
}
