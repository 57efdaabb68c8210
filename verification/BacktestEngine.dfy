// backtest/backtest_engine.py: at most one trade per session, from the first bar after the
// anchor bar that names a side. A window pairs a five-minute bar with the bars the exit
// rules are replayed over: the bar itself, or its one-minute bars.
module BacktestEngine {
  import opened Wrappers
  import Rounding
  import Levels
  import opened StrategyRunner
  import opened BarResolution
  import TradeOutcome

  // One day's bars, and the one-minute bars inside each when they were supplied.
  datatype Session = Session(bars: seq<Bar>, m1: Option<seq<seq<Bar>>>) {
    predicate Aligned() { m1.Some? ==> |m1.value| == |bars| }
  }

  function Windows(s: Session): (ws: seq<Window>)
    requires s.Aligned()
    ensures |ws| == |s.bars|
  {
    seq(|s.bars|, i requires 0 <= i < |s.bars| =>
      Window(s.bars[i], if s.m1.Some? then s.m1.value[i] else [s.bars[i]]))
  }

  predicate AtAnchorMinute(c: Config, bar: Bar) {
    bar.time.sec / 60 == c.anchorTime / 60
  }

  // The index of the first bar at the anchor minute, or the length if there is none.
  function AnchorIndex(c: Config, ws: seq<Window>): (i: nat)
    ensures i <= |ws|
  {
    if ws == [] then 0
    else if AtAnchorMinute(c, ws[0].bar) then 0
    else 1 + AnchorIndex(c, ws[1..])
  }

  // What the bars `ws` do to a flat book (`held` is None) or to an open position.
  function Scan(c: Config, symbol: Symbol, levels: Levels.OrderLevels, quantity: int, held: Option<Position>,
      ws: seq<Window>): Option<Trade>
    decreases |ws|
  {
    if ws == [] then None
    else if held.None? then Scan(c, symbol, levels, quantity, DetectEntry(symbol, levels, ws[0].bar, quantity), ws[1..])
    else
      var o := Replay(c, held.value, ws[0].parts);
      if o.trade.Some? then o.trade else Scan(c, symbol, levels, quantity, Some(o.position), ws[1..])
  }

  // One bar of the scan, at index `i` of the session.
  lemma ScanFrom(c: Config, symbol: Symbol, levels: Levels.OrderLevels, quantity: int, held: Option<Position>,
      s: Session, i: nat)
    requires s.Aligned() && i < |s.bars|
    ensures var ws := Windows(s);
      Scan(c, symbol, levels, quantity, held, ws[i..])
      == if held.None? then Scan(c, symbol, levels, quantity, DetectEntry(symbol, levels, s.bars[i], quantity),
                                 ws[i + 1..])
         else
           var o := if s.m1.Some? then Replay(c, held.value, s.m1.value[i]) else Evaluate(c, held.value, s.bars[i]);
           if o.trade.Some? then o.trade else Scan(c, symbol, levels, quantity, Some(o.position), ws[i + 1..])
  {
    var ws := Windows(s);
    assert ws[i..][1..] == ws[i + 1..];
    if held.Some? && s.m1.None? {
      TradeOutcome.ReplayOne(c, held.value, s.bars[i]);
    }
  }

  function SessionTrade(c: Config, symbol: Symbol, quantity: int, ws: seq<Window>): Option<Trade> {
    var a := AnchorIndex(c, ws);
    if a == |ws| then None
    else Scan(c, symbol, BuildLevels(c, ws[a].bar.open), quantity, None, ws[a + 1..])
  }

  // What the trade earned, before rounding to the paisa.
  function Earned(t: Trade, moneyPerPoint: real): real {
    t.points as real * t.quantity as real * moneyPerPoint
  }

  function ApplyMoney(t: Trade, moneyPerPoint: real): Trade {
    t.(money := Rounding.Round(Earned(t, moneyPerPoint)))
  }

  function PricedTrade(t: Option<Trade>, moneyPerPoint: real): Option<Trade> {
    if t.Some? then Some(ApplyMoney(t.value, moneyPerPoint)) else None
  }

  function BacktestTrades(c: Config, symbol: Symbol, quantity: int, moneyPerPoint: real, sessions: seq<Session>)
      : seq<Trade>
    requires forall i :: 0 <= i < |sessions| ==> sessions[i].Aligned()
  {
    if sessions == [] then []
    else
      var n := |sessions| - 1;
      var t := PricedTrade(SessionTrade(c, symbol, quantity, Windows(sessions[n])), moneyPerPoint);
      BacktestTrades(c, symbol, quantity, moneyPerPoint, sessions[..n]) + if t.Some? then [t.value] else []
  }

  // The money per point scales every trade's money, rounded half to even, and nothing else.
  lemma {:induction false} TradesPriced(c: Config, symbol: Symbol, quantity: int, moneyPerPoint: real,
      sessions: seq<Session>)
    requires forall i :: 0 <= i < |sessions| ==> sessions[i].Aligned()
    ensures var t, unit := BacktestTrades(c, symbol, quantity, moneyPerPoint, sessions),
                           BacktestTrades(c, symbol, quantity, 1.0, sessions);
      && |t| == |unit|
      && forall i :: 0 <= i < |t| ==> PricedFrom(t[i], unit[i], moneyPerPoint)
  {
    if sessions != [] {
      var n := |sessions| - 1;
      var trade := SessionTrade(c, symbol, quantity, Windows(sessions[n]));
      TradesPriced(c, symbol, quantity, moneyPerPoint, sessions[..n]);
      if trade.Some? {
        PricedApart(trade.value, moneyPerPoint);
      }
    }
  }

  ghost predicate PricedFrom(t: Trade, unit: Trade, moneyPerPoint: real) {
    && t == unit.(money := t.money)
    && Rounding.IsHalfEven(t.points as real * t.quantity as real * moneyPerPoint, t.money)
  }

  lemma PricedApart(t: Trade, moneyPerPoint: real)
    ensures PricedFrom(ApplyMoney(t, moneyPerPoint), ApplyMoney(t, 1.0), moneyPerPoint)
  {
    Rounding.RoundIsHalfEven(Earned(t, moneyPerPoint), ApplyMoney(t, moneyPerPoint).money);
  }

  function HeldView(position: StrategyPosition?): Option<Position>
    reads position
  {
    if position == null then None else Some(position.View())
  }

  class Engine {
    const config: Config
    const runner: Runner

    constructor (config: Config)
      ensures this.config == config && runner.config == config
    {
      this.config := config;
      runner := new Runner(config);
    }

    method FindAnchor(session: Session) returns (a: nat)
      requires session.Aligned()
      ensures a == AnchorIndex(config, Windows(session))
    {
      ghost var ws := Windows(session);
      a := 0;
      while a < |session.bars| && !AtAnchorMinute(config, session.bars[a])
        invariant a <= |session.bars|
        invariant AnchorIndex(config, ws) == a + AnchorIndex(config, ws[a..])
      {
        assert ws[a..][1..] == ws[a + 1..];
        a := a + 1;
      }
    }

    method RunSession(symbol: Symbol, session: Session, quantity: int, moneyPerPoint: real)
      returns (result: Option<Trade>)
      requires runner.config == config && session.Aligned()
      ensures result == PricedTrade(SessionTrade(config, symbol, quantity, Windows(session)), moneyPerPoint)
    {
      var a := FindAnchor(session);
      if a == |session.bars| {
        return None;
      }
      var levels := BuildLevels(config, session.bars[a].open);
      var trade := ScanBars(symbol, levels, session, a + 1, quantity);
      if trade.Some? {
        return Some(ApplyMoney(trade.value, moneyPerPoint));
      }
      result := None;
    }

    // The bar loop of the session, from index `start` on.
    method ScanBars(symbol: Symbol, levels: Levels.OrderLevels, session: Session, start: nat, quantity: int)
      returns (result: Option<Trade>)
      requires runner.config == config && session.Aligned() && start <= |session.bars|
      ensures result == Scan(config, symbol, levels, quantity, None, Windows(session)[start..])
    {
      ghost var ws := Windows(session);
      var position: StrategyPosition? := null;
      for i := start to |session.bars|
        invariant position != null ==> fresh(position)
        invariant Scan(config, symbol, levels, quantity, None, ws[start..])
               == Scan(config, symbol, levels, quantity, HeldView(position), ws[i..])
      {
        ScanFrom(config, symbol, levels, quantity, HeldView(position), session, i);
        if position == null {
          var entered := DetectEntry(symbol, levels, session.bars[i], quantity);
          if entered.Some? {
            position := new StrategyPosition(entered.value);
          }
        } else {
          if session.m1.Some? {
            result := runner.ReplayIntraBar(position, session.m1.value[i]);
          } else {
            result := runner.EvaluateExit(position, session.bars[i]);
          }
          if result.Some? {
            return;
          }
        }
      }
      result := None;
    }

    method Run(symbol: Symbol, sessions: seq<Session>, quantity: int, moneyPerPoint: real) returns (trades: seq<Trade>)
      requires runner.config == config && forall i :: 0 <= i < |sessions| ==> sessions[i].Aligned()
      ensures trades == BacktestTrades(config, symbol, quantity, moneyPerPoint, sessions)
    {
      trades := [];
      for i := 0 to |sessions|
        invariant trades == BacktestTrades(config, symbol, quantity, moneyPerPoint, sessions[..i])
      {
        assert sessions[..i + 1][..i] == sessions[..i];
        var trade := RunSession(symbol, sessions[i], quantity, moneyPerPoint);
        if trade.Some? {
          trades := trades + [trade.value];
        }
      }
      assert sessions[..|sessions|] == sessions;
    }
  }
}
