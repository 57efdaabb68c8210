// Negating every price (and so swapping highs with lows) turns longs into shorts and
// changes nothing else: not the points, the reason, the lock or the bar of the exit.
module Mirror {
  import opened Wrappers
  import opened Levels
  import opened StrategyRunner
  import opened BarResolution
  import opened BacktestEngine

  function MirrorLevels(l: OrderLevels): OrderLevels {
    OrderLevels(-l.anchor, -l.shortEntry, -l.shortSl, -l.shortTp, -l.longEntry, -l.longSl, -l.longTp)
  }

  function MirrorSide(side: Side): Side {
    if side.Long? then Short else Long
  }

  function MirrorBar(b: Bar): Bar {
    Bar(b.time, -b.open, -b.low, -b.high, -b.close)
  }

  function MirrorBars(bars: seq<Bar>): (mirrored: seq<Bar>)
    ensures |mirrored| == |bars|
  {
    seq(|bars|, i requires 0 <= i < |bars| => MirrorBar(bars[i]))
  }

  function MirrorWindows(ws: seq<Window>): (mirrored: seq<Window>)
    ensures |mirrored| == |ws|
  {
    seq(|ws|, i requires 0 <= i < |ws| => Window(MirrorBar(ws[i].bar), MirrorBars(ws[i].parts)))
  }

  function MirrorPosition(p: Position): Position {
    p.(side := MirrorSide(p.side), entry := -p.entry, tp := -p.tp, sl := -p.sl)
  }

  function MirrorHeld(p: Option<Position>): Option<Position> {
    if p.Some? then Some(MirrorPosition(p.value)) else None
  }

  // Points, money, reason, lock and times are kept.
  function MirrorTrade(t: Option<Trade>): Option<Trade> {
    if t.None? then None
    else Some(t.value.(side := MirrorSide(t.value.side), entry := -t.value.entry, exit := -t.value.exit))
  }

  lemma LevelsMirror(c: Config, anchor: int)
    ensures BuildLevels(c, -anchor) == MirrorLevels(BuildLevels(c, anchor))
  {
    var l := BuildLevels(c, anchor);
    RoundToTickOdd(anchor, c.tickSize);
    RoundToTickOdd(anchor + c.triggerDist, c.tickSize);
    RoundToTickOdd(anchor - c.triggerDist, c.tickSize);
    RoundToTickOdd(l.longEntry - c.slDist, c.tickSize);
    RoundToTickOdd(l.longEntry + c.tpDist, c.tickSize);
    RoundToTickOdd(l.shortEntry + c.slDist, c.tickSize);
    RoundToTickOdd(l.shortEntry - c.tpDist, c.tickSize);
  }

  lemma EvaluateMirror(c: Config, p: Position, bar: Bar)
    ensures var o, m := Evaluate(c, p, bar), Evaluate(c, MirrorPosition(p), MirrorBar(bar));
      m == Outcome(MirrorPosition(o.position), MirrorTrade(o.trade))
  {
  }

  lemma {:induction false} ReplayMirror(c: Config, p: Position, bars: seq<Bar>)
    ensures var o, m := Replay(c, p, bars), Replay(c, MirrorPosition(p), MirrorBars(bars));
      m == Outcome(MirrorPosition(o.position), MirrorTrade(o.trade))
    decreases |bars|
  {
    if bars != [] {
      EvaluateMirror(c, p, bars[0]);
      assert MirrorBars(bars)[1..] == MirrorBars(bars[1..]);
      ReplayMirror(c, Evaluate(c, p, bars[0]).position, bars[1..]);
    }
  }

  lemma {:induction false} ScanMirror(c: Config, symbol: Symbol, levels: OrderLevels, quantity: int,
      held: Option<Position>, ws: seq<Window>)
    ensures Scan(c, symbol, MirrorLevels(levels), quantity, MirrorHeld(held), MirrorWindows(ws))
            == MirrorTrade(Scan(c, symbol, levels, quantity, held, ws))
    decreases |ws|
  {
    if ws != [] {
      assert MirrorWindows(ws)[1..] == MirrorWindows(ws[1..]);
      if held.None? {
        ScanMirror(c, symbol, levels, quantity, DetectEntry(symbol, levels, ws[0].bar, quantity), ws[1..]);
      } else {
        ReplayMirror(c, held.value, ws[0].parts);
        ScanMirror(c, symbol, levels, quantity, Some(Replay(c, held.value, ws[0].parts).position), ws[1..]);
      }
    }
  }

  lemma {:induction false} AnchorMirror(c: Config, ws: seq<Window>)
    ensures AnchorIndex(c, MirrorWindows(ws)) == AnchorIndex(c, ws)
  {
    if ws != [] {
      assert MirrorWindows(ws)[1..] == MirrorWindows(ws[1..]);
      AnchorMirror(c, ws[1..]);
    }
  }

  // A whole session, anchor bar, entry, trail and exit, with or without one-minute bars.
  lemma SessionMirror(c: Config, symbol: Symbol, quantity: int, ws: seq<Window>)
    ensures SessionTrade(c, symbol, quantity, MirrorWindows(ws)) == MirrorTrade(SessionTrade(c, symbol, quantity, ws))
  {
    AnchorMirror(c, ws);
    var a := AnchorIndex(c, ws);
    if a < |ws| {
      LevelsMirror(c, ws[a].bar.open);
      assert MirrorWindows(ws)[a + 1..] == MirrorWindows(ws[a + 1..]);
      ScanMirror(c, symbol, BuildLevels(c, ws[a].bar.open), quantity, None, ws[a + 1..]);
    }
  }
}
