// Replaying the one-minute bars inside each five-minute bar, against judging the
// five-minute bar alone: the coarse run is the pessimistic one.
module BarResolution {
  import opened Wrappers
  import opened StrategyRunner
  import opened Ratchet
  import opened TradeOutcome

  // A coarse bar and the fine bars that make it up.
  datatype Window = Window(bar: Bar, parts: seq<Bar>)

  ghost predicate Partitions(w: Window) {
    && |w.parts| > 0 && w.bar.WellFormed() && AllWellFormed(w.parts)
    && (forall i :: 0 <= i < |w.parts| ==> w.bar.low <= w.parts[i].low && w.parts[i].high <= w.bar.high)
    && (exists i :: 0 <= i < |w.parts| && w.parts[i].low == w.bar.low)
    && (exists i :: 0 <= i < |w.parts| && w.parts[i].high == w.bar.high)
    && w.parts[|w.parts| - 1].close == w.bar.close
  }

  ghost predicate AllPartition(ws: seq<Window>) {
    forall i :: 0 <= i < |ws| ==> Partitions(ws[i])
  }

  function Bars(ws: seq<Window>): (bars: seq<Bar>)
    ensures |bars| == |ws|
  {
    seq(|ws|, i requires 0 <= i < |ws| => ws[i].bar)
  }

  function Parts(ws: seq<Window>): seq<Bar> {
    if ws == [] then [] else Parts(ws[..|ws| - 1]) + ws[|ws| - 1].parts
  }

  // The position after the first `n` windows, judged coarsely and finely.
  function Coarse(c: Config, p: Position, ws: seq<Window>, n: nat): Outcome
    requires n <= |ws|
  {
    Replay(c, p, Bars(ws[..n]))
  }

  function Fine(c: Config, p: Position, ws: seq<Window>, n: nat): Outcome
    requires n <= |ws|
  {
    Replay(c, p, Parts(ws[..n]))
  }

  lemma {:induction false} RatchetOnward(c: Config, p: Position, best: int, closes: seq<int>)
    requires p.Fresh() && best >= 0
    ensures TrailOver(c, Ratcheted(c, p, best), closes) == Ratcheted(c, p, Max(best, BestGain(p, closes)))
  {
    if closes != [] {
      var front := closes[..|closes| - 1];
      RatchetOnward(c, p, best, front);
      TrailStep(c, p, Max(best, BestGain(p, front)), closes[|closes| - 1]);
    }
  }

  lemma WindowPosition(c: Config, p: Position, best: int, bars: seq<Bar>, k: nat)
    requires p.Fresh() && p.Gain(p.sl) <= 0 && best >= 0 && k <= |bars|
    ensures var q := PositionAt(c, Ratcheted(c, p, best), bars, k);
      q == Ratcheted(c, p, Max(best, BestGain(p, Closes(bars[..k]))))
      && AtLeastAsTight(p, q.sl, Ratcheted(c, p, best).sl)
  {
    RatchetOnward(c, p, best, Closes(bars[..k]));
    TighterAtBetterBest(c, p, best, Max(best, BestGain(p, Closes(bars[..k]))));
  }

  lemma HittingPart(q: Position, w: Window) returns (i: nat)
    requires Partitions(w) && (StopHit(q, w.bar) || TargetHit(q, w.bar))
    ensures i < |w.parts| && (StopHit(q, w.parts[i]) || TargetHit(q, w.parts[i]))
  {
    var low :| 0 <= low < |w.parts| && w.parts[low].low == w.bar.low;
    var high :| 0 <= high < |w.parts| && w.parts[high].high == w.bar.high;
    i := if StopHit(q, w.bar) == q.side.Long? then low else high;
  }

  // A coarse bar that reaches a stop or target has a part that reaches it too, under any
  // stop that is at least as tight.
  lemma PartReaches(c: Config, p: Position, coarse: int, fine: int, w: Window)
    requires p.Fresh() && p.Gain(p.sl) <= 0 && 0 <= coarse <= fine && Partitions(w)
    requires StopHit(Ratcheted(c, p, coarse), w.bar) || TargetHit(Ratcheted(c, p, coarse), w.bar)
    ensures Replay(c, Ratcheted(c, p, fine), w.parts).trade.Some?
  {
    var q := Ratcheted(c, p, fine);
    var i := HittingPart(Ratcheted(c, p, coarse), w);
    ReplayExplained(c, q, w.parts);
    WindowPosition(c, p, fine, w.parts, i);
    TighterAtBetterBest(c, p, coarse, fine);
    assert ExitOn(c, PositionAt(c, q, w.parts, i), w.parts[i]).Some?;
  }

  // An exit pays no less than the stop or the target, whichever is judged first.
  lemma ExitPaysStopOrTarget(c: Config, p: Position, bar: Bar)
    requires bar.WellFormed()
    ensures ExitOn(c, p, bar).Some? ==> ExitOn(c, p, bar).value.points >= Min(p.Gain(p.sl), p.Gain(p.tp))
  {
  }

  // Leaving at a stop coarsely is never better than where the parts leave.
  lemma PartNoWorse(c: Config, p: Position, coarse: int, fine: int, w: Window)
    requires p.Fresh() && p.Gain(p.sl) <= 0 && 0 <= coarse <= fine && Partitions(w)
    requires StopShortOfTarget(Ratcheted(c, p, coarse))
    ensures var o := Replay(c, Ratcheted(c, p, fine), w.parts);
      o.trade.Some? ==> o.trade.value.points >= p.Gain(Ratcheted(c, p, coarse).sl)
  {
    var q := Ratcheted(c, p, fine);
    var o := Replay(c, q, w.parts);
    ReplayExplained(c, q, w.parts);
    if o.trade.Some? {
      var k :| ExitsAt(c, q, w.parts, k, o);
      WindowPosition(c, p, fine, w.parts, k);
      TighterAtBetterBest(c, p, coarse, fine);
      ExitPaysStopOrTarget(c, o.position, w.parts[k]);
    }
  }

  lemma ClosesConcat(a: seq<Bar>, b: seq<Bar>)
    ensures Closes(a + b) == Closes(a) + Closes(b)
  {
  }

  lemma {:induction false} PartsContain(ws: seq<Window>, i: nat)
    requires i < |ws| && AllPartition(ws)
    ensures ws[i].bar.close in Closes(Parts(ws))
  {
    var n := |ws| - 1;
    ClosesConcat(Parts(ws[..n]), ws[n].parts);
    if i < n {
      PartsContain(ws[..n], i);
    } else {
      assert Partitions(ws[n]);
      assert Closes(ws[n].parts)[|ws[n].parts| - 1] == ws[n].bar.close;
    }
  }

  lemma FineBestIsBetter(p: Position, ws: seq<Window>)
    requires AllPartition(ws)
    ensures 0 <= BestGain(p, Closes(Bars(ws))) <= BestGain(p, Closes(Parts(ws)))
  {
    var closes := Closes(Bars(ws));
    BestGainIsBest(p, closes);
    BestGainIsBest(p, Closes(Parts(ws)));
    if BestGain(p, closes) > 0 {
      var i :| 0 <= i < |closes| && p.Gain(closes[i]) == BestGain(p, closes);
      PartsContain(ws, i);
    }
  }

  // Both runs still open: each is the closed form of its own closes.
  lemma OpenPositions(c: Config, p: Position, ws: seq<Window>, n: nat)
    requires p.Fresh() && n <= |ws| && AllPartition(ws)
    ensures Coarse(c, p, ws, n).trade.None? ==>
              Coarse(c, p, ws, n).position == Ratcheted(c, p, BestGain(p, Closes(Bars(ws[..n]))))
    ensures Fine(c, p, ws, n).trade.None? ==>
              Fine(c, p, ws, n).position == Ratcheted(c, p, BestGain(p, Closes(Parts(ws[..n]))))
  {
    OpenIsRatcheted(c, p, Bars(ws[..n]));
    OpenIsRatcheted(c, p, Parts(ws[..n]));
  }

  lemma NextWindow(c: Config, p: Position, ws: seq<Window>, n: nat)
    requires n < |ws|
    ensures Coarse(c, p, ws, n).trade.None? ==>
              Coarse(c, p, ws, n + 1) == Evaluate(c, Coarse(c, p, ws, n).position, ws[n].bar)
    ensures Coarse(c, p, ws, n).trade.Some? ==> Coarse(c, p, ws, n + 1) == Coarse(c, p, ws, n)
    ensures Fine(c, p, ws, n).trade.None? ==>
              Fine(c, p, ws, n + 1) == Replay(c, Fine(c, p, ws, n).position, ws[n].parts)
    ensures Fine(c, p, ws, n).trade.Some? ==> Fine(c, p, ws, n + 1) == Fine(c, p, ws, n)
  {
    assert ws[..n + 1][..n] == ws[..n];
    assert Bars(ws[..n + 1]) == Bars(ws[..n]) + [ws[n].bar];
    ReplayLast(c, p, Bars(ws[..n]), ws[n].bar);
    ReplayConcat(c, p, Parts(ws[..n]), ws[n].parts);
  }

  ghost predicate AtStopOrTarget(o: Outcome) {
    o.trade.Some? && !o.trade.value.reason.SquareOff?
  }

  // Window by window: while both are open the fine stop is at least as tight; a window that
  // closes the coarse run at a stop or target leaves the fine run closed; and if that was a
  // stop and the fine run entered the window open, the fine run did no worse.
  lemma FineDominatesWindow(c: Config, p: Position, ws: seq<Window>, n: nat)
    requires p.Fresh() && p.Gain(p.sl) <= 0 && StopShortOfTarget(p)
    requires AllPartition(ws) && n < |ws|
    requires Coarse(c, p, ws, n).trade.None? && Fine(c, p, ws, n).trade.None?
    ensures var coarse, fine := Coarse(c, p, ws, n), Fine(c, p, ws, n);
      && coarse.position.lockIdx <= fine.position.lockIdx
      && AtLeastAsTight(p, fine.position.sl, coarse.position.sl)
    ensures var coarse, fine := Coarse(c, p, ws, n + 1), Fine(c, p, ws, n + 1);
      AtStopOrTarget(coarse) ==>
        && fine.trade.Some?
        && (!coarse.trade.value.reason.TakeProfit? ==> fine.trade.value.points >= coarse.trade.value.points)
  {
    var b5, b1 := BestGain(p, Closes(Bars(ws[..n]))), BestGain(p, Closes(Parts(ws[..n])));
    FineBestIsBetter(p, ws[..n]);
    OpenPositions(c, p, ws, n);
    LockIndexMonotone(c, b5, b1);
    TighterAtBetterBest(c, p, b5, b1);
    NextWindow(c, p, ws, n);
    assert AllWellFormed(Bars(ws[..n]));
    OutcomeBound(c, p, Bars(ws[..n]));
    if AtStopOrTarget(Coarse(c, p, ws, n + 1)) {
      PartReaches(c, p, b5, b1, ws[n]);
      PartNoWorse(c, p, b5, b1, ws[n]);
    }
  }

  // The last part is no earlier than its bar, as where both carry the time they end at.
  ghost predicate EndsInTime(w: Window) {
    |w.parts| > 0 && w.bar.time.sec <= w.parts[|w.parts| - 1].time.sec
  }

  ghost predicate AllEndInTime(ws: seq<Window>) {
    forall i :: 0 <= i < |ws| ==> EndsInTime(ws[i])
  }

  // A part late enough to square off leaves nothing open.
  lemma PartSquaresOff(c: Config, q: Position, w: Window)
    requires EndsInTime(w) && w.bar.time.sec >= c.squareOffTime
    ensures Replay(c, q, w.parts).trade.Some?
  {
    ReplayExplained(c, q, w.parts);
    var n := |w.parts| - 1;
    assert ExitOn(c, PositionAt(c, q, w.parts, n), w.parts[n]).Some?;
  }

  // The bar that closes the coarse run closes the fine one too.
  lemma FineExitsInWindow(c: Config, p: Position, ws: seq<Window>, n: nat)
    requires p.Fresh() && p.Gain(p.sl) <= 0 && AllPartition(ws) && n < |ws|
    requires Coarse(c, p, ws, n).trade.None? && Fine(c, p, ws, n).trade.None?
    requires AtStopOrTarget(Coarse(c, p, ws, n + 1)) || (Coarse(c, p, ws, n + 1).trade.Some? && EndsInTime(ws[n]))
    ensures Fine(c, p, ws, n + 1).trade.Some?
  {
    FineBestIsBetter(p, ws[..n]);
    OpenPositions(c, p, ws, n);
    NextWindow(c, p, ws, n);
    var q := Coarse(c, p, ws, n).position;
    if StopHit(q, ws[n].bar) || TargetHit(q, ws[n].bar) {
      PartReaches(c, p, BestGain(p, Closes(Bars(ws[..n]))), BestGain(p, Closes(Parts(ws[..n]))), ws[n]);
    } else {
      PartSquaresOff(c, Fine(c, p, ws, n).position, ws[n]);
    }
  }

  // Over a whole run, whichever of stop and target is judged first: if the coarse run has
  // closed at one of them, the fine run has closed; and where parts end with their bars, if
  // the coarse run has closed at all.
  lemma {:induction false} FineExitsFirst(c: Config, p: Position, ws: seq<Window>, n: nat)
    requires p.Fresh() && p.Gain(p.sl) <= 0 && AllPartition(ws) && n <= |ws|
    ensures AtStopOrTarget(Coarse(c, p, ws, n)) ==> Fine(c, p, ws, n).trade.Some?
    ensures AllEndInTime(ws) && Coarse(c, p, ws, n).trade.Some? ==> Fine(c, p, ws, n).trade.Some?
  {
    if n > 0 {
      FineExitsFirst(c, p, ws, n - 1);
      NextWindow(c, p, ws, n - 1);
      var coarse := Coarse(c, p, ws, n);
      if Coarse(c, p, ws, n - 1).trade.None? && Fine(c, p, ws, n - 1).trade.None? {
        if AtStopOrTarget(coarse) || (coarse.trade.Some? && AllEndInTime(ws)) {
          FineExitsInWindow(c, p, ws, n - 1);
        }
      }
    }
  }
}
