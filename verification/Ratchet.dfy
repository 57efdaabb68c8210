// The trailing stop over any sequence of closes, against a closed form that never
// mentions the order the closes came in.
module Ratchet {
  import opened Wrappers
  import opened Arithmetic
  import opened StrategyRunner

  function TrailOver(c: Config, p: Position, closes: seq<int>): Position {
    if closes == [] then p
    else TrailFromClose(c, TrailOver(c, p, closes[..|closes| - 1]), closes[|closes| - 1])
  }

  // The best gain any of the closes offered, and 0 if none offered one.
  function BestGain(p: Position, closes: seq<int>): int {
    if closes == [] then 0
    else Max(BestGain(p, closes[..|closes| - 1]), p.Gain(closes[|closes| - 1]))
  }

  function LockIndex(c: Config, best: int): int {
    Max(-1, Min(best / c.lockStep, c.lockStepsCount) - 1)
  }

  // What a position that started as `p` must look like once `best` is its best gain.
  function Ratcheted(c: Config, p: Position, best: int): Position {
    var idx := LockIndex(c, best);
    p.(maxFavorable := if best < c.lockStep then 0 else best,
       lockIdx := idx,
       sl := if idx < 0 then p.sl else LockedStop(c, p, idx))
  }

  // On one side a stop is tighter when it gives up less.
  predicate AtLeastAsTight(p: Position, stop: int, than: int) {
    p.Gain(stop) >= p.Gain(than)
  }

  lemma {:induction false} BestGainIsBest(p: Position, closes: seq<int>)
    ensures 0 <= BestGain(p, closes)
    ensures forall i :: 0 <= i < |closes| ==> p.Gain(closes[i]) <= BestGain(p, closes)
    ensures BestGain(p, closes) == 0 || exists i :: 0 <= i < |closes| && p.Gain(closes[i]) == BestGain(p, closes)
  {
    if closes != [] {
      var n := |closes| - 1;
      BestGainIsBest(p, closes[..n]);
      assert forall i :: 0 <= i < n ==> closes[..n][i] == closes[i];
    }
  }

  lemma LockIndexMonotone(c: Config, a: int, b: int)
    requires 0 <= a <= b
    ensures LockIndex(c, a) <= LockIndex(c, b)
  {
    QuotientMonotone(a, b, c.lockStep);
  }

  // One more close moves the closed form from the old best to the new one.
  lemma TrailStep(c: Config, p: Position, best: int, close: int)
    requires p.Fresh() && best >= 0
    ensures TrailFromClose(c, Ratcheted(c, p, best), close) == Ratcheted(c, p, Max(best, p.Gain(close)))
  {
    var next := Max(best, p.Gain(close));
    LockIndexMonotone(c, best, next);
    if p.Gain(close) < c.lockStep {
      if best < c.lockStep {
        assert best / c.lockStep == 0 && next / c.lockStep == 0;
      }
    } else {
      QuotientMonotone(c.lockStep, next, c.lockStep);
      assert c.lockStep / c.lockStep == 1;
    }
  }

  // After any closes: lock_idx is how many whole steps the best close bought, capped, less one;
  // the stop is the initial one or exactly that many steps past the entry.
  lemma {:induction false} RatchetClosedForm(c: Config, p: Position, closes: seq<int>)
    requires p.Fresh()
    ensures TrailOver(c, p, closes) == Ratcheted(c, p, BestGain(p, closes))
  {
    if closes == [] {
      assert 0 / c.lockStep == 0;
    } else {
      var n := |closes| - 1;
      RatchetClosedForm(c, p, closes[..n]);
      BestGainIsBest(p, closes[..n]);
      TrailStep(c, p, BestGain(p, closes[..n]), closes[n]);
    }
  }

  lemma BestGainGrows(p: Position, closes: seq<int>, i: nat)
    requires i <= |closes|
    ensures BestGain(p, closes[..i]) <= BestGain(p, closes)
  {
    BestGainIsBest(p, closes[..i]);
    BestGainIsBest(p, closes);
    if BestGain(p, closes[..i]) > 0 {
      var k :| 0 <= k < i && p.Gain(closes[..i][k]) == BestGain(p, closes[..i]);
      assert closes[k] == closes[..i][k];
    }
  }

  lemma LockedGain(c: Config, p: Position, idx: int)
    ensures p.Gain(LockedStop(c, p, idx)) == c.lockStep * idx
  {
  }

  lemma TighterAtBetterBest(c: Config, p: Position, a: int, b: int)
    requires 0 <= a <= b && p.Gain(p.sl) <= 0
    ensures AtLeastAsTight(p, Ratcheted(c, p, b).sl, Ratcheted(c, p, a).sl)
  {
    var i, j := LockIndex(c, a), LockIndex(c, b);
    LockIndexMonotone(c, a, b);
    LockedGain(c, p, i);
    LockedGain(c, p, j);
    if i >= 0 {
      ProductMonotone(c.lockStep, i, j);
    } else if j >= 0 {
      ProductMonotone(c.lockStep, 0, j);
    }
  }

  // The stop never loosens on any closes, exactly when the initial stop is not already
  // past the entry (or trailing is switched off by a step count below one).
  lemma NeverLoosensIff(c: Config, p: Position)
    requires p.Fresh()
    ensures (forall closes: seq<int>, i: nat | i <= |closes| ::
               AtLeastAsTight(p, TrailOver(c, p, closes).sl, TrailOver(c, p, closes[..i]).sl))
            <==> p.Gain(p.sl) <= 0 || c.lockStepsCount < 1
  {
    if p.Gain(p.sl) <= 0 || c.lockStepsCount < 1 {
      forall closes: seq<int>, i: nat | i <= |closes|
        ensures AtLeastAsTight(p, TrailOver(c, p, closes).sl, TrailOver(c, p, closes[..i]).sl)
      {
        RatchetClosedForm(c, p, closes);
        RatchetClosedForm(c, p, closes[..i]);
        BestGainIsBest(p, closes[..i]);
        BestGainGrows(p, closes, i);
        if c.lockStepsCount >= 1 {
          TighterAtBetterBest(c, p, BestGain(p, closes[..i]), BestGain(p, closes));
        }
      }
    } else {
      var close := if p.side.Long? then p.entry + c.lockStep else p.entry - c.lockStep;
      var closes := [close];
      assert closes[..0] == [];
      assert BestGain(p, closes) == c.lockStep by {
        assert closes[..|closes| - 1] == [];
      }
      RatchetClosedForm(c, p, closes);
      assert c.lockStep / c.lockStep == 1;
      assert TrailOver(c, p, closes).sl == p.entry;
      assert TrailOver(c, p, closes[..0]) == p;
      assert !AtLeastAsTight(p, TrailOver(c, p, closes).sl, TrailOver(c, p, closes[..0]).sl);
    }
  }

  lemma LockedBehindBest(c: Config, p: Position, best: int)
    requires best >= 0 && LockIndex(c, best) >= 0
    ensures p.Gain(Ratcheted(c, p, best).sl) + c.lockStep <= best
  {
    var idx := LockIndex(c, best);
    ProductMonotone(c.lockStep, idx + 1, best / c.lockStep);
    assert c.lockStep * (best / c.lockStep) <= best;
    assert c.lockStep * (idx + 1) == c.lockStep * idx + c.lockStep;
    LockedGain(c, p, idx);
  }

  // A locked stop stays a whole step behind the best close, and a close that moves the
  // stop is itself a new best and a whole step ahead of the stop it sets.
  lemma StopLagsCloses(c: Config, p: Position, closes: seq<int>, close: int)
    requires p.Fresh()
    ensures var q, r := TrailOver(c, p, closes), TrailFromClose(c, TrailOver(c, p, closes), close);
      && (q.lockIdx >= 0 ==> p.Gain(q.sl) + c.lockStep <= BestGain(p, closes))
      && (r.sl != q.sl ==> p.Gain(close) > BestGain(p, closes) && p.Gain(r.sl) + c.lockStep <= p.Gain(close))
  {
    var best := BestGain(p, closes);
    BestGainIsBest(p, closes);
    RatchetClosedForm(c, p, closes);
    TrailStep(c, p, best, close);
    var next := Max(best, p.Gain(close));
    if LockIndex(c, best) >= 0 {
      LockedBehindBest(c, p, best);
    }
    if Ratcheted(c, p, next).sl != Ratcheted(c, p, best).sl {
      assert LockIndex(c, next) >= 0;
      LockedBehindBest(c, p, next);
    }
  }
}
