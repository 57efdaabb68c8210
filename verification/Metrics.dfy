// engine/metrics.py: the one-pass drawdown tracker against the quadratic definition.
module Metrics {
  import opened Wrappers
  import opened Rounding
  import Arithmetic

  datatype Tracker = Tracker(cumulative: int, peak: int, maxDrawdown: int, curve: seq<int>)

  const EMPTY := Tracker(0, 0, 0, [])

  function Recorded(t: Tracker, net: int): Tracker {
    var cumulative := t.cumulative + net;
    var peak := Max(t.peak, cumulative);
    Tracker(cumulative, peak, Max(t.maxDrawdown, peak - cumulative), t.curve + [cumulative])
  }

  function Track(nets: seq<int>): Tracker {
    if nets == [] then EMPTY else Recorded(Track(nets[..|nets| - 1]), nets[|nets| - 1])
  }

  // In hundredths of a percent of the peak.
  function DrawdownPct(t: Tracker): int {
    if t.peak <= 0 then 0 else Round(t.maxDrawdown as real / t.peak as real * 10000.0)
  }

  function Sum(xs: seq<int>): int {
    if xs == [] then 0 else Sum(xs[..|xs| - 1]) + xs[|xs| - 1]
  }

  // The equity after the first `k` trades.
  function Equity(nets: seq<int>, k: nat): int
    requires k <= |nets|
  {
    Sum(nets[..k])
  }

  ghost predicate IsPeak(nets: seq<int>, peak: int) {
    && (forall i :: 0 <= i <= |nets| ==> Equity(nets, i) <= peak)
    && (exists i :: 0 <= i <= |nets| && Equity(nets, i) == peak)
  }

  ghost predicate IsMaxDrawdown(nets: seq<int>, drawdown: int) {
    && (forall i, j :: 0 <= i <= j <= |nets| ==> Equity(nets, i) - Equity(nets, j) <= drawdown)
    && (exists i, j :: 0 <= i <= j <= |nets| && Equity(nets, i) - Equity(nets, j) == drawdown)
  }

  lemma EquityPrefix(nets: seq<int>, n: nat)
    requires n <= |nets|
    ensures forall k :: 0 <= k <= n ==> Equity(nets[..n], k) == Equity(nets, k)
  {
    forall k | 0 <= k <= n ensures Equity(nets[..n], k) == Equity(nets, k) {
      assert nets[..n][..k] == nets[..k];
    }
  }

  lemma EquityLast(nets: seq<int>)
    requires nets != []
    ensures Equity(nets, |nets|) == Equity(nets, |nets| - 1) + nets[|nets| - 1]
  {
    assert nets[..|nets|] == nets;
  }

  lemma ExtendPeak(nets: seq<int>, peak: int)
    requires nets != [] && IsPeak(nets[..|nets| - 1], peak)
    ensures IsPeak(nets, Max(peak, Equity(nets, |nets|)))
  {
    var n := |nets| - 1;
    EquityPrefix(nets, n);
    var i :| 0 <= i <= n && Equity(nets[..n], i) == peak;
    assert Equity(nets, i) == peak;
    forall k | 0 <= k <= |nets| ensures Equity(nets, k) <= Max(peak, Equity(nets, |nets|)) {
      if k <= n { assert Equity(nets[..n], k) <= peak; }
    }
  }

  lemma ExtendDrawdown(nets: seq<int>, peak: int, drawdown: int)
    requires nets != [] && IsMaxDrawdown(nets[..|nets| - 1], drawdown) && IsPeak(nets, peak)
    ensures IsMaxDrawdown(nets, Max(drawdown, peak - Equity(nets, |nets|)))
  {
    var n := |nets| - 1;
    EquityPrefix(nets, n);
    var next := Max(drawdown, peak - Equity(nets, |nets|));
    forall i, j | 0 <= i <= j <= |nets| ensures Equity(nets, i) - Equity(nets, j) <= next {
      if j <= n { assert Equity(nets[..n], i) - Equity(nets[..n], j) <= drawdown; }
    }
    if next == drawdown {
      var i, j :| 0 <= i <= j <= n && Equity(nets[..n], i) - Equity(nets[..n], j) == drawdown;
      assert Equity(nets, i) - Equity(nets, j) == next;
    } else {
      var i :| 0 <= i <= |nets| && Equity(nets, i) == peak;
      assert Equity(nets, i) - Equity(nets, |nets|) == next;
    }
  }

  lemma {:induction false} CurveIsPrefixSums(nets: seq<int>)
    ensures var t := Track(nets);
      && t.cumulative == Equity(nets, |nets|)
      && |t.curve| == |nets| && (forall i :: 0 <= i < |nets| ==> t.curve[i] == Equity(nets, i + 1))
  {
    if nets == [] {
      assert Equity(nets, 0) == 0;
    } else {
      var n := |nets| - 1;
      CurveIsPrefixSums(nets[..n]);
      EquityPrefix(nets, n);
      EquityLast(nets);
    }
  }

  // For any P&L list: the curve is the prefix sums, the peak their maximum (with the empty
  // prefix), and the drawdown the greatest fall from any point to any later one.
  lemma {:induction false} TrackerRefinesDefinition(nets: seq<int>)
    ensures var t := Track(nets);
      && IsPeak(nets, t.peak) && IsMaxDrawdown(nets, t.maxDrawdown)
      && t.cumulative == Equity(nets, |nets|)
      && |t.curve| == |nets| && (forall i :: 0 <= i < |nets| ==> t.curve[i] == Equity(nets, i + 1))
  {
    CurveIsPrefixSums(nets);
    if nets == [] {
      assert Equity(nets, 0) == 0;
      assert Equity(nets, 0) - Equity(nets, 0) == 0;
    } else {
      var before := nets[..|nets| - 1];
      TrackerRefinesDefinition(before);
      ExtendPeak(nets, Track(before).peak);
      ExtendDrawdown(nets, Track(nets).peak, Track(before).maxDrawdown);
    }
  }

  // The percentage is the drawdown's share of the peak to the nearest hundredth, and can be
  // formed only once the equity has been above zero.
  lemma DrawdownPctIsShareOfPeak(t: Tracker)
    ensures t.peak <= 0 ==> DrawdownPct(t) == 0
    ensures t.peak > 0 ==> -t.peak <= 2 * (t.maxDrawdown * 10000 - DrawdownPct(t) * t.peak) <= t.peak
  {
    if t.peak > 0 {
      RoundNearest(t.maxDrawdown as real / t.peak as real * 10000.0);
      Arithmetic.ScaledShare(t.maxDrawdown, t.peak, 10000, DrawdownPct(t));
    }
  }

  class DrawdownTracker {
    var cumulativeNet: int
    var peak: int
    var maxDrawdownMoney: int
    var equityCurve: seq<int>

    constructor ()
      ensures View() == EMPTY
    {
      cumulativeNet, peak, maxDrawdownMoney, equityCurve := 0, 0, 0, [];
    }

    function View(): Tracker
      reads this
    {
      Tracker(cumulativeNet, peak, maxDrawdownMoney, equityCurve)
    }

    method Record(netPnl: int)
      modifies this
      ensures View() == Recorded(old(View()), netPnl)
    {
      cumulativeNet := cumulativeNet + netPnl;
      if cumulativeNet > peak {
        peak := cumulativeNet;
      }
      var drawdown := peak - cumulativeNet;
      if drawdown > maxDrawdownMoney {
        maxDrawdownMoney := drawdown;
      }
      equityCurve := equityCurve + [cumulativeNet];
    }
  }
}
