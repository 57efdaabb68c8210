// Everything one position can do over any run of bars.
module TradeOutcome {
  import opened Wrappers
  import Arithmetic
  import Levels
  import opened StrategyRunner
  import opened Ratchet

  function Closes(bars: seq<Bar>): seq<int> {
    seq(|bars|, i requires 0 <= i < |bars| => bars[i].close)
  }

  // The position as bar `k` finds it, if no earlier bar closed it.
  function PositionAt(c: Config, p: Position, bars: seq<Bar>, k: nat): Position
    requires k <= |bars|
  {
    TrailOver(c, p, Closes(bars[..k]))
  }

  ghost predicate SurvivesTo(c: Config, p: Position, bars: seq<Bar>, k: nat)
    requires k <= |bars|
  {
    forall j :: 0 <= j < k ==> ExitOn(c, PositionAt(c, p, bars, j), bars[j]).None?
  }

  ghost predicate AllWellFormed(bars: seq<Bar>) {
    forall i :: 0 <= i < |bars| ==> bars[i].WellFormed()
  }

  predicate StopShortOfTarget(p: Position) {
    p.Gain(p.sl) < p.Gain(p.tp)
  }

  lemma {:induction false} ReplayConcat(c: Config, p: Position, a: seq<Bar>, b: seq<Bar>)
    ensures Replay(c, p, a + b)
            == if Replay(c, p, a).trade.Some? then Replay(c, p, a) else Replay(c, Replay(c, p, a).position, b)
    decreases |a|
  {
    if a == [] {
      assert a + b == b;
    } else {
      assert (a + b)[1..] == a[1..] + b;
      var first := Evaluate(c, p, a[0]);
      if first.trade.None? {
        ReplayConcat(c, first.position, a[1..], b);
      }
    }
  }

  lemma ReplayOne(c: Config, p: Position, bar: Bar)
    ensures Replay(c, p, [bar]) == Evaluate(c, p, bar)
  {
    assert [bar][1..] == [];
  }

  lemma ReplayLast(c: Config, p: Position, front: seq<Bar>, last: Bar)
    ensures Replay(c, p, front + [last])
            == var before := Replay(c, p, front);
               if before.trade.Some? then before else Evaluate(c, before.position, last)
  {
    ReplayConcat(c, p, front, [last]);
    ReplayOne(c, Replay(c, p, front).position, last);
  }

  // The replay closed the position on bar `k` and on no earlier one.
  ghost predicate ExitsAt(c: Config, p: Position, bars: seq<Bar>, k: int, o: Outcome) {
    && 0 <= k < |bars| && SurvivesTo(c, p, bars, k)
    && o.position == PositionAt(c, p, bars, k)
    && o.trade.Some? && ExitOn(c, o.position, bars[k]) == o.trade
  }

  ghost predicate SurvivesAll(c: Config, p: Position, bars: seq<Bar>, o: Outcome) {
    SurvivesTo(c, p, bars, |bars|) && o == Outcome(PositionAt(c, p, bars, |bars|), None)
  }

  lemma PrefixPositions(c: Config, p: Position, bars: seq<Bar>, n: nat)
    requires n <= |bars|
    ensures forall k: nat :: k <= n ==> PositionAt(c, p, bars[..n], k) == PositionAt(c, p, bars, k)
    ensures SurvivesTo(c, p, bars[..n], n) == SurvivesTo(c, p, bars, n)
  {
    forall k: nat | k <= n ensures PositionAt(c, p, bars[..n], k) == PositionAt(c, p, bars, k) {
      assert bars[..n][..k] == bars[..k];
    }
  }

  lemma NextPosition(c: Config, p: Position, bars: seq<Bar>, n: nat)
    requires n < |bars|
    ensures PositionAt(c, p, bars, n + 1) == TrailFromClose(c, PositionAt(c, p, bars, n), bars[n].close)
  {
    assert Closes(bars[..n + 1])[..n] == Closes(bars[..n]);
  }

  // Either outcome of a replay, spelled out.
  ghost predicate ReplayedAs(c: Config, p: Position, bars: seq<Bar>, o: Outcome) {
    if o.trade.None? then SurvivesAll(c, p, bars, o) else exists k :: ExitsAt(c, p, bars, k, o)
  }

  lemma ExitKept(c: Config, p: Position, front: seq<Bar>, last: Bar, o: Outcome)
    requires o.trade.Some? && ReplayedAs(c, p, front, o)
    ensures ReplayedAs(c, p, front + [last], o)
  {
    var k :| ExitsAt(c, p, front, k, o);
    assert (front + [last])[..|front|] == front;
    PrefixPositions(c, p, front + [last], |front|);
    assert ExitsAt(c, p, front + [last], k, o);
  }

  lemma ReplayOneMore(c: Config, p: Position, front: seq<Bar>, last: Bar, o: Outcome)
    requires o.trade.None? && SurvivesAll(c, p, front, o)
    ensures ReplayedAs(c, p, front + [last], Evaluate(c, o.position, last))
  {
    var bars, n := front + [last], |front|;
    assert bars[..n] == front;
    PrefixPositions(c, p, bars, n);
    NextPosition(c, p, bars, n);
    if Evaluate(c, o.position, last).trade.Some? {
      assert ExitsAt(c, p, bars, n, Evaluate(c, o.position, last));
    }
  }

  // Replaying bars is: find the first bar whose range meets the stop or target that the
  // closes before it leave standing, or that is late enough to square off.
  lemma {:induction false} ReplayExplained(c: Config, p: Position, bars: seq<Bar>)
    ensures var o := Replay(c, p, bars);
      if o.trade.None? then SurvivesAll(c, p, bars, o) else exists k :: ExitsAt(c, p, bars, k, o)
    decreases |bars|
  {
    if bars == [] {
      assert Closes(bars[..0]) == [];
    } else {
      var front, last := bars[..|bars| - 1], bars[|bars| - 1];
      var before := Replay(c, p, front);
      assert bars == front + [last];
      ReplayExplained(c, p, front);
      ReplayLast(c, p, front, last);
      if before.trade.Some? {
        ExitKept(c, p, front, last, before);
      } else {
        ReplayOneMore(c, p, front, last, before);
      }
      assert ReplayedAs(c, p, bars, Replay(c, p, bars));
    }
  }

  // The bar's low, for a long position, or its high, for a short one, is at the standing stop
  // or past it; and the other way round for the target.
  predicate ReachesStop(q: Position, bar: Bar) {
    match q.side case Long => bar.low <= q.sl case Short => bar.high >= q.sl
  }

  predicate ReachesTarget(q: Position, bar: Bar) {
    match q.side case Long => bar.high >= q.tp case Short => bar.low <= q.tp
  }

  // The bar reaches the standing stop, the target, or the square-off time.
  ghost predicate Meets(c: Config, q: Position, bar: Bar) {
    ReachesStop(q, bar) || ReachesTarget(q, bar) || bar.time.sec >= c.squareOffTime
  }

  // Which of the three a bar that meets several of them is closed by, and at what price. A
  // stop that was ever locked counts as trailed once it is no worse than the entry.
  ghost predicate ReasonFits(c: Config, q: Position, bar: Bar, t: Trade) {
    var stop, target := ReachesStop(q, bar), ReachesTarget(q, bar);
    && t.exitTime == bar.time && t.lockIdx == q.lockIdx
    && match t.reason
       case StopLoss => stop && (c.slFirst || !target) && t.exit == q.sl && (q.lockIdx < 0 || q.Gain(q.sl) < 0)
       case Trail => stop && (c.slFirst || !target) && t.exit == q.sl && q.lockIdx >= 0 && q.Gain(q.sl) >= 0
       case TakeProfit => target && (!c.slFirst || !stop) && t.exit == q.tp
       case SquareOff => !stop && !target && t.exit == bar.close
  }

  lemma ExitOnMeets(c: Config, q: Position, bar: Bar)
    ensures ExitOn(c, q, bar).Some? <==> Meets(c, q, bar)
    ensures ExitOn(c, q, bar).Some? ==> ReasonFits(c, q, bar, ExitOn(c, q, bar).value)
  {
  }

  lemma SurvivesIsNotMeeting(c: Config, p: Position, bars: seq<Bar>, n: nat)
    requires n <= |bars|
    ensures SurvivesTo(c, p, bars, n) <==> MeetsNone(c, p, bars, n)
  {
    forall k | 0 <= k < n
      ensures ExitOn(c, PositionAt(c, p, bars, k), bars[k]).None? <==> !Meets(c, PositionAt(c, p, bars, k), bars[k])
    {
      ExitOnMeets(c, PositionAt(c, p, bars, k), bars[k]);
    }
  }

  // None of the first `n` bars reaches what the closes before it leave standing.
  ghost predicate MeetsNone(c: Config, p: Position, bars: seq<Bar>, n: nat)
    requires n <= |bars|
  {
    forall k: nat :: k < n ==> !Meets(c, PositionAt(c, p, bars, k), bars[k])
  }

  // Bar `k` is the first that does, and `t` is the trade it closes.
  ghost predicate FirstMeeting(c: Config, p: Position, bars: seq<Bar>, k: int, t: Trade) {
    && 0 <= k < |bars| && MeetsNone(c, p, bars, k)
    && var q := PositionAt(c, p, bars, k);
       Meets(c, q, bars[k]) && ReasonFits(c, q, bars[k], t)
  }

  // A run of bars closes the position on the first bar that meets its stop, target or
  // square-off time, each judged with the stop its earlier closes had locked, and on no
  // other; if none does it stays open.
  lemma FirstMeetingBarCloses(c: Config, p: Position, bars: seq<Bar>)
    ensures var o := Replay(c, p, bars);
      && (o.trade.None? <==> MeetsNone(c, p, bars, |bars|))
      && (o.trade.Some? ==> exists k :: FirstMeeting(c, p, bars, k, o.trade.value))
  {
    ReplayExplained(c, p, bars);
    var o := Replay(c, p, bars);
    if o.trade.Some? {
      var k :| ExitsAt(c, p, bars, k, o);
      SurvivesIsNotMeeting(c, p, bars, k);
      ExitOnMeets(c, o.position, bars[k]);
      assert FirstMeeting(c, p, bars, k, o.trade.value);
    } else {
      SurvivesIsNotMeeting(c, p, bars, |bars|);
    }
  }

  // ---- the same in terms of the prices a bar holds ----

  // The prices of the bar: from its low to its high.
  predicate Holds(bar: Bar, price: int) { bar.low <= price <= bar.high }

  ghost predicate HoldsLoss(q: Position, bar: Bar) {
    exists price :: Holds(bar, price) && q.Gain(price) <= q.Gain(q.sl)
  }

  ghost predicate HoldsWin(q: Position, bar: Bar) {
    exists price :: Holds(bar, price) && q.Gain(price) >= q.Gain(q.tp)
  }

  lemma ReachesIsHolds(q: Position, bar: Bar)
    requires bar.low <= bar.high
    ensures ReachesStop(q, bar) <==> HoldsLoss(q, bar)
    ensures ReachesTarget(q, bar) <==> HoldsWin(q, bar)
  {
    assert Holds(bar, bar.low) && Holds(bar, bar.high);
    match q.side
    case Long =>
      assert ReachesStop(q, bar) ==> q.Gain(bar.low) <= q.Gain(q.sl);
      assert ReachesTarget(q, bar) ==> q.Gain(bar.high) >= q.Gain(q.tp);
    case Short =>
      assert ReachesStop(q, bar) ==> q.Gain(bar.high) <= q.Gain(q.sl);
      assert ReachesTarget(q, bar) ==> q.Gain(bar.low) >= q.Gain(q.tp);
  }

  // Bar `k` holds a price at or past what closes the position, and no bar before it does.
  ghost predicate FirstReaching(c: Config, p: Position, bars: seq<Bar>, k: int) {
    && 0 <= k < |bars| && Reaching(c, PositionAt(c, p, bars, k), bars[k])
    && forall j :: 0 <= j < k ==> !Reaching(c, PositionAt(c, p, bars, j), bars[j])
  }

  ghost predicate Reaching(c: Config, q: Position, bar: Bar) {
    HoldsLoss(q, bar) || HoldsWin(q, bar) || bar.time.sec >= c.squareOffTime
  }

  // The trade's price and reason, from the prices the bar holds.
  ghost predicate PriceFits(c: Config, q: Position, bar: Bar, t: Trade) {
    var stop, target := HoldsLoss(q, bar), HoldsWin(q, bar);
    && t.exitTime == bar.time
    && if stop && (c.slFirst || !target) then t.exit == q.sl && (t.reason.StopLoss? || t.reason.Trail?)
       else if target then t.exit == q.tp && t.reason.TakeProfit?
       else t.exit == bar.close && t.reason.SquareOff?
  }

  lemma MeetsIsReaching(c: Config, q: Position, bar: Bar)
    requires bar.low <= bar.high
    ensures Meets(c, q, bar) <==> Reaching(c, q, bar)
    ensures forall t :: ReasonFits(c, q, bar, t) ==> PriceFits(c, q, bar, t)
  {
    ReachesIsHolds(q, bar);
  }

  // The first bar whose range holds a price at the standing stop or worse, or at the target or
  // better, or that is late enough to square off, closes the run, at the stop, the target or
  // its close; if there is none the position stays open.
  lemma FirstReachingPriceCloses(c: Config, p: Position, bars: seq<Bar>)
    requires AllWellFormed(bars)
    ensures var o := Replay(c, p, bars);
      && (o.trade.None? <==> forall k :: 0 <= k < |bars| ==> !Reaching(c, PositionAt(c, p, bars, k), bars[k]))
      && (o.trade.Some? ==> exists k ::
            FirstReaching(c, p, bars, k) && PriceFits(c, PositionAt(c, p, bars, k), bars[k], o.trade.value))
  {
    FirstMeetingBarCloses(c, p, bars);
    forall k | 0 <= k < |bars|
      ensures Meets(c, PositionAt(c, p, bars, k), bars[k]) <==> Reaching(c, PositionAt(c, p, bars, k), bars[k])
    {
      assert bars[k].WellFormed();
      MeetsIsReaching(c, PositionAt(c, p, bars, k), bars[k]);
    }
    var o := Replay(c, p, bars);
    if o.trade.Some? {
      var k :| FirstMeeting(c, p, bars, k, o.trade.value);
      assert bars[k].WellFormed();
      MeetsIsReaching(c, PositionAt(c, p, bars, k), bars[k]);
      assert FirstReaching(c, p, bars, k);
    }
  }

  // Two trades that end on the same bar, the first for no more than the second.
  ghost predicate EndsNoDearer(first: Trade, last: Trade) {
    first.exitTime == last.exitTime && first.points <= last.points
  }

  // Judging the stop first on a bar that spans both is the pessimistic choice: the position
  // closes on the same bar either way, and never for more.
  lemma {:induction false} StopFirstIsPessimistic(c: Config, p: Position, bars: seq<Bar>)
    requires p.Fresh() && StopShortOfTarget(p) && AllWellFormed(bars)
    ensures var first, last := Replay(c.(slFirst := true), p, bars), Replay(c.(slFirst := false), p, bars);
      && first.position == last.position && (first.trade.Some? <==> last.trade.Some?)
      && (first.trade.Some? ==> EndsNoDearer(first.trade.value, last.trade.value))
  {
    OutcomeBound(c.(slFirst := true), p, bars);
    SameBarEitherWay(c, p, bars);
  }

  lemma {:induction false} SameBarEitherWay(c: Config, p: Position, bars: seq<Bar>)
    ensures var first, last := Replay(c.(slFirst := true), p, bars), Replay(c.(slFirst := false), p, bars);
      && first.position == last.position && (first.trade.Some? <==> last.trade.Some?)
      && (first.trade.Some? && StopShortOfTarget(first.position) ==>
            EndsNoDearer(first.trade.value, last.trade.value))
    decreases |bars|
  {
    if bars != [] {
      var c1, c0 := c.(slFirst := true), c.(slFirst := false);
      assert TrailFromClose(c1, p, bars[0].close) == TrailFromClose(c0, p, bars[0].close);
      if ExitOn(c1, p, bars[0]).None? {
        SameBarEitherWay(c, TrailFromClose(c1, p, bars[0].close), bars[1..]);
      }
    }
  }

  // A position the replay left open is the closed form of the closes it saw.
  lemma OpenIsRatcheted(c: Config, p: Position, bars: seq<Bar>)
    requires p.Fresh()
    ensures Replay(c, p, bars).trade.None? ==>
              Replay(c, p, bars).position == Ratcheted(c, p, BestGain(p, Closes(bars)))
  {
    ReplayExplained(c, p, bars);
    RatchetClosedForm(c, p, Closes(bars));
    assert bars[..|bars|] == bars;
  }

  // While no bar has closed it, a position's stop stays short of its target.
  lemma StopStaysShort(c: Config, p: Position, bars: seq<Bar>, k: nat)
    requires p.Fresh() && StopShortOfTarget(p) && AllWellFormed(bars)
    requires k <= |bars| && SurvivesTo(c, p, bars, k)
    ensures StopShortOfTarget(PositionAt(c, p, bars, k))
    ensures p.Gain(p.tp) > BestGain(p, Closes(bars[..k])) || BestGain(p, Closes(bars[..k])) == 0
  {
    var closes := Closes(bars[..k]);
    var best := BestGain(p, closes);
    RatchetClosedForm(c, p, closes);
    BestGainIsBest(p, closes);
    if best > 0 {
      var j :| 0 <= j < k && p.Gain(closes[j]) == best;
      RatchetClosedForm(c, p, Closes(bars[..j]));
      assert ExitOn(c, PositionAt(c, p, bars, j), bars[j]).None?;
      assert bars[j].WellFormed();
      if LockIndex(c, best) >= 0 {
        LockedBehindBest(c, p, best);
      }
    } else {
      assert 0 / c.lockStep == 0;
    }
  }

  // What a closed trade may have earned, by the reason it closed.
  ghost predicate Explained(c: Config, p: Position, stop: int, t: Trade) {
    && t.symbol == p.symbol && t.side == p.side && t.entry == p.entry && t.entryTime == p.entryTime
    && t.quantity == p.quantity && t.points == p.Gain(t.exit) && t.money == t.points * p.quantity
    && match t.reason
       case TakeProfit => t.exit == p.tp
       case StopLoss => t.lockIdx == -1 && t.exit == p.sl
       case Trail => 0 <= t.lockIdx < c.lockStepsCount && t.points == c.lockStep * t.lockIdx
       case SquareOff => p.Gain(stop) < t.points < p.Gain(p.tp)
  }

  lemma ExitExplained(c: Config, p: Position, best: int, bar: Bar)
    requires p.Fresh() && best >= 0 && bar.WellFormed()
    requires StopShortOfTarget(Ratcheted(c, p, best))
    ensures var q := Ratcheted(c, p, best);
      ExitOn(c, q, bar).Some? ==> Explained(c, p, q.sl, ExitOn(c, q, bar).value)
  {
    var idx := LockIndex(c, best);
    LockedGain(c, p, idx);
    if idx >= 0 {
      Arithmetic.ProductMonotone(c.lockStep, 0, idx);
    }
  }

  // A target pays the target distance; a stop hit before any lock loses exactly the initial
  // stop distance; a trailed stop pays a whole number of steps; a square-off lands strictly
  // between the standing stop and the target.
  lemma OutcomeBound(c: Config, p: Position, bars: seq<Bar>)
    requires p.Fresh() && StopShortOfTarget(p) && AllWellFormed(bars)
    ensures var o := Replay(c, p, bars);
      && StopShortOfTarget(o.position)
      && (o.trade.Some? ==> Explained(c, p, o.position.sl, o.trade.value))
  {
    ReplayExplained(c, p, bars);
    var o := Replay(c, p, bars);
    if o.trade.None? {
      StopStaysShort(c, p, bars, |bars|);
    } else {
      var k :| ExitsAt(c, p, bars, k, o);
      StopStaysShort(c, p, bars, k);
      var closes := Closes(bars[..k]);
      RatchetClosedForm(c, p, closes);
      BestGainIsBest(p, closes);
      ExitExplained(c, p, BestGain(p, closes), bars[k]);
    }
  }

  // The bar reaches one trigger and not the other: its high the long one, or its low the short.
  predicate ReachesOne(longEntry: int, shortEntry: int, bar: Bar) {
    (bar.high >= longEntry && bar.low > shortEntry) || (bar.high < longEntry && bar.low <= shortEntry)
  }

  // A distance as configured, to within half a tick, and exactly if it is a number of ticks.
  predicate Configured(distance: int, configured: int, tick: int)
    requires tick > 0
  {
    -tick <= 2 * (distance - configured) <= tick && (configured % tick == 0 ==> distance == configured)
  }

  // Position `p` was opened by this bar, on the side whose trigger it reached, at that trigger:
  // the configured distance from the anchor price, with stop and target at theirs.
  ghost predicate OpenedBy(c: Config, symbol: Symbol, anchor: int, bar: Bar, quantity: int, p: Position) {
    && p.symbol == symbol && p.quantity == quantity && p.entryTime == bar.time && p.lockIdx == -1 && p.maxFavorable == 0
    && (match p.side case Long => bar.high >= p.entry case Short => bar.low <= p.entry)
    && var away := if p.side.Long? then p.entry - anchor else anchor - p.entry;
       var grid := if p.side.Long? then anchor + c.triggerDist else anchor - c.triggerDist;
       && -c.tickSize <= 2 * (away - c.triggerDist) <= c.tickSize
       && (grid % c.tickSize == 0 ==> away == c.triggerDist)
       && Configured(if p.side.Long? then p.tp - p.entry else p.entry - p.tp, c.tpDist, c.tickSize)
       && Configured(if p.side.Long? then p.entry - p.sl else p.sl - p.entry, c.slDist, c.tickSize)
  }

  // A bar opens a position exactly when it reaches one trigger alone.
  lemma EntryExplained(c: Config, symbol: Symbol, anchor: int, bar: Bar, quantity: int)
    ensures var l := BuildLevels(c, anchor);
      var entered := DetectEntry(symbol, l, bar, quantity);
      && (entered.Some? <==> ReachesOne(l.longEntry, l.shortEntry, bar))
      && (entered.Some? ==>
            && OpenedBy(c, symbol, anchor, bar, quantity, entered.value)
            && (entered.value.side.Long? <==> bar.high >= l.longEntry))
  {
    Levels.LevelDistances(anchor, c.triggerDist, c.tpDist, c.slDist, c.tickSize);
  }

  // The same for a position the engine opened itself: the configured distances are what is
  // won and lost, to within half a tick, and exactly when they are whole ticks.
  lemma EnteredTradeBound(c: Config, symbol: Symbol, anchor: int, entryBar: Bar, quantity: int, bars: seq<Bar>)
    requires c.slDist + c.tpDist > c.tickSize && AllWellFormed(bars)
    ensures var entered := DetectEntry(symbol, BuildLevels(c, anchor), entryBar, quantity);
      entered.Some? ==>
        var p := entered.value;
        var o := Replay(c, p, bars);
        && OpenedBy(c, symbol, anchor, entryBar, quantity, p)
        && p.Fresh() && StopShortOfTarget(p)
        && -c.tickSize <= 2 * (p.Gain(p.tp) - c.tpDist) <= c.tickSize
        && -c.tickSize <= 2 * (-p.Gain(p.sl) - c.slDist) <= c.tickSize
        && (c.tpDist % c.tickSize == 0 ==> p.Gain(p.tp) == c.tpDist)
        && (c.slDist % c.tickSize == 0 ==> -p.Gain(p.sl) == c.slDist)
        && StopShortOfTarget(o.position)
        && (o.trade.Some? ==> Explained(c, p, o.position.sl, o.trade.value))
  {
    EntryExplained(c, symbol, anchor, entryBar, quantity);
    var entered := DetectEntry(symbol, BuildLevels(c, anchor), entryBar, quantity);
    if entered.Some? {
      OutcomeBound(c, entered.value, bars);
    }
  }
}
