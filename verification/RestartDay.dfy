// One trading day of the orchestrator with restarts anywhere in it: what still holds by the
// close, what becomes of a pair read back from disk, and of a position that is not.
module RestartDay {
  import opened Wrappers
  import opened StrategyRunner
  import RiskControls
  import opened AnchorEngine
  import opened PaperBroker
  import opened TickSteps
  import opened TickCoupling
  import opened TickDay
  import opened TickRestart

  // All ticks fall on one day and never go back in time.
  ghost predicate OneDayActs(acts: seq<Act>, day: int) {
    && (forall i :: 0 <= i < |acts| && IsTick(acts[i]) ==> acts[i].event.now.day == day)
    && (forall i, j :: 0 <= i < j < |acts| && IsTick(acts[i]) && IsTick(acts[j]) ==>
          acts[i].event.now.sec <= acts[j].event.now.sec)
  }

  predicate IsTick(a: Act) { a.Live? && a.event.Tick? }

  ghost predicate ClockIsAnAct(r: Run, acts: seq<Act>) {
    r.clock.Some? ==> exists i :: 0 <= i < |acts| && IsTick(acts[i]) && acts[i].event.now.sec == r.clock.value
  }

  lemma ClockMovesOn(e: Setup, r: Run, acts: seq<Act>, day: int)
    requires OneDayActs(acts, day) && acts != [] && ClockIsAnAct(r, acts[..|acts| - 1])
    ensures ClockIsAnAct(ActStep(e, r, acts[|acts| - 1]), acts)
    ensures IsTick(acts[|acts| - 1]) && r.clock.Some? ==> r.clock.value <= acts[|acts| - 1].event.now.sec
  {
    var front, last := acts[..|acts| - 1], acts[|acts| - 1];
    if r.clock.Some? {
      var i :| 0 <= i < |front| && IsTick(front[i]) && front[i].event.now.sec == r.clock.value;
      assert acts[i] == front[i];
    }
    if IsTick(last) {
      assert acts[|acts| - 1].event.now.sec == last.event.now.sec;
    }
  }

  // The sweep's time has come in this process or an earlier one.
  ghost predicate Late(e: Setup, r: Run) {
    r.clock.Some? && r.clock.value >= SweepSec(e)
  }

  ghost predicate DayRun(e: Setup, r: Run) {
    && (r.state.swept ==> Late(e, r))
    && (Late(e, r) ==> r.state.pairs == map[])
    && r.state.squaredOff !! r.state.positions.Keys
    && (r.state.squaredOff != {} ==> Late(e, r))
  }

  // Fills touch only the ticking symbol, and only if it has a pair.
  lemma {:induction false} FillsShape(s: State, symbol: Symbol, fills: seq<Fill>, now: Stamp)
    ensures var n := FillSteps(s, symbol, fills, now);
      && n.squaredOff == s.squaredOff && n.pairs.Keys <= s.pairs.Keys
      && s.positions.Keys <= n.positions.Keys <= s.positions.Keys + (s.pairs.Keys * {symbol})
  {
    if fills != [] {
      FillsShape(s, symbol, fills[..|fills| - 1], now);
    }
  }

  lemma FirstHalfShape(e: Setup, s: State, symbol: Symbol, ltp: int, now: Stamp)
    requires symbol in e.symbols
    ensures var n := FirstHalf(e, s, symbol, ltp, now);
      && n.squaredOff == s.squaredOff && n.swept == s.swept && n.pairs.Keys <= s.pairs.Keys
      && n.positions.Keys <= s.positions.Keys + (s.pairs.Keys * {symbol})
  {
    BarsShape(e, s, symbol, ltp, now);
    FirstHalfOpensNothing(e, s, symbol, ltp, now);
    var bars := BarSteps(e, s, symbol, ltp, now);
    var r := TickFrom(bars.book, 0, e.symbols[symbol].securityId, ltp);
    FillsShape(bars.(book := r.0), symbol, r.1, now);
  }

  lemma TickShape(e: Setup, s: State, symbol: Symbol, ltp: int, now: Stamp)
    requires symbol in e.symbols
    ensures var n := TickStep(e, s, symbol, ltp, now);
      && (n.swept <==> s.swept || now.sec >= SweepSec(e))
      && (now.sec >= e.noNewTradeAfter ==> n.pairs.Keys <= s.pairs.Keys)
      && (!s.swept && now.sec >= SweepSec(e) ==> n.pairs == map[])
      && n.positions.Keys <= s.positions.Keys + (s.pairs.Keys * {symbol})
      && n.squaredOff == (if now.sec >= CloseSec(e) then s.squaredOff + {symbol} else s.squaredOff)
      && (now.sec >= CloseSec(e) && symbol !in s.squaredOff ==> symbol !in n.positions)
  {
    FirstHalfShape(e, s, symbol, ltp, now);
    var filled := FirstHalf(e, s, symbol, ltp, now);
    PlaceShape(e, filled, symbol, now);
    var placed := PlacePairStep(e, filled, symbol, now);
    SweepOpensNothing(e, placed, now);
    SquareOffShape(e, SweepStep(e, placed, now), symbol, ltp, now);
  }

  lemma TickDayRun(e: Setup, r: Run, symbol: Symbol, ltp: int, now: Stamp)
    requires ValidTimes(e) && DayRun(e, r) && symbol in e.symbols
    requires r.clock.Some? ==> r.clock.value <= now.sec
    ensures var n := ActStep(e, r, Live(Tick(symbol, ltp, now)));
      && DayRun(e, n) && (Late(e, r) ==> Late(e, n)) && (now.sec >= CloseSec(e) ==> Done(e, n, symbol))
  {
    TickShape(e, r.state, symbol, ltp, now);
  }

  lemma ActDay(e: Setup, r: Run, a: Act)
    requires ValidSetup(e) && ValidTimes(e) && Loose(e, r.state, r.orphans) && DayRun(e, r)
    requires IsTick(a) && r.clock.Some? ==> r.clock.value <= a.event.now.sec
    ensures var n := ActStep(e, r, a);
      && DayRun(e, n) && (Late(e, r) ==> Late(e, n))
      && (IsTick(a) && a.event.symbol in e.symbols && a.event.now.sec >= CloseSec(e) ==> Done(e, n, a.event.symbol))
  {
    match a
    case Restart => RestartLoose(e, r.state, r.orphans);
    case Live(event) =>
      if event.Tick? && event.symbol in e.symbols {
        TickDayRun(e, r, event.symbol, event.ltp, event.now);
      }
  }

  lemma {:induction false} DayHoldsThrough(e: Setup, file: AnchorFile, acts: seq<Act>, day: int)
    requires ValidSetup(e) && ValidTimes(e) && OneDayActs(acts, day)
    ensures var r := RunActs(e, file, acts); DayRun(e, r) && Loose(e, r.state, r.orphans) && ClockIsAnAct(r, acts)
  {
    AlwaysLoose(e, file, acts);
    if acts != [] {
      var front := acts[..|acts| - 1];
      DayHoldsThrough(e, file, front, day);
      ClockMovesOn(e, RunActs(e, file, front), acts, day);
      ActDay(e, RunActs(e, file, front), acts[|acts| - 1]);
    }
  }

  // ---- flat by the close, restarts or not ----

  // No position is held in the symbol, and none can come of a pair.
  ghost predicate Done(e: Setup, r: Run, symbol: Symbol) {
    symbol !in r.state.positions && Late(e, r)
  }

  lemma ActKeepsDone(e: Setup, r: Run, a: Act, symbol: Symbol)
    requires ValidSetup(e) && ValidTimes(e) && Loose(e, r.state, r.orphans) && DayRun(e, r) && Done(e, r, symbol)
    requires IsTick(a) && r.clock.Some? ==> r.clock.value <= a.event.now.sec
    ensures Done(e, ActStep(e, r, a), symbol)
  {
    ActDay(e, r, a);
    if IsTick(a) && a.event.symbol in e.symbols {
      TickShape(e, r.state, a.event.symbol, a.event.ltp, a.event.now);
    }
  }

  lemma {:induction false} DoneLasts(e: Setup, file: AnchorFile, acts: seq<Act>, day: int, k: nat)
    requires ValidSetup(e) && ValidTimes(e) && OneDayActs(acts, day)
    requires k < |acts| && IsTick(acts[k]) && acts[k].event.symbol in e.symbols
    requires acts[k].event.now.sec >= CloseSec(e)
    ensures Done(e, RunActs(e, file, acts), acts[k].event.symbol)
  {
    var front := acts[..|acts| - 1];
    DayHoldsThrough(e, file, front, day);
    ClockMovesOn(e, RunActs(e, file, front), acts, day);
    if k == |acts| - 1 {
      ActDay(e, RunActs(e, file, front), acts[k]);
    } else {
      DoneLasts(e, file, front, day, k);
      ActKeepsDone(e, RunActs(e, file, front), acts[|acts| - 1], acts[k].event.symbol);
    }
  }

  // Nothing of a symbol is left: no pair, no position on either side, no open order.
  ghost predicate Flat(s: State, symbol: Symbol) {
    && symbol !in s.pairs && symbol !in s.positions && symbol !in s.book.positions
    && forall i :: 0 <= i < |s.book.orders| && s.book.orders[i].symbol == symbol ==> s.book.orders[i].status != Open
  }

  // From a symbol's first tick at or after the square-off time it is flat for the rest of the
  // day, whatever restarts come before or after.
  lemma FlatThroughRestarts(e: Setup, file: AnchorFile, acts: seq<Act>, day: int, k: nat)
    requires ValidSetup(e) && ValidTimes(e) && OneDayActs(acts, day)
    requires k < |acts| && IsTick(acts[k]) && acts[k].event.symbol in e.symbols
    requires acts[k].event.now.sec >= CloseSec(e)
    ensures Flat(RunActs(e, file, acts).state, acts[k].event.symbol)
  {
    DoneLasts(e, file, acts, day, k);
    DayHoldsThrough(e, file, acts, day);
    var r := RunActs(e, file, acts);
    assert Without(r.state, r.orphans).pairs == map[];
  }

  function LiveActs(events: seq<Event>): (acts: seq<Act>)
    ensures |acts| == |events|
  {
    seq(|events|, i requires 0 <= i < |events| => Live(events[i]))
  }

  // Runs without restarts are among these.
  lemma {:induction false} LiveRunIsRun(e: Setup, file: AnchorFile, events: seq<Event>)
    ensures RunActs(e, file, LiveActs(events)).state == RunEvents(e, file, events)
  {
    if events != [] {
      var n := |events| - 1;
      assert LiveActs(events)[..n] == LiveActs(events[..n]);
      LiveRunIsRun(e, file, events[..n]);
    }
  }

  lemma LiveOneDay(events: seq<Event>, day: int)
    requires OneDay(events, day)
    ensures OneDayActs(LiveActs(events), day)
  {
  }

  // ---- a pair read back from disk ----

  // Nothing trades in the symbol, and until the sweep its pair stays.
  ghost predicate Dead(e: Setup, r: Run, symbol: Symbol) {
    Untraded(r.state, {symbol}) && (Late(e, r) || symbol in r.orphans)
  }

  lemma UnpairedFillsNothing(e: Setup, s: State, symbol: Symbol, ltp: int, now: Stamp)
    requires ValidSetup(e) && Coupled(e, s) && symbol in e.symbols && symbol !in s.pairs
    ensures FirstHalf(e, s, symbol, ltp, now) == BarSteps(e, s, symbol, ltp, now)
  {
    BarsShape(e, s, symbol, ltp, now);
    BarsCoupled(e, s, symbol, ltp, now);
    FillsOfTick(e, BarSteps(e, s, symbol, ltp, now), symbol, ltp, now);
  }

  lemma LateHalfUntraded(e: Setup, s: State, symbol: Symbol, ltp: int, now: Stamp, x: Symbol)
    requires symbol in e.symbols && now.sec >= e.noNewTradeAfter && Untraded(s, {x})
    ensures Untraded(SecondHalf(e, s, symbol, ltp, now), {x})
  {
    PlaceShape(e, s, symbol, now);
    ClosingUntraded(e, PlacePairStep(e, s, symbol, now), symbol, ltp, now, x);
  }

  // With no pair left and none to come, a tick adds no order and no position.
  lemma LateTickUntraded(e: Setup, s: State, symbol: Symbol, ltp: int, now: Stamp, x: Symbol)
    requires ValidSetup(e) && Coupled(e, s) && s.pairs == map[] && symbol in e.symbols && now.sec >= e.noNewTradeAfter
    requires Untraded(s, {x})
    ensures Untraded(TickStep(e, s, symbol, ltp, now), {x})
  {
    UnpairedFillsNothing(e, s, symbol, ltp, now);
    BarsShape(e, s, symbol, ltp, now);
    BarsCoupled(e, s, symbol, ltp, now);
    LateHalfUntraded(e, BarSteps(e, s, symbol, ltp, now), symbol, ltp, now, x);
  }

  lemma NothingOrphaned(e: Setup, s: State, orphans: set<Symbol>)
    requires Loose(e, s, orphans) && s.pairs == map[]
    ensures Coupled(e, s)
  {
    assert Without(s, orphans) == s;
  }

  lemma ActKeepsDead(e: Setup, r: Run, a: Act, x: Symbol)
    requires ValidSetup(e) && ValidTimes(e) && Loose(e, r.state, r.orphans) && DayRun(e, r) && Dead(e, r, x)
    requires IsTick(a) && r.clock.Some? ==> r.clock.value <= a.event.now.sec
    ensures Dead(e, ActStep(e, r, a), x)
  {
    match a
    case Restart => RestartLoose(e, r.state, r.orphans);
    case Live(event) =>
      if event.Tick? && event.symbol in e.symbols {
        if x in r.orphans {
          OrphanStaysUntraded(e, r.state, r.orphans, event.symbol, event.ltp, event.now, x);
        } else {
          NothingOrphaned(e, r.state, r.orphans);
          LateTickUntraded(e, r.state, event.symbol, event.ltp, event.now, x);
        }
      }
  }

  lemma {:induction false} DeadLasts(e: Setup, file: AnchorFile, acts: seq<Act>, day: int, k: nat, symbol: Symbol)
    requires ValidSetup(e) && ValidTimes(e) && OneDayActs(acts, day) && k <= |acts|
    requires Dead(e, RunActs(e, file, acts[..k]), symbol)
    ensures Dead(e, RunActs(e, file, acts), symbol)
  {
    if k == |acts| {
      assert acts[..k] == acts;
    } else {
      var front := acts[..|acts| - 1];
      assert front[..k] == acts[..k];
      DeadLasts(e, file, front, day, k, symbol);
      DayHoldsThrough(e, file, front, day);
      ClockMovesOn(e, RunActs(e, file, front), acts, day);
      ActKeepsDead(e, RunActs(e, file, front), acts[|acts| - 1], symbol);
    }
  }

  // A pair that a restart reads back is dead weight for the rest of the day, although the new
  // broker gives its order ids to other symbols: it never has an order or a position in
  // either object again, and blocks its symbol until the sweep.
  lemma ReloadedPairIsDead(e: Setup, file: AnchorFile, acts: seq<Act>, day: int, k: nat, symbol: Symbol)
    requires ValidSetup(e) && ValidTimes(e) && OneDayActs(acts, day)
    requires k < |acts| && acts[k].Restart? && symbol in RunActs(e, file, acts[..k]).state.pairs
    ensures var r := RunActs(e, file, acts);
      Untraded(r.state, {symbol}) && (symbol in r.state.pairs <==> !Late(e, r))
  {
    assert acts[..k + 1][..k] == acts[..k];
    DayHoldsThrough(e, file, acts[..k], day);
    RestartLoose(e, RunActs(e, file, acts[..k]).state, RunActs(e, file, acts[..k]).orphans);
    DeadLasts(e, file, acts, day, k + 1, symbol);
    DayHoldsThrough(e, file, acts, day);
  }

  // ---- a position that is not read back ----

  lemma RunOneAct(e: Setup, file: AnchorFile, acts: seq<Act>, a: Act)
    ensures RunActs(e, file, acts + [a]) == ActStep(e, RunActs(e, file, acts), a)
  {
    assert (acts + [a])[..|acts|] == acts;
  }

  // The gates a first pair of the day would have to pass.
  ghost predicate FirstGates(e: Setup, disk: AnchorFile, symbol: Symbol, now: Stamp) {
    && symbol in e.symbols && now.sec < e.noNewTradeAfter && now.sec < SweepSec(e)
    && (symbol in OnDisk(disk, now.day) || InWindow(e.anchor, now))
    && RiskControls.Blocked(Some(e.guardrails), 0, 0).None? && SizeFor(e, e.symbols[symbol]) != 0
  }

  lemma RestartedTick(e: Setup, s: State, symbol: Symbol, ltp: int, now: Stamp)
    requires Reloaded(s.disk).Some? && symbol !in Reloaded(s.disk).value && symbol in e.symbols
    ensures var n := TickStep(e, Restarted(s), symbol, ltp, now);
      && (symbol in n.pairs <==> FirstGates(e, s.anchors.disk, symbol, now))
      && (symbol in n.pairs ==> Reloaded(s.disk).value.Keys * n.pairs.Keys == n.pairs.Keys - {symbol})
  {
    var r := Restarted(s);
    NothingTriggered(EMPTY_BOOK, 0, e.symbols[symbol].securityId, ltp);
    var filled := FirstHalf(e, r, symbol, ltp, now);
    assert filled == BarSteps(e, r, symbol, ltp, now);
    PlaceShape(e, filled, symbol, now);
    SquareOffShape(e, SweepStep(e, PlacePairStep(e, filled, symbol, now), now), symbol, ltp, now);
  }

  // The run that restarts and then sees one tick of the symbol.
  ghost function AfterRestart(e: Setup, file: AnchorFile, acts: seq<Act>, symbol: Symbol, ltp: int, now: Stamp): Run {
    RunActs(e, file, acts + [Act.Restart] + [Live(Tick(symbol, ltp, now))])
  }

  lemma HeldIsUnpaired(e: Setup, s: State, orphans: set<Symbol>, symbol: Symbol)
    requires Loose(e, s, orphans) && symbol in s.positions
    ensures symbol in e.symbols && symbol !in s.pairs
  {
    assert symbol !in Without(s, orphans).pairs;
  }

  lemma RestartedActs(e: Setup, r: Run, symbol: Symbol, ltp: int, now: Stamp)
    requires Loose(e, r.state, r.orphans) && symbol in r.state.positions
    ensures symbol in e.symbols
    ensures var n := ActStep(e, ActStep(e, r, Act.Restart), Live(Tick(symbol, ltp, now)));
      && (symbol in n.state.pairs <==> FirstGates(e, r.state.anchors.disk, symbol, now))
      && (symbol in n.state.pairs ==> n.orphans == n.state.pairs.Keys - {symbol})
  {
    RestartLoose(e, r.state, r.orphans);
    HeldIsUnpaired(e, r.state, r.orphans, symbol);
    RestartedTick(e, r.state, symbol, ltp, now);
  }

  lemma AfterRestartPairs(e: Setup, file: AnchorFile, acts: seq<Act>, symbol: Symbol, ltp: int, now: Stamp)
    requires ValidSetup(e) && symbol in RunActs(e, file, acts).state.positions
    ensures var r := AfterRestart(e, file, acts, symbol, ltp, now);
      && (symbol in r.state.pairs <==> FirstGates(e, RunActs(e, file, acts).state.anchors.disk, symbol, now))
      && (symbol in r.state.pairs ==> r.orphans == r.state.pairs.Keys - {symbol})
      && symbol in e.symbols && Loose(e, r.state, r.orphans)
  {
    AlwaysLoose(e, file, acts);
    AlwaysLoose(e, file, acts + [Act.Restart] + [Live(Tick(symbol, ltp, now))]);
    RunOneAct(e, file, acts, Act.Restart);
    RunOneAct(e, file, acts + [Act.Restart], Live(Tick(symbol, ltp, now)));
    RestartedActs(e, RunActs(e, file, acts), symbol, ltp, now);
  }

  // A symbol held before a restart is paired again by its next tick exactly when the gates of
  // a first pair are open.
  lemma HeldSymbolPairsAgainIff(e: Setup, file: AnchorFile, acts: seq<Act>, symbol: Symbol, ltp: int, now: Stamp)
    requires ValidSetup(e) && symbol in RunActs(e, file, acts).state.positions
    ensures symbol in AfterRestart(e, file, acts, symbol, ltp, now).state.pairs
            <==> FirstGates(e, RunActs(e, file, acts).state.anchors.disk, symbol, now)
  {
    AfterRestartPairs(e, file, acts, symbol, ltp, now);
  }

  lemma PairFillsFirst(e: Setup, s: State, symbol: Symbol, now: Stamp)
    requires ValidSetup(e) && Loose(e, s, s.pairs.Keys - {symbol}) && symbol in s.pairs && symbol in e.symbols
    ensures symbol in FirstHalf(e, s, symbol, s.pairs[symbol].levels.longEntry, now).positions
  {
    var orphans, ltp := s.pairs.Keys - {symbol}, s.pairs[symbol].levels.longEntry;
    BarsShape(e, s, symbol, ltp, now);
    BarsLoose(e, s, orphans, symbol, ltp, now);
    var bars := BarSteps(e, s, symbol, ltp, now);
    var r := TickFrom(bars.book, 0, e.symbols[symbol].securityId, ltp);
    FillsWithout(bars.(book := r.0), orphans, symbol, r.1, now);
    FillsOfTick(e, Without(bars, orphans), symbol, ltp, now);
    assert symbol in Without(FirstHalf(e, s, symbol, ltp, now), orphans).positions;
  }

  lemma PairFills(e: Setup, s: State, symbol: Symbol, now: Stamp)
    requires ValidSetup(e) && Loose(e, s, s.pairs.Keys - {symbol}) && symbol in s.pairs && symbol in e.symbols
    requires now.sec < CloseSec(e)
    ensures symbol in TickStep(e, s, symbol, s.pairs[symbol].levels.longEntry, now).positions
  {
    var ltp := s.pairs[symbol].levels.longEntry;
    PairFillsFirst(e, s, symbol, now);
    var filled := FirstHalf(e, s, symbol, ltp, now);
    PlaceShape(e, filled, symbol, now);
    SquareOffShape(e, SweepStep(e, PlacePairStep(e, filled, symbol, now), now), symbol, ltp, now);
  }

  // And then it fills a second time when the price next reaches a trigger.
  lemma HeldSymbolFillsAgain(e: Setup, file: AnchorFile, acts: seq<Act>, symbol: Symbol, ltp: int, now: Stamp)
    requires ValidSetup(e) && symbol in RunActs(e, file, acts).state.positions && now.sec < CloseSec(e)
    requires FirstGates(e, RunActs(e, file, acts).state.anchors.disk, symbol, now)
    ensures var paired := AfterRestart(e, file, acts, symbol, ltp, now).state;
      && symbol in paired.pairs
      && symbol in EventStep(e, paired, Tick(symbol, paired.pairs[symbol].levels.longEntry, now)).positions
  {
    AfterRestartPairs(e, file, acts, symbol, ltp, now);
    PairFills(e, AfterRestart(e, file, acts, symbol, ltp, now).state, symbol, now);
  }
}
