// What the entry cut-off is for. The pre-square-off sweep fires once a day; whether it leaves
// the day without pairs, and a symbol with one pair a day, turns on the cut-off coming first.
module TickCutoff {
  import opened Wrappers
  import opened StrategyRunner
  import RiskControls
  import opened AnchorEngine
  import opened PaperBroker
  import opened TickSteps
  import opened TickCoupling
  import opened TickDay
  import opened TickRestart
  import opened RestartDay

  // ---- with the cut-off first ----

  // Once swept, no pair is left.
  ghost predicate SweptClean(e: Setup, s: State) {
    s.swept ==> s.pairs == map[] && TickedBy(s, SweepSec(e))
  }

  lemma TickKeepsClean(e: Setup, s: State, symbol: Symbol, ltp: int, now: Stamp)
    requires e.noNewTradeAfter <= SweepSec(e) && SweptClean(e, s) && symbol in e.symbols
    requires s.lastTickAt.Some? ==> s.lastTickAt.value.sec <= now.sec
    ensures var n := TickStep(e, s, symbol, ltp, now);
      SweptClean(e, n) && (s.swept ==> n.swept) && n.lastTickAt == Some(now)
  {
    FirstHalfOpensNothing(e, s, symbol, ltp, now);
    var filled := FirstHalf(e, s, symbol, ltp, now);
    PlaceShape(e, filled, symbol, now);
    SquareOffShape(e, SweepStep(e, PlacePairStep(e, filled, symbol, now), now), symbol, ltp, now);
  }

  lemma EventKeepsClean(e: Setup, s: State, events: seq<Event>, day: int)
    requires e.noNewTradeAfter <= SweepSec(e) && OneDay(events, day) && events != []
    requires SweptClean(e, s) && LastTickIsAnEvent(s, events[..|events| - 1])
    ensures var n := EventStep(e, s, events[|events| - 1]);
      SweptClean(e, n) && LastTickIsAnEvent(n, events) && (s.swept ==> n.swept)
  {
    var last := events[|events| - 1];
    if last.Tick? && last.symbol in e.symbols {
      TimeMovesOn(s, events, day);
      TickKeepsClean(e, s, last.symbol, last.ltp, last.now);
    }
    LastTickKept(s, EventStep(e, s, last), events);
  }

  lemma {:induction false} DayKeepsClean(e: Setup, file: AnchorFile, events: seq<Event>, day: int)
    requires e.noNewTradeAfter <= SweepSec(e) && OneDay(events, day)
    ensures var s := RunEvents(e, file, events); SweptClean(e, s) && LastTickIsAnEvent(s, events)
  {
    if events != [] {
      DayKeepsClean(e, file, events[..|events| - 1], day);
      EventKeepsClean(e, RunEvents(e, file, events[..|events| - 1]), events, day);
    }
  }

  // Once the sweep has fired no symbol has a pair again that day.
  lemma {:induction false} NoPairAfterSweep(e: Setup, file: AnchorFile, events: seq<Event>, day: int, k: nat)
    requires e.noNewTradeAfter <= SweepSec(e) && OneDay(events, day) && k <= |events|
    ensures var s := RunEvents(e, file, events); RunEvents(e, file, events[..k]).swept ==> s.swept && s.pairs == map[]
  {
    DayKeepsClean(e, file, events, day);
    if k == |events| {
      assert events[..k] == events;
    } else {
      var n := |events| - 1;
      assert events[..n][..k] == events[..k];
      NoPairAfterSweep(e, file, events[..n], day, k);
      DayKeepsClean(e, file, events[..n], day);
      EventKeepsClean(e, RunEvents(e, file, events[..n]), events, day);
    }
  }

  // ---- a symbol that can be paired at all ----

  // The symbol can be sized, an empty book blocks no entry, and its anchor is on file or can
  // be taken before the cut-off.
  ghost predicate Pairable(e: Setup, file: AnchorFile, day: int, symbol: Symbol) {
    && symbol in e.symbols && SizeFor(e, e.symbols[symbol]) != 0 && RiskControls.Blocked(Some(e.guardrails), 0, 0).None?
    && (symbol in OnDisk(file, day) || exists sec :: sec < e.noNewTradeAfter && InWindow(e.anchor, Stamp(day, sec)))
  }

  // A tick so far, in this process or an earlier one, came late enough to capture.
  ghost predicate CaptureSeen(e: Setup, clock: Option<int>, day: int) {
    clock.Some? && exists sec :: sec <= clock.value && InWindow(e.anchor, Stamp(day, sec))
  }

  ghost predicate AnchorsKnown(e: Setup, anchors: map<Symbol, AnchorRecord>, file: AnchorFile, day: int,
      clock: Option<int>)
  {
    forall x :: x in anchors ==> x in OnDisk(file, day) || CaptureSeen(e, clock, day)
  }

  // Nothing ever happens: no pair, position or order, and no anchor but on file or captured
  // by a tick so far.
  ghost predicate Idle(e: Setup, s: State, file: AnchorFile, day: int, clock: Option<int>) {
    && s.pairs == map[] && s.disk == map[] && s.positions == map[] && s.book == EMPTY_BOOK
    && s.dayPnl == 0 && s.dayTrades == 0
    && AnchorsKnown(e, Rolled(s.anchors, day).today, file, day, clock)
    && AnchorsKnown(e, OnDisk(s.anchors.disk, day), file, day, clock)
  }

  // Polling the gate adds the ticking symbol only, and only inside the window.
  lemma GateKnown(e: Setup, a: Anchors, file: AnchorFile, clock: Option<int>, symbol: Symbol, price: int,
      source: Stamp, now: Stamp)
    requires AnchorsKnown(e, Rolled(a, now.day).today, file, now.day, clock)
    requires AnchorsKnown(e, OnDisk(a.disk, now.day), file, now.day, clock)
    requires clock.Some? ==> clock.value <= now.sec
    ensures var n := GatedTick(e.anchor, a, symbol, price, source, now);
      && n.day == Some(now.day)
      && AnchorsKnown(e, n.today, file, now.day, Some(now.sec))
      && AnchorsKnown(e, OnDisk(n.disk, now.day), file, now.day, Some(now.sec))
  {
    if clock.Some? && CaptureSeen(e, clock, now.day) {
      var sec :| sec <= clock.value && InWindow(e.anchor, Stamp(now.day, sec));
      assert sec <= now.sec;
    }
    if InWindow(e.anchor, now) {
      assert InWindow(e.anchor, Stamp(now.day, now.sec));
    }
  }

  lemma IdleBars(e: Setup, s: State, file: AnchorFile, clock: Option<int>, symbol: Symbol, ltp: int, now: Stamp)
    requires Idle(e, s, file, now.day, clock) && symbol in e.symbols
    requires clock.Some? ==> clock.value <= now.sec
    ensures var n := FirstHalf(e, s, symbol, ltp, now);
      Idle(e, n, file, now.day, Some(now.sec)) && n.anchors.day == Some(now.day)
  {
    var n := BarSteps(e, s, symbol, ltp, now);
    assert TickFrom(EMPTY_BOOK, 0, e.symbols[symbol].securityId, ltp) == (EMPTY_BOOK, []);
    assert FirstHalf(e, s, symbol, ltp, now) == n;
    GateKnown(e, s.anchors, file, clock, symbol, n.bars[symbol].open, n.bars[symbol].start, now);
  }

  lemma IdlePlaces(e: Setup, s: State, file: AnchorFile, symbol: Symbol, now: Stamp)
    requires Idle(e, s, file, now.day, Some(now.sec)) && s.anchors.day == Some(now.day)
    requires symbol in e.symbols && !Pairable(e, file, now.day, symbol)
    ensures PlacePairStep(e, s, symbol, now) == s
  {
  }

  lemma IdleSweeps(e: Setup, s: State, file: AnchorFile, day: int, clock: Option<int>, now: Stamp)
    requires Idle(e, s, file, day, clock)
    ensures Idle(e, SweepStep(e, s, now), file, day, clock)
  {
    var n := SweepStep(e, s, now);
    assert n.book.orders == [];
    assert n.book == EMPTY_BOOK;
  }

  lemma IdleTick(e: Setup, s: State, file: AnchorFile, clock: Option<int>, symbol: Symbol, ltp: int, now: Stamp)
    requires Idle(e, s, file, now.day, clock) && symbol in e.symbols && !Pairable(e, file, now.day, symbol)
    requires clock.Some? ==> clock.value <= now.sec
    ensures Idle(e, TickStep(e, s, symbol, ltp, now), file, now.day, Some(now.sec))
  {
    IdleBars(e, s, file, clock, symbol, ltp, now);
    var filled := FirstHalf(e, s, symbol, ltp, now);
    IdlePlaces(e, filled, file, symbol, now);
    IdleSweeps(e, filled, file, now.day, Some(now.sec), now);
    var swept := SweepStep(e, filled, now);
    var n := SquareOffStep(e, swept, symbol, ltp, now);
    assert n == swept.(squaredOff := n.squaredOff);
  }

  lemma IdleAct(e: Setup, r: Run, file: AnchorFile, day: int, a: Act)
    requires Idle(e, r.state, file, day, r.clock) && forall x :: x in e.symbols ==> !Pairable(e, file, day, x)
    requires IsTick(a) ==> a.event.now.day == day && (r.clock.Some? ==> r.clock.value <= a.event.now.sec)
    ensures var n := ActStep(e, r, a); Idle(e, n.state, file, day, n.clock)
  {
    match a
    case Restart =>
      assert Reloaded(r.state.disk) == Some(map[]);
    case Live(event) =>
      if event.Tick? && event.symbol in e.symbols {
        IdleTick(e, r.state, file, r.clock, event.symbol, event.ltp, event.now);
      }
  }

  // A day on which no symbol can be paired, restarts or not.
  lemma {:induction false} NeverPaired(e: Setup, file: AnchorFile, acts: seq<Act>, day: int)
    requires OneDayActs(acts, day) && forall x :: x in e.symbols ==> !Pairable(e, file, day, x)
    ensures var r := RunActs(e, file, acts); Idle(e, r.state, file, day, r.clock) && ClockIsAnAct(r, acts)
  {
    if acts != [] {
      var n := |acts| - 1;
      NeverPaired(e, file, acts[..n], day);
      ClockMovesOn(e, RunActs(e, file, acts[..n]), acts, day);
      IdleAct(e, RunActs(e, file, acts[..n]), file, day, acts[n]);
    }
  }

  lemma NeverPairedLive(e: Setup, file: AnchorFile, events: seq<Event>, day: int)
    requires OneDay(events, day) && forall x :: x in e.symbols ==> !Pairable(e, file, day, x)
    ensures var s := RunEvents(e, file, events); s.pairs == map[] && s.book == EMPTY_BOOK
  {
    LiveOneDay(events, day);
    LiveRunIsRun(e, file, events);
    NeverPaired(e, file, LiveActs(events), day);
  }

  // ---- with the sweep first ----

  // A book with nothing in it that could still fill or be closed.
  ghost predicate Quiet(s: State) {
    && s.pairs == map[] && s.positions == map[] && s.dayPnl == 0 && s.dayTrades == 0
    && forall i :: 0 <= i < |s.book.orders| ==> s.book.orders[i].status != Open
  }

  lemma QuietBars(e: Setup, s: State, symbol: Symbol, ltp: int, now: Stamp)
    requires Quiet(s) && symbol in e.symbols
    ensures var n := FirstHalf(e, s, symbol, ltp, now);
      && Quiet(n) && n.book == s.book && n.paused == s.paused && n.swept == s.swept
      && n.anchors.day == Some(now.day)
      && (symbol in Rolled(s.anchors, now.day).today || InWindow(e.anchor, now) ==> symbol in n.anchors.today)
  {
    NothingTriggered(s.book, 0, e.symbols[symbol].securityId, ltp);
    assert FirstHalf(e, s, symbol, ltp, now) == BarSteps(e, s, symbol, ltp, now);
  }

  lemma SweepQuiets(e: Setup, s: State, symbol: Symbol, now: Stamp)
    requires now.sec >= SweepSec(e) && !s.swept && s.positions == map[] && s.dayPnl == 0 && s.dayTrades == 0
    requires forall i :: 0 <= i < |s.book.orders| && s.book.orders[i].status == Open ==> InPair(s.pairs, i)
    ensures var n := SweepStep(e, s, now);
      && Quiet(n) && n.swept && n.anchors == s.anchors && n.paused == s.paused
      && OrdersOf(n.book.orders, symbol) == OrdersOf(s.book.orders, symbol)
  {
    SameCounts(s.book.orders, SweepStep(e, s, now).book.orders, symbol);
  }

  ghost predicate GatesOpen(e: Setup, s: State, symbol: Symbol, now: Stamp) {
    && symbol in e.symbols && SizeFor(e, e.symbols[symbol]) != 0 && RiskControls.Blocked(Some(e.guardrails), 0, 0).None?
    && now.sec < e.noNewTradeAfter && !s.paused
    && (symbol in Rolled(s.anchors, now.day).today || InWindow(e.anchor, now))
  }

  // The symbol has a pair, at the levels of some anchor.
  ghost predicate PairedOn(e: Setup, s: State, symbol: Symbol) {
    symbol in s.pairs && exists price :: s.pairs[symbol].levels == BuildLevels(e.strategy, price)
  }

  // A tick between the sweep and the cut-off places a pair: the first such tick sweeps it
  // away again, and any later one leaves it.
  lemma LateTick(e: Setup, s: State, symbol: Symbol, ltp: int, now: Stamp)
    requires Quiet(s) && GatesOpen(e, s, symbol, now) && now.sec >= SweepSec(e)
    ensures var n := TickStep(e, s, symbol, ltp, now);
      && n.swept && OrdersOf(n.book.orders, symbol) == OrdersOf(s.book.orders, symbol) + 2
      && (if s.swept then PairedOn(e, n, symbol) else Quiet(n) && GatesOpen(e, n, symbol, now))
  {
    QuietBars(e, s, symbol, ltp, now);
    var filled := FirstHalf(e, s, symbol, ltp, now);
    PlaceShape(e, filled, symbol, now);
    PlacedLevels(e, filled, symbol, now);
    var placed := PlacePairStep(e, filled, symbol, now);
    var pair := placed.pairs[symbol];
    TwoMoreOrders(filled.book.orders, RestingLeg(e, symbol, pair, Long), RestingLeg(e, symbol, pair, Short), symbol);
    SquareOffShape(e, SweepStep(e, placed, now), symbol, ltp, now);
    if !s.swept {
      PlacedInPair(e, filled, symbol, now);
      SweepQuiets(e, placed, symbol, now);
      assert SquareOffStep(e, SweepStep(e, placed, now), symbol, ltp, now).positions == map[];
    }
  }

  lemma PlacedInPair(e: Setup, s: State, symbol: Symbol, now: Stamp)
    requires Quiet(s) && symbol in e.symbols && symbol in PlacePairStep(e, s, symbol, now).pairs
    ensures var n := PlacePairStep(e, s, symbol, now);
      forall i :: 0 <= i < |n.book.orders| && n.book.orders[i].status == Open ==> InPair(n.pairs, i)
  {
    var n := PlacePairStep(e, s, symbol, now);
    assert n.pairs[symbol].longId == |s.book.orders| && n.pairs[symbol].shortId == |s.book.orders| + 1;
  }

  // Capturing the anchor while paused places nothing.
  lemma PausedCapture(e: Setup, s: State, symbol: Symbol, ltp: int, now: Stamp)
    requires Quiet(s) && symbol in e.symbols && s.paused && !s.swept && now.sec < SweepSec(e)
    requires InWindow(e.anchor, now)
    ensures var n := TickStep(e, s, symbol, ltp, now);
      && Quiet(n) && !n.swept && n.paused && n.book.orders == s.book.orders
      && n.anchors.day == Some(now.day) && symbol in n.anchors.today
  {
    QuietBars(e, s, symbol, ltp, now);
    SquareOffShape(e, FirstHalf(e, s, symbol, ltp, now), symbol, ltp, now);
    assert SquareOffStep(e, FirstHalf(e, s, symbol, ltp, now), symbol, ltp, now).positions == map[];
  }

  // Up to the tick that sweeps: the anchor taken while paused, if it is not on file and has
  // to be taken before the sweep.
  function EarlyEvents(e: Setup, symbol: Symbol, price: int, day: int, captured: int): seq<Event> {
    if captured < SweepSec(e) then [Pause, Tick(symbol, price, Stamp(day, captured)), Resume] else []
  }

  function LateEvents(e: Setup, symbol: Symbol, price: int, day: int, captured: int): seq<Event> {
    var late := Tick(symbol, price, Stamp(day, Max(captured, SweepSec(e))));
    EarlyEvents(e, symbol, price, day, captured) + [late] + [late]
  }

  lemma RunOneMore(e: Setup, file: AnchorFile, events: seq<Event>, event: Event)
    ensures RunEvents(e, file, events + [event]) == EventStep(e, RunEvents(e, file, events), event)
  {
    assert (events + [event])[..|events|] == events;
  }

  lemma EarlyRun(e: Setup, file: AnchorFile, symbol: Symbol, price: int, day: int, captured: int)
    requires symbol in e.symbols && SizeFor(e, e.symbols[symbol]) != 0
    requires RiskControls.Blocked(Some(e.guardrails), 0, 0).None?
    requires Max(captured, SweepSec(e)) < e.noNewTradeAfter
    requires InWindow(e.anchor, Stamp(day, captured)) || (captured == SweepSec(e) && symbol in OnDisk(file, day))
    ensures var s := RunEvents(e, file, EarlyEvents(e, symbol, price, day, captured));
      Quiet(s) && !s.swept && s.book.orders == [] && GatesOpen(e, s, symbol, Stamp(day, Max(captured, SweepSec(e))))
  {
    if captured < SweepSec(e) {
      var tick := Tick(symbol, price, Stamp(day, captured));
      RunOneMore(e, file, [], Pause);
      RunOneMore(e, file, [Pause], tick);
      RunOneMore(e, file, [Pause, tick], Resume);
      assert [] + [Pause] == [Pause] && [Pause] + [tick] == [Pause, tick];
      assert [Pause, tick] + [Resume] == [Pause, tick, Resume];
      PausedCapture(e, RunEvents(e, file, [Pause]), symbol, price, tick.now);
    }
  }

  lemma LateOneDay(e: Setup, symbol: Symbol, price: int, day: int, captured: int)
    ensures OneDay(LateEvents(e, symbol, price, day, captured), day)
    ensures var events := LateEvents(e, symbol, price, day, captured);
      var late := Tick(symbol, price, Stamp(day, Max(captured, SweepSec(e))));
      events[..|events| - 1] == EarlyEvents(e, symbol, price, day, captured) + [late]
  {
  }

  // A whole day, in time order, whose sweep has fired and which ends with the symbol paired
  // for the second time.
  lemma LateRun(e: Setup, file: AnchorFile, symbol: Symbol, price: int, day: int, captured: int)
    requires symbol in e.symbols && SizeFor(e, e.symbols[symbol]) != 0
    requires RiskControls.Blocked(Some(e.guardrails), 0, 0).None?
    requires Max(captured, SweepSec(e)) < e.noNewTradeAfter
    requires InWindow(e.anchor, Stamp(day, captured)) || (captured == SweepSec(e) && symbol in OnDisk(file, day))
    ensures var events := LateEvents(e, symbol, price, day, captured);
      && OneDay(events, day) && RunEvents(e, file, events[..|events| - 1]).swept && RunEvents(e, file, events).swept
      && PairedOn(e, RunEvents(e, file, events), symbol)
      && OrdersOf(RunEvents(e, file, events).book.orders, symbol) == 4
  {
    var now := Stamp(day, Max(captured, SweepSec(e)));
    var early, late := EarlyEvents(e, symbol, price, day, captured), Tick(symbol, price, now);
    EarlyRun(e, file, symbol, price, day, captured);
    TwoLateTicks(e, file, early, symbol, price, now);
    LateOneDay(e, symbol, price, day, captured);
  }

  lemma TwoLateTicks(e: Setup, file: AnchorFile, early: seq<Event>, symbol: Symbol, price: int, now: Stamp)
    requires Quiet(RunEvents(e, file, early)) && !RunEvents(e, file, early).swept
    requires RunEvents(e, file, early).book.orders == []
    requires GatesOpen(e, RunEvents(e, file, early), symbol, now) && now.sec >= SweepSec(e)
    ensures var late := Tick(symbol, price, now);
      var s, n := RunEvents(e, file, early + [late]), RunEvents(e, file, early + [late] + [late]);
      s.swept && n.swept && PairedOn(e, n, symbol) && OrdersOf(n.book.orders, symbol) == 4
  {
    var late := Tick(symbol, price, now);
    RunOneMore(e, file, early, late);
    RunOneMore(e, file, early + [late], late);
    LateTick(e, RunEvents(e, file, early), symbol, price, now);
    LateTick(e, RunEvents(e, file, early + [late]), symbol, price, now);
  }

  lemma CaptureTime(e: Setup, file: AnchorFile, day: int, symbol: Symbol) returns (captured: int)
    requires Pairable(e, file, day, symbol) && SweepSec(e) < e.noNewTradeAfter
    ensures Max(captured, SweepSec(e)) < e.noNewTradeAfter
    ensures InWindow(e.anchor, Stamp(day, captured)) || (captured == SweepSec(e) && symbol in OnDisk(file, day))
  {
    if symbol in OnDisk(file, day) {
      captured := SweepSec(e);
    } else {
      captured :| captured < e.noNewTradeAfter && InWindow(e.anchor, Stamp(day, captured));
    }
  }

  // ---- exactly when ----

  ghost predicate CutoffFirst(e: Setup, file: AnchorFile, day: int) {
    e.noNewTradeAfter <= SweepSec(e) || forall x :: x in e.symbols ==> !Pairable(e, file, day, x)
  }

  ghost predicate SweepIsFinal(e: Setup, file: AnchorFile, day: int) {
    forall events: seq<Event>, k: nat | OneDay(events, day) && k <= |events| ::
      RunEvents(e, file, events[..k]).swept ==> RunEvents(e, file, events).pairs == map[]
  }

  // No day is left with a pair after its sweep exactly when the cut-off comes no later than
  // the sweep, or no symbol can be paired at all.
  lemma SweepIsFinalIff(e: Setup, file: AnchorFile, day: int)
    ensures SweepIsFinal(e, file, day) <==> CutoffFirst(e, file, day)
  {
    if CutoffFirst(e, file, day) {
      forall events: seq<Event>, k: nat | OneDay(events, day) && k <= |events|
        ensures RunEvents(e, file, events[..k]).swept ==> RunEvents(e, file, events).pairs == map[]
      {
        if e.noNewTradeAfter <= SweepSec(e) {
          NoPairAfterSweep(e, file, events, day, k);
        } else {
          NeverPairedLive(e, file, events, day);
        }
      }
    } else {
      var symbol :| symbol in e.symbols && Pairable(e, file, day, symbol);
      var captured := CaptureTime(e, file, day, symbol);
      LateRun(e, file, symbol, 100, day, captured);
      var events := LateEvents(e, symbol, 100, day, captured);
      assert RunEvents(e, file, events[..|events| - 1]).swept && RunEvents(e, file, events).pairs != map[];
    }
  }

  ghost predicate OnePairADay(e: Setup, file: AnchorFile, day: int) {
    forall events: seq<Event>, symbol: Symbol | OneDay(events, day) ::
      var orders := RunEvents(e, file, events).book.orders;
      OrdersOf(orders, symbol) in {0, 2} && FillsOf(orders, symbol) <= 1
  }

  // And exactly then does a symbol see at most one pair of orders, and one fill, in a day.
  lemma OnePairADayIff(e: Setup, file: AnchorFile, day: int)
    requires ValidSetup(e) && e.bufferSeconds >= 0
    ensures OnePairADay(e, file, day) <==> CutoffFirst(e, file, day)
  {
    if CutoffFirst(e, file, day) {
      forall events: seq<Event>, symbol: Symbol | OneDay(events, day)
        ensures var orders := RunEvents(e, file, events).book.orders;
          OrdersOf(orders, symbol) in {0, 2} && FillsOf(orders, symbol) <= 1
      {
        if e.noNewTradeAfter <= SweepSec(e) {
          OnePairOneFill(e, file, events, day, symbol);
        } else {
          NeverPairedLive(e, file, events, day);
        }
      }
    } else {
      var symbol :| symbol in e.symbols && Pairable(e, file, day, symbol);
      var captured := CaptureTime(e, file, day, symbol);
      LateRun(e, file, symbol, 100, day, captured);
      assert OrdersOf(RunEvents(e, file, LateEvents(e, symbol, 100, day, captured)).book.orders, symbol) == 4;
    }
  }
}
