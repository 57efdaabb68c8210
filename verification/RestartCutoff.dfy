// What the entry cut-off buys on days with restarts in them: flat by the close exactly when it
// comes before the sweep; but even then a restart can pair any symbol a second time.
module RestartCutoff {
  import opened Wrappers
  import Arithmetic
  import Levels
  import opened StrategyRunner
  import RiskControls
  import opened AnchorEngine
  import opened PaperBroker
  import opened TickSteps
  import opened TickCoupling
  import opened TickDay
  import opened TickRestart
  import opened RestartDay
  import opened TickCutoff

  // ---- flat by the close ----

  // The two triggers leave room for a price that reaches neither.
  lemma TriggersLeaveRoom(e: Setup, price: int)
    requires ValidSetup(e)
    ensures var l := BuildLevels(e.strategy, price); l.shortEntry + 2 <= l.longEntry
  {
    var tick := e.strategy.tickSize;
    var above, below := price + e.strategy.triggerDist, price - e.strategy.triggerDist;
    TriggersApart(e, price);
    Levels.RoundToTickNearest(above, tick);
    Levels.RoundToTickNearest(below, tick);
    if tick == 1 {
      assert above % 1 == 0 && below % 1 == 0;
    } else {
      var l := BuildLevels(e.strategy, price);
      Arithmetic.GridApart(l.longEntry, l.shortEntry, tick);
    }
  }

  // A tick between the triggers, after the sweep, leaves a pair standing.
  lemma PairStands(e: Setup, s: State, symbol: Symbol, ltp: int, now: Stamp)
    requires ValidSetup(e) && Coupled(e, s) && s.swept && symbol in s.pairs && symbol in e.symbols
    requires s.pairs[symbol].levels.shortEntry < ltp < s.pairs[symbol].levels.longEntry
    ensures symbol in TickStep(e, s, symbol, ltp, now).pairs
  {
    var bars := BarSteps(e, s, symbol, ltp, now);
    BarsShape(e, s, symbol, ltp, now);
    BarsCoupled(e, s, symbol, ltp, now);
    FillsOfTick(e, bars, symbol, ltp, now);
    PlaceShape(e, bars, symbol, now);
    SquareOffShape(e, SweepStep(e, PlacePairStep(e, bars, symbol, now), now), symbol, ltp, now);
  }

  // The whole day is flat by its close: every symbol, from its first tick at or after the
  // square-off time on, whatever restarts there are.
  ghost predicate FlatByClose(e: Setup, file: AnchorFile, day: int) {
    forall acts: seq<Act>, k: nat | OneDayActs(acts, day) && ClosingTick(e, acts, k) ::
      Flat(RunActs(e, file, acts).state, acts[k].event.symbol)
  }

  ghost predicate ClosingTick(e: Setup, acts: seq<Act>, k: nat) {
    && k < |acts| && IsTick(acts[k]) && acts[k].event.symbol in e.symbols
    && acts[k].event.now.sec >= CloseSec(e)
  }

  lemma LastTickOneDay(events: seq<Event>, last: Event, day: int)
    requires OneDay(events, day) && last.Tick? && last.now.day == day
    requires forall i :: 0 <= i < |events| && events[i].Tick? ==> events[i].now.sec <= last.now.sec
    ensures OneDay(events + [last], day)
  {
  }

  lemma OneMoreStands(e: Setup, file: AnchorFile, events: seq<Event>, symbol: Symbol, now: Stamp) returns (last: Event)
    requires ValidSetup(e) && symbol in e.symbols
    requires RunEvents(e, file, events).swept && PairedOn(e, RunEvents(e, file, events), symbol)
    ensures last.Tick? && last.symbol == symbol && last.now == now
    ensures symbol in RunEvents(e, file, events + [last]).pairs
  {
    var s := RunEvents(e, file, events);
    AlwaysCoupled(e, file, events);
    var price :| s.pairs[symbol].levels == BuildLevels(e.strategy, price);
    TriggersLeaveRoom(e, price);
    last := Tick(symbol, s.pairs[symbol].levels.shortEntry + 1, now);
    RunOneMore(e, file, events, last);
    PairStands(e, s, symbol, last.ltp, now);
  }

  // The late run with one more tick at the close, at a price between the triggers.
  lemma LateClose(e: Setup, file: AnchorFile, symbol: Symbol, day: int, captured: int)
      returns (events: seq<Event>, last: Event)
    requires ValidSetup(e) && symbol in e.symbols && SizeFor(e, e.symbols[symbol]) != 0
    requires RiskControls.Blocked(Some(e.guardrails), 0, 0).None? && Max(captured, SweepSec(e)) < e.noNewTradeAfter
    requires InWindow(e.anchor, Stamp(day, captured)) || (captured == SweepSec(e) && symbol in OnDisk(file, day))
    ensures last.Tick? && last.symbol == symbol && last.now.sec >= CloseSec(e)
    ensures OneDay(events + [last], day) && symbol in RunEvents(e, file, events + [last]).pairs
  {
    events := LateEvents(e, symbol, 100, day, captured);
    LateRun(e, file, symbol, 100, day, captured);
    var close := Stamp(day, Max(Max(captured, SweepSec(e)), CloseSec(e)));
    last := OneMoreStands(e, file, events, symbol, close);
    LateEventsTimes(e, symbol, 100, day, captured);
    LastTickOneDay(events, last, day);
  }

  lemma LateEventsTimes(e: Setup, symbol: Symbol, price: int, day: int, captured: int)
    ensures var events := LateEvents(e, symbol, price, day, captured);
      forall i :: 0 <= i < |events| && events[i].Tick? ==> events[i].now.sec <= Max(captured, SweepSec(e))
  {
  }

  // A day is flat by its close on every run, restarts or not, exactly when the cut-off comes no
  // later than the sweep, or no symbol can be paired at all.
  lemma FlatByCloseIff(e: Setup, file: AnchorFile, day: int)
    requires ValidSetup(e) && e.bufferSeconds >= 0
    ensures FlatByClose(e, file, day) <==> CutoffFirst(e, file, day)
  {
    if CutoffFirst(e, file, day) {
      forall acts: seq<Act>, k: nat | OneDayActs(acts, day) && ClosingTick(e, acts, k)
        ensures Flat(RunActs(e, file, acts).state, acts[k].event.symbol)
      {
        if e.noNewTradeAfter <= SweepSec(e) {
          FlatThroughRestarts(e, file, acts, day, k);
        } else {
          NeverPaired(e, file, acts, day);
        }
      }
    } else {
      var symbol :| symbol in e.symbols && Pairable(e, file, day, symbol);
      NotFlat(e, file, day, symbol);
    }
  }

  lemma NotFlat(e: Setup, file: AnchorFile, day: int, symbol: Symbol)
    requires ValidSetup(e) && Pairable(e, file, day, symbol) && SweepSec(e) < e.noNewTradeAfter
    ensures !FlatByClose(e, file, day)
  {
    var captured := CaptureTime(e, file, day, symbol);
    var events, last := LateClose(e, file, symbol, day, captured);
    var acts := LiveActs(events + [last]);
    LiveRunIsRun(e, file, events + [last]);
    LiveOneDay(events + [last], day);
    assert ClosingTick(e, acts, |events|) && acts[|events|].event.symbol == symbol;
    assert !Flat(RunActs(e, file, acts).state, symbol);
  }

  // ---- a second pair in a day ----

  // How often a symbol has gone from having no pair to having one.
  ghost function Pairings(e: Setup, file: AnchorFile, acts: seq<Act>, symbol: Symbol): nat {
    if acts == [] then 0
    else
      var front := acts[..|acts| - 1];
      Pairings(e, file, front, symbol)
      + if symbol in RunActs(e, file, acts).state.pairs && symbol !in RunActs(e, file, front).state.pairs then 1 else 0
  }

  lemma PairingsNext(e: Setup, file: AnchorFile, acts: seq<Act>, a: Act, symbol: Symbol)
    ensures Pairings(e, file, acts + [a], symbol)
            == Pairings(e, file, acts, symbol)
               + if symbol in RunActs(e, file, acts + [a]).state.pairs && symbol !in RunActs(e, file, acts).state.pairs
                 then 1 else 0
  {
    assert (acts + [a])[..|acts|] == acts;
  }

  lemma {:induction false} NoPairings(e: Setup, file: AnchorFile, acts: seq<Act>, day: int, symbol: Symbol)
    requires OneDayActs(acts, day) && forall x :: x in e.symbols ==> !Pairable(e, file, day, x)
    ensures Pairings(e, file, acts, symbol) == 0
  {
    if acts != [] {
      NoPairings(e, file, acts[..|acts| - 1], day, symbol);
      NeverPaired(e, file, acts, day);
    }
  }

  // The anchor is in memory, or would be read back, and on disk.
  ghost predicate OnFile(a: Anchors, day: int, symbol: Symbol) {
    symbol in Rolled(a, day).today && symbol in OnDisk(a.disk, day)
  }

  lemma {:induction false} FillsKeepAnchors(s: State, symbol: Symbol, fills: seq<Fill>, now: Stamp)
    ensures FillSteps(s, symbol, fills, now).anchors == s.anchors
  {
    if fills != [] {
      FillsKeepAnchors(s, symbol, fills[..|fills| - 1], now);
    }
  }

  lemma BarsKeepFile(e: Setup, s: State, symbol: Symbol, ltp: int, now: Stamp, x: Symbol)
    requires OnFile(s.anchors, now.day, x)
    ensures var n := BarSteps(e, s, symbol, ltp, now); OnFile(n.anchors, now.day, x) && n.anchors.day == Some(now.day)
  {
    var n := BarSteps(e, s, symbol, ltp, now);
    GateKeepsFile(e.anchor, s.anchors, symbol, n.bars[symbol].open, n.bars[symbol].start, now, x);
  }

  lemma GateKeepsFile(c: AnchorConfig, a: Anchors, symbol: Symbol, price: int, source: Stamp, now: Stamp, x: Symbol)
    requires OnFile(a, now.day, x)
    ensures var n := GatedTick(c, a, symbol, price, source, now); OnFile(n, now.day, x) && n.day == Some(now.day)
  {
  }

  lemma TickKeepsFile(e: Setup, s: State, symbol: Symbol, ltp: int, now: Stamp, x: Symbol)
    requires OnFile(s.anchors, now.day, x) && symbol in e.symbols
    ensures OnFile(TickStep(e, s, symbol, ltp, now).anchors, now.day, x)
  {
    var bars := BarSteps(e, s, symbol, ltp, now);
    var r := TickFrom(bars.book, 0, e.symbols[symbol].securityId, ltp);
    BarsKeepFile(e, s, symbol, ltp, now, x);
    FillsKeepAnchors(bars.(book := r.0), symbol, r.1, now);
    var filled := FirstHalf(e, s, symbol, ltp, now);
    ClosingKeepsFile(e, filled, symbol, ltp, now, x);
  }

  lemma ClosingKeepsFile(e: Setup, s: State, symbol: Symbol, ltp: int, now: Stamp, x: Symbol)
    requires OnFile(s.anchors, now.day, x) && s.anchors.day == Some(now.day) && symbol in e.symbols
    ensures SecondHalf(e, s, symbol, ltp, now).anchors == s.anchors
  {
    SquareOffShape(e, SweepStep(e, PlacePairStep(e, s, symbol, now), now), symbol, ltp, now);
  }

  // A time at which a symbol that can be paired at all is paired by a tick.
  lemma PairingTime(e: Setup, file: AnchorFile, day: int, symbol: Symbol) returns (sec: int)
    requires Pairable(e, file, day, symbol)
    ensures sec < e.noNewTradeAfter && (symbol in OnDisk(file, day) || InWindow(e.anchor, Stamp(day, sec)))
  {
    if symbol in OnDisk(file, day) {
      sec := e.noNewTradeAfter - 1;
    } else {
      sec :| sec < e.noNewTradeAfter && InWindow(e.anchor, Stamp(day, sec));
    }
  }

  ghost predicate TicksAt(acts: seq<Act>, now: Stamp) {
    forall i :: 0 <= i < |acts| ==> acts[i].Restart? || (IsTick(acts[i]) && acts[i].event.now == now)
  }

  // The anchor a run may start from is still on file.
  ghost predicate FileStands(e: Setup, file: AnchorFile, acts: seq<Act>, symbol: Symbol, day: int) {
    symbol in OnDisk(file, day) ==> OnFile(RunActs(e, file, acts).state.anchors, day, symbol)
  }

  // Its first tick pairs the symbol.
  lemma FirstTickPairs(e: Setup, file: AnchorFile, symbol: Symbol, now: Stamp) returns (acts: seq<Act>)
    requires ValidSetup(e) && FirstGates(e, file, symbol, now)
    ensures var r := RunActs(e, file, acts); symbol in r.state.pairs && r.orphans == r.state.pairs.Keys - {symbol}
    ensures Pairings(e, file, acts, symbol) == 1 && TicksAt(acts, now) && FileStands(e, file, acts, symbol, now.day)
  {
    var first := Live(Tick(symbol, 100, now));
    acts := [] + [first];
    RunOneAct(e, file, [], first);
    RestartedTick(e, Fresh(file), symbol, 100, now);
    PairingsNext(e, file, [], first, symbol);
    FirstTickKeepsFile(e, file, symbol, 100, now);
  }

  lemma FirstTickKeepsFile(e: Setup, file: AnchorFile, symbol: Symbol, ltp: int, now: Stamp)
    requires symbol in e.symbols
    ensures FileStands(e, file, [] + [Live(Tick(symbol, ltp, now))], symbol, now.day)
  {
    RunOneAct(e, file, [], Live(Tick(symbol, ltp, now)));
    if symbol in OnDisk(file, now.day) {
      TickKeepsFile(e, Fresh(file), symbol, ltp, now, symbol);
    }
  }

  lemma HeldRunUnpaired(e: Setup, file: AnchorFile, acts: seq<Act>, symbol: Symbol)
    requires ValidSetup(e) && symbol in RunActs(e, file, acts).state.positions
    ensures symbol in e.symbols && symbol !in RunActs(e, file, acts).state.pairs
  {
    AlwaysLoose(e, file, acts);
    HeldIsUnpaired(e, RunActs(e, file, acts).state, RunActs(e, file, acts).orphans, symbol);
  }

  lemma RestartKeepsPairs(e: Setup, file: AnchorFile, acts: seq<Act>)
    requires ValidSetup(e)
    ensures RunActs(e, file, acts + [Act.Restart]).state.pairs == RunActs(e, file, acts).state.pairs
  {
    AlwaysLoose(e, file, acts);
    RestartLoose(e, RunActs(e, file, acts).state, RunActs(e, file, acts).orphans);
    RunOneAct(e, file, acts, Act.Restart);
  }

  // A tick at the long trigger fills the pair.
  lemma TriggerFills(e: Setup, file: AnchorFile, acts: seq<Act>, symbol: Symbol, now: Stamp) returns (fill: Act)
    requires ValidSetup(e) && symbol in RunActs(e, file, acts).state.pairs && now.sec < CloseSec(e)
    requires RunActs(e, file, acts).orphans == RunActs(e, file, acts).state.pairs.Keys - {symbol}
    requires FileStands(e, file, acts, symbol, now.day)
    ensures IsTick(fill) && fill.event.now == now
    ensures symbol in RunActs(e, file, acts + [fill]).state.positions
    ensures FileStands(e, file, acts + [fill], symbol, now.day)
  {
    var r := RunActs(e, file, acts);
    fill := Live(Tick(symbol, r.state.pairs[symbol].levels.longEntry, now));
    AlwaysLoose(e, file, acts);
    PairFills(e, r.state, symbol, now);
    RunOneAct(e, file, acts, fill);
    if symbol in OnDisk(file, now.day) {
      TickKeepsFile(e, r.state, symbol, fill.event.ltp, now, symbol);
    }
  }

  lemma NextTickFills(e: Setup, file: AnchorFile, acts: seq<Act>, symbol: Symbol, now: Stamp) returns (more: seq<Act>)
    requires ValidSetup(e) && symbol in RunActs(e, file, acts).state.pairs && now.sec < CloseSec(e)
    requires RunActs(e, file, acts).orphans == RunActs(e, file, acts).state.pairs.Keys - {symbol}
    requires FileStands(e, file, acts, symbol, now.day) && TicksAt(acts, now)
    ensures TicksAt(more, now) && symbol in RunActs(e, file, more).state.positions
    ensures Pairings(e, file, more, symbol) == Pairings(e, file, acts, symbol)
    ensures FileStands(e, file, more, symbol, now.day)
  {
    var fill := TriggerFills(e, file, acts, symbol, now);
    more := acts + [fill];
    HeldRunUnpaired(e, file, more, symbol);
    PairingsNext(e, file, acts, fill, symbol);
  }

  // A restart pairs nothing, and leaves a symbol that was held to be paired by its next tick.
  lemma RestartFrees(e: Setup, file: AnchorFile, held: seq<Act>, symbol: Symbol, now: Stamp)
      returns (back: seq<Act>, again: Act)
    requires ValidSetup(e) && symbol in RunActs(e, file, held).state.positions && TicksAt(held, now)
    requires FirstGates(e, RunActs(e, file, held).state.anchors.disk, symbol, now)
    ensures TicksAt(back, now) && IsTick(again) && again.event.now == now
    ensures Pairings(e, file, back, symbol) == Pairings(e, file, held, symbol)
    ensures symbol !in RunActs(e, file, back).state.pairs && symbol in RunActs(e, file, back + [again]).state.pairs
  {
    back, again := held + [Act.Restart], Live(Tick(symbol, 100, now));
    HeldRunUnpaired(e, file, held, symbol);
    RestartKeepsPairs(e, file, held);
    HeldSymbolPairsAgainIff(e, file, held, symbol, 100, now);
    PairingsNext(e, file, held, Act.Restart, symbol);
  }

  // After a restart the next tick of a symbol that was held pairs it once more.
  lemma RestartPairsAgain(e: Setup, file: AnchorFile, held: seq<Act>, symbol: Symbol, now: Stamp)
      returns (more: seq<Act>)
    requires ValidSetup(e) && symbol in RunActs(e, file, held).state.positions && TicksAt(held, now)
    requires FirstGates(e, RunActs(e, file, held).state.anchors.disk, symbol, now)
    ensures TicksAt(more, now) && Pairings(e, file, more, symbol) == Pairings(e, file, held, symbol) + 1
  {
    var back, again := RestartFrees(e, file, held, symbol, now);
    PairingsNext(e, file, back, again, symbol);
    more := back + [again];
  }

  // Paired, filled, restarted, paired again.
  lemma PairedTwice(e: Setup, file: AnchorFile, symbol: Symbol, now: Stamp) returns (acts: seq<Act>)
    requires ValidSetup(e) && ValidTimes(e) && FirstGates(e, file, symbol, now)
    ensures OneDayActs(acts, now.day) && Pairings(e, file, acts, symbol) == 2
  {
    acts := FirstTickPairs(e, file, symbol, now);
    acts := NextTickFills(e, file, acts, symbol, now);
    acts := RestartPairsAgain(e, file, acts, symbol, now);
  }

  ghost predicate PairedOnce(e: Setup, file: AnchorFile, day: int) {
    forall acts: seq<Act>, symbol: Symbol | OneDayActs(acts, day) :: Pairings(e, file, acts, symbol) <= 1
  }

  // With restarts the cut-off is not enough: every run of the day pairs a symbol at most once
  // only where none can be paired at all.
  lemma PairedOnceIff(e: Setup, file: AnchorFile, day: int)
    requires ValidSetup(e) && ValidTimes(e)
    ensures PairedOnce(e, file, day) <==> forall x :: x in e.symbols ==> !Pairable(e, file, day, x)
  {
    if forall x :: x in e.symbols ==> !Pairable(e, file, day, x) {
      forall acts: seq<Act>, symbol: Symbol | OneDayActs(acts, day) ensures Pairings(e, file, acts, symbol) <= 1 {
        NoPairings(e, file, acts, day, symbol);
      }
    } else {
      var symbol :| symbol in e.symbols && Pairable(e, file, day, symbol);
      var sec := PairingTime(e, file, day, symbol);
      var acts := PairedTwice(e, file, symbol, Stamp(day, sec));
      assert Pairings(e, file, acts, symbol) == 2;
    }
  }
}
