// What the guard-rails do inside the orchestrator. It counts a trade only at the square-off,
// so before it the limits are always judged on an empty book.
module TickLimits {
  import opened Wrappers
  import opened StrategyRunner
  import RiskControls
  import opened AnchorEngine
  import opened TickSteps
  import opened TickCoupling
  import opened TickDay
  import RestartDay
  import TickCutoff
  import opened ExecutionLimits

  lemma EventBooksNothing(e: Setup, s: State, event: Event)
    requires event.Tick? ==> event.now.sec < CloseSec(e)
    ensures var n := EventStep(e, s, event); n.dayPnl == s.dayPnl && n.dayTrades == s.dayTrades
  {
    if event.Tick? && event.symbol in e.symbols {
      UntouchedBooks(e, s, event.symbol, event.ltp, event.now);
    }
  }

  // Until the square-off nothing has been booked.
  lemma {:induction false} NothingBookedBeforeClose(e: Setup, file: AnchorFile, events: seq<Event>)
    requires forall i :: 0 <= i < |events| && events[i].Tick? ==> events[i].now.sec < CloseSec(e)
    ensures var s := RunEvents(e, file, events); s.dayPnl == 0 && s.dayTrades == 0
  {
    if events != [] {
      var n := |events| - 1;
      NothingBookedBeforeClose(e, file, events[..n]);
      EventBooksNothing(e, RunEvents(e, file, events[..n]), events[n]);
    }
  }

  // With the cut-off no later than the square-off, a tick that may still place a pair finds
  // the guard-rails as they were before the day's first trade: they refuse it exactly when
  // they refuse every entry.
  lemma GuardRailsSeeEmptyBook(e: Setup, file: AnchorFile, events: seq<Event>, day: int, symbol: Symbol,
      ltp: int, now: Stamp)
    requires e.noNewTradeAfter <= CloseSec(e) && symbol in e.symbols && now.sec < e.noNewTradeAfter
    requires OneDay(events + [Tick(symbol, ltp, now)], day)
    ensures var s := FirstHalf(e, RunEvents(e, file, events), symbol, ltp, now);
      RiskControls.Blocked(Some(e.guardrails), s.dayTrades, s.dayPnl) == RiskControls.Blocked(Some(e.guardrails), 0, 0)
  {
    var all := events + [Tick(symbol, ltp, now)];
    forall i | 0 <= i < |events| && events[i].Tick? ensures events[i].now.sec < CloseSec(e) {
      assert all[i] == events[i] && all[|events|] == Tick(symbol, ltp, now);
    }
    NothingBookedBeforeClose(e, file, events);
    FirstHalfOpensNothing(e, RunEvents(e, file, events), symbol, ltp, now);
  }

  // ---- so the trade limit does not bound how many symbols trade ----

  // Every pair so far has filled, and the anchors are those on file.
  ghost predicate Trading(e: Setup, s: State, file: AnchorFile, day: int, held: set<Symbol>) {
    && Coupled(e, s) && s.pairs == map[] && s.positions.Keys == held
    && s.dayPnl == 0 && s.dayTrades == 0 && !s.paused
    && AnchorsStand(s.anchors, file, day)
  }

  // The anchors on file are the engine's.
  ghost predicate AnchorsStand(a: Anchors, file: AnchorFile, day: int) {
    var today := Rolled(a, day).today;
    forall x :: x in OnDisk(file, day) ==> x in today && today[x] == OnDisk(file, day)[x]
  }

  lemma GateStands(c: AnchorConfig, a: Anchors, file: AnchorFile, symbol: Symbol, price: int, source: Stamp, now: Stamp)
    requires AnchorsStand(a, file, now.day)
    ensures var n := GatedTick(c, a, symbol, price, source, now);
      AnchorsStand(n, file, now.day) && n.day == Some(now.day)
  {
  }

  lemma BarsStand(e: Setup, s: State, file: AnchorFile, symbol: Symbol, ltp: int, now: Stamp)
    requires AnchorsStand(s.anchors, file, now.day)
    ensures var n := BarSteps(e, s, symbol, ltp, now);
      AnchorsStand(n.anchors, file, now.day) && n.anchors.day == Some(now.day)
  {
    var n := BarSteps(e, s, symbol, ltp, now);
    GateStands(e.anchor, s.anchors, file, symbol, n.bars[symbol].open, n.bars[symbol].start, now);
  }

  ghost predicate CanTrade(e: Setup, file: AnchorFile, symbol: Symbol, now: Stamp) {
    && symbol in e.symbols && symbol in OnDisk(file, now.day) && SizeFor(e, e.symbols[symbol]) != 0
    && RiskControls.Blocked(Some(e.guardrails), 0, 0).None?
    && now.sec < e.noNewTradeAfter && now.sec < SweepSec(e) && now.sec < CloseSec(e)
  }

  lemma PlacingHalf(e: Setup, s: State, file: AnchorFile, symbol: Symbol, ltp: int, now: Stamp)
    requires CanTrade(e, file, symbol, now) && s.pairs == map[] && symbol !in s.positions
    requires s.dayPnl == 0 && s.dayTrades == 0 && !s.paused
    requires s.anchors.day == Some(now.day) && AnchorsStand(s.anchors, file, now.day)
    ensures var n := SecondHalf(e, s, symbol, ltp, now);
      && n.pairs.Keys == {symbol} && n.positions == s.positions && n.dayPnl == 0 && n.dayTrades == 0 && !n.paused
      && n.pairs[symbol].levels == BuildLevels(e.strategy, OnDisk(file, now.day)[symbol].price)
      && n.anchors == s.anchors
  {
    PlaceShape(e, s, symbol, now);
    PlacedLevels(e, s, symbol, now);
  }

  lemma PlacingTick(e: Setup, s: State, file: AnchorFile, held: set<Symbol>, symbol: Symbol, ltp: int, now: Stamp)
    requires ValidSetup(e) && CanTrade(e, file, symbol, now) && Trading(e, s, file, now.day, held) && symbol !in held
    ensures var n := TickStep(e, s, symbol, ltp, now);
      && n.pairs.Keys == {symbol} && n.positions.Keys == held && n.dayPnl == 0 && n.dayTrades == 0 && !n.paused
      && n.pairs[symbol].levels == BuildLevels(e.strategy, OnDisk(file, now.day)[symbol].price)
      && n.anchors.day == Some(now.day) && AnchorsStand(n.anchors, file, now.day)
  {
    var bars := BarSteps(e, s, symbol, ltp, now);
    BarsShape(e, s, symbol, ltp, now);
    BarsStand(e, s, file, symbol, ltp, now);
    RestartDay.UnpairedFillsNothing(e, s, symbol, ltp, now);
    PlacingHalf(e, bars, file, symbol, ltp, now);
  }

  lemma FillingHalf(e: Setup, s: State, held: set<Symbol>, symbol: Symbol, ltp: int, now: Stamp)
    requires ValidSetup(e) && symbol in e.symbols && Coupled(e, s) && s.pairs.Keys == {symbol}
    requires s.positions.Keys == held
    requires s.pairs[symbol].levels.longEntry == ltp
    ensures var n := FirstHalf(e, s, symbol, ltp, now);
      && n.pairs == map[] && n.positions.Keys == held + {symbol} && n.dayPnl == s.dayPnl && n.dayTrades == s.dayTrades
      && n.paused == s.paused && n.anchors == BarSteps(e, s, symbol, ltp, now).anchors
  {
    var bars := BarSteps(e, s, symbol, ltp, now);
    BarsShape(e, s, symbol, ltp, now);
    BarsCoupled(e, s, symbol, ltp, now);
    FillsOfTick(e, bars, symbol, ltp, now);
  }

  // While it holds a position, and before the sweep, a symbol's tick ends with its fills.
  lemma HeldSecondHalf(e: Setup, s: State, symbol: Symbol, ltp: int, now: Stamp)
    requires symbol in e.symbols && symbol in s.positions && now.sec < SweepSec(e) && now.sec < CloseSec(e)
    ensures SecondHalf(e, s, symbol, ltp, now) == s
  {
  }

  lemma FillingTick(e: Setup, s: State, file: AnchorFile, held: set<Symbol>, symbol: Symbol, ltp: int, now: Stamp)
    requires ValidSetup(e) && symbol in e.symbols && Coupled(e, s) && s.pairs.Keys == {symbol}
    requires s.positions.Keys == held
    requires s.pairs[symbol].levels.longEntry == ltp && AnchorsStand(s.anchors, file, now.day)
    requires now.sec < SweepSec(e) && now.sec < CloseSec(e)
    ensures var n := TickStep(e, s, symbol, ltp, now);
      && n.pairs == map[] && n.positions.Keys == held + {symbol} && n.dayPnl == s.dayPnl && n.dayTrades == s.dayTrades
      && n.paused == s.paused && AnchorsStand(n.anchors, file, now.day)
  {
    FillingHalf(e, s, held, symbol, ltp, now);
    BarsStand(e, s, file, symbol, ltp, now);
    HeldSecondHalf(e, FirstHalf(e, s, symbol, ltp, now), symbol, ltp, now);
  }

  lemma TradeNext(e: Setup, s: State, file: AnchorFile, held: set<Symbol>, symbol: Symbol, now: Stamp)
    requires ValidSetup(e) && CanTrade(e, file, symbol, now) && Trading(e, s, file, now.day, held) && symbol !in held
    ensures var price := OnDisk(file, now.day)[symbol].price;
      var n := TickStep(e, TickStep(e, s, symbol, price, now), symbol, BuildLevels(e.strategy, price).longEntry, now);
      Trading(e, n, file, now.day, held + {symbol})
  {
    var price := OnDisk(file, now.day)[symbol].price;
    var placed := TickStep(e, s, symbol, price, now);
    PlacingTick(e, s, file, held, symbol, price, now);
    TickCoupled(e, s, symbol, price, now);
    FillingTick(e, placed, file, held, symbol, BuildLevels(e.strategy, price).longEntry, now);
    TickCoupled(e, placed, symbol, BuildLevels(e.strategy, price).longEntry, now);
  }

  // Two ticks a symbol: one that places its pair and one that reaches the long trigger.
  lemma TradeTicks(e: Setup, s: State, file: AnchorFile, held: set<Symbol>, symbol: Symbol, now: Stamp)
      returns (place: Event, fill: Event)
    requires ValidSetup(e) && CanTrade(e, file, symbol, now) && Trading(e, s, file, now.day, held) && symbol !in held
    ensures place.Tick? && place.now == now && fill.Tick? && fill.now == now
    ensures Trading(e, EventStep(e, EventStep(e, s, place), fill), file, now.day, held + {symbol})
  {
    var price := OnDisk(file, now.day)[symbol].price;
    place, fill := Tick(symbol, price, now), Tick(symbol, BuildLevels(e.strategy, price).longEntry, now);
    TradeNext(e, s, file, held, symbol, now);
  }

  ghost predicate AllAt(events: seq<Event>, now: Stamp) {
    forall i :: 0 <= i < |events| ==> events[i].Tick? && events[i].now == now
  }

  lemma RunTwoMore(e: Setup, file: AnchorFile, before: seq<Event>, t: State, place: Event, fill: Event,
      now: Stamp)
      returns (events: seq<Event>)
    requires t == RunEvents(e, file, before) && AllAt(before, now)
    requires place.Tick? && place.now == now && fill.Tick? && fill.now == now
    ensures EventStep(e, EventStep(e, t, place), fill) == RunEvents(e, file, events) && AllAt(events, now)
  {
    events := before + [place] + [fill];
    TickCutoff.RunOneMore(e, file, before, place);
    TickCutoff.RunOneMore(e, file, before + [place], fill);
  }

  lemma TradeNextRun(e: Setup, file: AnchorFile, before: seq<Event>, t: State, held: set<Symbol>,
      symbol: Symbol, now: Stamp)
    returns (events: seq<Event>, s: State)
    requires ValidSetup(e) && CanTrade(e, file, symbol, now) && symbol !in held
    requires t == RunEvents(e, file, before) && AllAt(before, now) && Trading(e, t, file, now.day, held)
    ensures s == RunEvents(e, file, events) && AllAt(events, now) && Trading(e, s, file, now.day, held + {symbol})
  {
    var place, fill := TradeTicks(e, t, file, held, symbol, now);
    events := RunTwoMore(e, file, before, t, place, fill, now);
    s := EventStep(e, EventStep(e, t, place), fill);
  }

  // The run that trades each of the symbols, and the state it leads to.
  lemma {:induction false} EachTrades(e: Setup, file: AnchorFile, symbols: seq<Symbol>, now: Stamp)
      returns (events: seq<Event>, s: State)
    requires ValidSetup(e) && Distinct(symbols) && forall x :: x in symbols ==> CanTrade(e, file, x, now)
    ensures s == RunEvents(e, file, events) && AllAt(events, now)
    ensures Trading(e, s, file, now.day, SetOf(symbols))
  {
    if symbols == [] {
      events, s := [], Fresh(file);
      AlwaysCoupled(e, file, []);
    } else {
      var front, last := symbols[..|symbols| - 1], symbols[|symbols| - 1];
      LastApart(symbols);
      assert CanTrade(e, file, last, now);
      events, s := EachTrades(e, file, front, now);
      events, s := TradeNextRun(e, file, events, s, SetOf(front), last, now);
    }
  }

  // Whatever the trade limit, any number of symbols that could each trade first can all hold
  // a position at the same time.
  lemma EverySymbolTrades(e: Setup, file: AnchorFile, symbols: seq<Symbol>, now: Stamp)
    requires ValidSetup(e) && Distinct(symbols) && forall x :: x in symbols ==> CanTrade(e, file, x, now)
    ensures exists events :: OneDay(events, now.day) && RunEvents(e, file, events).positions.Keys == SetOf(symbols)
  {
    var events, s := EachTrades(e, file, symbols, now);
    assert OneDay(events, now.day);
  }
}
