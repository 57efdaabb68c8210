// One trading day of the orchestrator, tick by tick: how many orders a symbol may see, and
// that its own books and the audit's agree.
module TickDay {
  import opened Wrappers
  import opened StrategyRunner
  import RiskControls
  import opened AnchorEngine
  import opened PaperBroker
  import opened TickSteps
  import opened TickCoupling

  // The configured square-off time to the minute, and the sweep's, the buffer before it.
  function CloseSec(e: Setup): int { e.strategy.squareOffTime - e.strategy.squareOffTime % 60 }

  function SweepSec(e: Setup): int { CloseSec(e) - e.bufferSeconds }

  // New pairs stop before the sweep, and the sweep does not come after the square-off.
  ghost predicate ValidTimes(e: Setup) {
    e.bufferSeconds >= 0 && e.noNewTradeAfter <= SweepSec(e)
  }

  function OrdersOf(orders: seq<Order>, symbol: Symbol): nat {
    if orders == [] then 0
    else OrdersOf(orders[..|orders| - 1], symbol) + if orders[|orders| - 1].symbol == symbol then 1 else 0
  }

  function FillsOf(orders: seq<Order>, symbol: Symbol): nat {
    if orders == [] then 0
    else
      var o := orders[|orders| - 1];
      FillsOf(orders[..|orders| - 1], symbol) + if o.symbol == symbol && o.status == Filled then 1 else 0
  }

  lemma {:induction false} SameCounts(a: seq<Order>, b: seq<Order>, symbol: Symbol)
    requires |a| == |b| && forall i :: 0 <= i < |a| ==> a[i].symbol == b[i].symbol
    ensures OrdersOf(a, symbol) == OrdersOf(b, symbol)
    ensures (forall i :: 0 <= i < |a| && a[i].symbol == symbol ==> (a[i].status == Filled <==> b[i].status == Filled))
            ==> FillsOf(a, symbol) == FillsOf(b, symbol)
  {
    if a != [] {
      var n := |a| - 1;
      SameCounts(a[..n], b[..n], symbol);
    }
  }

  lemma {:induction false} OneMoreFill(a: seq<Order>, b: seq<Order>, symbol: Symbol, k: nat)
    requires |a| == |b| && k < |a| && a[k].symbol == symbol && a[k].status != Filled && b[k].status == Filled
    requires forall i :: 0 <= i < |a| ==> a[i].symbol == b[i].symbol
    requires forall i :: 0 <= i < |a| && i != k ==> (a[i].status == Filled <==> b[i].status == Filled)
    ensures FillsOf(b, symbol) == FillsOf(a, symbol) + 1
  {
    var n := |a| - 1;
    if k < n {
      OneMoreFill(a[..n], b[..n], symbol, k);
    } else {
      SameCounts(a[..n], b[..n], symbol);
    }
  }

  lemma TwoMoreOrders(a: seq<Order>, x: Order, y: Order, symbol: Symbol)
    requires x.symbol == y.symbol && x.status == Open && y.status == Open
    ensures OrdersOf(a + [x] + [y], symbol) == OrdersOf(a, symbol) + if x.symbol == symbol then 2 else 0
    ensures FillsOf(a + [x] + [y], symbol) == FillsOf(a, symbol)
  {
    assert (a + [x] + [y])[..|a| + 1] == a + [x];
    assert (a + [x])[..|a|] == a;
  }

  ghost predicate TickedBy(s: State, sec: int) {
    s.lastTickAt.Some? && s.lastTickAt.value.sec >= sec
  }

  // One symbol's day: no orders; or one pair's two orders, of which at most one has filled.
  // Once they exist the symbol is paired, holds a position, or is past the entry cut-off.
  ghost predicate SymbolDay(orders: seq<Order>, symbol: Symbol, paired: bool, held: bool, late: bool) {
    var count, fills := OrdersOf(orders, symbol), FillsOf(orders, symbol);
    && (count == 0 || count == 2) && fills <= 1 && (count == 0 ==> fills == 0)
    && (paired ==> count == 2 && fills == 0)
    && (held ==> count == 2 && fills == 1)
    && (count == 2 ==> paired || held || late)
  }

  ghost predicate SymbolDays(e: Setup, s: State) {
    forall x :: SymbolDay(s.book.orders, x, x in s.pairs, x in s.positions, TickedBy(s, e.noNewTradeAfter))
  }

  // The bars, the trail and the anchor leave orders, pairs and the set of positions alone.
  lemma BarsShape(e: Setup, s: State, symbol: Symbol, ltp: int, now: Stamp)
    ensures var n := BarSteps(e, s, symbol, ltp, now);
      && n.positions.Keys == s.positions.Keys && n.book.orders == s.book.orders
      && n == s.(bars := n.bars, positions := n.positions, book := n.book, anchors := n.anchors,
                 lastTickAt := Some(now))
  {
    assert CloseBarStep(e, s.(lastTickAt := Some(now)), symbol, now).positions.Keys == s.positions.Keys;
  }

  lemma BarsDay(e: Setup, s: State, symbol: Symbol, ltp: int, now: Stamp)
    requires SymbolDays(e, s) && (s.lastTickAt.Some? ==> s.lastTickAt.value.sec <= now.sec)
    ensures SymbolDays(e, BarSteps(e, s, symbol, ltp, now))
  {
    BarsShape(e, s, symbol, ltp, now);
    var n := BarSteps(e, s, symbol, ltp, now);
    forall x ensures SymbolDay(n.book.orders, x, x in n.pairs, x in n.positions, TickedBy(n, e.noNewTradeAfter)) {
      assert SymbolDay(s.book.orders, x, x in s.pairs, x in s.positions, TickedBy(s, e.noNewTradeAfter));
    }
  }

  lemma LegsCounted(e: Setup, orders: seq<Order>, symbol: Symbol, pair: OcoPair, side: Side, x: Symbol)
    requires symbol in e.symbols && Resting(e, orders, symbol, pair)
    ensures var next := FilledLegs(e, orders, symbol, pair, side);
      && OrdersOf(next, x) == OrdersOf(orders, x)
      && FillsOf(next, x) == FillsOf(orders, x) + if x == symbol then 1 else 0
  {
    var next := FilledLegs(e, orders, symbol, pair, side);
    SameCounts(orders, next, x);
    if x == symbol {
      OneMoreFill(orders, next, symbol, LegOf(pair, side));
    }
  }

  lemma FillDay(e: Setup, s: State, symbol: Symbol, side: Side, now: Stamp)
    requires SymbolDays(e, s) && symbol in e.symbols && symbol in s.pairs
    requires Resting(e, s.book.orders, symbol, s.pairs[symbol])
    ensures SymbolDays(e, FilledPair(e, s, symbol, side, now))
  {
    var n := FilledPair(e, s, symbol, side, now);
    var late := TickedBy(s, e.noNewTradeAfter);
    forall x ensures SymbolDay(n.book.orders, x, x in n.pairs, x in n.positions, late) {
      assert SymbolDay(s.book.orders, x, x in s.pairs, x in s.positions, late);
      LegsCounted(e, s.book.orders, symbol, s.pairs[symbol], side, x);
    }
  }

  lemma PlaceShape(e: Setup, s: State, symbol: Symbol, now: Stamp)
    requires symbol in e.symbols
    ensures var n := PlacePairStep(e, s, symbol, now);
      if symbol in n.pairs && symbol !in s.pairs then
        var pair := n.pairs[symbol];
        && n == s.(anchors := n.anchors, disk := n.disk, pairs := s.pairs[symbol := pair], book := n.book)
        && n.book.positions == s.book.positions
        && n.book.orders
           == s.book.orders + [RestingLeg(e, symbol, pair, Long)] + [RestingLeg(e, symbol, pair, Short)]
        && MayLookUp(e, s, symbol, now)
      else n == s.(anchors := n.anchors)
  {
  }

  lemma PlacedLevels(e: Setup, s: State, symbol: Symbol, now: Stamp)
    requires symbol in e.symbols && symbol !in s.pairs && symbol in PlacePairStep(e, s, symbol, now).pairs
    ensures var n := PlacePairStep(e, s, symbol, now);
      && symbol in Rolled(s.anchors, now.day).today
      && n.pairs[symbol].levels == BuildLevels(e.strategy, Rolled(s.anchors, now.day).today[symbol].price)
  {
  }

  lemma PlaceDay(e: Setup, s: State, symbol: Symbol, now: Stamp)
    requires ValidTimes(e) && SymbolDays(e, s) && symbol in e.symbols && s.lastTickAt == Some(now)
    ensures SymbolDays(e, PlacePairStep(e, s, symbol, now))
  {
    PlaceShape(e, s, symbol, now);
    var n := PlacePairStep(e, s, symbol, now);
    var late := TickedBy(s, e.noNewTradeAfter);
    forall x ensures SymbolDay(n.book.orders, x, x in n.pairs, x in n.positions, late) {
      assert SymbolDay(s.book.orders, x, x in s.pairs, x in s.positions, late);
      if n.book != s.book {
        TwoMoreOrders(s.book.orders, RestingLeg(e, symbol, n.pairs[symbol], Long),
                      RestingLeg(e, symbol, n.pairs[symbol], Short), x);
      }
    }
  }

  lemma SweepDay(e: Setup, s: State, now: Stamp)
    requires ValidTimes(e) && SymbolDays(e, s) && s.lastTickAt == Some(now)
    ensures SymbolDays(e, SweepStep(e, s, now))
  {
    var n := SweepStep(e, s, now);
    var late := TickedBy(s, e.noNewTradeAfter);
    forall x ensures SymbolDay(n.book.orders, x, x in n.pairs, x in n.positions, late) {
      assert SymbolDay(s.book.orders, x, x in s.pairs, x in s.positions, late);
      SameCounts(s.book.orders, n.book.orders, x);
    }
  }

  lemma SquareOffDay(e: Setup, s: State, symbol: Symbol, ltp: int, now: Stamp)
    requires ValidTimes(e) && SymbolDays(e, s) && s.lastTickAt == Some(now)
    ensures SymbolDays(e, SquareOffStep(e, s, symbol, ltp, now))
  {
    var n := SquareOffStep(e, s, symbol, ltp, now);
    SquareOffShape(e, s, symbol, ltp, now);
    var late := TickedBy(s, e.noNewTradeAfter);
    forall x ensures SymbolDay(n.book.orders, x, x in n.pairs, x in n.positions, late) {
      assert SymbolDay(s.book.orders, x, x in s.pairs, x in s.positions, late);
    }
  }

  lemma FirstHalfDay(e: Setup, s: State, symbol: Symbol, ltp: int, now: Stamp)
    requires ValidSetup(e) && Coupled(e, s) && SymbolDays(e, s) && symbol in e.symbols
    requires s.lastTickAt.Some? ==> s.lastTickAt.value.sec <= now.sec
    ensures var n := FirstHalf(e, s, symbol, ltp, now);
      SymbolDays(e, n) && n.lastTickAt == Some(now)
  {
    TickCoupled(e, s, symbol, ltp, now);
    BarsDay(e, s, symbol, ltp, now);
    BarsShape(e, s, symbol, ltp, now);
    var bars := BarSteps(e, s, symbol, ltp, now);
    FillsOfTick(e, bars, symbol, ltp, now);
    var side := TriggeredSide(bars.pairs, symbol, ltp);
    if side.Some? {
      FillDay(e, bars, symbol, side.value, now);
    }
  }

  lemma SecondHalfDay(e: Setup, s: State, symbol: Symbol, ltp: int, now: Stamp)
    requires ValidTimes(e) && SymbolDays(e, s) && symbol in e.symbols && s.lastTickAt == Some(now)
    ensures var n := SecondHalf(e, s, symbol, ltp, now);
      SymbolDays(e, n) && n.lastTickAt == Some(now)
  {
    PlaceDay(e, s, symbol, now);
    PlaceShape(e, s, symbol, now);
    var placed := PlacePairStep(e, s, symbol, now);
    SweepDay(e, placed, now);
    var swept := SweepStep(e, placed, now);
    SquareOffDay(e, swept, symbol, ltp, now);
    SquareOffShape(e, swept, symbol, ltp, now);
  }

  lemma TickKeepsDay(e: Setup, s: State, symbol: Symbol, ltp: int, now: Stamp)
    requires ValidSetup(e) && ValidTimes(e) && Coupled(e, s) && SymbolDays(e, s) && symbol in e.symbols
    requires s.lastTickAt.Some? ==> s.lastTickAt.value.sec <= now.sec
    ensures var n := TickStep(e, s, symbol, ltp, now);
      SymbolDays(e, n) && n.lastTickAt == Some(now)
  {
    FirstHalfDay(e, s, symbol, ltp, now);
    SecondHalfDay(e, FirstHalf(e, s, symbol, ltp, now), symbol, ltp, now);
  }

  // ---- whole days ----

  ghost predicate LastTickIsAnEvent(s: State, events: seq<Event>) {
    s.lastTickAt.Some? ==> exists i :: 0 <= i < |events| && events[i].Tick? && events[i].now == s.lastTickAt.value
  }

  lemma {:induction false} DayHolds(e: Setup, file: AnchorFile, events: seq<Event>, day: int)
    requires ValidSetup(e) && ValidTimes(e) && OneDay(events, day)
    ensures var s := RunEvents(e, file, events); SymbolDays(e, s) && Coupled(e, s) && LastTickIsAnEvent(s, events)
  {
    AlwaysCoupled(e, file, events);
    if events == [] {
      assert forall x :: SymbolDay([], x, false, false, false);
    } else {
      var n := |events| - 1;
      DayHolds(e, file, events[..n], day);
      AlwaysCoupled(e, file, events[..n]);
      DayStep(e, RunEvents(e, file, events[..n]), events, day);
    }
  }

  lemma TimeMovesOn(s: State, events: seq<Event>, day: int)
    requires OneDay(events, day) && events != [] && events[|events| - 1].Tick?
    requires LastTickIsAnEvent(s, events[..|events| - 1])
    ensures s.lastTickAt.Some? ==> s.lastTickAt.value.sec <= events[|events| - 1].now.sec
  {
    var n := |events| - 1;
    if s.lastTickAt.Some? {
      var i :| 0 <= i < n && events[..n][i].Tick? && events[..n][i].now == s.lastTickAt.value;
      assert events[i].now.sec <= events[n].now.sec;
    }
  }

  lemma PauseDay(e: Setup, s: State, paused: bool)
    requires SymbolDays(e, s)
    ensures SymbolDays(e, s.(paused := paused))
  {
    var n := s.(paused := paused);
    forall x ensures SymbolDay(n.book.orders, x, x in n.pairs, x in n.positions, TickedBy(n, e.noNewTradeAfter)) {
      assert SymbolDay(s.book.orders, x, x in s.pairs, x in s.positions, TickedBy(s, e.noNewTradeAfter));
    }
  }

  lemma EventDay(e: Setup, s: State, event: Event)
    requires ValidSetup(e) && ValidTimes(e) && Coupled(e, s) && SymbolDays(e, s)
    requires event.Tick? && s.lastTickAt.Some? ==> s.lastTickAt.value.sec <= event.now.sec
    ensures var n := EventStep(e, s, event);
      && SymbolDays(e, n)
      && (n.lastTickAt == s.lastTickAt || (event.Tick? && n.lastTickAt == Some(event.now)))
  {
    if event.Tick? && event.symbol in e.symbols {
      TickKeepsDay(e, s, event.symbol, event.ltp, event.now);
    } else {
      PauseDay(e, s, EventStep(e, s, event).paused);
    }
  }

  lemma LastTickKept(s: State, n: State, events: seq<Event>)
    requires events != [] && LastTickIsAnEvent(s, events[..|events| - 1])
    requires var last := events[|events| - 1];
      n.lastTickAt == s.lastTickAt || (last.Tick? && n.lastTickAt == Some(last.now))
    ensures LastTickIsAnEvent(n, events)
  {
    var front := events[..|events| - 1];
    if n.lastTickAt == s.lastTickAt && s.lastTickAt.Some? {
      var i :| 0 <= i < |front| && front[i].Tick? && front[i].now == s.lastTickAt.value;
      assert events[i] == front[i];
    }
  }

  lemma DayStep(e: Setup, s: State, events: seq<Event>, day: int)
    requires ValidSetup(e) && ValidTimes(e) && OneDay(events, day) && events != []
    requires Coupled(e, s) && SymbolDays(e, s) && LastTickIsAnEvent(s, events[..|events| - 1])
    ensures var n := EventStep(e, s, events[|events| - 1]);
      SymbolDays(e, n) && LastTickIsAnEvent(n, events)
  {
    var last := events[|events| - 1];
    if last.Tick? {
      TimeMovesOn(s, events, day);
    }
    EventDay(e, s, last);
    LastTickKept(s, EventStep(e, s, last), events);
  }

  // Over any ticks, pauses and resumes of one day a symbol sees at most one pair of orders,
  // and at most one of them fills.
  lemma OnePairOneFill(e: Setup, file: AnchorFile, events: seq<Event>, day: int, symbol: Symbol)
    requires ValidSetup(e) && ValidTimes(e) && OneDay(events, day)
    ensures var orders := RunEvents(e, file, events).book.orders;
      OrdersOf(orders, symbol) in {0, 2} && FillsOf(orders, symbol) <= 1
  {
    DayHolds(e, file, events, day);
    var s := RunEvents(e, file, events);
    assert SymbolDay(s.book.orders, symbol, symbol in s.pairs, symbol in s.positions, TickedBy(s, e.noNewTradeAfter));
  }

  // ---- the day's books ----

  ghost predicate BooksMatch(s: State) {
    s.dayPnl == s.audit.gross == s.audit.net && s.dayTrades == |s.audit.trades| == s.audit.wins + s.audit.losses
  }

  lemma CloseKeepsBooks(s: State, symbol: Symbol, points: int, money: int)
    requires BooksMatch(s) && s.audit.totalCosts == 0
    ensures BooksMatch(BookClose(s, symbol, points, money)) && BookClose(s, symbol, points, money).audit.totalCosts == 0
  {
  }

  lemma SquareOffBooks(e: Setup, s: State, symbol: Symbol, ltp: int, now: Stamp)
    requires BooksMatch(s) && s.audit.totalCosts == 0
    ensures var n := SquareOffStep(e, s, symbol, ltp, now); BooksMatch(n) && n.audit.totalCosts == 0
  {
    if symbol in s.positions {
      var points := ClosePoints(s.book, symbol, ltp);
      CloseKeepsBooks(s.(book := ForceClosed(s.book, symbol)), symbol, points, points * s.positions[symbol].quantity);
    }
  }

  // The orchestrator's running P&L and trade count are the audit's, on every run, and with
  // no quantity recorded the audit's net is its gross.
  lemma {:induction false} DayBooksMatch(e: Setup, file: AnchorFile, events: seq<Event>)
    ensures var s := RunEvents(e, file, events); BooksMatch(s) && s.audit.totalCosts == 0
  {
    if events != [] {
      var n := |events| - 1;
      DayBooksMatch(e, file, events[..n]);
      var s, last := RunEvents(e, file, events[..n]), events[n];
      if last.Tick? && last.symbol in e.symbols {
        var filled := FirstHalf(e, s, last.symbol, last.ltp, last.now);
        var swept := SweepStep(e, PlacePairStep(e, filled, last.symbol, last.now), last.now);
        UntouchedBooks(e, s, last.symbol, last.ltp, last.now);
        SquareOffBooks(e, swept, last.symbol, last.ltp, last.now);
      }
    }
  }

  lemma {:induction false} FillsKeepBooks(s: State, symbol: Symbol, fills: seq<Fill>, now: Stamp)
    ensures var n := FillSteps(s, symbol, fills, now);
      n.dayPnl == s.dayPnl && n.dayTrades == s.dayTrades && n.audit == s.audit
  {
    if fills != [] {
      FillsKeepBooks(s, symbol, fills[..|fills| - 1], now);
    }
  }

  lemma {:induction false} FillsOpenNothing(s: State, symbol: Symbol, fills: seq<Fill>, now: Stamp)
    ensures var n := FillSteps(s, symbol, fills, now);
      n.pairs.Keys <= s.pairs.Keys && n.paused == s.paused && n.swept == s.swept && n.lastTickAt == s.lastTickAt
  {
    if fills != [] {
      FillsOpenNothing(s, symbol, fills[..|fills| - 1], now);
    }
  }

  lemma FirstHalfOpensNothing(e: Setup, s: State, symbol: Symbol, ltp: int, now: Stamp)
    requires symbol in e.symbols
    ensures var n := FirstHalf(e, s, symbol, ltp, now);
      && n.pairs.Keys <= s.pairs.Keys && n.paused == s.paused && n.swept == s.swept && n.lastTickAt == Some(now)
      && n.dayPnl == s.dayPnl && n.dayTrades == s.dayTrades
  {
    BarsShape(e, s, symbol, ltp, now);
    var bars := BarSteps(e, s, symbol, ltp, now);
    var r := TickFrom(bars.book, 0, e.symbols[symbol].securityId, ltp);
    FillsOpenNothing(bars.(book := r.0), symbol, r.1, now);
    FillsKeepBooks(bars.(book := r.0), symbol, r.1, now);
  }

  lemma SweepOpensNothing(e: Setup, s: State, now: Stamp)
    ensures SweepStep(e, s, now).pairs.Keys <= s.pairs.Keys
  {
  }

  lemma UntouchedBooks(e: Setup, s: State, symbol: Symbol, ltp: int, now: Stamp)
    requires symbol in e.symbols
    ensures var n := SweepStep(e, PlacePairStep(e, FirstHalf(e, s, symbol, ltp, now), symbol, now), now);
      n.dayPnl == s.dayPnl && n.dayTrades == s.dayTrades && n.audit == s.audit
  {
    BarsShape(e, s, symbol, ltp, now);
    var bars := BarSteps(e, s, symbol, ltp, now);
    var r := TickFrom(bars.book, 0, e.symbols[symbol].securityId, ltp);
    FillsKeepBooks(bars.(book := r.0), symbol, r.1, now);
    PlaceShape(e, FirstHalf(e, s, symbol, ltp, now), symbol, now);
  }

  // No tick opens a new pair while entries are paused, late, or stopped by a guard-rail;
  // everything already open is still handled.
  lemma GatesStopNewPairs(e: Setup, s: State, symbol: Symbol, ltp: int, now: Stamp)
    requires symbol in e.symbols
    requires || s.paused || now.sec >= e.noNewTradeAfter
             || RiskControls.Blocked(Some(e.guardrails), s.dayTrades, s.dayPnl).Some?
    ensures TickStep(e, s, symbol, ltp, now).pairs.Keys <= s.pairs.Keys
  {
    FirstHalfOpensNothing(e, s, symbol, ltp, now);
    var filled := FirstHalf(e, s, symbol, ltp, now);
    PlaceShape(e, filled, symbol, now);
    var placed := PlacePairStep(e, filled, symbol, now);
    assert placed.pairs == filled.pairs;
    SweepOpensNothing(e, placed, now);
    SquareOffShape(e, SweepStep(e, placed, now), symbol, ltp, now);
  }
}
