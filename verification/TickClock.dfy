// When the orchestrator's two closing steps act: the sweep from the buffer before the
// square-off minute on, the square-off from that minute on, and neither a tick sooner.
module TickClock {
  import opened Wrappers
  import opened StrategyRunner
  import opened AnchorEngine
  import opened PaperBroker
  import opened TickSteps
  import opened TickCoupling
  import opened TickDay
  import opened TickCutoff
  import opened TickRestart
  import opened RestartDay

  ghost predicate NothingOpen(orders: seq<Order>) {
    forall i :: 0 <= i < |orders| ==> orders[i].status != Open
  }

  // A tick as late as the buffer before the square-off minute leaves no pair and no open order.
  lemma SweptByTheBuffer(e: Setup, file: AnchorFile, events: seq<Event>, day: int, symbol: Symbol, ltp: int, now: Stamp)
    requires ValidSetup(e) && symbol in e.symbols && OneDay(events + [Tick(symbol, ltp, now)], day)
    requires e.noNewTradeAfter + e.bufferSeconds <= e.strategy.squareOffTime - e.strategy.squareOffTime % 60
    requires now.sec + e.bufferSeconds >= e.strategy.squareOffTime - e.strategy.squareOffTime % 60
    ensures var n := RunEvents(e, file, events + [Tick(symbol, ltp, now)]);
      n.pairs == map[] && NothingOpen(n.book.orders)
  {
    var all := events + [Tick(symbol, ltp, now)];
    RunOneMore(e, file, events, Tick(symbol, ltp, now));
    TickShape(e, RunEvents(e, file, events), symbol, ltp, now);
    DayKeepsClean(e, file, all, day);
    AlwaysCoupled(e, file, all);
  }

  // At most the symbol's own pair goes, and only at one of its triggers.
  ghost predicate FillShape(s: State, n: State, symbol: Symbol, ltp: int, now: Stamp) {
    var side := TriggeredSide(s.pairs, symbol, ltp);
    if side.None? then n == s
    else && n.pairs == s.pairs - {symbol}
         && n.positions == s.positions[symbol := PositionFrom(symbol, s.pairs[symbol], side.value, now)]
  }

  lemma FillsShape(e: Setup, s: State, symbol: Symbol, ltp: int, now: Stamp)
    requires ValidSetup(e) && Coupled(e, s) && symbol in e.symbols
    ensures FillShape(s, PaperFillsStep(e, s, symbol, ltp, now), symbol, ltp, now)
  {
    FillsOfTick(e, s, symbol, ltp, now);
  }

  // The fills of a tick leave another symbol's pair as it was, and its own when the price reaches
  // neither trigger.
  lemma FillsKeepPair(s: State, n: State, symbol: Symbol, ltp: int, now: Stamp, x: Symbol)
    requires FillShape(s, n, symbol, ltp, now) && x in s.pairs
    requires x == symbol ==> s.pairs[x].levels.shortEntry < ltp < s.pairs[x].levels.longEntry
    ensures x in n.pairs && n.pairs[x] == s.pairs[x]
  {
  }

  lemma PairedIsNotHeld(e: Setup, s: State, symbol: Symbol)
    requires Coupled(e, s) && symbol in s.pairs
    ensures symbol !in s.positions
  {
  }

  // And they leave every position as it was.
  lemma FillsKeepPosition(s: State, n: State, symbol: Symbol, ltp: int, now: Stamp, x: Symbol)
    requires FillShape(s, n, symbol, ltp, now) && x in s.positions
    requires symbol in s.pairs ==> symbol !in s.positions
    ensures x in n.positions && n.positions[x] == s.positions[x]
  {
  }

  lemma FirstHalfKeepsPair(e: Setup, s: State, symbol: Symbol, ltp: int, now: Stamp, x: Symbol)
    requires ValidSetup(e) && Coupled(e, s) && symbol in e.symbols && x in s.pairs
    requires x == symbol ==> s.pairs[x].levels.shortEntry < ltp < s.pairs[x].levels.longEntry
    ensures var n := FirstHalf(e, s, symbol, ltp, now); x in n.pairs && n.pairs[x] == s.pairs[x]
  {
    BarsShape(e, s, symbol, ltp, now);
    BarsCoupled(e, s, symbol, ltp, now);
    var bars := BarSteps(e, s, symbol, ltp, now);
    FillsShape(e, bars, symbol, ltp, now);
    FillsKeepPair(bars, FirstHalf(e, s, symbol, ltp, now), symbol, ltp, now, x);
  }

  lemma SecondHalfKeepsPair(e: Setup, s: State, symbol: Symbol, ltp: int, now: Stamp, x: Symbol)
    requires symbol in e.symbols && x in s.pairs
    requires now.sec + e.bufferSeconds < e.strategy.squareOffTime - e.strategy.squareOffTime % 60
    ensures var n := SecondHalf(e, s, symbol, ltp, now); x in n.pairs && n.pairs[x] == s.pairs[x]
  {
    PlaceShape(e, s, symbol, now);
    SquareOffShape(e, SweepStep(e, PlacePairStep(e, s, symbol, now), now), symbol, ltp, now);
  }

  // Both legs of the pair are open orders, the long one at the long trigger and the short one
  // at the short.
  ghost predicate Stands(orders: seq<Order>, symbol: Symbol, pair: OcoPair) {
    && pair.longId < |orders| && pair.shortId < |orders|
    && orders[pair.longId].status == Open && orders[pair.shortId].status == Open
    && orders[pair.longId].symbol == symbol == orders[pair.shortId].symbol
    && orders[pair.longId].trigger == pair.levels.longEntry && orders[pair.shortId].trigger == pair.levels.shortEntry
  }

  // An earlier tick that reaches neither of a pair's triggers leaves it standing.
  lemma PairStandsUntilTheBuffer(e: Setup, file: AnchorFile, events: seq<Event>, symbol: Symbol, ltp: int, now: Stamp,
      x: Symbol)
    requires ValidSetup(e) && symbol in e.symbols && x in RunEvents(e, file, events).pairs
    requires now.sec + e.bufferSeconds < e.strategy.squareOffTime - e.strategy.squareOffTime % 60
    requires var l := RunEvents(e, file, events).pairs[x].levels; x == symbol ==> l.shortEntry < ltp < l.longEntry
    ensures var s, n := RunEvents(e, file, events), RunEvents(e, file, events + [Tick(symbol, ltp, now)]);
      x in n.pairs && n.pairs[x] == s.pairs[x] && Stands(n.book.orders, x, n.pairs[x])
  {
    var s, all := RunEvents(e, file, events), events + [Tick(symbol, ltp, now)];
    AlwaysCoupled(e, file, events);
    AlwaysCoupled(e, file, all);
    RunOneMore(e, file, events, Tick(symbol, ltp, now));
    FirstHalfKeepsPair(e, s, symbol, ltp, now, x);
    SecondHalfKeepsPair(e, FirstHalf(e, s, symbol, ltp, now), symbol, ltp, now, x);
    assert Resting(e, RunEvents(e, file, all).book.orders, x, RunEvents(e, file, all).pairs[x]);
  }

  // A position is closed by its symbol's first tick in the square-off minute or later.
  lemma ClosedInTheMinute(e: Setup, file: AnchorFile, events: seq<Event>, day: int, symbol: Symbol, ltp: int,
      now: Stamp)
    requires ValidSetup(e) && ValidTimes(e) && symbol in e.symbols && OneDay(events + [Tick(symbol, ltp, now)], day)
    requires now.sec >= e.strategy.squareOffTime - e.strategy.squareOffTime % 60
    ensures var n := RunEvents(e, file, events + [Tick(symbol, ltp, now)]);
      symbol !in n.positions && symbol !in n.book.positions
  {
    var all := events + [Tick(symbol, ltp, now)];
    LiveOneDay(all, day);
    LiveRunIsRun(e, file, all);
    FlatThroughRestarts(e, file, LiveActs(all), day, |events|);
  }

  // Before it, no tick closes one: it is held on, as it was filled.
  lemma HeldUntilTheMinute(e: Setup, file: AnchorFile, events: seq<Event>, symbol: Symbol, ltp: int, now: Stamp,
      x: Symbol)
    requires ValidSetup(e) && x in RunEvents(e, file, events).positions
    requires now.sec < e.strategy.squareOffTime - e.strategy.squareOffTime % 60
    ensures var s, n := RunEvents(e, file, events), RunEvents(e, file, events + [Tick(symbol, ltp, now)]);
      && x in n.positions
      && var p, q := s.positions[x], n.positions[x];
         q == p.(sl := q.sl, lockIdx := q.lockIdx, maxFavorable := q.maxFavorable)
  {
    var s := RunEvents(e, file, events);
    AlwaysCoupled(e, file, events);
    RunOneMore(e, file, events, Tick(symbol, ltp, now));
    if symbol in e.symbols {
      FirstHalfHolds(e, s, symbol, ltp, now, x);
      SecondHalfHolds(e, FirstHalf(e, s, symbol, ltp, now), symbol, ltp, now, x);
    }
  }

  lemma BarsHold(e: Setup, s: State, symbol: Symbol, ltp: int, now: Stamp, x: Symbol)
    requires x in s.positions
    ensures var n := BarSteps(e, s, symbol, ltp, now);
      && x in n.positions
      && var p, q := s.positions[x], n.positions[x];
         q == p.(sl := q.sl, lockIdx := q.lockIdx, maxFavorable := q.maxFavorable)
  {
  }

  lemma FirstHalfHolds(e: Setup, s: State, symbol: Symbol, ltp: int, now: Stamp, x: Symbol)
    requires ValidSetup(e) && Coupled(e, s) && symbol in e.symbols && x in s.positions
    ensures var n := FirstHalf(e, s, symbol, ltp, now);
      && x in n.positions
      && var p, q := s.positions[x], n.positions[x];
         q == p.(sl := q.sl, lockIdx := q.lockIdx, maxFavorable := q.maxFavorable)
  {
    BarsHold(e, s, symbol, ltp, now, x);
    BarsCoupled(e, s, symbol, ltp, now);
    var bars := BarSteps(e, s, symbol, ltp, now);
    FillsShape(e, bars, symbol, ltp, now);
    if symbol in bars.pairs {
      PairedIsNotHeld(e, bars, symbol);
    }
    FillsKeepPosition(bars, FirstHalf(e, s, symbol, ltp, now), symbol, ltp, now, x);
  }

  lemma SecondHalfHolds(e: Setup, s: State, symbol: Symbol, ltp: int, now: Stamp, x: Symbol)
    requires symbol in e.symbols && x in s.positions
    requires now.sec < e.strategy.squareOffTime - e.strategy.squareOffTime % 60
    ensures SecondHalf(e, s, symbol, ltp, now).positions == s.positions
  {
    PlaceShape(e, s, symbol, now);
    SquareOffShape(e, SweepStep(e, PlacePairStep(e, s, symbol, now), now), symbol, ltp, now);
  }

  // ---- an order's last status ----

  lemma {:induction false} FillsAreFinal(s: State, symbol: Symbol, fills: seq<Fill>, now: Stamp)
    ensures Final(s.book.orders, FillSteps(s, symbol, fills, now).book.orders)
  {
    if fills != [] {
      var m := FillSteps(s, symbol, fills[..|fills| - 1], now);
      FillsAreFinal(s, symbol, fills[..|fills| - 1], now);
      FinalStep(s.book.orders, m.book.orders, FillSteps(s, symbol, fills, now).book.orders);
    }
  }

  lemma FirstHalfIsFinal(e: Setup, s: State, symbol: Symbol, ltp: int, now: Stamp)
    requires symbol in e.symbols
    ensures Final(s.book.orders, FirstHalf(e, s, symbol, ltp, now).book.orders)
  {
    var bars := BarSteps(e, s, symbol, ltp, now);
    var r := TickFrom(bars.book, 0, e.symbols[symbol].securityId, ltp);
    BarsShape(e, s, symbol, ltp, now);
    TickIsFinal(bars.book, 0, e.symbols[symbol].securityId, ltp);
    FillsAreFinal(bars.(book := r.0), symbol, r.1, now);
    FinalStep(bars.book.orders, r.0.orders, FirstHalf(e, s, symbol, ltp, now).book.orders);
  }

  lemma PlaceIsFinal(e: Setup, s: State, symbol: Symbol, now: Stamp)
    requires symbol in e.symbols
    ensures Final(s.book.orders, PlacePairStep(e, s, symbol, now).book.orders)
  {
    PlaceShape(e, s, symbol, now);
  }

  lemma SweepIsFinal(e: Setup, s: State, now: Stamp)
    ensures Final(s.book.orders, SweepStep(e, s, now).book.orders)
  {
  }

  lemma SecondHalfIsFinal(e: Setup, s: State, symbol: Symbol, ltp: int, now: Stamp)
    requires symbol in e.symbols
    ensures Final(s.book.orders, SecondHalf(e, s, symbol, ltp, now).book.orders)
  {
    var placed := PlacePairStep(e, s, symbol, now);
    PlaceIsFinal(e, s, symbol, now);
    SweepIsFinal(e, placed, now);
    SquareOffShape(e, SweepStep(e, placed, now), symbol, ltp, now);
    FinalStep(s.book.orders, placed.book.orders, SweepStep(e, placed, now).book.orders);
  }

  lemma EventIsFinal(e: Setup, s: State, event: Event)
    ensures Final(s.book.orders, EventStep(e, s, event).book.orders)
  {
    if event.Tick? && event.symbol in e.symbols {
      var half := FirstHalf(e, s, event.symbol, event.ltp, event.now);
      FirstHalfIsFinal(e, s, event.symbol, event.ltp, event.now);
      SecondHalfIsFinal(e, half, event.symbol, event.ltp, event.now);
      FinalStep(s.book.orders, half.book.orders, EventStep(e, s, event).book.orders);
    }
  }

  // Over every run in one process, restarted or not before: an order keeps its terms, and once
  // filled or cancelled its status too, although a pair read back from disk may name by its ids
  // orders that are not its own.
  lemma {:induction false} OrdersAreFinal(e: Setup, file: AnchorFile, acts: seq<Act>, k: nat)
    requires k <= |acts| && forall i :: k <= i < |acts| ==> acts[i].Live?
    ensures Final(RunActs(e, file, acts[..k]).state.book.orders, RunActs(e, file, acts).state.book.orders)
  {
    if k == |acts| {
      assert acts[..k] == acts;
    } else {
      var front := acts[..|acts| - 1];
      var was, s := RunActs(e, file, acts[..k]).state.book.orders, RunActs(e, file, front).state;
      assert front[..k] == acts[..k];
      OrdersAreFinal(e, file, front, k);
      EventIsFinal(e, s, acts[|acts| - 1].event);
      FinalStep(was, s.book.orders, RunActs(e, file, acts).state.book.orders);
    }
  }
}
