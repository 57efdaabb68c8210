// The orchestrator and its paper broker keep two views of the same orders and positions.
// This module proves that every tick keeps them equal.
module TickCoupling {
  import opened Wrappers
  import Levels
  import opened StrategyRunner
  import AnchorEngine
  import opened PaperBroker
  import Audit
  import opened TickSteps

  // Distinct security ids, and a trigger distance that keeps the two triggers apart.
  ghost predicate ValidSetup(e: Setup) {
    && 2 * e.strategy.triggerDist > e.strategy.tickSize
    && forall a, b :: a in e.symbols && b in e.symbols && a != b ==> e.symbols[a].securityId != e.symbols[b].securityId
  }

  function EntryOf(levels: Levels.OrderLevels, side: Side): int {
    if side.Long? then levels.longEntry else levels.shortEntry
  }

  function LegOf(pair: OcoPair, side: Side): nat {
    if side.Long? then pair.longId else pair.shortId
  }

  function Opposite(side: Side): Side { if side.Long? then Short else Long }

  function RestingLeg(e: Setup, symbol: Symbol, pair: OcoPair, side: Side): Order
    requires symbol in e.symbols
  {
    Order(symbol, e.symbols[symbol].securityId, side, pair.quantity, EntryOf(pair.levels, side), Open)
  }

  // A pair's two stops are open at the broker, one a side, for the pair's quantity.
  ghost predicate Resting(e: Setup, orders: seq<Order>, symbol: Symbol, pair: OcoPair)
    requires symbol in e.symbols
  {
    && pair.symbol == symbol && pair.longId != pair.shortId
    && pair.longId < |orders| && pair.shortId < |orders|
    && orders[pair.longId] == RestingLeg(e, symbol, pair, Long)
    && orders[pair.shortId] == RestingLeg(e, symbol, pair, Short)
    && pair.levels.shortEntry < pair.levels.longEntry
  }

  ghost predicate OrderKnown(e: Setup, o: Order) {
    o.symbol in e.symbols && o.securityId == e.symbols[o.symbol].securityId
  }

  // Every pair rests at the broker, and an order is open only as a leg of its symbol's pair.
  ghost predicate OrdersCoupled(e: Setup, orders: seq<Order>, pairs: map<Symbol, OcoPair>) {
    && pairs.Keys <= e.symbols.Keys
    && (forall x :: x in pairs ==> Resting(e, orders, x, pairs[x]))
    && (forall i :: 0 <= i < |orders| ==> OrderKnown(e, orders[i]))
    && (forall i :: 0 <= i < |orders| && orders[i].status == Open ==>
          orders[i].symbol in pairs && (i == pairs[orders[i].symbol].longId || i == pairs[orders[i].symbol].shortId))
  }

  function BrokerSide(e: Setup, p: Position): PaperPosition
    requires p.symbol in e.symbols
  {
    PaperPosition(p.symbol, e.symbols[p.symbol].securityId, p.side, p.entry, p.quantity, Some(p.sl), Some(p.tp))
  }

  // Both sides hold the same positions, and agree on side, entry, quantity, stop and target.
  ghost predicate PositionsAgree(e: Setup, theirs: map<Symbol, PaperPosition>, ours: map<Symbol, Position>) {
    && theirs.Keys == ours.Keys
    && forall s :: s in ours ==> s in e.symbols && ours[s].symbol == s && theirs[s] == BrokerSide(e, ours[s])
  }

  ghost predicate Coupled(e: Setup, s: State) {
    && OrdersCoupled(e, s.book.orders, s.pairs)
    && PositionsAgree(e, s.book.positions, s.positions)
    && s.pairs.Keys !! s.positions.Keys
    && s.disk == Persisted(s.pairs)
  }

  // ---- what the fills of one tick amount to ----

  function TriggeredSide(pairs: map<Symbol, OcoPair>, symbol: Symbol, ltp: int): Option<Side> {
    if symbol !in pairs then None
    else if ltp >= pairs[symbol].levels.longEntry then Some(Long)
    else if ltp <= pairs[symbol].levels.shortEntry then Some(Short)
    else None
  }

  function PositionFrom(symbol: Symbol, pair: OcoPair, side: Side, now: Stamp): Position {
    OpenPosition(symbol, side, pair.levels, EntryOf(pair.levels, side), now, pair.quantity)
  }

  // The orders once one leg has filled and its peer has been cancelled.
  function FilledLegs(e: Setup, orders: seq<Order>, symbol: Symbol, pair: OcoPair, side: Side): seq<Order>
    requires symbol in e.symbols && pair.longId < |orders| && pair.shortId < |orders|
  {
    orders[LegOf(pair, side) := RestingLeg(e, symbol, pair, side).(status := Filled)]
          [LegOf(pair, Opposite(side)) := RestingLeg(e, symbol, pair, Opposite(side)).(status := Cancelled)]
  }

  function FilledPair(e: Setup, s: State, symbol: Symbol, side: Side, now: Stamp): State
    requires symbol in s.pairs && symbol in e.symbols
    requires s.pairs[symbol].longId < |s.book.orders| && s.pairs[symbol].shortId < |s.book.orders|
  {
    var pair := s.pairs[symbol];
    var p := PositionFrom(symbol, pair, side, now);
    Saved(s.(positions := s.positions[symbol := p], pairs := s.pairs - {symbol},
             book := Book(FilledLegs(e, s.book.orders, symbol, pair, side),
                          s.book.positions[symbol := BrokerSide(e, p)])))
  }

  lemma OnlyLegsTrigger(e: Setup, orders: seq<Order>, pairs: map<Symbol, OcoPair>, symbol: Symbol, ltp: int, i: nat)
    requires ValidSetup(e) && OrdersCoupled(e, orders, pairs) && symbol in e.symbols && i < |orders|
    ensures Triggered(orders[i], e.symbols[symbol].securityId, ltp)
            <==> && TriggeredSide(pairs, symbol, ltp).Some?
                 && i == LegOf(pairs[symbol], TriggeredSide(pairs, symbol, ltp).value)
  {
    if symbol in pairs {
      assert Resting(e, orders, symbol, pairs[symbol]);
    }
    assert OrderKnown(e, orders[i]);
  }

  lemma LegsTrigger(e: Setup, orders: seq<Order>, pairs: map<Symbol, OcoPair>, symbol: Symbol, ltp: int)
    requires ValidSetup(e) && OrdersCoupled(e, orders, pairs) && symbol in e.symbols
    ensures var side := TriggeredSide(pairs, symbol, ltp);
      forall i :: 0 <= i < |orders| ==>
        (Triggered(orders[i], e.symbols[symbol].securityId, ltp)
         <==> side.Some? && i == LegOf(pairs[symbol], side.value))
  {
    var side := TriggeredSide(pairs, symbol, ltp);
    forall i | 0 <= i < |orders|
      ensures Triggered(orders[i], e.symbols[symbol].securityId, ltp)
              <==> side.Some? && i == LegOf(pairs[symbol], side.value)
    {
      OnlyLegsTrigger(e, orders, pairs, symbol, ltp, i);
    }
  }

  lemma SingleFill(s: State, symbol: Symbol, fills: seq<Fill>, fill: Fill, now: Stamp)
    requires fills == [fill]
    ensures FillSteps(s, symbol, fills, now) == FillStep(s, symbol, fill, now)
  {
    assert fills[..0] == [];
  }

  // Filling one leg at the broker and then handling the fill.
  lemma LegFilled(e: Setup, s: State, symbol: Symbol, side: Side, now: Stamp)
    requires symbol in e.symbols && symbol in s.pairs && symbol !in s.book.positions
    requires Resting(e, s.book.orders, symbol, s.pairs[symbol])
    ensures var pair := s.pairs[symbol];
      FillStep(s.(book := FilledOrder(s.book, LegOf(pair, side))), symbol,
               Fill(LegOf(pair, side), side, EntryOf(pair.levels, side)), now)
      == FilledPair(e, s, symbol, side, now)
  {
    var pair := s.pairs[symbol];
    var n := FillStep(s.(book := FilledOrder(s.book, LegOf(pair, side))), symbol,
                      Fill(LegOf(pair, side), side, EntryOf(pair.levels, side)), now);
    var p := PositionFrom(symbol, pair, side, now);
    assert n.book.orders == FilledLegs(e, s.book.orders, symbol, pair, side);
    assert n.book.positions == s.book.positions[symbol := BrokerSide(e, p)];
  }

  // At most one stop fills on a tick, and it turns the pair into a position with the peer
  // cancelled and the levels sent to the broker.
  lemma FillsOfTick(e: Setup, s: State, symbol: Symbol, ltp: int, now: Stamp)
    requires ValidSetup(e) && Coupled(e, s) && symbol in e.symbols
    ensures symbol in s.pairs ==> Resting(e, s.book.orders, symbol, s.pairs[symbol])
    ensures PaperFillsStep(e, s, symbol, ltp, now)
            == if TriggeredSide(s.pairs, symbol, ltp).None? then s
               else FilledPair(e, s, symbol, TriggeredSide(s.pairs, symbol, ltp).value, now)
  {
    var security, side, orders := e.symbols[symbol].securityId, TriggeredSide(s.pairs, symbol, ltp), s.book.orders;
    LegsTrigger(e, orders, s.pairs, symbol, ltp);
    if side.None? {
      NothingTriggered(s.book, 0, security, ltp);
    } else {
      var leg := LegOf(s.pairs[symbol], side.value);
      OneTriggered(s.book, 0, leg, security, ltp);
      var r := TickFrom(s.book, 0, security, ltp);
      SingleFill(s.(book := r.0), symbol, r.1, Fill(leg, side.value, orders[leg].trigger), now);
      LegFilled(e, s, symbol, side.value, now);
    }
  }

  // ---- each sub-step keeps the two objects coupled ----

  lemma CloseBarCoupled(e: Setup, s: State, symbol: Symbol, now: Stamp)
    requires Coupled(e, s)
    ensures Coupled(e, CloseBarStep(e, s, symbol, now))
  {
    var n := CloseBarStep(e, s, symbol, now);
    if n != s {
      assert n.positions.Keys == s.positions.Keys;
      StopSent(e, s.book, s.positions, symbol, n.positions[symbol]);
    }
  }

  lemma BarsCoupled(e: Setup, s: State, symbol: Symbol, ltp: int, now: Stamp)
    requires Coupled(e, s)
    ensures Coupled(e, BarSteps(e, s, symbol, ltp, now))
  {
    CloseBarCoupled(e, s.(lastTickAt := Some(now)), symbol, now);
  }

  // Only the stop changes when a closed bar trails it, and the broker is told.
  lemma StopSent(e: Setup, book: Book, ours: map<Symbol, Position>, symbol: Symbol, q: Position)
    requires PositionsAgree(e, book.positions, ours) && symbol in ours
    requires q == ours[symbol].(sl := q.sl, lockIdx := q.lockIdx, maxFavorable := q.maxFavorable)
    ensures var sent := if q.sl != ours[symbol].sl then ModifiedSl(book, symbol, q.sl) else book;
      sent.orders == book.orders && PositionsAgree(e, sent.positions, ours[symbol := q])
  {
  }

  lemma FillOrders(e: Setup, orders: seq<Order>, pairs: map<Symbol, OcoPair>, symbol: Symbol, side: Side)
    requires OrdersCoupled(e, orders, pairs) && symbol in pairs
    ensures Resting(e, orders, symbol, pairs[symbol])
    ensures OrdersCoupled(e, FilledLegs(e, orders, symbol, pairs[symbol], side), pairs - {symbol})
  {
    assert Resting(e, orders, symbol, pairs[symbol]);
    var next := FilledLegs(e, orders, symbol, pairs[symbol], side);
    forall x | x in pairs && x != symbol ensures Resting(e, next, x, pairs[x]) {
      assert Resting(e, orders, x, pairs[x]);
    }
    forall i | 0 <= i < |next| ensures OrderKnown(e, next[i]) {
      assert OrderKnown(e, orders[i]);
    }
  }

  lemma FillPositions(e: Setup, theirs: map<Symbol, PaperPosition>, ours: map<Symbol, Position>, p: Position)
    requires PositionsAgree(e, theirs, ours) && p.symbol in e.symbols
    ensures PositionsAgree(e, theirs[p.symbol := BrokerSide(e, p)], ours[p.symbol := p])
  {
  }

  lemma FillCoupled(e: Setup, s: State, symbol: Symbol, side: Side, now: Stamp)
    requires Coupled(e, s) && symbol in s.pairs && symbol in e.symbols
    requires Resting(e, s.book.orders, symbol, s.pairs[symbol])
    ensures Coupled(e, FilledPair(e, s, symbol, side, now))
  {
    var n, p := FilledPair(e, s, symbol, side, now), PositionFrom(symbol, s.pairs[symbol], side, now);
    FillOrders(e, s.book.orders, s.pairs, symbol, side);
    FillPositions(e, s.book.positions, s.positions, p);
    assert n.book.positions == s.book.positions[p.symbol := BrokerSide(e, p)];
    assert n.positions == s.positions[p.symbol := p];
  }

  lemma LegsPlaced(e: Setup, orders: seq<Order>, pairs: map<Symbol, OcoPair>, symbol: Symbol,
      levels: Levels.OrderLevels, quantity: int)
    requires OrdersCoupled(e, orders, pairs) && symbol in e.symbols && symbol !in pairs
    requires levels.shortEntry < levels.longEntry
    ensures var pair := OcoPair(symbol, |orders|, |orders| + 1, levels, quantity, None);
      OrdersCoupled(e, orders + [RestingLeg(e, symbol, pair, Long)] + [RestingLeg(e, symbol, pair, Short)],
                    pairs[symbol := pair])
  {
    var pair := OcoPair(symbol, |orders|, |orders| + 1, levels, quantity, None);
    var next := orders + [RestingLeg(e, symbol, pair, Long)] + [RestingLeg(e, symbol, pair, Short)];
    forall x | x in pairs ensures Resting(e, next, x, pairs[x]) {
      assert Resting(e, orders, x, pairs[x]);
    }
  }

  lemma LegsCoupled(e: Setup, s: State, symbol: Symbol, levels: Levels.OrderLevels, quantity: int)
    requires Coupled(e, s) && symbol in e.symbols && symbol !in s.pairs && symbol !in s.positions
    requires levels.shortEntry < levels.longEntry
    ensures Coupled(e, PlaceLegs(s, symbol, e.symbols[symbol].securityId, levels, quantity))
  {
    LegsPlaced(e, s.book.orders, s.pairs, symbol, levels, quantity);
  }

  lemma PlaceCoupled(e: Setup, s: State, symbol: Symbol, now: Stamp)
    requires ValidSetup(e) && Coupled(e, s) && symbol in e.symbols
    ensures Coupled(e, PlacePairStep(e, s, symbol, now))
  {
    var rolled := s.(anchors := AnchorEngine.Rolled(s.anchors, now.day));
    if MayLookUp(e, s, symbol, now) && MayPlace(e, rolled, symbol) {
      var price := rolled.anchors.today[symbol].price;
      TriggersApart(e, price);
      LegsCoupled(e, rolled, symbol, BuildLevels(e.strategy, price), SizeFor(e, e.symbols[symbol]));
    }
  }

  lemma TriggersApart(e: Setup, price: int)
    requires ValidSetup(e)
    ensures var levels := BuildLevels(e.strategy, price); levels.shortEntry < levels.longEntry
  {
    Levels.LevelDistances(price, e.strategy.triggerDist, e.strategy.tpDist, e.strategy.slDist, e.strategy.tickSize);
  }

  lemma SweepCoupled(e: Setup, s: State, now: Stamp)
    requires Coupled(e, s)
    ensures Coupled(e, SweepStep(e, s, now))
  {
    var n := SweepStep(e, s, now);
    if n != s {
      forall i | 0 <= i < |s.book.orders| ensures n.book.orders[i].status != Open && OrderKnown(e, n.book.orders[i]) {
        assert OrderKnown(e, s.book.orders[i]);
        if s.book.orders[i].status == Open {
          var x := s.book.orders[i].symbol;
          assert x in s.pairs && (i == s.pairs[x].longId || i == s.pairs[x].shortId);
          assert InPair(s.pairs, i);
        }
      }
    }
  }

  lemma BookCloseShape(s: State, symbol: Symbol, points: int, money: int)
    ensures var n := BookClose(s, symbol, points, money);
      && n == s.(positions := s.positions - {symbol}, squaredOff := s.squaredOff + {symbol},
                 dayPnl := s.dayPnl + money, dayTrades := s.dayTrades + 1, audit := n.audit)
  {
  }

  // What a square-off leaves of the state.
  lemma SquareOffShape(e: Setup, s: State, symbol: Symbol, ltp: int, now: Stamp)
    ensures var n := SquareOffStep(e, s, symbol, ltp, now);
      && n.book.orders == s.book.orders && n.pairs == s.pairs && n.disk == s.disk && n.swept == s.swept
      && n.bars == s.bars && n.anchors == s.anchors && n.lastTickAt == s.lastTickAt
      && n.squaredOff == (if now.sec >= SquareOffAt(e) then s.squaredOff + {symbol} else s.squaredOff)
      && (if now.sec >= SquareOffAt(e) && symbol !in s.squaredOff && symbol in s.positions
          then n.positions == s.positions - {symbol} && n.book.positions == s.book.positions - {symbol}
          else n.positions == s.positions && n.book.positions == s.book.positions)
  {
    if symbol in s.positions {
      var points := ClosePoints(s.book, symbol, ltp);
      BookCloseShape(s.(book := ForceClosed(s.book, symbol)), symbol, points, points * s.positions[symbol].quantity);
    }
  }

  lemma SquareOffCoupled(e: Setup, s: State, symbol: Symbol, ltp: int, now: Stamp)
    requires Coupled(e, s)
    ensures Coupled(e, SquareOffStep(e, s, symbol, ltp, now))
  {
    SquareOffShape(e, s, symbol, ltp, now);
  }

  lemma TickCoupled(e: Setup, s: State, symbol: Symbol, ltp: int, now: Stamp)
    requires ValidSetup(e) && Coupled(e, s) && symbol in e.symbols
    ensures Coupled(e, BarSteps(e, s, symbol, ltp, now))
    ensures Coupled(e, FirstHalf(e, s, symbol, ltp, now))
    ensures Coupled(e, PlacePairStep(e, FirstHalf(e, s, symbol, ltp, now), symbol, now))
    ensures Coupled(e, SweepStep(e, PlacePairStep(e, FirstHalf(e, s, symbol, ltp, now), symbol, now), now))
    ensures Coupled(e, TickStep(e, s, symbol, ltp, now))
  {
    CloseBarCoupled(e, s.(lastTickAt := Some(now)), symbol, now);
    var bars := BarSteps(e, s, symbol, ltp, now);
    FillsOfTick(e, bars, symbol, ltp, now);
    if TriggeredSide(bars.pairs, symbol, ltp).Some? {
      FillCoupled(e, bars, symbol, TriggeredSide(bars.pairs, symbol, ltp).value, now);
    }
    var filled := PaperFillsStep(e, bars, symbol, ltp, now);
    PlaceCoupled(e, filled, symbol, now);
    SweepCoupled(e, PlacePairStep(e, filled, symbol, now), now);
    SquareOffCoupled(e, SweepStep(e, PlacePairStep(e, filled, symbol, now), now), symbol, ltp, now);
  }

  lemma EventCoupled(e: Setup, s: State, event: Event)
    requires ValidSetup(e) && Coupled(e, s)
    ensures Coupled(e, EventStep(e, s, event))
  {
    if event.Tick? && event.symbol in e.symbols {
      TickCoupled(e, s, event.symbol, event.ltp, event.now);
    }
  }

  // Over every run of ticks, pauses and resumes from a fresh start.
  lemma {:induction false} AlwaysCoupled(e: Setup, file: AnchorEngine.AnchorFile, events: seq<Event>)
    requires ValidSetup(e)
    ensures Coupled(e, RunEvents(e, file, events))
  {
    if events != [] {
      AlwaysCoupled(e, file, events[..|events| - 1]);
      EventCoupled(e, RunEvents(e, file, events[..|events| - 1]), events[|events| - 1]);
    }
  }

  // A file is read back exactly when every record has its symbol, its two orders and its levels;
  // a record without a quantity is read as one for a single unit.
  lemma ReloadReads(disk: map<Symbol, PairRecord>)
    ensures Reloaded(disk).Some? <==> forall s :: s in disk ==>
      disk[s].symbol.Some? && disk[s].longId.Some? && disk[s].shortId.Some? && disk[s].levels.Some?
    ensures Reloaded(disk).Some? ==> forall s :: s in disk ==>
      && s in Reloaded(disk).value
      && var r, pair := disk[s], Reloaded(disk).value[s];
         && r.symbol == Some(pair.symbol) && r.longId == Some(pair.longId) && r.shortId == Some(pair.shortId)
         && r.levels == Some(pair.levels) && r.filledSide == pair.filledSide
         && pair.quantity == match r.quantity case Some(quantity) => quantity case None => 1
  {
  }

  // A restart between two ticks reads back exactly the pairs that were in memory.
  lemma ReloadInvertsPersist(pairs: map<Symbol, OcoPair>)
    ensures Reloaded(Persisted(pairs)) == Some(pairs)
  {
    assert forall s :: s in pairs ==> FromRecord(Persisted(pairs)[s]) == Some(pairs[s]);
    assert (map s | s in Persisted(pairs) :: FromRecord(Persisted(pairs)[s]).value) == pairs;
  }

  lemma PairsSurviveRestart(e: Setup, file: AnchorEngine.AnchorFile, events: seq<Event>)
    requires ValidSetup(e)
    ensures var s := RunEvents(e, file, events); Reloaded(s.disk) == Some(s.pairs)
  {
    AlwaysCoupled(e, file, events);
    ReloadInvertsPersist(RunEvents(e, file, events).pairs);
  }

  // The square-off books what the orchestrator's own position gains at the last price, for
  // its whole quantity, although it is the broker that computes the points, and tells the
  // audit the same, but for the quantity.
  lemma SquareOffPaysGain(e: Setup, s: State, symbol: Symbol, ltp: int, now: Stamp)
    requires Coupled(e, s) && symbol in s.positions && symbol !in s.squaredOff
    requires now.sec >= e.strategy.squareOffTime - e.strategy.squareOffTime % 60
    ensures var n, p := SquareOffStep(e, s, symbol, ltp, now), s.positions[symbol];
      var gain := if p.side.Long? then ltp - p.entry else p.entry - ltp;
      && n.dayPnl == s.dayPnl + gain * p.quantity && n.dayTrades == s.dayTrades + 1
      && n.audit.trades == s.audit.trades + [Audit.Entry(gain, gain * p.quantity, 0, 0.0)]
  {
    var p := s.positions[symbol];
    assert s.book.positions[symbol] == BrokerSide(e, p);
    BookCloseShape(s.(book := ForceClosed(s.book, symbol)), symbol, p.Gain(ltp), p.Gain(ltp) * p.quantity);
  }
}
