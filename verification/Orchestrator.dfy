// engine/orchestrator.py, PAPER mode: the object whose `OnTick` runs the sub-steps in place,
// sharing a broker, an anchor engine, an audit and a file.
module Orchestrator {
  import opened Wrappers
  import StateStore
  import Levels
  import opened StrategyRunner
  import RiskControls
  import AnchorEngine
  import opened PaperBroker
  import Audit
  import opened TickSteps

  class Orchestrator {
    const setup: Setup
    const runner: Runner
    const broker: Broker
    const anchorEngine: AnchorEngine.Engine
    const audit: Audit.DailyAudit
    const store: StateStore.StateStore<map<Symbol, PairRecord>>
    var rollingBars: map<Symbol, RollingBar>
    var ocoPairs: map<Symbol, OcoPair>
    var positions: map<Symbol, StrategyPosition>
    var dayPnl: int
    var dayTrades: nat
    var squaredOffToday: set<Symbol>
    var preSquareoffCancelled: bool
    var paused: bool
    var lastTickAt: Option<Stamp>

    constructor (setup: Setup, broker: Broker, anchorEngine: AnchorEngine.Engine, audit: Audit.DailyAudit,
                 store: StateStore.StateStore<map<Symbol, PairRecord>>)
      requires anchorEngine.config == setup.anchor && Reloaded(store.saved).Some?
      ensures Valid() && this.setup == setup
      ensures this.broker == broker && this.anchorEngine == anchorEngine && this.audit == audit && this.store == store
      ensures View() == State(map[], Reloaded(store.saved).value, map[], 0, 0, {}, false, false, None,
                              anchorEngine.View(), broker.View(), audit.View(), store.saved)
    {
      this.setup, this.broker, this.anchorEngine, this.audit, this.store := setup, broker, anchorEngine, audit, store;
      runner := new Runner(setup.strategy);
      rollingBars, positions := map[], map[];
      ocoPairs := Reloaded(store.saved).value;
      dayPnl, dayTrades, squaredOffToday, preSquareoffCancelled, paused, lastTickAt := 0, 0, {}, false, false, None;
    }

    // Two symbols never share a position object.
    ghost predicate Valid()
      reads this
    {
      && runner.config == setup.strategy && anchorEngine.config == setup.anchor
      && forall s, t :: s in positions && t in positions && s != t ==> positions[s] != positions[t]
    }

    ghost function Held(): map<Symbol, Position>
      reads this`positions, positions.Values
    {
      map s | s in positions :: positions[s].View()
    }

    ghost function View(): State
      reads this, broker, anchorEngine, anchorEngine.store, audit, audit.drawdown, store, positions.Values
    {
      State(rollingBars, ocoPairs, Held(), dayPnl, dayTrades, squaredOffToday, preSquareoffCancelled, paused,
            lastTickAt, anchorEngine.View(), broker.View(), audit.View(), store.saved)
    }

    method PersistOcoPairs()
      modifies store
      ensures store.saved == Persisted(ocoPairs)
    {
      store.Save(Persisted(ocoPairs));
    }

    // The ratchet on one position: the other positions are other objects.
    method TrailPosition(symbol: Symbol, close: int)
      requires Valid() && symbol in positions
      modifies positions[symbol]
      ensures Held() == old(Held())[symbol := TrailFromClose(setup.strategy, old(Held())[symbol], close)]
    {
      ghost var before := Held();
      runner.UpdateTrailingFromClose(positions[symbol], close);
      assert Held() == before[symbol := positions[symbol].View()];
    }

    method SendStop(symbol: Symbol, sl: int)
      modifies broker
      ensures View() == old(View()).(book := ModifiedSl(old(View()).book, symbol, sl))
    {
      var _ := broker.ModifySl(symbol, sl);
    }

    method MaybeCloseBar(symbol: Symbol, now: Stamp)
      requires Valid()
      modifies broker, positions.Values
      ensures View() == CloseBarStep(setup, old(View()), symbol, now)
    {
      if symbol !in rollingBars {
        return;
      }
      var bar := rollingBars[symbol];
      if BarStart(now) == bar.start || symbol !in positions {
        return;
      }
      var prevSl := positions[symbol].sl;
      TrailPosition(symbol, bar.close);
      if positions[symbol].sl != prevSl {
        SendStop(symbol, positions[symbol].sl);
      }
    }

    method UpdateRollingBar(symbol: Symbol, ltp: int, now: Stamp)
      modifies this`rollingBars
      ensures View() == RollBarStep(old(View()), symbol, ltp, now)
    {
      if symbol !in rollingBars || rollingBars[symbol].start != BarStart(now) {
        rollingBars := rollingBars[symbol := RollingBar(BarStart(now), ltp, ltp, ltp, ltp)];
        return;
      }
      var existing := rollingBars[symbol];
      rollingBars := rollingBars[symbol :=
        existing.(high := Max(existing.high, ltp), low := Min(existing.low, ltp), close := ltp)];
    }

    method MaybeCaptureAnchor(symbol: Symbol, ltp: int, now: Stamp)
      requires Valid()
      modifies anchorEngine, anchorEngine.store
      ensures View() == CaptureStep(setup, old(View()), symbol, ltp, now)
    {
      if symbol in rollingBars {
        PollAnchor(symbol, rollingBars[symbol].open, rollingBars[symbol].start, now);
      } else {
        PollAnchor(symbol, ltp, now, now);
      }
    }

    method PollAnchor(symbol: Symbol, price: int, source: Stamp, now: Stamp)
      requires Valid()
      modifies anchorEngine, anchorEngine.store
      ensures var was := old(View());
        View() == was.(anchors := AnchorEngine.GatedTick(setup.anchor, was.anchors, symbol, price, source, now))
    {
      var should := anchorEngine.ShouldCaptureAnchor(symbol, now);
      if should {
        var _ := anchorEngine.CaptureAnchor(symbol, price, source, now);
      }
    }

    method OnOrderFill(symbol: Symbol, fill: Fill, now: Stamp)
      requires Valid()
      modifies this`positions, this`ocoPairs, broker, store
      ensures Valid() && fresh(positions.Values - old(positions.Values))
      ensures View() == FillStep(old(View()), symbol, fill, now)
    {
      if symbol !in ocoPairs {
        return;
      }
      var pair := ocoPairs[symbol];
      var peer := if fill.orderId == pair.longId then pair.shortId else pair.longId;
      CancelPeer(peer);
      EnterPosition(symbol, OpenPosition(symbol, fill.side, pair.levels, fill.price, now, pair.quantity));
    }

    method CancelPeer(id: nat)
      modifies broker
      ensures View() == old(View()).(book := CancelledOrder(old(View()).book, id))
    {
      var _ := broker.CancelOrder(id);
    }

    method AddPosition(symbol: Symbol, p: Position)
      requires Valid()
      modifies this`positions
      ensures Valid() && fresh(positions.Values - old(positions.Values))
      ensures View() == old(View()).(positions := old(View()).positions[symbol := p])
    {
      ghost var before := Held();
      var position := new StrategyPosition(p);
      positions := positions[symbol := position];
      assert Held() == before[symbol := p];
    }

    method DropPosition(symbol: Symbol)
      requires Valid() && symbol in positions
      modifies this`positions
      ensures Valid() && positions.Values <= old(positions.Values)
      ensures View() == Dropped(old(View()), symbol)
    {
      positions := positions - {symbol};
      assert Held() == old(Held()) - {symbol};
    }

    method EnterPosition(symbol: Symbol, p: Position)
      requires Valid()
      modifies this`positions, this`ocoPairs, broker, store
      ensures Valid() && fresh(positions.Values - old(positions.Values))
      ensures View() == TakePosition(old(View()), symbol, p)
    {
      AddPosition(symbol, p);
      SendLevels(symbol, p);
      RemovePair(symbol);
    }

    method RemovePair(symbol: Symbol)
      modifies this`ocoPairs, store
      ensures View() == Saved(old(View()).(pairs := old(View()).pairs - {symbol}))
    {
      ocoPairs := ocoPairs - {symbol};
      PersistOcoPairs();
    }

    method SendLevels(symbol: Symbol, p: Position)
      modifies broker
      ensures View() == old(View()).(book := ModifiedTp(ModifiedSl(old(View()).book, symbol, p.sl), symbol, p.tp))
    {
      var _ := broker.ModifySl(symbol, p.sl);
      var _ := broker.ModifyTp(symbol, p.tp);
    }

    method HandlePaperFills(symbol: Symbol, ltp: int, now: Stamp)
      requires Valid() && symbol in setup.symbols
      modifies this`positions, this`ocoPairs, broker, store
      ensures Valid() && fresh(positions.Values - old(positions.Values))
      ensures View() == PaperFillsStep(setup, old(View()), symbol, ltp, now)
    {
      var fills := FillAtBroker(setup.symbols[symbol].securityId, ltp);
      ApplyFills(symbol, fills, now);
    }

    method FillAtBroker(security: string, ltp: int) returns (fills: seq<Fill>)
      modifies broker
      ensures var r := TickFrom(old(View()).book, 0, security, ltp);
        View() == old(View()).(book := r.0) && fills == r.1
    {
      fills := broker.ProcessTick(security, ltp);
    }

    method ApplyFills(symbol: Symbol, fills: seq<Fill>, now: Stamp)
      requires Valid()
      modifies this`positions, this`ocoPairs, broker, store
      ensures Valid() && fresh(positions.Values - old(positions.Values))
      ensures View() == FillSteps(old(View()), symbol, fills, now)
    {
      for i := 0 to |fills|
        invariant Valid() && fresh(positions.Values - old(positions.Values))
        invariant View() == FillSteps(old(View()), symbol, fills[..i], now)
      {
        OnOrderFill(symbol, fills[i], now);
        assert fills[..i + 1][..i] == fills[..i];
      }
      assert fills[..|fills|] == fills;
    }

    method MaybePlaceOcoPair(symbol: Symbol, now: Stamp)
      requires Valid() && symbol in setup.symbols
      modifies this`ocoPairs, broker, store, anchorEngine, anchorEngine.store
      ensures View() == PlacePairStep(setup, old(View()), symbol, now)
    {
      if symbol in ocoPairs || symbol in positions || now.sec >= setup.noNewTradeAfter || paused {
        return;
      }
      var record := anchorEngine.GetAnchor(symbol, now);
      if record.None? || RiskControls.Blocked(Some(setup.guardrails), dayTrades, dayPnl).Some? {
        return;
      }
      var quantity := SizeFor(setup, setup.symbols[symbol]);
      if quantity == 0 {
        return;
      }
      PlaceBothLegs(symbol, setup.symbols[symbol].securityId, BuildLevels(setup.strategy, record.value.price),
                    quantity);
    }

    method PlaceLeg(symbol: Symbol, security: string, side: Side, quantity: int, trigger: int) returns (id: nat)
      modifies broker
      ensures id == |old(View()).book.orders|
      ensures View() == old(View()).(book := PlacedStop(old(View()).book, symbol, security, side, quantity, trigger))
    {
      id := broker.PlaceStopOrder(symbol, security, side, quantity, trigger);
    }

    method PlaceBothLegs(symbol: Symbol, security: string, levels: Levels.OrderLevels, quantity: int)
      modifies this`ocoPairs, broker, store
      ensures View() == PlaceLegs(old(View()), symbol, security, levels, quantity)
    {
      var longId := PlaceLeg(symbol, security, Long, quantity, levels.longEntry);
      var shortId := PlaceLeg(symbol, security, Short, quantity, levels.shortEntry);
      AddPair(symbol, OcoPair(symbol, longId, shortId, levels, quantity, None));
    }

    method AddPair(symbol: Symbol, pair: OcoPair)
      modifies this`ocoPairs, store
      ensures View() == Saved(old(View()).(pairs := old(View()).pairs[symbol := pair]))
    {
      ocoPairs := ocoPairs[symbol := pair];
      PersistOcoPairs();
    }

    method PreSquareoffSweep(now: Stamp)
      modifies this`ocoPairs, this`preSquareoffCancelled, broker, store
      ensures View() == SweepStep(setup, old(View()), now)
    {
      if preSquareoffCancelled || now.sec < SweepAt(setup) {
        return;
      }
      SweepPairs();
    }

    method MarkSwept()
      modifies this`preSquareoffCancelled
      ensures View() == old(View()).(swept := true)
    {
      preSquareoffCancelled := true;
    }

    method SweepPairs()
      modifies this`ocoPairs, this`preSquareoffCancelled, broker, store
      ensures View() == Saved(CancelAll(old(View()).(swept := true)))
    {
      MarkSwept();
      CancelAllPairs();
      PersistOcoPairs();
    }

    method CancelAllPairs()
      modifies this`ocoPairs, broker
      ensures View() == CancelAll(old(View()))
    {
      ghost var book := broker.View();
      ghost var done: map<Symbol, OcoPair> := map[];
      assert CancelledPairs(book, done).orders == book.orders;
      while ocoPairs != map[]
        invariant ocoPairs.Keys !! done.Keys && old(ocoPairs) == ocoPairs + done
        invariant broker.View() == CancelledPairs(book, done)
        decreases ocoPairs.Keys
      {
        var symbol :| symbol in ocoPairs;
        var pair := ocoPairs[symbol];
        var _ := broker.CancelOrder(pair.longId);
        var _ := broker.CancelOrder(pair.shortId);
        CancelNextPair(book, done, symbol, pair);
        done := done[symbol := pair];
        ocoPairs := ocoPairs - {symbol};
      }
      assert done == old(ocoPairs);
    }

    method SquareoffAtClose(symbol: Symbol, ltp: int, now: Stamp)
      requires Valid()
      modifies this, broker, audit, audit.drawdown
      ensures Valid() && positions.Values <= old(positions.Values)
      ensures View() == SquareOffStep(setup, old(View()), symbol, ltp, now)
    {
      if now.sec < SquareOffAt(setup) || symbol in squaredOffToday {
        return;
      }
      if symbol !in positions {
        squaredOffToday := squaredOffToday + {symbol};
        return;
      }
      var position := positions[symbol];
      var points := CloseAtBroker(symbol, ltp);
      RecordClose(symbol, points, points * position.quantity);
    }

    method CloseAtBroker(symbol: Symbol, ltp: int) returns (points: int)
      modifies broker
      ensures points == ClosePoints(old(View()).book, symbol, ltp)
      ensures View() == old(View()).(book := ForceClosed(old(View()).book, symbol))
    {
      var closed := broker.ForceClose(symbol, ltp);
      points := if closed.Some? then closed.value else 0;
    }

    method RecordClose(symbol: Symbol, points: int, moneyPnl: int)
      requires Valid() && symbol in positions
      modifies this`dayPnl, this`dayTrades, this`squaredOffToday, this`positions, audit, audit.drawdown
      ensures Valid() && positions.Values <= old(positions.Values)
      ensures View() == BookClose(old(View()), symbol, points, moneyPnl)
    {
      CountTheClose(symbol, moneyPnl);
      DropPosition(symbol);
      RecordUncharged(points, moneyPnl);
    }

    method CountTheClose(symbol: Symbol, moneyPnl: int)
      modifies this`dayPnl, this`dayTrades, this`squaredOffToday
      ensures View() == CountClose(old(View()), symbol, moneyPnl)
    {
      dayPnl := dayPnl + moneyPnl;
      dayTrades := dayTrades + 1;
      squaredOffToday := squaredOffToday + {symbol};
    }

    method RecordUncharged(points: int, moneyPnl: int)
      modifies audit, audit.drawdown
      ensures View() == AuditClose(old(View()), points, moneyPnl)
    {
      audit.RecordTrade(ClosingEntry(points, moneyPnl));
      Uncharged(audit.costModel, old(audit.View()), points, moneyPnl);
    }

    method RunFirstHalf(symbol: Symbol, ltp: int, now: Stamp)
      requires Valid() && symbol in setup.symbols
      modifies this, broker, anchorEngine, anchorEngine.store, audit, audit.drawdown, store, positions.Values
      ensures Valid() && fresh(positions.Values - old(positions.Values))
      ensures View() == FirstHalf(setup, old(View()), symbol, ltp, now)
    {
      RollBars(symbol, ltp, now);
      HandlePaperFills(symbol, ltp, now);
    }

    method RollBars(symbol: Symbol, ltp: int, now: Stamp)
      requires Valid()
      modifies this`lastTickAt, this`rollingBars, broker, positions.Values, anchorEngine, anchorEngine.store
      ensures View() == BarSteps(setup, old(View()), symbol, ltp, now)
    {
      CloseAndRoll(symbol, ltp, now);
      MaybeCaptureAnchor(symbol, ltp, now);
    }

    method NoteTick(now: Stamp)
      modifies this`lastTickAt
      ensures View() == old(View()).(lastTickAt := Some(now))
    {
      lastTickAt := Some(now);
    }

    // A window closes before the next one opens.
    method CloseAndRoll(symbol: Symbol, ltp: int, now: Stamp)
      requires Valid()
      modifies this`lastTickAt, this`rollingBars, broker, positions.Values
      ensures var closed := CloseBarStep(setup, old(View()).(lastTickAt := Some(now)), symbol, now);
        View() == RollBarStep(closed, symbol, ltp, now)
    {
      NoteTick(now);
      MaybeCloseBar(symbol, now);
      UpdateRollingBar(symbol, ltp, now);
    }

    method RunSecondHalf(symbol: Symbol, ltp: int, now: Stamp)
      requires Valid() && symbol in setup.symbols
      modifies this, broker, anchorEngine, anchorEngine.store, audit, audit.drawdown, store, positions.Values
      ensures Valid() && positions.Values <= old(positions.Values)
      ensures View() == SecondHalf(setup, old(View()), symbol, ltp, now)
    {
      MaybePlaceOcoPair(symbol, now);
      PreSquareoffSweep(now);
      SquareoffAtClose(symbol, ltp, now);
    }

    method OnTick(symbol: Symbol, ltp: int, now: Stamp)
      requires Valid()
      modifies this, broker, anchorEngine, anchorEngine.store, audit, audit.drawdown, store, positions.Values
      ensures Valid() && fresh(positions.Values - old(positions.Values))
      ensures View() == TickStep(setup, old(View()), symbol, ltp, now)
    {
      if symbol !in setup.symbols {
        return;
      }
      RunFirstHalf(symbol, ltp, now);
      RunSecondHalf(symbol, ltp, now);
    }
  }

  // Cancelling one more pair's orders after those of `done`.
  lemma CancelNextPair(b: Book, done: map<Symbol, OcoPair>, symbol: Symbol, pair: OcoPair)
    requires symbol !in done
    ensures CancelledOrder(CancelledOrder(CancelledPairs(b, done), pair.longId), pair.shortId)
            == CancelledPairs(b, done[symbol := pair])
  {
    var next := done[symbol := pair];
    forall i: nat ensures InPair(next, i) <==> InPair(done, i) || i == pair.longId || i == pair.shortId {
      if InPair(done, i) {
        var s :| s in done && (i == done[s].longId || i == done[s].shortId);
        assert s in next && next[s] == done[s];
      }
      if i == pair.longId || i == pair.shortId {
        assert symbol in next && next[symbol] == pair;
      }
    }
    assert CancelledOrder(CancelledOrder(CancelledPairs(b, done), pair.longId), pair.shortId).orders
        == CancelledPairs(b, next).orders;
  }
}
