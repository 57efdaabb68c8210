// engine/orchestrator.py, PAPER mode: what restarts keep and what they lose, over whole runs.
// The pairs and the anchors come back from disk; positions, the broker's orders, the day's
// counters and the audit live in memory only, and the new broker numbers its orders from the
// start again.
module TickRestart {
  import opened Wrappers
  import Levels
  import opened StrategyRunner
  import AnchorEngine
  import opened PaperBroker
  import opened TickSteps
  import opened TickCoupling
  import opened TickDay

  // A new process over the files of the old one.
  function Restarted(s: State): State
    requires Reloaded(s.disk).Some?
  {
    Fresh(s.anchors.disk).(pairs := Reloaded(s.disk).value, disk := s.disk)
  }

  datatype Act = Live(event: Event) | Restart

  // `orphans` are the symbols whose pair was read back from disk, so that its orders are
  // gone; `clock` is the time of the last tick of a traded symbol.
  datatype Run = Run(state: State, orphans: set<Symbol>, clock: Option<int>)

  ghost function ActStep(e: Setup, r: Run, a: Act): Run {
    match a
    case Live(event) =>
      var n := EventStep(e, r.state, event);
      var clock := if event.Tick? && event.symbol in e.symbols then Some(event.now.sec) else r.clock;
      Run(n, r.orphans * n.pairs.Keys, clock)
    case Restart =>
      if Reloaded(r.state.disk).None? then r  // the process does not come up
      else Run(Restarted(r.state), Reloaded(r.state.disk).value.Keys, r.clock)
  }

  ghost function RunActs(e: Setup, file: AnchorEngine.AnchorFile, acts: seq<Act>): Run {
    if acts == [] then Run(Fresh(file), {}, None)
    else ActStep(e, RunActs(e, file, acts[..|acts| - 1]), acts[|acts| - 1])
  }

  // ---- the invariant: coupled, once the orphans are set aside ----

  function Without(s: State, orphans: set<Symbol>): State {
    s.(pairs := s.pairs - orphans, disk := Persisted(s.pairs - orphans))
  }

  // The broker has never heard of these symbols, and no position is held in them.
  ghost predicate Untraded(s: State, symbols: set<Symbol>) {
    && symbols !! s.positions.Keys && symbols !! s.book.positions.Keys
    && forall i :: 0 <= i < |s.book.orders| ==> s.book.orders[i].symbol !in symbols
  }

  ghost predicate Loose(e: Setup, s: State, orphans: set<Symbol>) {
    && orphans <= s.pairs.Keys <= e.symbols.Keys
    && s.disk == Persisted(s.pairs)
    && Coupled(e, Without(s, orphans)) && Untraded(s, orphans)
  }

  lemma CloseBarWithout(e: Setup, s: State, orphans: set<Symbol>, symbol: Symbol, now: Stamp)
    ensures CloseBarStep(e, Without(s, orphans), symbol, now) == Without(CloseBarStep(e, s, symbol, now), orphans)
  {
  }

  lemma BarsWithout(e: Setup, s: State, orphans: set<Symbol>, symbol: Symbol, ltp: int, now: Stamp)
    ensures BarSteps(e, Without(s, orphans), symbol, ltp, now) == Without(BarSteps(e, s, symbol, ltp, now), orphans)
  {
    CloseBarWithout(e, s.(lastTickAt := Some(now)), orphans, symbol, now);
  }

  lemma BarsLoose(e: Setup, s: State, orphans: set<Symbol>, symbol: Symbol, ltp: int, now: Stamp)
    requires Loose(e, s, orphans) && symbol in e.symbols
    ensures Loose(e, BarSteps(e, s, symbol, ltp, now), orphans)
  {
    BarsShape(e, s, symbol, ltp, now);
    BarsWithout(e, s, orphans, symbol, ltp, now);
    BarsCoupled(e, Without(s, orphans), symbol, ltp, now);
  }

  // A fill of another symbol's order does not notice the orphans.
  lemma {:induction false} FillsWithout(s: State, orphans: set<Symbol>, symbol: Symbol, fills: seq<Fill>, now: Stamp)
    requires symbol !in orphans && s.disk == Persisted(s.pairs)
    ensures var n := FillSteps(s, symbol, fills, now);
      && Without(n, orphans) == FillSteps(Without(s, orphans), symbol, fills, now)
      && n.disk == Persisted(n.pairs) && s.pairs.Keys - {symbol} <= n.pairs.Keys <= s.pairs.Keys
  {
    if fills != [] {
      FillsWithout(s, orphans, symbol, fills[..|fills| - 1], now);
      var m := FillSteps(s, symbol, fills[..|fills| - 1], now);
      if symbol in m.pairs {
        assert m.pairs - {symbol} - orphans == m.pairs - orphans - {symbol};
      }
    }
  }

  // Set aside the orphans, and a tick's fills are those of a coupled state.
  lemma FillsWithoutCoupled(e: Setup, w: State, orphans: set<Symbol>, symbol: Symbol, ltp: int, now: Stamp)
    requires ValidSetup(e) && Coupled(e, w) && Untraded(w, orphans) && symbol in e.symbols && symbol !in orphans
    ensures var n := PaperFillsStep(e, w, symbol, ltp, now); Coupled(e, n) && Untraded(n, orphans)
  {
    FillsOfTick(e, w, symbol, ltp, now);
    var side := TriggeredSide(w.pairs, symbol, ltp);
    if side.Some? {
      FillCoupled(e, w, symbol, side.value, now);
      FilledUntraded(e, w, symbol, side.value, now, orphans);
    }
  }

  lemma OtherFillsLoose(e: Setup, s: State, orphans: set<Symbol>, symbol: Symbol, ltp: int, now: Stamp)
    requires ValidSetup(e) && Loose(e, s, orphans) && symbol in e.symbols && symbol !in orphans
    ensures Loose(e, PaperFillsStep(e, s, symbol, ltp, now), orphans)
  {
    var r := TickFrom(s.book, 0, e.symbols[symbol].securityId, ltp);
    FillsWithout(s.(book := r.0), orphans, symbol, r.1, now);
    FillsWithoutCoupled(e, Without(s, orphans), orphans, symbol, ltp, now);
    assert PaperFillsStep(e, Without(s, orphans), symbol, ltp, now)
        == Without(PaperFillsStep(e, s, symbol, ltp, now), orphans);
  }

  lemma FilledUntraded(e: Setup, s: State, symbol: Symbol, side: Side, now: Stamp, orphans: set<Symbol>)
    requires symbol in s.pairs && symbol in e.symbols && Resting(e, s.book.orders, symbol, s.pairs[symbol])
    requires Untraded(s, orphans) && symbol !in orphans
    ensures Untraded(FilledPair(e, s, symbol, side, now), orphans)
  {
  }

  lemma OrphanFillsNothing(e: Setup, s: State, orphans: set<Symbol>, symbol: Symbol, ltp: int, now: Stamp)
    requires ValidSetup(e) && Loose(e, s, orphans) && symbol in orphans
    ensures symbol in e.symbols && PaperFillsStep(e, s, symbol, ltp, now) == s
  {
    LegsTrigger(e, s.book.orders, Without(s, orphans).pairs, symbol, ltp);
    NothingTriggered(s.book, 0, e.symbols[symbol].securityId, ltp);
  }

  lemma LegsWithout(s: State, orphans: set<Symbol>, symbol: Symbol, security: string,
      levels: Levels.OrderLevels, quantity: int)
    requires symbol !in orphans
    ensures PlaceLegs(Without(s, orphans), symbol, security, levels, quantity)
            == Without(PlaceLegs(s, symbol, security, levels, quantity), orphans)
  {
    var n := PlaceLegs(s, symbol, security, levels, quantity);
    assert n.pairs - orphans == (s.pairs - orphans)[symbol := n.pairs[symbol]];
  }

  lemma PlaceWithout(e: Setup, s: State, orphans: set<Symbol>, symbol: Symbol, now: Stamp)
    requires symbol in e.symbols && symbol !in s.pairs && symbol !in orphans
    ensures PlacePairStep(e, Without(s, orphans), symbol, now) == Without(PlacePairStep(e, s, symbol, now), orphans)
  {
    var r := s.(anchors := AnchorEngine.Rolled(s.anchors, now.day));
    if MayLookUp(e, s, symbol, now) && MayPlace(e, r, symbol) {
      LegsWithout(r, orphans, symbol, e.symbols[symbol].securityId,
                  BuildLevels(e.strategy, r.anchors.today[symbol].price), SizeFor(e, e.symbols[symbol]));
    }
  }

  lemma PlaceLoose(e: Setup, s: State, orphans: set<Symbol>, symbol: Symbol, now: Stamp)
    requires ValidSetup(e) && Loose(e, s, orphans) && symbol in e.symbols
    ensures Loose(e, PlacePairStep(e, s, symbol, now), orphans)
  {
    if symbol !in s.pairs {
      PlaceCoupled(e, Without(s, orphans), symbol, now);
      PlaceWithout(e, s, orphans, symbol, now);
      PlaceShape(e, s, symbol, now);
      PlacedUntraded(e, s, orphans, symbol, now);
    }
  }

  lemma PlacedUntraded(e: Setup, s: State, orphans: set<Symbol>, symbol: Symbol, now: Stamp)
    requires symbol in e.symbols && symbol !in orphans && Untraded(s, orphans) && s.disk == Persisted(s.pairs)
    ensures var n := PlacePairStep(e, s, symbol, now); Untraded(n, orphans) && n.disk == Persisted(n.pairs)
  {
    PlaceShape(e, s, symbol, now);
  }

  lemma SweptOrders(e: Setup, s: State, orphans: set<Symbol>, now: Stamp)
    requires OrdersCoupled(e, s.book.orders, s.pairs - orphans) && !s.swept && now.sec >= SweepAt(e)
    ensures OrdersCoupled(e, SweepStep(e, s, now).book.orders, map[])
  {
    var n, live := SweepStep(e, s, now), s.pairs - orphans;
    forall i | 0 <= i < |s.book.orders| ensures n.book.orders[i].status != Open && OrderKnown(e, n.book.orders[i]) {
      assert OrderKnown(e, s.book.orders[i]);
      if s.book.orders[i].status == Open {
        var x := s.book.orders[i].symbol;
        assert x in live && live[x] == s.pairs[x];
        assert InPair(s.pairs, i);
      }
    }
  }

  // The sweep takes the orphans with it. Their stale ids may name other symbols' orders, but
  // those are swept too.
  lemma SweepLoose(e: Setup, s: State, orphans: set<Symbol>, now: Stamp)
    requires Loose(e, s, orphans) && !s.swept && now.sec >= SweepAt(e)
    ensures var n := SweepStep(e, s, now); Loose(e, n, {}) && n.pairs == map[] && Untraded(n, orphans)
  {
    SweptOrders(e, s, orphans, now);
    assert Without(SweepStep(e, s, now), {}).pairs == map[];
  }

  lemma SquareOffLoose(e: Setup, s: State, orphans: set<Symbol>, symbol: Symbol, ltp: int, now: Stamp)
    requires Loose(e, s, orphans)
    ensures Loose(e, SquareOffStep(e, s, symbol, ltp, now), orphans)
  {
    SquareOffShape(e, s, symbol, ltp, now);
    SquareOffCoupled(e, Without(s, orphans), symbol, ltp, now);
    SquareOffShape(e, Without(s, orphans), symbol, ltp, now);
  }

  lemma FirstHalfLoose(e: Setup, s: State, orphans: set<Symbol>, symbol: Symbol, ltp: int, now: Stamp)
    requires ValidSetup(e) && Loose(e, s, orphans) && symbol in e.symbols
    ensures Loose(e, FirstHalf(e, s, symbol, ltp, now), orphans)
  {
    BarsLoose(e, s, orphans, symbol, ltp, now);
    var bars := BarSteps(e, s, symbol, ltp, now);
    if symbol in orphans {
      OrphanFillsNothing(e, bars, orphans, symbol, ltp, now);
    } else {
      OtherFillsLoose(e, bars, orphans, symbol, ltp, now);
    }
  }

  lemma PlacedLoose(e: Setup, s: State, orphans: set<Symbol>, symbol: Symbol, ltp: int, now: Stamp)
    requires ValidSetup(e) && Loose(e, s, orphans) && symbol in e.symbols
    ensures var n := PlacePairStep(e, FirstHalf(e, s, symbol, ltp, now), symbol, now);
      Loose(e, n, orphans) && n.swept == s.swept
  {
    FirstHalfOpensNothing(e, s, symbol, ltp, now);
    FirstHalfLoose(e, s, orphans, symbol, ltp, now);
    PlaceLoose(e, FirstHalf(e, s, symbol, ltp, now), orphans, symbol, now);
    PlaceShape(e, FirstHalf(e, s, symbol, ltp, now), symbol, now);
  }

  // A tick keeps the orphans as they are, or sweeps them all away.
  lemma TickLoose(e: Setup, s: State, orphans: set<Symbol>, symbol: Symbol, ltp: int, now: Stamp)
    requires ValidSetup(e) && Loose(e, s, orphans) && symbol in e.symbols
    ensures var n := TickStep(e, s, symbol, ltp, now); Loose(e, n, orphans * n.pairs.Keys)
  {
    PlacedLoose(e, s, orphans, symbol, ltp, now);
    var placed := PlacePairStep(e, FirstHalf(e, s, symbol, ltp, now), symbol, now);
    var swept := SweepStep(e, placed, now);
    SquareOffShape(e, swept, symbol, ltp, now);
    if s.swept || now.sec < SweepAt(e) {
      SquareOffLoose(e, placed, orphans, symbol, ltp, now);
      assert orphans * placed.pairs.Keys == orphans;
    } else {
      SweepLoose(e, placed, orphans, now);
      SquareOffLoose(e, swept, {}, symbol, ltp, now);
      assert orphans * swept.pairs.Keys == {};
    }
  }

  lemma ClosingUntraded(e: Setup, s: State, symbol: Symbol, ltp: int, now: Stamp, x: Symbol)
    requires Untraded(s, {x})
    ensures var n := SquareOffStep(e, SweepStep(e, s, now), symbol, ltp, now);
      Untraded(n, {x}) && (s.swept || now.sec < SweepAt(e) ==> n.pairs == s.pairs)
  {
    SquareOffShape(e, SweepStep(e, s, now), symbol, ltp, now);
  }

  lemma OrphanUntraded(e: Setup, s: State, orphans: set<Symbol>, x: Symbol)
    requires Loose(e, s, orphans) && x in orphans
    ensures Untraded(s, {x}) && x in s.pairs
  {
  }

  lemma OrphanStaysUntraded(e: Setup, s: State, orphans: set<Symbol>, symbol: Symbol, ltp: int, now: Stamp, x: Symbol)
    requires ValidSetup(e) && Loose(e, s, orphans) && symbol in e.symbols && x in orphans
    ensures var n := TickStep(e, s, symbol, ltp, now);
      Untraded(n, {x}) && (s.swept || now.sec < SweepAt(e) ==> x in n.pairs)
  {
    PlacedLoose(e, s, orphans, symbol, ltp, now);
    var placed := PlacePairStep(e, FirstHalf(e, s, symbol, ltp, now), symbol, now);
    OrphanUntraded(e, placed, orphans, x);
    ClosingUntraded(e, placed, symbol, ltp, now, x);
  }

  lemma RestartLoose(e: Setup, s: State, orphans: set<Symbol>)
    requires Loose(e, s, orphans)
    ensures Reloaded(s.disk) == Some(s.pairs) && Loose(e, Restarted(s), s.pairs.Keys)
  {
    ReloadInvertsPersist(s.pairs);
    assert Without(Restarted(s), s.pairs.Keys).pairs == map[];
  }

  lemma PauseLoose(e: Setup, s: State, orphans: set<Symbol>, paused: bool)
    requires Loose(e, s, orphans)
    ensures Loose(e, s.(paused := paused), orphans)
  {
    assert Without(s.(paused := paused), orphans) == Without(s, orphans).(paused := paused);
  }

  lemma ActLoose(e: Setup, r: Run, a: Act)
    requires ValidSetup(e) && Loose(e, r.state, r.orphans)
    ensures var n := ActStep(e, r, a); Loose(e, n.state, n.orphans)
  {
    match a
    case Restart => RestartLoose(e, r.state, r.orphans);
    case Live(event) =>
      if event.Tick? && event.symbol in e.symbols {
        TickLoose(e, r.state, r.orphans, event.symbol, event.ltp, event.now);
      } else {
        var n := EventStep(e, r.state, event);
        PauseLoose(e, r.state, r.orphans, n.paused);
        assert r.orphans * n.pairs.Keys == r.orphans;
      }
  }

  // Over every run of ticks, pauses, resumes and restarts, at any times: but for the orphans
  // the two objects and the disk are in lockstep, and the orphans trade nothing.
  lemma {:induction false} AlwaysLoose(e: Setup, file: AnchorEngine.AnchorFile, acts: seq<Act>)
    requires ValidSetup(e)
    ensures var r := RunActs(e, file, acts); Loose(e, r.state, r.orphans)
  {
    if acts == [] {
      assert Without(Fresh(file), {}) == Fresh(file);
    } else {
      AlwaysLoose(e, file, acts[..|acts| - 1]);
      ActLoose(e, RunActs(e, file, acts[..|acts| - 1]), acts[|acts| - 1]);
    }
  }

  // The orchestrator and the broker come out of a restart in lockstep exactly when no pair
  // was resting: a reloaded pair names orders the new broker does not have.
  lemma RestartCoupledIff(e: Setup, s: State)
    requires Coupled(e, s)
    ensures Reloaded(s.disk) == Some(s.pairs)
    ensures Coupled(e, Restarted(s)) <==> s.pairs == map[]
  {
    ReloadInvertsPersist(s.pairs);
    if s.pairs != map[] {
      var x :| x in s.pairs;
      assert !Resting(e, [], x, s.pairs[x]);
    }
  }
}
