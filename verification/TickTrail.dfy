// The streaming trail of the orchestrator against a batch definition over the whole tick
// history: group a symbol's ticks by five-minute window, take the last price of every
// completed window from the fill's own window on, and apply the ratchet to those closes.
module TickTrail {
  import opened Wrappers
  import Arithmetic
  import opened Levels
  import opened StrategyRunner
  import opened Ratchet
  import RiskControls
  import opened AnchorEngine
  import opened TickSteps
  import opened TickCoupling

  datatype Quote = Quote(sec: int, ltp: int)

  // The ticks of one symbol, oldest first.
  function QuotesOf(events: seq<Event>, symbol: Symbol): seq<Quote> {
    if events == [] then []
    else
      var last := events[|events| - 1];
      QuotesOf(events[..|events| - 1], symbol)
      + if last.Tick? && last.symbol == symbol then [Quote(last.now.sec, last.ltp)] else []
  }

  function WindowOf(sec: int): int { sec / 300 }

  // The prices of one window, oldest first.
  function PricesIn(h: seq<Quote>, w: int): seq<int> {
    if h == [] then []
    else
      var last := h[|h| - 1];
      PricesIn(h[..|h| - 1], w) + if WindowOf(last.sec) == w then [last.ltp] else []
  }

  function LastOf(prices: seq<int>): seq<int> {
    if prices == [] then [] else [prices[|prices| - 1]]
  }

  // The last price of every window from `from` up to but not including `until` that has one.
  function WindowCloses(h: seq<Quote>, from: int, until: int): seq<int>
    decreases until - from
  {
    if until <= from then []
    else WindowCloses(h, from, until - 1) + LastOf(PricesIn(h, until - 1))
  }

  function Highest(prices: seq<int>): int
    requires prices != []
  {
    if |prices| == 1 then prices[0] else Max(Highest(prices[..|prices| - 1]), prices[|prices| - 1])
  }

  function Lowest(prices: seq<int>): int
    requires prices != []
  {
    if |prices| == 1 then prices[0] else Min(Lowest(prices[..|prices| - 1]), prices[|prices| - 1])
  }

  // First, highest, lowest and last price of a window.
  function BarOf(day: int, w: int, prices: seq<int>): RollingBar
    requires prices != []
  {
    RollingBar(Stamp(day, w * 300), prices[0], Highest(prices), Lowest(prices), prices[|prices| - 1])
  }

  function Latest(h: seq<Quote>): int
    requires h != []
  {
    WindowOf(h[|h| - 1].sec)
  }

  ghost predicate Ordered(h: seq<Quote>) {
    forall i, j :: 0 <= i < j < |h| ==> h[i].sec <= h[j].sec
  }

  lemma WindowMonotone(a: int, b: int)
    requires a <= b
    ensures WindowOf(a) <= WindowOf(b)
  {
  }

  lemma SameBarStart(day: int, a: int, b: int)
    ensures BarStart(Stamp(day, a)) == Stamp(day, WindowOf(a) * 300)
    ensures BarStart(Stamp(day, a)) == BarStart(Stamp(day, b)) <==> WindowOf(a) == WindowOf(b)
  {
  }

  lemma PricesInNext(h: seq<Quote>, t: Quote, w: int)
    ensures PricesIn(h + [t], w) == if WindowOf(t.sec) == w then PricesIn(h, w) + [t.ltp] else PricesIn(h, w)
  {
    assert (h + [t])[..|h|] == h;
  }

  lemma {:induction false} NoPricesAhead(h: seq<Quote>, w: int)
    requires forall i :: 0 <= i < |h| ==> WindowOf(h[i].sec) < w
    ensures PricesIn(h, w) == []
  {
    if h != [] {
      NoPricesAhead(h[..|h| - 1], w);
    }
  }

  lemma LatestHasPrices(h: seq<Quote>)
    requires h != []
    ensures var prices := PricesIn(h, Latest(h)); prices != [] && prices[|prices| - 1] == h[|h| - 1].ltp
  {
  }

  lemma {:induction false} SameCloses(a: seq<Quote>, b: seq<Quote>, from: int, until: int)
    requires forall w :: w < until ==> PricesIn(a, w) == PricesIn(b, w)
    ensures WindowCloses(a, from, until) == WindowCloses(b, from, until)
    decreases until - from
  {
    if from < until {
      SameCloses(a, b, from, until - 1);
    }
  }

  // Only the tick's own window sees it.
  lemma ClosesUnchanged(h: seq<Quote>, t: Quote, from: int, until: int)
    requires until <= WindowOf(t.sec)
    ensures WindowCloses(h + [t], from, until) == WindowCloses(h, from, until)
  {
    forall w | w < until ensures PricesIn(h + [t], w) == PricesIn(h, w) {
      PricesInNext(h, t, w);
    }
    SameCloses(h + [t], h, from, until);
  }

  lemma {:induction false} ClosesAcrossGap(h: seq<Quote>, from: int, u: int, v: int)
    requires u <= v && forall i :: 0 <= i < |h| ==> WindowOf(h[i].sec) < u
    ensures WindowCloses(h, from, v) == WindowCloses(h, from, u)
    decreases v - u
  {
    if u < v && from < v {
      ClosesAcrossGap(h, from, u, v - 1);
      NoPricesAhead(h, v - 1);
    }
  }

  lemma OrderedPrefix(h: seq<Quote>, t: Quote)
    requires Ordered(h + [t])
    ensures Ordered(h) && forall i :: 0 <= i < |h| ==> h[i].sec <= t.sec
  {
    var all := h + [t];
    assert forall i :: 0 <= i < |h| ==> all[i] == h[i];
    assert all[|h|] == t;
  }

  lemma NoLaterWindow(h: seq<Quote>)
    requires h != [] && Ordered(h)
    ensures forall i :: 0 <= i < |h| ==> WindowOf(h[i].sec) <= Latest(h)
  {
    forall i | 0 <= i < |h| ensures WindowOf(h[i].sec) <= Latest(h) {
      WindowMonotone(h[i].sec, h[|h| - 1].sec);
    }
  }

  // Moving into a later window completes exactly one: the window of the tick before.
  lemma ClosesOnNewWindow(h: seq<Quote>, t: Quote, from: int)
    requires h != [] && Ordered(h + [t]) && from <= Latest(h) < WindowOf(t.sec)
    ensures WindowCloses(h + [t], from, WindowOf(t.sec)) == WindowCloses(h, from, Latest(h)) + [h[|h| - 1].ltp]
  {
    OrderedPrefix(h, t);
    NoLaterWindow(h);
    LatestHasPrices(h);
    var u, v := Latest(h), WindowOf(t.sec);
    ClosesUnchanged(h, t, from, v);
    ClosesAcrossGap(h, from, u + 1, v);
    assert WindowCloses(h, from, u + 1) == WindowCloses(h, from, u) + LastOf(PricesIn(h, u));
  }

  // The rolling bar after one more tick is the bar of its window's prices.
  lemma BarAfterTick(day: int, h: seq<Quote>, t: Quote, bars: map<Symbol, RollingBar>, symbol: Symbol)
    requires Ordered(h + [t])
    requires h == [] ==> symbol !in bars
    requires h != [] ==>
      var prices := PricesIn(h, Latest(h));
      symbol in bars && prices != [] && bars[symbol] == BarOf(day, Latest(h), prices)
    ensures var prices := PricesIn(h + [t], WindowOf(t.sec));
      prices != [] && RolledBar(bars, symbol, t.ltp, Stamp(day, t.sec)) == BarOf(day, WindowOf(t.sec), prices)
  {
    var w := WindowOf(t.sec);
    PricesInNext(h, t, w);
    var before, after := PricesIn(h, w), PricesIn(h + [t], w);
    if h == [] {
      SameBarStart(day, t.sec, t.sec);
    } else {
      SameBarStart(day, h[|h| - 1].sec, t.sec);
      SameBarStart(day, t.sec, h[|h| - 1].sec);
      if Latest(h) == w {
        assert after[..|after| - 1] == before;
      } else {
        OrderedPrefix(h, t);
        NoLaterWindow(h);
        WindowMonotone(h[|h| - 1].sec, t.sec);
        NoPricesAhead(h, w);
      }
    }
  }

  // ---- the invariant, one symbol at a time ----

  ghost predicate Anchored(e: Setup, a: Anchors, symbol: Symbol, day: int) {
    a.day == Some(day) && symbol in a.today
  }

  function LevelsToday(e: Setup, a: Anchors, symbol: Symbol): OrderLevels
    requires symbol in a.today
  {
    BuildLevels(e.strategy, a.today[symbol].price)
  }

  // The position as it was when its stop filled.
  function Opened(e: Setup, a: Anchors, symbol: Symbol, side: Side, time: Stamp): Position
    requires symbol in a.today && symbol in e.symbols
  {
    var levels := LevelsToday(e, a, symbol);
    OpenPosition(symbol, side, levels, EntryOf(levels, side), time, SizeFor(e, e.symbols[symbol]))
  }

  ghost predicate BarTracks(bars: map<Symbol, RollingBar>, h: seq<Quote>, symbol: Symbol, day: int) {
    if h == [] then symbol !in bars
    else
      var prices := PricesIn(h, Latest(h));
      prices != [] && symbol in bars && bars[symbol] == BarOf(day, Latest(h), prices)
  }

  ghost predicate PairTracks(e: Setup, a: Anchors, pairs: map<Symbol, OcoPair>, symbol: Symbol, day: int) {
    symbol in pairs ==>
      && symbol in e.symbols && Anchored(e, a, symbol, day)
      && pairs[symbol].levels == LevelsToday(e, a, symbol)
      && pairs[symbol].quantity == SizeFor(e, e.symbols[symbol]) && pairs[symbol].quantity != 0
  }

  function Reached(levels: OrderLevels, side: Side, ltp: int): bool {
    if side.Long? then ltp >= levels.longEntry else ltp <= levels.shortEntry
  }

  // One of the ticks is the fill: it came at that time and reached that side's trigger.
  ghost predicate FilledBy(levels: OrderLevels, side: Side, time: Stamp, h: seq<Quote>, day: int) {
    time.day == day && exists k :: 0 <= k < |h| && h[k].sec == time.sec && Reached(levels, side, h[k].ltp)
  }

  lemma FilledByNext(levels: OrderLevels, side: Side, time: Stamp, h: seq<Quote>, t: Quote, day: int)
    requires FilledBy(levels, side, time, h, day)
    ensures FilledBy(levels, side, time, h + [t], day)
  {
    var k :| 0 <= k < |h| && h[k].sec == time.sec && Reached(levels, side, h[k].ltp);
    assert (h + [t])[k] == h[k];
  }

  ghost predicate HeldTracks(e: Setup, a: Anchors, p: Position, h: seq<Quote>, symbol: Symbol, day: int) {
    && symbol in e.symbols && Anchored(e, a, symbol, day)
    && SizeFor(e, e.symbols[symbol]) != 0
    && FilledBy(LevelsToday(e, a, symbol), p.side, p.entryTime, h, day)
    && h != [] && WindowOf(p.entryTime.sec) <= Latest(h)
    && p == TrailOver(e.strategy, Opened(e, a, symbol, p.side, p.entryTime),
                      WindowCloses(h, WindowOf(p.entryTime.sec), Latest(h)))
  }

  ghost predicate PositionTracks(e: Setup, a: Anchors, positions: map<Symbol, Position>, h: seq<Quote>,
      symbol: Symbol, day: int)
  {
    symbol in positions ==> HeldTracks(e, a, positions[symbol], h, symbol, day)
  }

  ghost predicate Tracks(e: Setup, s: State, h: seq<Quote>, symbol: Symbol, day: int) {
    && BarTracks(s.bars, h, symbol, day)
    && PairTracks(e, s.anchors, s.pairs, symbol, day)
    && PositionTracks(e, s.anchors, s.positions, h, symbol, day)
  }

  // Polling the anchor gate again the same day changes no anchor already taken.
  lemma AnchorsKept(c: AnchorConfig, a: Anchors, symbol: Symbol, price: int, source: Stamp, now: Stamp)
    requires a.day == Some(now.day)
    ensures var n := GatedTick(c, a, symbol, price, source, now);
      n.day == Some(now.day) && forall x :: x in a.today ==> x in n.today && n.today[x] == a.today[x]
  {
  }

  // The ratchet over the closes of completed windows, one tick later.
  lemma TrailOneTick(c: Config, start: Position, h: seq<Quote>, t: Quote, from: int)
    requires h != [] && Ordered(h + [t]) && from <= Latest(h)
    ensures Latest(h) <= WindowOf(t.sec)
    ensures TrailOver(c, start, WindowCloses(h + [t], from, WindowOf(t.sec)))
            == var p := TrailOver(c, start, WindowCloses(h, from, Latest(h)));
               if Latest(h) == WindowOf(t.sec) then p else TrailFromClose(c, p, h[|h| - 1].ltp)
  {
    assert (h + [t])[|h| - 1] == h[|h| - 1] && (h + [t])[|h|] == t;
    WindowMonotone(h[|h| - 1].sec, t.sec);
    if Latest(h) == WindowOf(t.sec) {
      ClosesUnchanged(h, t, from, Latest(h));
    } else {
      ClosesOnNewWindow(h, t, from);
      var closes := WindowCloses(h, from, Latest(h));
      assert (closes + [h[|h| - 1].ltp])[..|closes|] == closes;
    }
  }

  lemma LatestBar(bars: map<Symbol, RollingBar>, h: seq<Quote>, symbol: Symbol, now: Stamp)
    requires h != [] && BarTracks(bars, h, symbol, now.day)
    ensures bars[symbol].close == h[|h| - 1].ltp
    ensures BarStart(now) == bars[symbol].start <==> WindowOf(now.sec) == Latest(h)
  {
    LatestHasPrices(h);
    SameBarStart(now.day, h[|h| - 1].sec, now.sec);
  }

  lemma ClosedBarPosition(e: Setup, s: State, h: seq<Quote>, symbol: Symbol, now: Stamp)
    requires h != [] && BarTracks(s.bars, h, symbol, now.day) && symbol in s.positions
    ensures var p := s.positions[symbol];
      CloseBarStep(e, s, symbol, now).positions
      == s.positions[symbol :=
           if WindowOf(now.sec) == Latest(h) then p else TrailFromClose(e.strategy, p, h[|h| - 1].ltp)]
  {
    LatestBar(s.bars, h, symbol, now);
    assert s.positions[symbol := s.positions[symbol]] == s.positions;
  }

  lemma HeldTracksNext(e: Setup, a: Anchors, p: Position, h: seq<Quote>, t: Quote, symbol: Symbol, day: int)
    requires HeldTracks(e, a, p, h, symbol, day) && Ordered(h + [t])
    ensures var n := if WindowOf(t.sec) == Latest(h) then p else TrailFromClose(e.strategy, p, h[|h| - 1].ltp);
      HeldTracks(e, a, n, h + [t], symbol, day)
  {
    var start, from := Opened(e, a, symbol, p.side, p.entryTime), WindowOf(p.entryTime.sec);
    var n := if WindowOf(t.sec) == Latest(h) then p else TrailFromClose(e.strategy, p, h[|h| - 1].ltp);
    LatestAfter(h, t);
    TrailOneTick(e.strategy, start, h, t, from);
    FilledByNext(LevelsToday(e, a, symbol), p.side, p.entryTime, h, t, day);
    assert n.side == p.side && n.entryTime == p.entryTime;
    assert n == TrailOver(e.strategy, start, WindowCloses(h + [t], from, Latest(h + [t])));
  }

  lemma LatestAfter(h: seq<Quote>, t: Quote)
    ensures h + [t] != [] && Latest(h + [t]) == WindowOf(t.sec)
  {
  }

  // Closing a bar applies the one close the new window completes.
  lemma ClosedBarTracks(e: Setup, s: State, h: seq<Quote>, symbol: Symbol, ltp: int, now: Stamp)
    requires Tracks(e, s, h, symbol, now.day) && Ordered(h + [Quote(now.sec, ltp)])
    ensures PositionTracks(e, s.anchors, CloseBarStep(e, s, symbol, now).positions, h + [Quote(now.sec, ltp)],
                           symbol, now.day)
  {
    if symbol in s.positions {
      ClosedBarPosition(e, s, h, symbol, now);
      HeldTracksNext(e, s.anchors, s.positions[symbol], h, Quote(now.sec, ltp), symbol, now.day);
    }
  }

  lemma BarsTrack(e: Setup, s: State, h: seq<Quote>, symbol: Symbol, ltp: int, now: Stamp)
    requires Tracks(e, s, h, symbol, now.day) && Ordered(h + [Quote(now.sec, ltp)])
    ensures Tracks(e, BarSteps(e, s, symbol, ltp, now), h + [Quote(now.sec, ltp)], symbol, now.day)
  {
    ClosedBarTracks(e, s.(lastTickAt := Some(now)), h, symbol, ltp, now);
    BarAfterTick(now.day, h, Quote(now.sec, ltp), s.bars, symbol);
    var n := BarSteps(e, s, symbol, ltp, now);
    if s.anchors.day == Some(now.day) {
      AnchorsKept(e.anchor, s.anchors, symbol, n.bars[symbol].open, n.bars[symbol].start, now);
    }
  }

  // An anchor taken on this tick is the first price of the tick's five-minute window, and is
  // recorded with the time that window began and the time of the tick.
  lemma AnchorIsWindowOpen(e: Setup, s: State, h: seq<Quote>, symbol: Symbol, ltp: int, now: Stamp)
    requires Tracks(e, s, h, symbol, now.day) && Ordered(h + [Quote(now.sec, ltp)])
    requires ShouldCapture(e.anchor, s.anchors, symbol, now)
    ensures var n, prices := BarSteps(e, s, symbol, ltp, now), PricesIn(h + [Quote(now.sec, ltp)], WindowOf(now.sec));
      && prices != [] && symbol in n.anchors.today
      && n.anchors.today[symbol] == AnchorRecord(symbol, prices[0], now, Stamp(now.day, WindowOf(now.sec) * 300))
  {
    BarAfterTick(now.day, h, Quote(now.sec, ltp), s.bars, symbol);
  }

  // Without a rolling bar it would be the tick's own price and time.
  lemma AnchorWithoutBar(e: Setup, s: State, symbol: Symbol, ltp: int, now: Stamp)
    requires symbol !in s.bars && ShouldCapture(e.anchor, s.anchors, symbol, now)
    ensures var n := CaptureStep(e, s, symbol, ltp, now);
      symbol in n.anchors.today && n.anchors.today[symbol] == AnchorRecord(symbol, ltp, now, now)
  {
  }

  // New anchors leave what was built on the old ones as it was.
  lemma AnchorsGrown(e: Setup, s: State, n: State, h: seq<Quote>, x: Symbol, day: int)
    requires Tracks(e, s, h, x, day)
    requires x in n.bars <==> x in s.bars
    requires x in s.bars ==> n.bars[x] == s.bars[x]
    requires x in n.positions ==> x in s.positions && n.positions[x] == s.positions[x]
    requires n.pairs == s.pairs
    requires s.anchors.day == Some(day) ==> n.anchors.day == Some(day)
    requires s.anchors.day == Some(day) && x in s.anchors.today ==>
      x in n.anchors.today && n.anchors.today[x] == s.anchors.today[x]
    ensures Tracks(e, n, h, x, day)
  {
  }

  lemma BarsTrackOthers(e: Setup, s: State, h: seq<Quote>, symbol: Symbol, ltp: int, now: Stamp, x: Symbol)
    requires x != symbol && Tracks(e, s, h, x, now.day)
    ensures Tracks(e, BarSteps(e, s, symbol, ltp, now), h, x, now.day)
  {
    var n := BarSteps(e, s, symbol, ltp, now);
    if s.anchors.day == Some(now.day) {
      AnchorsKept(e.anchor, s.anchors, symbol, n.bars[symbol].open, n.bars[symbol].start, now);
    }
    AnchorsGrown(e, s, n, h, x, now.day);
  }

  lemma FillTracks(e: Setup, s: State, h: seq<Quote>, symbol: Symbol, side: Side, ltp: int, now: Stamp, x: Symbol)
    requires Tracks(e, s, h, x, now.day) && symbol in s.pairs && symbol in e.symbols
    requires Resting(e, s.book.orders, symbol, s.pairs[symbol])
    requires TriggeredSide(s.pairs, symbol, ltp) == Some(side)
    requires x == symbol ==> h != [] && h[|h| - 1] == Quote(now.sec, ltp)
    ensures Tracks(e, FilledPair(e, s, symbol, side, now), h, x, now.day)
  {
    var n := FilledPair(e, s, symbol, side, now);
    if x == symbol {
      assert n.positions[symbol] == Opened(e, s.anchors, symbol, side, now);
      assert WindowCloses(h, WindowOf(now.sec), Latest(h)) == [];
      assert Reached(LevelsToday(e, s.anchors, symbol), side, h[|h| - 1].ltp);
    }
  }

  lemma PlaceTracks(e: Setup, s: State, h: seq<Quote>, symbol: Symbol, now: Stamp, x: Symbol)
    requires Tracks(e, s, h, x, now.day) && symbol in e.symbols && s.anchors.day == Some(now.day)
    ensures Tracks(e, PlacePairStep(e, s, symbol, now), h, x, now.day)
  {
  }

  lemma ClosingTracks(e: Setup, s: State, h: seq<Quote>, symbol: Symbol, ltp: int, now: Stamp, x: Symbol)
    requires Tracks(e, s, h, x, now.day)
    ensures Tracks(e, SquareOffStep(e, SweepStep(e, s, now), symbol, ltp, now), h, x, now.day)
  {
    SquareOffShape(e, SweepStep(e, s, now), symbol, ltp, now);
  }

  // ---- whole days ----

  // Every traded symbol's bar and position match its own ticks.
  ghost predicate AllTrack(e: Setup, s: State, events: seq<Event>, day: int) {
    forall x :: x in e.symbols ==> Tracks(e, s, QuotesOf(events, x), x, day)
  }

  lemma FillsTrack(e: Setup, s: State, h: seq<Quote>, symbol: Symbol, ltp: int, now: Stamp, x: Symbol)
    requires ValidSetup(e) && Coupled(e, s) && symbol in e.symbols && Tracks(e, s, h, x, now.day)
    requires x == symbol ==> h != [] && h[|h| - 1] == Quote(now.sec, ltp)
    ensures Tracks(e, PaperFillsStep(e, s, symbol, ltp, now), h, x, now.day)
    ensures PaperFillsStep(e, s, symbol, ltp, now).anchors == s.anchors
  {
    FillsOfTick(e, s, symbol, ltp, now);
    var side := TriggeredSide(s.pairs, symbol, ltp);
    if side.Some? {
      FillTracks(e, s, h, symbol, side.value, ltp, now, x);
    }
  }

  lemma BarStepsTrack(e: Setup, s: State, h: seq<Quote>, next: seq<Quote>, symbol: Symbol, ltp: int, now: Stamp,
      x: Symbol)
    requires Tracks(e, s, h, x, now.day)
    requires next == if x == symbol then h + [Quote(now.sec, ltp)] else h
    requires x == symbol ==> Ordered(next)
    ensures Tracks(e, BarSteps(e, s, symbol, ltp, now), next, x, now.day)
    ensures BarSteps(e, s, symbol, ltp, now).anchors.day == Some(now.day)
  {
    if x == symbol {
      BarsTrack(e, s, h, symbol, ltp, now);
    } else {
      BarsTrackOthers(e, s, h, symbol, ltp, now, x);
    }
  }

  lemma TickTracks(e: Setup, s: State, h: seq<Quote>, next: seq<Quote>, symbol: Symbol, ltp: int, now: Stamp, x: Symbol)
    requires ValidSetup(e) && Coupled(e, s) && symbol in e.symbols && Tracks(e, s, h, x, now.day)
    requires next == if x == symbol then h + [Quote(now.sec, ltp)] else h
    requires x == symbol ==> Ordered(next)
    ensures Tracks(e, TickStep(e, s, symbol, ltp, now), next, x, now.day)
  {
    TickCoupled(e, s, symbol, ltp, now);
    BarStepsTrack(e, s, h, next, symbol, ltp, now, x);
    FillsTrack(e, BarSteps(e, s, symbol, ltp, now), next, symbol, ltp, now, x);
    var filled := FirstHalf(e, s, symbol, ltp, now);
    PlaceTracks(e, filled, next, symbol, now, x);
    ClosingTracks(e, PlacePairStep(e, filled, symbol, now), next, symbol, ltp, now, x);
  }

  lemma QuotesNext(events: seq<Event>, x: Symbol)
    requires events != []
    ensures var last, h := events[|events| - 1], QuotesOf(events[..|events| - 1], x);
      QuotesOf(events, x) == if last.Tick? && last.symbol == x then h + [Quote(last.now.sec, last.ltp)] else h
  {
  }

  lemma EventTracks(e: Setup, s: State, event: Event, h: seq<Quote>, next: seq<Quote>, day: int, x: Symbol)
    requires ValidSetup(e) && Coupled(e, s) && x in e.symbols && Tracks(e, s, h, x, day)
    requires event.Tick? ==> event.now.day == day
    requires next == if event.Tick? && event.symbol == x then h + [Quote(event.now.sec, event.ltp)] else h
    requires Ordered(next)
    ensures Tracks(e, EventStep(e, s, event), next, x, day)
  {
    if event.Tick? && event.symbol in e.symbols {
      TickTracks(e, s, h, next, event.symbol, event.ltp, event.now, x);
    }
  }

  lemma {:induction false} QuoteIsATick(events: seq<Event>, symbol: Symbol, i: nat)
    requires i < |QuotesOf(events, symbol)|
    ensures exists k :: 0 <= k < |events| && events[k].Tick? && events[k].now.sec == QuotesOf(events, symbol)[i].sec
  {
    var front := events[..|events| - 1];
    if i < |QuotesOf(front, symbol)| {
      QuoteIsATick(front, symbol, i);
      var k :| 0 <= k < |front| && front[k].Tick? && front[k].now.sec == QuotesOf(front, symbol)[i].sec;
      assert events[k] == front[k];
    } else {
      assert events[|events| - 1].now.sec == QuotesOf(events, symbol)[i].sec;
    }
  }

  lemma {:induction false} QuotesOrdered(events: seq<Event>, symbol: Symbol, day: int)
    requires OneDay(events, day)
    ensures Ordered(QuotesOf(events, symbol))
  {
    if events != [] {
      var n := |events| - 1;
      var front, h := events[..n], QuotesOf(events[..n], symbol);
      QuotesOrdered(front, symbol, day);
      if events[n].Tick? {
        forall i | 0 <= i < |h| ensures h[i].sec <= events[n].now.sec {
          QuoteIsATick(front, symbol, i);
          var k :| 0 <= k < n && front[k].Tick? && front[k].now.sec == h[i].sec;
          assert events[k] == front[k];
        }
      }
    }
  }

  // Over any ticks, pauses and resumes of one day: the rolling bar is the first, highest,
  // lowest and last price of its window, and an open position is the one a tick at its entry
  // time filled by reaching its side's trigger, trailed over the last price of each window
  // completed since the fill's own, each once.
  lemma {:induction false} StreamingTrailIsBatchTrail(e: Setup, file: AnchorFile, events: seq<Event>, day: int)
    requires ValidSetup(e) && OneDay(events, day)
    ensures AllTrack(e, RunEvents(e, file, events), events, day)
  {
    if events != [] {
      var n := |events| - 1;
      var s := RunEvents(e, file, events[..n]);
      StreamingTrailIsBatchTrail(e, file, events[..n], day);
      AlwaysCoupled(e, file, events[..n]);
      forall x | x in e.symbols ensures Tracks(e, RunEvents(e, file, events), QuotesOf(events, x), x, day) {
        assert Tracks(e, s, QuotesOf(events[..n], x), x, day);
        QuotesNext(events, x);
        QuotesOrdered(events, x, day);
        EventTracks(e, s, events[n], QuotesOf(events[..n], x), QuotesOf(events, x), day, x);
      }
    }
  }

  lemma {:induction false} TrailKeepsQuantity(c: Config, p: Position, closes: seq<int>)
    ensures TrailOver(c, p, closes).quantity == p.quantity && TrailOver(c, p, closes).entry == p.entry
  {
    if closes != [] {
      TrailKeepsQuantity(c, p, closes[..|closes| - 1]);
    }
  }

  // The stop distance a symbol is sized for: its own, or the strategy's if it has none.
  function SizedFor(e: Setup, symbol: Symbol): int
    requires symbol in e.symbols
  {
    if e.symbols[symbol].slDist == 0 then e.strategy.slDist else e.symbols[symbol].slDist
  }

  // The symbol's open position is the greatest number of whole lots whose loss at the distance
  // sized for is within the configured percentage of the capital.
  ghost predicate GreatestWithinBudget(e: Setup, s: State, symbol: Symbol) {
    symbol in s.positions ==>
      symbol in e.symbols && e.sizer.Some? && GreatestLots(e, symbol, s.positions[symbol].quantity)
  }

  ghost predicate GreatestLots(e: Setup, symbol: Symbol, quantity: int)
    requires symbol in e.symbols && e.sizer.Some?
  {
    var sizer, meta := e.sizer.value, e.symbols[symbol];
    var perLot := SizedFor(e, symbol) as real * meta.moneyPerPoint * meta.lotSize as real;
    && meta.lotSize > 0 && quantity > 0 && quantity % meta.lotSize == 0
    && 100.0 * ((quantity / meta.lotSize) as real * perLot) <= sizer.capital * sizer.maxRiskPct
    && sizer.capital * sizer.maxRiskPct < 100.0 * ((quantity / meta.lotSize + 1) as real * perLot)
  }

  // What it can lose at its initial stop is within that percentage too.
  ghost predicate RiskWithinBudget(e: Setup, s: State, symbol: Symbol) {
    symbol in s.positions ==>
      symbol in e.symbols && symbol in s.anchors.today && e.sizer.Some? &&
      var p, sizer, meta := s.positions[symbol], e.sizer.value, e.symbols[symbol];
      var start := Opened(e, s.anchors, symbol, p.side, p.entryTime);
      var distance := if start.side.Long? then start.entry - start.sl else start.sl - start.entry;
      && p.entry == start.entry && distance == e.strategy.slDist
      && 100.0 * (p.quantity as real * meta.moneyPerPoint * distance as real) <= sizer.capital * sizer.maxRiskPct
  }

  // Sizing end to end, over any ticks, pauses and resumes of one day.
  lemma FilledRiskWithinBudget(e: Setup, file: AnchorFile, events: seq<Event>, day: int, symbol: Symbol)
    requires ValidSetup(e) && OneDay(events, day)
    requires e.sizer.Some? && symbol in e.symbols
    ensures GreatestWithinBudget(e, RunEvents(e, file, events), symbol)
    ensures e.strategy.slDist % e.strategy.tickSize == 0 && SizedFor(e, symbol) >= e.strategy.slDist ==>
              RiskWithinBudget(e, RunEvents(e, file, events), symbol)
  {
    var s := RunEvents(e, file, events);
    FilledQuantity(e, file, events, day, symbol);
    if symbol in s.positions {
      GreatestSize(e, symbol);
      if e.strategy.slDist % e.strategy.tickSize == 0 && SizedFor(e, symbol) >= e.strategy.slDist {
        FilledRisk(e, s, symbol);
      }
    }
  }

  lemma RunTracksPosition(e: Setup, file: AnchorFile, events: seq<Event>, day: int, symbol: Symbol)
    requires ValidSetup(e) && OneDay(events, day) && symbol in e.symbols
    ensures var s := RunEvents(e, file, events);
      PositionTracks(e, s.anchors, s.positions, QuotesOf(events, symbol), symbol, day)
  {
    StreamingTrailIsBatchTrail(e, file, events, day);
    assert Tracks(e, RunEvents(e, file, events), QuotesOf(events, symbol), symbol, day);
  }

  // A position held has the size of its symbol, and the entry it was opened at.
  ghost predicate AsSized(e: Setup, s: State, symbol: Symbol) {
    symbol in s.positions ==>
      && symbol in s.anchors.today && symbol in e.symbols
      && s.positions[symbol].quantity == SizeFor(e, e.symbols[symbol]) != 0
      && var p := s.positions[symbol]; p.entry == Opened(e, s.anchors, symbol, p.side, p.entryTime).entry
  }

  lemma FilledQuantity(e: Setup, file: AnchorFile, events: seq<Event>, day: int, symbol: Symbol)
    requires ValidSetup(e) && OneDay(events, day) && symbol in e.symbols
    ensures AsSized(e, RunEvents(e, file, events), symbol)
  {
    var s := RunEvents(e, file, events);
    RunTracksPosition(e, file, events, day, symbol);
    if symbol in s.positions {
      HeldQuantity(e, s, QuotesOf(events, symbol), symbol, day);
    }
  }

  // Without a sizer a position is one lot.
  lemma FilledOneLot(e: Setup, file: AnchorFile, events: seq<Event>, day: int, symbol: Symbol)
    requires ValidSetup(e) && OneDay(events, day) && e.sizer.None? && symbol in e.symbols
    ensures var s := RunEvents(e, file, events);
      symbol in s.positions ==> s.positions[symbol].quantity == e.symbols[symbol].lotSize
  {
    FilledQuantity(e, file, events, day, symbol);
  }

  lemma GreatestSize(e: Setup, symbol: Symbol)
    requires symbol in e.symbols && e.sizer.Some? && SizeFor(e, e.symbols[symbol]) != 0
    ensures GreatestLots(e, symbol, SizeFor(e, e.symbols[symbol]))
  {
    var sizer, meta, slDist := e.sizer.value, e.symbols[symbol], SizedFor(e, symbol);
    RiskControls.SizeIsGreatestWithinBudget(sizer, slDist, meta.moneyPerPoint, meta.lotSize);
    Arithmetic.MultipleQuotient(sizer.Size(slDist, meta.moneyPerPoint, meta.lotSize).lots, meta.lotSize);
  }

  lemma FilledRisk(e: Setup, s: State, symbol: Symbol)
    requires AsSized(e, s, symbol) && symbol in s.positions && e.sizer.Some?
    requires e.strategy.slDist % e.strategy.tickSize == 0 && SizedFor(e, symbol) >= e.strategy.slDist
    ensures RiskWithinBudget(e, s, symbol)
  {
    InitialStopDistance(e, s.anchors, symbol, s.positions[symbol].side, s.positions[symbol].entryTime);
    SizedQuantity(e, symbol, e.strategy.slDist);
  }

  lemma HeldQuantity(e: Setup, s: State, h: seq<Quote>, symbol: Symbol, day: int)
    requires PositionTracks(e, s.anchors, s.positions, h, symbol, day) && symbol in s.positions
    ensures symbol in s.anchors.today && symbol in e.symbols
    ensures s.positions[symbol].quantity == SizeFor(e, e.symbols[symbol]) != 0
    ensures var p := s.positions[symbol]; p.entry == Opened(e, s.anchors, symbol, p.side, p.entryTime).entry
  {
    var p := s.positions[symbol];
    var start := Opened(e, s.anchors, symbol, p.side, p.entryTime);
    TrailKeepsQuantity(e.strategy, start, WindowCloses(h, WindowOf(p.entryTime.sec), Latest(h)));
  }

  lemma InitialStopDistance(e: Setup, a: Anchors, symbol: Symbol, side: Side, time: Stamp)
    requires symbol in a.today && symbol in e.symbols && e.strategy.slDist % e.strategy.tickSize == 0
    ensures var start := Opened(e, a, symbol, side, time);
      e.strategy.slDist == if start.side.Long? then start.entry - start.sl else start.sl - start.entry
  {
    LevelDistances(a.today[symbol].price, e.strategy.triggerDist, e.strategy.tpDist, e.strategy.slDist,
                   e.strategy.tickSize);
  }

  lemma SizedQuantity(e: Setup, symbol: Symbol, distance: int)
    requires symbol in e.symbols && e.sizer.Some? && SizeFor(e, e.symbols[symbol]) != 0
    requires distance <= SizedFor(e, symbol)
    ensures var sizer, meta := e.sizer.value, e.symbols[symbol];
      100.0 * (SizeFor(e, meta) as real * meta.moneyPerPoint * distance as real) <= sizer.capital * sizer.maxRiskPct
  {
    var meta := e.symbols[symbol];
    RiskControls.SizedRiskWithinBudget(e.sizer.value, SizedFor(e, symbol), meta.moneyPerPoint, meta.lotSize, distance);
  }
}
