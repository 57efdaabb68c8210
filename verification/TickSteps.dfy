// engine/orchestrator.py, PAPER mode: what each sub-step of one tick does to the shared
// state. The class in Orchestrator.dfy updates that state in place and is proved against
// these functions.
module TickSteps {
  import opened Wrappers
  import Levels
  import opened StrategyRunner
  import opened RiskControls
  import opened AnchorEngine
  import opened PaperBroker
  import opened Audit

  datatype RollingBar = RollingBar(start: Stamp, open: int, high: int, low: int, close: int)

  datatype OcoPair = OcoPair(
    symbol: Symbol, longId: nat, shortId: nat, levels: Levels.OrderLevels, quantity: int, filledSide: Option<Side>)

  // A pair as the file holds it: any key may be missing.
  datatype PairRecord = PairRecord(
    symbol: Option<Symbol>, longId: Option<nat>, shortId: Option<nat>,
    levels: Option<Levels.OrderLevels>, quantity: Option<int>, filledSide: Option<Side>)

  datatype SymbolMeta = SymbolMeta(securityId: string, lotSize: int, moneyPerPoint: real, slDist: int)

  datatype Setup = Setup(
    strategy: Config, anchor: AnchorConfig, guardrails: GuardRails, symbols: map<Symbol, SymbolMeta>,
    noNewTradeAfter: int, bufferSeconds: int, sizer: Option<PositionSizer>)

  datatype State = State(
    bars: map<Symbol, RollingBar>, pairs: map<Symbol, OcoPair>, positions: map<Symbol, Position>,
    dayPnl: int, dayTrades: nat, squaredOff: set<Symbol>, swept: bool, paused: bool, lastTickAt: Option<Stamp>,
    anchors: Anchors, book: Book, audit: Books, disk: map<Symbol, PairRecord>)

  function BarStart(now: Stamp): Stamp {
    Stamp(now.day, now.sec - now.sec % 300)
  }

  // ---- persistence of the pairs ----

  function ToRecord(p: OcoPair): PairRecord {
    PairRecord(Some(p.symbol), Some(p.longId), Some(p.shortId), Some(p.levels), Some(p.quantity), p.filledSide)
  }

  // None when a key the reload indexes directly is missing.
  function FromRecord(r: PairRecord): Option<OcoPair> {
    if r.symbol.None? || r.longId.None? || r.shortId.None? || r.levels.None? then None
    else Some(OcoPair(r.symbol.value, r.longId.value, r.shortId.value, r.levels.value,
                      if r.quantity.Some? then r.quantity.value else 1, r.filledSide))
  }

  function Persisted(pairs: map<Symbol, OcoPair>): map<Symbol, PairRecord> {
    map s | s in pairs :: ToRecord(pairs[s])
  }

  // None when some record cannot be read back.
  function Reloaded(disk: map<Symbol, PairRecord>): Option<map<Symbol, OcoPair>> {
    if forall s | s in disk :: FromRecord(disk[s]).Some? then Some(map s | s in disk :: FromRecord(disk[s]).value)
    else None
  }

  function Saved(s: State): State {
    s.(disk := Persisted(s.pairs))
  }

  // ---- the sub-steps of a tick, in the order they run ----

  function CloseBarStep(e: Setup, s: State, symbol: Symbol, now: Stamp): State {
    if symbol !in s.bars || BarStart(now) == s.bars[symbol].start || symbol !in s.positions then s
    else
      var p := s.positions[symbol];
      var q := TrailFromClose(e.strategy, p, s.bars[symbol].close);
      s.(positions := s.positions[symbol := q],
         book := if q.sl != p.sl then ModifiedSl(s.book, symbol, q.sl) else s.book)
  }

  function RolledBar(bars: map<Symbol, RollingBar>, symbol: Symbol, ltp: int, now: Stamp): RollingBar {
    if symbol !in bars || bars[symbol].start != BarStart(now) then RollingBar(BarStart(now), ltp, ltp, ltp, ltp)
    else
      var bar := bars[symbol];
      bar.(high := Max(bar.high, ltp), low := Min(bar.low, ltp), close := ltp)
  }

  function RollBarStep(s: State, symbol: Symbol, ltp: int, now: Stamp): State {
    s.(bars := s.bars[symbol := RolledBar(s.bars, symbol, ltp, now)])
  }

  // The anchor is the rolling bar's open, or the tick's own price if there is no bar.
  function CaptureStep(e: Setup, s: State, symbol: Symbol, ltp: int, now: Stamp): State {
    var price := if symbol in s.bars then s.bars[symbol].open else ltp;
    var source := if symbol in s.bars then s.bars[symbol].start else now;
    s.(anchors := GatedTick(e.anchor, s.anchors, symbol, price, source, now))
  }

  // The filled pair gives way to the position `p`, whose levels go to the broker too.
  function TakePosition(s: State, symbol: Symbol, p: Position): State {
    Saved(s.(positions := s.positions[symbol := p], pairs := s.pairs - {symbol},
             book := ModifiedTp(ModifiedSl(s.book, symbol, p.sl), symbol, p.tp)))
  }

  function FillStep(s: State, symbol: Symbol, fill: Fill, now: Stamp): State {
    if symbol !in s.pairs then s
    else
      var pair := s.pairs[symbol];
      var peer := if fill.orderId == pair.longId then pair.shortId else pair.longId;
      TakePosition(s.(book := CancelledOrder(s.book, peer)), symbol,
                   OpenPosition(symbol, fill.side, pair.levels, fill.price, now, pair.quantity))
  }

  function FillSteps(s: State, symbol: Symbol, fills: seq<Fill>, now: Stamp): State {
    if fills == [] then s
    else FillStep(FillSteps(s, symbol, fills[..|fills| - 1], now), symbol, fills[|fills| - 1], now)
  }

  function PaperFillsStep(e: Setup, s: State, symbol: Symbol, ltp: int, now: Stamp): State
    requires symbol in e.symbols
  {
    var r := TickFrom(s.book, 0, e.symbols[symbol].securityId, ltp);
    FillSteps(s.(book := r.0), symbol, r.1, now)
  }

  function SizingDistance(e: Setup, meta: SymbolMeta): int {
    if meta.slDist != 0 then meta.slDist else e.strategy.slDist
  }

  function SizeFor(e: Setup, meta: SymbolMeta): int {
    if e.sizer.None? then meta.lotSize
    else match e.sizer.value.Size(SizingDistance(e, meta), meta.moneyPerPoint, meta.lotSize)
      case Sized(quantity, _) => quantity
      case Skipped(_) => 0
  }

  // The checks before an anchor is looked up.
  predicate MayLookUp(e: Setup, s: State, symbol: Symbol, now: Stamp) {
    symbol !in s.pairs && symbol !in s.positions && now.sec < e.noNewTradeAfter && !s.paused
  }

  predicate MayPlace(e: Setup, s: State, symbol: Symbol)
    requires symbol in e.symbols
  {
    && symbol in s.anchors.today
    && Blocked(Some(e.guardrails), s.dayTrades, s.dayPnl).None?
    && SizeFor(e, e.symbols[symbol]) != 0
  }

  function PlaceLegs(s: State, symbol: Symbol, security: string, levels: Levels.OrderLevels, quantity: int): State {
    var book := PlacedStop(PlacedStop(s.book, symbol, security, Long, quantity, levels.longEntry),
                           symbol, security, Short, quantity, levels.shortEntry);
    var pair := OcoPair(symbol, |s.book.orders|, |s.book.orders| + 1, levels, quantity, None);
    Saved(s.(book := book, pairs := s.pairs[symbol := pair]))
  }

  function PlacedPair(e: Setup, s: State, symbol: Symbol): State
    requires symbol in e.symbols && symbol in s.anchors.today
  {
    PlaceLegs(s, symbol, e.symbols[symbol].securityId,
              BuildLevels(e.strategy, s.anchors.today[symbol].price), SizeFor(e, e.symbols[symbol]))
  }

  function PlacePairStep(e: Setup, s: State, symbol: Symbol, now: Stamp): State
    requires symbol in e.symbols
  {
    if !MayLookUp(e, s, symbol, now) then s
    else
      var r := s.(anchors := Rolled(s.anchors, now.day));
      if MayPlace(e, r, symbol) then PlacedPair(e, r, symbol) else r
  }

  function SquareOffAt(e: Setup): int { TodayAt(e.strategy.squareOffTime) }

  function SweepAt(e: Setup): int { SquareOffAt(e) - e.bufferSeconds }

  ghost predicate InPair(pairs: map<Symbol, OcoPair>, id: nat) {
    exists s :: s in pairs && (id == pairs[s].longId || id == pairs[s].shortId)
  }

  // Every open order of these pairs cancelled, and nothing else touched.
  ghost function CancelledPairs(b: Book, pairs: map<Symbol, OcoPair>): Book {
    b.(orders := seq(|b.orders|, i requires 0 <= i < |b.orders| =>
      if InPair(pairs, i) && b.orders[i].status == Open then b.orders[i].(status := Cancelled) else b.orders[i]))
  }

  ghost function CancelAll(s: State): State {
    s.(book := CancelledPairs(s.book, s.pairs), pairs := map[])
  }

  ghost function SweepStep(e: Setup, s: State, now: Stamp): State {
    if s.swept || now.sec < SweepAt(e) then s
    else Saved(CancelAll(s.(swept := true)))
  }

  function SquareOffStep(e: Setup, s: State, symbol: Symbol, ltp: int, now: Stamp): State {
    if now.sec < SquareOffAt(e) || symbol in s.squaredOff then s
    else if symbol !in s.positions then s.(squaredOff := s.squaredOff + {symbol})
    else
      var points := ClosePoints(s.book, symbol, ltp);
      BookClose(s.(book := ForceClosed(s.book, symbol)), symbol, points, points * s.positions[symbol].quantity)
  }

  // The trade is recorded without its quantity, so the audit never charges it.
  function ClosingEntry(points: int, money: int): Entry { Entry(points, money, 0, 0.0) }

  lemma Uncharged(costModel: bool, b: Books, points: int, money: int)
    ensures BookTrade(costModel, b, ClosingEntry(points, money)) == BookTrade(false, b, ClosingEntry(points, money))
  {
  }

  function AuditClose(s: State, points: int, money: int): State {
    s.(audit := BookTrade(false, s.audit, ClosingEntry(points, money)))
  }

  function CountClose(s: State, symbol: Symbol, money: int): State {
    s.(dayPnl := s.dayPnl + money, dayTrades := s.dayTrades + 1, squaredOff := s.squaredOff + {symbol})
  }

  function Dropped(s: State, symbol: Symbol): State {
    s.(positions := s.positions - {symbol})
  }

  function BookClose(s: State, symbol: Symbol, points: int, money: int): State {
    AuditClose(Dropped(CountClose(s, symbol, money), symbol), points, money)
  }

  function BarSteps(e: Setup, s: State, symbol: Symbol, ltp: int, now: Stamp): State {
    var closed := CloseBarStep(e, s.(lastTickAt := Some(now)), symbol, now);
    CaptureStep(e, RollBarStep(closed, symbol, ltp, now), symbol, ltp, now)
  }

  // The first half of a tick, up to the simulated fills, and then the rest of it.
  function FirstHalf(e: Setup, s: State, symbol: Symbol, ltp: int, now: Stamp): State
    requires symbol in e.symbols
  {
    PaperFillsStep(e, BarSteps(e, s, symbol, ltp, now), symbol, ltp, now)
  }

  ghost function SecondHalf(e: Setup, s: State, symbol: Symbol, ltp: int, now: Stamp): State
    requires symbol in e.symbols
  {
    SquareOffStep(e, SweepStep(e, PlacePairStep(e, s, symbol, now), now), symbol, ltp, now)
  }

  ghost function TickStep(e: Setup, s: State, symbol: Symbol, ltp: int, now: Stamp): State {
    if symbol !in e.symbols then s
    else SecondHalf(e, FirstHalf(e, s, symbol, ltp, now), symbol, ltp, now)
  }

  // ---- runs ----

  datatype Event = Tick(symbol: Symbol, ltp: int, now: Stamp) | Pause | Resume

  ghost function EventStep(e: Setup, s: State, event: Event): State {
    match event
    case Tick(symbol, ltp, now) => TickStep(e, s, symbol, ltp, now)
    case Pause => s.(paused := true)
    case Resume => s.(paused := false)
  }

  // A new process on a new day: nothing resting, nothing held, and an anchor engine that has
  // only its file.
  function Fresh(anchorFile: AnchorFile): State {
    State(map[], map[], map[], 0, 0, {}, false, false, None,
          Anchors(map[], None, anchorFile), EMPTY_BOOK, NEW_BOOKS, map[])
  }

  ghost function RunEvents(e: Setup, anchorFile: AnchorFile, events: seq<Event>): State {
    if events == [] then Fresh(anchorFile)
    else EventStep(e, RunEvents(e, anchorFile, events[..|events| - 1]), events[|events| - 1])
  }

  // All ticks fall on one day and never go back in time.
  ghost predicate OneDay(events: seq<Event>, day: int) {
    && (forall i :: 0 <= i < |events| && events[i].Tick? ==> events[i].now.day == day)
    && (forall i, j :: 0 <= i < j < |events| && events[i].Tick? && events[j].Tick? ==>
          events[i].now.sec <= events[j].now.sec)
  }
}
