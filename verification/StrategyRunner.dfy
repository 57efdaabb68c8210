// engine/strategy_runner.py: the rules every driver shares. The functions on values say
// what one call does; the classes below update a position in place and are proved
// against them.
module StrategyRunner {
  import opened Wrappers
  import Levels

  type Symbol = string

  // A day number and the second of that day.
  datatype Stamp = Stamp(day: int, sec: int)

  datatype Side = Long | Short

  datatype ExitReason = TakeProfit | StopLoss | Trail | SquareOff

  datatype StrategyConfig = StrategyConfig(
    triggerDist: int, tpDist: int, slDist: int,
    lockStep: int, lockStepsCount: int,
    anchorTime: int, squareOffTime: int,
    tickSize: int, slFirst: bool)

  // The two divisors the rules use are positive.
  type Config = c: StrategyConfig | c.lockStep > 0 && c.tickSize > 0
    witness StrategyConfig(0, 0, 0, 1, 0, 0, 0, 1, true)

  datatype Bar = Bar(time: Stamp, open: int, high: int, low: int, close: int) {
    predicate WellFormed() { low <= close <= high }
  }

  datatype Position = Position(
    symbol: Symbol, side: Side, entry: int, entryTime: Stamp, quantity: int,
    tp: int, sl: int, lockIdx: int, maxFavorable: int)
  {
    // The gain, in price, of leaving at `price`.
    function Gain(price: int): int {
      if side.Long? then price - entry else entry - price
    }

    // A position no close has been applied to yet.
    predicate Fresh() { lockIdx == -1 && maxFavorable == 0 }
  }

  datatype Trade = Trade(
    symbol: Symbol, side: Side, entry: int, exit: int, entryTime: Stamp, exitTime: Stamp,
    quantity: int, points: int, money: int, reason: ExitReason, lockIdx: int)

  datatype Outcome = Outcome(position: Position, trade: Option<Trade>)

  function BuildLevels(c: Config, anchor: int): Levels.OrderLevels {
    Levels.BuildOrderLevels(anchor, c.triggerDist, c.tpDist, c.slDist, c.tickSize)
  }

  function OpenPosition(symbol: Symbol, side: Side, levels: Levels.OrderLevels, entry: int, time: Stamp,
      quantity: int): Position
  {
    match side
    case Long => Position(symbol, Long, entry, time, quantity, levels.longTp, levels.longSl, -1, 0)
    case Short => Position(symbol, Short, entry, time, quantity, levels.shortTp, levels.shortSl, -1, 0)
  }

  function DetectEntry(symbol: Symbol, levels: Levels.OrderLevels, bar: Bar, quantity: int): Option<Position> {
    var longHit := bar.high >= levels.longEntry;
    var shortHit := bar.low <= levels.shortEntry;
    if longHit == shortHit then None  // untouched, or a bar that cannot say which side came first
    else if longHit then Some(OpenPosition(symbol, Long, levels, levels.longEntry, bar.time, quantity))
    else Some(OpenPosition(symbol, Short, levels, levels.shortEntry, bar.time, quantity))
  }

  function LockedStop(c: Config, p: Position, idx: int): int {
    if p.side.Long? then p.entry + c.lockStep * idx else p.entry - c.lockStep * idx
  }

  function TrailFromClose(c: Config, p: Position, close: int): Position {
    var favorable := p.Gain(close);
    if favorable < c.lockStep then p
    else
      var best := Max(p.maxFavorable, favorable);
      var idx := Min(best / c.lockStep - 1, c.lockStepsCount - 1);
      if idx <= p.lockIdx then p.(maxFavorable := best)
      else p.(maxFavorable := best, lockIdx := idx, sl := LockedStop(c, p, idx))
  }

  predicate StopHit(p: Position, bar: Bar) {
    if p.side.Long? then bar.low <= p.sl else bar.high >= p.sl
  }

  predicate TargetHit(p: Position, bar: Bar) {
    if p.side.Long? then bar.high >= p.tp else bar.low <= p.tp
  }

  function StopReason(p: Position): ExitReason {
    if p.lockIdx >= 0 && p.Gain(p.sl) >= 0 then Trail else StopLoss
  }

  function Result(p: Position, exit: int, time: Stamp, reason: ExitReason): Trade {
    var points := p.Gain(exit);
    Trade(p.symbol, p.side, p.entry, exit, p.entryTime, time, p.quantity, points, points * p.quantity, reason,
          p.lockIdx)
  }

  // The exit one bar forces, judged with the stop carried in from earlier closes.
  function ExitOn(c: Config, p: Position, bar: Bar): Option<Trade> {
    if StopHit(p, bar) && (c.slFirst || !TargetHit(p, bar)) then Some(Result(p, p.sl, bar.time, StopReason(p)))
    else if TargetHit(p, bar) then Some(Result(p, p.tp, bar.time, TakeProfit))
    else if bar.time.sec >= c.squareOffTime then Some(Result(p, bar.close, bar.time, SquareOff))
    else None
  }

  function Evaluate(c: Config, p: Position, bar: Bar): Outcome {
    var trade := ExitOn(c, p, bar);
    if trade.Some? then Outcome(p, trade) else Outcome(TrailFromClose(c, p, bar.close), None)
  }

  function Replay(c: Config, p: Position, bars: seq<Bar>): Outcome
    decreases |bars|
  {
    if bars == [] then Outcome(p, None)
    else
      var first := Evaluate(c, p, bars[0]);
      if first.trade.Some? then first else Replay(c, first.position, bars[1..])
  }

  class StrategyPosition {
    const symbol: Symbol
    const side: Side
    const entry: int
    const entryTime: Stamp
    const quantity: int
    const tp: int
    var sl: int
    var lockIdx: int
    var maxFavorable: int

    constructor (p: Position)
      ensures View() == p
    {
      symbol, side, entry, entryTime, quantity, tp := p.symbol, p.side, p.entry, p.entryTime, p.quantity, p.tp;
      sl, lockIdx, maxFavorable := p.sl, p.lockIdx, p.maxFavorable;
    }

    function View(): Position
      reads this
    {
      Position(symbol, side, entry, entryTime, quantity, tp, sl, lockIdx, maxFavorable)
    }
  }

  class Runner {
    const config: Config

    constructor (config: Config)
      ensures this.config == config
    {
      this.config := config;
    }

    method UpdateTrailingFromClose(position: StrategyPosition, close: int)
      modifies position
      ensures position.View() == TrailFromClose(config, old(position.View()), close)
    {
      var favorable := if position.side.Long? then close - position.entry else position.entry - close;
      if favorable < config.lockStep {
        return;
      }
      position.maxFavorable := Max(position.maxFavorable, favorable);
      var newIdx := position.maxFavorable / config.lockStep - 1;
      newIdx := Min(newIdx, config.lockStepsCount - 1);
      if newIdx <= position.lockIdx {
        return;
      }
      position.lockIdx := newIdx;
      var lockProfit := config.lockStep * position.lockIdx;
      if position.side.Long? {
        position.sl := position.entry + lockProfit;
      } else {
        position.sl := position.entry - lockProfit;
      }
    }

    method EvaluateExit(position: StrategyPosition, bar: Bar) returns (result: Option<Trade>)
      modifies position
      ensures Outcome(position.View(), result) == Evaluate(config, old(position.View()), bar)
    {
      var slHit := if position.side.Long? then bar.low <= position.sl else bar.high >= position.sl;
      var tpHit := if position.side.Long? then bar.high >= position.tp else bar.low <= position.tp;
      if slHit && tpHit {
        if config.slFirst {
          return Some(Result(position.View(), position.sl, bar.time, StopReason(position.View())));
        }
        return Some(Result(position.View(), position.tp, bar.time, TakeProfit));
      }
      if slHit {
        return Some(Result(position.View(), position.sl, bar.time, StopReason(position.View())));
      }
      if tpHit {
        return Some(Result(position.View(), position.tp, bar.time, TakeProfit));
      }
      if bar.time.sec >= config.squareOffTime {
        return Some(Result(position.View(), bar.close, bar.time, SquareOff));
      }
      UpdateTrailingFromClose(position, bar.close);
      return None;
    }

    method ReplayIntraBar(position: StrategyPosition, bars: seq<Bar>) returns (result: Option<Trade>)
      modifies position
      ensures Outcome(position.View(), result) == Replay(config, old(position.View()), bars)
    {
      for i := 0 to |bars|
        invariant Replay(config, old(position.View()), bars) == Replay(config, position.View(), bars[i..])
      {
        result := EvaluateExit(position, bars[i]);
        if result.Some? {
          return;
        }
        assert bars[i..][1..] == bars[i + 1..];
      }
      result := None;
    }
  }
}
