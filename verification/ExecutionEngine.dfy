// engine/execution_engine.py: the bar-driven engine behind PAPER and LIVE.
module ExecutionEngine {
  import opened Wrappers
  import Levels
  import opened StrategyRunner
  import opened RiskControls

  datatype Rejection = Rejection(symbol: Symbol, time: Stamp, reason: Reason)

  // The arguments of one on_bar call.
  datatype BarCall = BarCall(symbol: Symbol, levels: Levels.OrderLevels, bar: Bar, quantity: int)

  datatype EngineState = EngineState(
    positions: map<Symbol, Position>, closed: seq<Trade>,
    dayPnl: int, dayTrades: nat, currentDay: Option<int>, rejections: seq<Rejection>)

  const INITIAL := EngineState(map[], [], 0, 0, None, [])

  function RollDay(s: EngineState, day: int): EngineState {
    if s.currentDay == Some(day) then s
    else s.(currentDay := Some(day), dayPnl := 0, dayTrades := 0, rejections := [])
  }

  function EnterStep(g: Option<GuardRails>, s: EngineState, call: BarCall): EngineState {
    var blocked := Blocked(g, s.dayTrades, s.dayPnl);
    if blocked.Some? then s.(rejections := s.rejections + [Rejection(call.symbol, call.bar.time, blocked.value)])
    else
      var entered := DetectEntry(call.symbol, call.levels, call.bar, call.quantity);
      if entered.None? then s else s.(positions := s.positions[call.symbol := entered.value])
  }

  // Book what the exit rules made of an open position.
  function Settle(s: EngineState, symbol: Symbol, o: Outcome): (EngineState, Option<Trade>) {
    if o.trade.None? then (s.(positions := s.positions[symbol := o.position]), None)
    else (s.(positions := s.positions - {symbol},
             closed := s.closed + [o.trade.value],
             dayPnl := s.dayPnl + o.trade.value.money,
             dayTrades := s.dayTrades + 1), o.trade)
  }

  function ExitStep(c: Config, s: EngineState, call: BarCall): (EngineState, Option<Trade>)
    requires call.symbol in s.positions
  {
    Settle(s, call.symbol, Evaluate(c, s.positions[call.symbol], call.bar))
  }

  function BarStep(c: Config, g: Option<GuardRails>, s: EngineState, call: BarCall): (EngineState, Option<Trade>) {
    var rolled := RollDay(s, call.bar.time.day);
    if call.symbol !in rolled.positions then (EnterStep(g, rolled, call), None)
    else ExitStep(c, rolled, call)
  }

  function RunBars(c: Config, g: Option<GuardRails>, s: EngineState, calls: seq<BarCall>): EngineState {
    if calls == [] then s
    else BarStep(c, g, RunBars(c, g, s, calls[..|calls| - 1]), calls[|calls| - 1]).0
  }

  class Engine {
    const config: Config
    const guardrails: Option<GuardRails>
    const runner: Runner
    var positions: map<Symbol, StrategyPosition>
    var closedTrades: seq<Trade>
    var dayPnl: int
    var dayTrades: nat
    var currentDay: Option<int>
    var rejections: seq<Rejection>

    constructor (config: Config, guardrails: Option<GuardRails>)
      ensures Valid() && this.config == config && this.guardrails == guardrails
      ensures View() == INITIAL
    {
      this.config, this.guardrails := config, guardrails;
      runner := new Runner(config);
      positions, closedTrades, dayPnl, dayTrades, currentDay, rejections := map[], [], 0, 0, None, [];
    }

    // Two symbols never share a position object.
    ghost predicate Valid()
      reads this
    {
      && runner.config == config
      && forall s, t :: s in positions && t in positions && s != t ==> positions[s] != positions[t]
    }

    ghost function View(): EngineState
      reads this, positions.Values
    {
      EngineState(map s | s in positions :: positions[s].View(), closedTrades, dayPnl, dayTrades, currentDay,
                  rejections)
    }

    method RollDayIfNeeded(today: int)
      requires Valid()
      modifies this
      ensures Valid() && positions == old(positions)
      ensures View() == RollDay(old(View()), today)
    {
      if currentDay == Some(today) {
        return;
      }
      currentDay := Some(today);
      dayPnl := 0;
      dayTrades := 0;
      rejections := [];
    }

    method MaybeEnter(call: BarCall)
      requires Valid() && call.symbol !in positions
      modifies this
      ensures Valid() && fresh(positions.Values - old(positions.Values))
      ensures View() == EnterStep(guardrails, old(View()), call)
    {
      var blocked := Blocked(guardrails, dayTrades, dayPnl);
      if blocked.Some? {
        rejections := rejections + [Rejection(call.symbol, call.bar.time, blocked.value)];
        return;
      }
      var entered := DetectEntry(call.symbol, call.levels, call.bar, call.quantity);
      if entered.Some? {
        var position := new StrategyPosition(entered.value);
        positions := positions[call.symbol := position];
      }
    }

    method EvaluateOpen(call: BarCall) returns (result: Option<Trade>)
      requires Valid() && call.symbol in positions
      modifies this, positions[call.symbol]
      ensures Valid() && positions.Values <= old(positions.Values)
      ensures (View(), result) == ExitStep(config, old(View()), call)
    {
      var position := positions[call.symbol];
      ghost var before := View();
      result := runner.EvaluateExit(position, call.bar);
      ghost var o := Outcome(position.View(), result);
      assert View().positions == before.positions[call.symbol := o.position];
      Book(call.symbol, result);
      assert View().positions == Settle(before, call.symbol, o).0.positions;
    }

    // The bookkeeping after the exit rules have spoken.
    method Book(symbol: Symbol, result: Option<Trade>)
      requires Valid() && symbol in positions
      modifies this
      ensures Valid() && positions.Values <= old(positions.Values)
      ensures View() == Settle(old(View()), symbol, Outcome(old(positions[symbol].View()), result)).0
    {
      if result.Some? {
        closedTrades := closedTrades + [result.value];
        dayPnl := dayPnl + result.value.money;
        dayTrades := dayTrades + 1;
        positions := positions - {symbol};
      }
    }

    method OnBar(call: BarCall) returns (result: Option<Trade>)
      requires Valid()
      modifies this, positions.Values
      ensures Valid() && fresh(positions.Values - old(positions.Values))
      ensures (View(), result) == BarStep(config, guardrails, old(View()), call)
    {
      RollDayIfNeeded(call.bar.time.day);
      if call.symbol !in positions {
        MaybeEnter(call);
        result := None;
      } else {
        result := EvaluateOpen(call);
      }
    }
  }
}
