// The bar engine day by day: its counters are those of the day's own trades, and each entry is
// judged on them alone, so that a new day starts from nothing.
module ExecutionDays {
  import opened Wrappers
  import opened StrategyRunner
  import opened RiskControls
  import opened ExecutionEngine
  import TradeOutcome

  ghost predicate DaysInOrder(calls: seq<BarCall>) {
    forall i, j :: 0 <= i < j < |calls| ==> calls[i].bar.time.day <= calls[j].bar.time.day
  }

  function Before(c: Config, g: Option<GuardRails>, calls: seq<BarCall>): EngineState
    requires calls != []
  {
    RunBars(c, g, INITIAL, calls[..|calls| - 1])
  }

  // What the last call returns.
  function Returned(c: Config, g: Option<GuardRails>, calls: seq<BarCall>): seq<Trade>
    requires calls != []
  {
    var result := BarStep(c, g, Before(c, g, calls), calls[|calls| - 1]).1;
    if result.Some? then [result.value] else []
  }

  function AllTrades(c: Config, g: Option<GuardRails>, calls: seq<BarCall>): seq<Trade> {
    if calls == [] then [] else AllTrades(c, g, calls[..|calls| - 1]) + Returned(c, g, calls)
  }

  // The trades closed by the calls of one day.
  function TradesOn(c: Config, g: Option<GuardRails>, calls: seq<BarCall>, day: int): seq<Trade> {
    if calls == [] then []
    else
      TradesOn(c, g, calls[..|calls| - 1], day)
      + if calls[|calls| - 1].bar.time.day == day then Returned(c, g, calls) else []
  }

  function Earnings(trades: seq<Trade>): int {
    if trades == [] then 0 else Earnings(trades[..|trades| - 1]) + trades[|trades| - 1].money
  }

  // Why a day with these trades behind it refuses an entry, if it does.
  function Refusal(g: Option<GuardRails>, trades: seq<Trade>): Option<Reason> {
    if g.None? then None
    else if |trades| >= g.value.maxTradesPerDay then Some(MaxTradesReached)
    else if Earnings(trades) <= Min(g.value.maxDailyLoss, -g.value.maxDailyLoss) then Some(MaxDailyLossHit)
    else None
  }

  // The refusals of one day: each of its calls for a flat symbol that its trades so far rule out.
  function RefusalsOn(c: Config, g: Option<GuardRails>, calls: seq<BarCall>, day: int): seq<Rejection> {
    if calls == [] then []
    else
      var front, last := calls[..|calls| - 1], calls[|calls| - 1];
      var reason := Refusal(g, TradesOn(c, g, front, day));
      RefusalsOn(c, g, front, day)
      + if last.bar.time.day == day && last.symbol !in Before(c, g, calls).positions && reason.Some?
        then [Rejection(last.symbol, last.bar.time, reason.value)] else []
  }

  lemma {:induction false} NothingOn(c: Config, g: Option<GuardRails>, calls: seq<BarCall>, day: int)
    requires forall i :: 0 <= i < |calls| ==> calls[i].bar.time.day != day
    ensures TradesOn(c, g, calls, day) == [] && RefusalsOn(c, g, calls, day) == []
  {
    if calls != [] {
      NothingOn(c, g, calls[..|calls| - 1], day);
    }
  }

  // The counters stand for these trades and refusals of this day.
  ghost predicate Counts(s: EngineState, day: int, trades: seq<Trade>, refusals: seq<Rejection>) {
    && s.currentDay == Some(day) && s.dayTrades == |trades| && s.dayPnl == Earnings(trades)
    && s.rejections == refusals
  }

  lemma EarningsNext(trades: seq<Trade>, t: Trade)
    ensures Earnings(trades + [t]) == Earnings(trades) + t.money
  {
    assert (trades + [t])[..|trades|] == trades;
  }

  lemma RefusalIsBlocked(g: Option<GuardRails>, trades: seq<Trade>)
    ensures Blocked(g, |trades|, Earnings(trades)) == Refusal(g, trades)
  {
  }

  // One call of the day the counters stand for.
  lemma CallCounts(c: Config, g: Option<GuardRails>, s: EngineState, call: BarCall, trades: seq<Trade>,
      refusals: seq<Rejection>)
    requires Counts(s, call.bar.time.day, trades, refusals)
    ensures var r, reason := BarStep(c, g, s, call), Refusal(g, trades);
      var returned := if r.1.Some? then [r.1.value] else [];
      var refused := if call.symbol !in s.positions && reason.Some?
                     then [Rejection(call.symbol, call.bar.time, reason.value)] else [];
      Counts(r.0, call.bar.time.day, trades + returned, refusals + refused) && r.0.closed == s.closed + returned
  {
    var r := BarStep(c, g, s, call);
    RefusalIsBlocked(g, trades);
    assert refusals + [] == refusals && trades + [] == trades && s.closed + [] == s.closed;
    if r.1.Some? {
      EarningsNext(trades, r.1.value);
    }
  }

  // A call on another day first clears the counters.
  lemma RolledCounts(s: EngineState, day: int)
    requires s.currentDay != Some(day)
    ensures Counts(RollDay(s, day), day, [], []) && RollDay(s, day).positions == s.positions
  {
  }

  lemma RollThenStep(c: Config, g: Option<GuardRails>, s: EngineState, call: BarCall)
    ensures BarStep(c, g, s, call) == BarStep(c, g, RollDay(s, call.bar.time.day), call)
  {
  }

  lemma DaysPrefix(calls: seq<BarCall>)
    requires DaysInOrder(calls) && calls != []
    ensures DaysInOrder(calls[..|calls| - 1])
  {
  }

  // The state as the last call of `calls + [call]` finds it, once it has rolled.
  lemma FoundBy(c: Config, g: Option<GuardRails>, calls: seq<BarCall>, call: BarCall)
    requires DaysInOrder(calls + [call])
    requires calls != [] ==> DayInv(c, g, calls)
    ensures var day := call.bar.time.day;
      Counts(RollDay(RunBars(c, g, INITIAL, calls), day), day, TradesOn(c, g, calls, day), RefusalsOn(c, g, calls, day))
  {
    var s, day := RunBars(c, g, INITIAL, calls), call.bar.time.day;
    if calls == [] {
      RolledCounts(s, day);
    } else {
      if s.currentDay != Some(day) {
        NewDay(c, g, calls, call);
        RolledCounts(s, day);
      }
    }
  }

  // A call on another day than the last one's is the first of its day.
  lemma NewDay(c: Config, g: Option<GuardRails>, calls: seq<BarCall>, call: BarCall)
    requires DaysInOrder(calls + [call]) && calls != [] && calls[|calls| - 1].bar.time.day != call.bar.time.day
    ensures TradesOn(c, g, calls, call.bar.time.day) == [] && RefusalsOn(c, g, calls, call.bar.time.day) == []
  {
    var all := calls + [call];
    assert all[|calls| - 1].bar.time.day <= all[|calls|].bar.time.day;
    forall i | 0 <= i < |calls| ensures calls[i].bar.time.day != call.bar.time.day {
      assert all[i].bar.time.day <= all[|calls| - 1].bar.time.day;
    }
    NothingOn(c, g, calls, call.bar.time.day);
  }

  ghost predicate DayInv(c: Config, g: Option<GuardRails>, calls: seq<BarCall>)
    requires calls != []
  {
    var s, day := RunBars(c, g, INITIAL, calls), calls[|calls| - 1].bar.time.day;
    && Counts(s, day, TradesOn(c, g, calls, day), RefusalsOn(c, g, calls, day))
    && s.closed == AllTrades(c, g, calls)
  }

  lemma StepOfDay(c: Config, g: Option<GuardRails>, s: EngineState, call: BarCall, trades: seq<Trade>,
      refusals: seq<Rejection>)
    requires Counts(RollDay(s, call.bar.time.day), call.bar.time.day, trades, refusals)
    ensures var r, reason := BarStep(c, g, s, call), Refusal(g, trades);
      var returned := if r.1.Some? then [r.1.value] else [];
      var refused := if call.symbol !in s.positions && reason.Some?
                     then [Rejection(call.symbol, call.bar.time, reason.value)] else [];
      Counts(r.0, call.bar.time.day, trades + returned, refusals + refused) && r.0.closed == s.closed + returned
  {
    RollThenStep(c, g, s, call);
    CallCounts(c, g, RollDay(s, call.bar.time.day), call, trades, refusals);
  }

  lemma LastCall(c: Config, g: Option<GuardRails>, calls: seq<BarCall>, front: seq<BarCall>, last: BarCall)
    requires calls == front + [last]
    requires var s, day := RunBars(c, g, INITIAL, front), last.bar.time.day;
      && Counts(RollDay(s, day), day, TradesOn(c, g, front, day), RefusalsOn(c, g, front, day))
      && s.closed == AllTrades(c, g, front)
    ensures DayInv(c, g, calls)
  {
    var s, day := RunBars(c, g, INITIAL, front), last.bar.time.day;
    assert calls[..|calls| - 1] == front;
    StepOfDay(c, g, s, last, TradesOn(c, g, front, day), RefusalsOn(c, g, front, day));
    assert RunBars(c, g, INITIAL, calls) == BarStep(c, g, s, last).0;
  }

  lemma {:induction false} DayInvHolds(c: Config, g: Option<GuardRails>, calls: seq<BarCall>)
    requires DaysInOrder(calls) && calls != []
    ensures DayInv(c, g, calls)
  {
    var front, last := calls[..|calls| - 1], calls[|calls| - 1];
    assert calls == front + [last];
    if front != [] {
      DaysPrefix(calls);
      DayInvHolds(c, g, front);
    }
    FoundBy(c, g, front, last);
    LastCall(c, g, calls, front, last);
  }

  // Over calls in day order: the engine's trades are all those its calls returned, and its day's
  // count, P&L and rejections are those of the last call's day alone.
  lemma DayCounters(c: Config, g: Option<GuardRails>, calls: seq<BarCall>)
    requires DaysInOrder(calls) && calls != []
    ensures var s, day := RunBars(c, g, INITIAL, calls), calls[|calls| - 1].bar.time.day;
      var trades := TradesOn(c, g, calls, day);
      && s.currentDay == Some(day) && s.closed == AllTrades(c, g, calls)
      && s.dayTrades == |trades| && s.dayPnl == Earnings(trades) && s.rejections == RefusalsOn(c, g, calls, day)
  {
    DayInvHolds(c, g, calls);
  }

  lemma FlatCallEnters(c: Config, g: Option<GuardRails>, s: EngineState, call: BarCall, trades: seq<Trade>,
      refusals: seq<Rejection>)
    requires Counts(s, call.bar.time.day, trades, refusals) && call.symbol !in s.positions
    ensures call.symbol in BarStep(c, g, s, call).0.positions <==>
      && Refusal(g, trades).None?
      && TradeOutcome.ReachesOne(call.levels.longEntry, call.levels.shortEntry, call.bar)
  {
    RefusalIsBlocked(g, trades);
  }

  // A call for a flat symbol enters exactly when the trades of its own day so far do not rule it
  // out and its bar reaches one trigger alone; on the first call of a day there are none.
  lemma EntryDecision(c: Config, g: Option<GuardRails>, calls: seq<BarCall>, call: BarCall)
    requires DaysInOrder(calls + [call]) && call.symbol !in RunBars(c, g, INITIAL, calls).positions
    ensures var n, day := RunBars(c, g, INITIAL, calls + [call]), call.bar.time.day;
      && (call.symbol in n.positions <==>
            && Refusal(g, TradesOn(c, g, calls, day)).None?
            && TradeOutcome.ReachesOne(call.levels.longEntry, call.levels.shortEntry, call.bar))
      && ((forall i :: 0 <= i < |calls| ==> calls[i].bar.time.day < day) ==> TradesOn(c, g, calls, day) == [])
  {
    var all, day := calls + [call], call.bar.time.day;
    var s := RunBars(c, g, INITIAL, calls);
    assert all[..|calls|] == calls;
    if calls != [] {
      DaysPrefix(all);
      DayInvHolds(c, g, calls);
    }
    FoundBy(c, g, calls, call);
    RollThenStep(c, g, s, call);
    FlatCallEnters(c, g, RollDay(s, day), call, TradesOn(c, g, calls, day), RefusalsOn(c, g, calls, day));
    if forall i :: 0 <= i < |calls| ==> calls[i].bar.time.day < day {
      NothingOn(c, g, calls, day);
    }
  }
}
