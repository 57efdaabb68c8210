# The anchor-breakout engine, modelled and proved

This project models the trading core of the repository and proves what it promises: the exit
and trailing rules, the two bar drivers that share them, the per-tick orchestrator with its
simulated broker, the crash-safe order intents, and the accounting around them.

Check everything with `dafny verify dfyconfig.toml`.

## How it is built

- `Rounding`, `Levels`: half-even rounding and tick-rounded levels. Prices and money are whole
  paise, so rounding to two decimals is `Rounding.Round`; a quotient or a cost is a `real`.
- `StrategyRunner`: the rules, once as functions on values and once as the class that updates
  a position in place, each method proved equal to its function. `Ratchet`, `TradeOutcome`
  and `BarResolution` prove what the rules do over whole runs of closes and bars; `Mirror`
  proves the symmetry of LONG and SHORT.
- `BacktestEngine` and `ExecutionEngine`: the two bar drivers, with their loops and classes.
  `SessionOutcome`, `ExecutionDays`, `ExecutionLimits`, `LimitCaps` and `Parity` hold their
  whole-run theorems.
- `RiskControls`, `Metrics`, `Audit`: guard-rails, sizing, drawdown, and P&L under rounding.
- `StateStore`, `AnchorEngine`, `PaperBroker`, `Orchestrator`: the stateful objects. Every
  method states its whole new state as a step function of the old; `TickSteps` holds the
  orchestrator's. `TickCoupling`, `TickDay`, `TickCutoff`, `TickLimits` and `TickTrail` prove
  properties of every run of ticks, pauses and resumes from a fresh start; `TickRestart`,
  `RestartDay` and `RestartCutoff` of every run with restarts in it too; `TickClock` says to
  the second when pairs and positions go.
- `OrderIntents`, `IntentProtocol`: the intent store and the write-ahead protocol, the second
  as single disk writes and broker calls with a crash allowed between any two, and with order
  ids that may be empty. A crash after an accepted post also stands for a reply that never
  arrives.

A time is a day number and a second of the day. Clocks, prices, broker replies and per-trade
costs are arguments.

## Where the code and its documentation differ

The model follows the code.

- `README.md:21` says BACKTEST and PAPER give identical trades on the same bars. They do for
  sessions that end flat (`Parity.RunParity`); a position held overnight breaks it, and
  `Parity.ParityIffSessionsEndFlat` says exactly when.
- The guard-rails read like daily caps, but are only consulted before an entry. The provable
  bounds are `ExecutionLimits.DailyLossBound` and `TradeCountBound`, both reached
  (`LimitCaps.BoundsReached`); `LossCapIff` and `TradeCapIff` say exactly when the plain limits
  are kept. In the orchestrator trades are counted only at the square-off, so before it the
  guard-rails see an empty book (`TickLimits`).
- `engine/orchestrator.py:5-15` lists the bar roll first and the trail fourth; the code trails
  from the closed bar before it rolls it (lines 155-158).
- `engine/orchestrator.py:17-21` and `brokers/paper/paper_broker.py:61-63` say positions are
  persisted; only anchors and pairs are. `RestartDay` states what that costs.
- `engine/metrics.py:15-16` says the first trade establishes the peak; the code's peak starts at
  zero, so a first loss is already a drawdown.
- `brokers/dhan/dhan_broker.py:250-256` says the reconciler can re-issue an intent that was never
  posted; it never posts (`IntentProtocol.ReconcileIsReadMostly`). A caller that retries does,
  and may then place a second order (`SecondOrderAfterCrash`).

Hypotheses that a property needs are in its `requires`: one-minute bars that partition their
window, well-formed bars, distinct security ids, a trigger distance of more than half a tick,
and for the whole-day properties one day of ticks in time order, a sweep no later than the
square-off, and an entry cut-off no later than the sweep. `TickCutoff` and `RestartCutoff` show
that the last is needed, and that with restarts even it does not keep a symbol to one pair.

## Model

| member | source | states |
|---|---|---|
| `Rounding.RoundIsHalfEven` | strategy/levels.py:18-19 | the rounding the model uses everywhere is exactly round-half-to-even: an integer is the rounded value if and only if it is within half, ties going to the even neighbour |
| `Rounding.RoundShift` | engine/audit.py:133-134 | moving an integer across a rounding changes the result only on a half-paisa tie, and then by at most one |
| `Levels.RoundToTickNearest` | strategy/levels.py:18-19 | a rounded price is on the tick grid and no more than half a tick away; a price already on the grid is unchanged |
| `Levels.RoundToTickOdd` | strategy/levels.py:18-19 | rounding to the tick commutes with negation, for every price and tick, ties included |
| `Levels.LevelDistances` | strategy/levels.py:22-45 | every level is on the tick grid and where it is configured to be, the two triggers measured from the anchor price and stop and target from their trigger, each to within half a tick and exactly when that falls on the grid; the anchor kept is within half a tick of the price given; the triggers keep apart when twice the trigger distance exceeds a tick |
| `StrategyRunner.Runner.UpdateTrailingFromClose` | engine/strategy_runner.py:122-152 | the in-place ratchet leaves the position in the state of the step function whose whole-run closed form is `Ratchet.RatchetClosedForm` |
| `StrategyRunner.Runner.EvaluateExit` | engine/strategy_runner.py:154-189 | one bar's exit check and trail, in place, is the step the outcome theorems are about, result and position together |
| `StrategyRunner.Runner.ReplayIntraBar` | engine/strategy_runner.py:191-212 | the in-place fold over one-minute bars stops at the first exit and leaves the position its earlier closes produced |
| `Ratchet.RatchetClosedForm` | engine/strategy_runner.py:122-152 | after any closes the lock index, stop and best gain are a closed form of the best close alone: index = min(best div step, count) - 1 when a whole step was gained, stop = the initial one or entry moved by that many steps |
| `Ratchet.BestGainIsBest` | engine/strategy_runner.py:137 | the best gain of the closed form is an upper bound of every close's gain, not below zero, and attained when positive |
| `Ratchet.NeverLoosensIff` | engine/strategy_runner.py:141-152 | the stop never loosens between any prefix and any longer run of closes if and only if the initial stop is not past the entry or the lock count is below one |
| `Ratchet.StopLagsCloses` | engine/strategy_runner.py:122-152 | a locked stop is at least one step behind the best close so far, and a close that moves the stop is a new best at least one step ahead of the stop it sets |
| `TradeOutcome.ReplayExplained` | engine/strategy_runner.py:154-212 | a replay's result is the exit of the first bar that exits, with the position its earlier closes left; a surviving position saw every close |
| `TradeOutcome.FirstMeetingBarCloses` | engine/strategy_runner.py:154-212 | a run stays open if and only if no bar's low or high reaches the standing stop or the target and none is late enough to square off; otherwise the first that does closes it, for the reason and at the price its precedence gives |
| `TradeOutcome.FirstReachingPriceCloses` | engine/strategy_runner.py:154-212 | the same in the prices a bar holds, from its low to its high: the first bar with a price that loses at least what the standing stop loses, or wins at least what the target wins, or that is late enough, is the one that closes the run, at stop, target or close |
| `TradeOutcome.OpenIsRatcheted` | engine/strategy_runner.py:191-212 | a position a replay leaves open is the closed form of all the closes it saw |
| `TradeOutcome.StopStaysShort` | engine/strategy_runner.py:122-189 | on well-formed bars the stop stays strictly short of the target for as long as the position is open |
| `TradeOutcome.StopFirstIsPessimistic` | engine/strategy_runner.py:174-177 | judging the stop first changes neither whether nor on which bar a run exits, and never pays more than judging the target first |
| `TradeOutcome.OutcomeBound` | engine/strategy_runner.py:154-247 | TP pays the target distance; SL means nothing locked and loses exactly the initial stop distance; TRAIL pays lock_step times an index below the lock count; SQUARE_OFF lies strictly between stop and target |
| `TradeOutcome.EntryExplained` | engine/strategy_runner.py:72-120 | a bar opens a position if and only if its high reaches the long trigger or its low the short one, but not both, on that side, and at the configured distance from the anchor price |
| `TradeOutcome.EnteredTradeBound` | engine/strategy_runner.py:72-120 | the same for any position `detect_entry` opens on built levels, its entry the trigger distance from the anchor price and both distances the configured ones, each to within half a tick and exact on the grid |
| `BarResolution.FineDominatesWindow` | engine/strategy_runner.py:154-212 | while both runs are open the one-minute stop and lock index are at least as tight as the five-minute ones; a five-minute stop or target exit means the one-minute run has exited by the end of that bar, and at no worse a price if the exit was a stop |
| `BarResolution.FineExitsFirst` | engine/strategy_runner.py:191-212 | over a whole run, whichever of stop and target is judged first, a five-minute exit at stop or target implies the one-minute run has exited by then; and where the last one-minute bar ends with its five-minute bar, so does any exit |
| `BacktestEngine.Engine.FindAnchor` | backtest/backtest_engine.py:101-112 | the scan for the first bar at the anchor hour and minute finds it, or reports there is none |
| `BacktestEngine.Engine.ScanBars` | backtest/backtest_engine.py:114-152 | the bar loop over a flat then held book, on five-minute bars or their one-minute windows, computes the recursive scan the session theorems are about |
| `BacktestEngine.Engine.RunSession` | backtest/backtest_engine.py:94-175 | a session's trade with its money recomputed from points, quantity and money per point |
| `BacktestEngine.Engine.Run` | backtest/backtest_engine.py:66-79 | the run's trades are the sessions' trades in order, at most one each |
| `BacktestEngine.TradesPriced` | backtest/backtest_engine.py:66-79 | the money per point changes the money of every trade of a run, to points by quantity by money per point rounded half to even, and nothing else: not which trades there are |
| `SessionOutcome.ScanFlatFindsEntry` | backtest/backtest_engine.py:114-152 | the session loop amounts to: find the first bar naming a side, then replay all the bars after it as one run |
| `SessionOutcome.SessionExplained` | backtest/backtest_engine.py:94-152 | either no bar falls in the anchor minute, or none after the first that does reaches one trigger alone, and there is no trade; or what the session returns is what one replay of the bars after the first such bar makes of the position that bar opens |
| `SessionOutcome.PricedHalfEven` | backtest/backtest_engine.py:154-175 | repricing changes the money alone, to points by quantity by money per point, rounded half to even |
| `SessionOutcome.SessionTradeExplained` | backtest/backtest_engine.py:94-152 | a session's trade was opened by the first bar after the first bar in the anchor minute to reach one trigger alone, at the configured distance from that bar's open, and paid what its exit reason allows |
| `SessionOutcome.OneMinuteSessionCloses` | backtest/backtest_engine.py:137-167 | a whole session that the five-minute backtest closes at a stop or target is closed by the one-minute backtest too, and with windows that end with their bar so is one squared off |
| `Mirror.LevelsMirror` | strategy/levels.py:22-45 | levels of the negated anchor are the negated levels with LONG and SHORT swapped, half-even ticks included |
| `Mirror.ReplayMirror` | engine/strategy_runner.py:154-247 | negating every price of a run swaps the sides, negates stop and target, and leaves points, reason, lock index and exit bar alone |
| `Mirror.SessionMirror` | backtest/backtest_engine.py:94-152 | the same for whole sessions, anchor bar to exit, with or without one-minute bars |
| `ExecutionEngine.Engine.OnBar` | engine/execution_engine.py:69-86 | one bar call, day roll included, takes the whole engine state to the step function's, and returns its trade |
| `ExecutionEngine.Engine.MaybeEnter` | engine/execution_engine.py:88-131 | a flat symbol is rejected by the first guard-rail hit, or enters what the bar names |
| `ExecutionEngine.Engine.EvaluateOpen` | engine/execution_engine.py:133-177 | a held symbol is trailed in place, or closed and booked into the day's P&L, count and trade list |
| `ExecutionEngine.Engine.RollDayIfNeeded` | engine/execution_engine.py:191-205 | a new day clears P&L, count and rejections and keeps every position |
| `ExecutionDays.DayCounters` | engine/execution_engine.py:69-205 | over any calls in day order the engine's trades are all its calls returned, and its day's count, P&L and rejections are those of the trades and refusals of the last call's day alone |
| `ExecutionDays.EntryDecision` | engine/execution_engine.py:88-131 | a call for a flat symbol enters if and only if the trades closed earlier on its own day are under both limits and its bar reaches one trigger alone; on a day's first call there are none |
| `ExecutionLimits.DailyLossBound` | engine/execution_engine.py:69-177 | over any bars, symbols and day rolls day_pnl never falls below min(L - 1, (N - 1)W) plus one worst stop loss W per symbol, even after every open stop is paid out, and so not below L plus that |
| `ExecutionLimits.TradeCountBound` | engine/execution_engine.py:97-155 | day trades plus open positions never exceed N - 1 + S, and no symbol closes more than N trades in a day |
| `LimitCaps.BoundsReached` | engine/execution_engine.py:97-155 | for every config, positive loss limit, at least one trade allowed, at least one symbol and every worst loss, one run of a day's bars in time order reaches both bounds exactly: N - 1 + S trades, and the loss bound |
| `LimitCaps.LossCapIff` | risk/guardrails.py:19-23 | the loss limit caps every run if and only if no entry is ever allowed (zero limit, no trade allowed, no symbol) or min(L - 1, (N - 1)W) + SW is within L |
| `LimitCaps.TradeCapIff` | risk/guardrails.py:25-29 | the trade limit caps every run if and only if it is not negative and at most one symbol trades, or one of the two limits is zero |
| `Parity.SessionParity` | backtest/backtest_engine.py:94-152 | from a flat book a session yields the same first trade, or none, in the backtest and in the bar engine, and leaves the same position open |
| `Parity.RunParity` | engine/execution_engine.py:69-177 | over any list of sessions that each end flat the two trade lists are equal |
| `Parity.LateQuietEnd` | engine/strategy_runner.py:185-186 | a session whose last bar is past the square-off time and names no side ends flat |
| `Parity.EveryConfigBreaksParity` | engine/execution_engine.py:191-205 | no config keeps parity over all sessions: for every config, anchor price and day there is a session that ends open and a next one on which the trade lists differ |
| `Parity.ParityIffSessionsEndFlat` | engine/execution_engine.py:191-205 | the trade lists stay equal after every session, whatever comes next, if and only if every session ends flat |
| `RiskControls.SizeIsGreatestWithinBudget` | risk/position_sizer.py:52-84 | a sized quantity is the greatest whole number of lots whose loss at the stop is within max_risk_pct hundredths of the capital; sizing is skipped exactly when capital or percentage is not positive, then when a parameter is unusable, then when a single lot is already too much, each with its own reason |
| `RiskControls.SizedRiskWithinBudget` | risk/position_sizer.py:63-84 | a sized quantity risks no more than that percentage of the capital at every stop distance up to the one sized for |
| `Metrics.DrawdownTracker.Record` | engine/metrics.py:34-41 | the in-place update is one step of the tracker that `TrackerRefinesDefinition` is about |
| `Metrics.TrackerRefinesDefinition` | engine/metrics.py:34-41 | for any P&L list the curve is the prefix sums, the peak their maximum with zero, and the drawdown the maximum of E_i - E_j over i <= j |
| `Metrics.DrawdownPctIsShareOfPeak` | engine/metrics.py:43-47 | the percentage is the drawdown's share of the peak to the nearest hundredth, zero when equity was never positive |
| `Audit.DailyAudit.RecordTrade` | engine/audit.py:116-152 | the in-place update of totals, wins, losses and tracker is one step of the books |
| `Audit.Conservation` | engine/audit.py:116-152 | gross is the sum of the trades, every trade is a win or a loss, and net and the last equity point differ by at most one paisa per charged half-paisa tie |
| `Audit.NoTiesNoDrift` | engine/audit.py:133-141 | with no half-paisa tie among the costs, net equals the last equity point |
| `Audit.CostsAddUp` | engine/audit.py:121-151 | the costs booked, the net P&L and the last equity point are each within half a paisa per charged trade of the exact sums, cost subtracted, and the wins are the trades that gained |
| `Audit.BooksTrackNets` | engine/audit.py:147-152 | the audit's equity curve and drawdown are the tracker's over the rounded nets |
| `Audit.Summarize` | backtest/backtest_engine.py:191-217 | the backtest's summary loop yields the audit's totals for the same trades, each of them charged |
| `Audit.SummaryConserves` | backtest/backtest_engine.py:202-236 | the backtest's net and last equity point are within a paisa per trade, its wins and losses add up, and its drawdown is the quadratic one of its nets |
| `AnchorEngine.Engine.ShouldCaptureAnchor` | engine/anchor_engine.py:88-98 | the gate opens only inside trading hours and the capture window for a symbol not yet captured that day, and binds the engine to the day |
| `AnchorEngine.Engine.CaptureAnchor` | engine/anchor_engine.py:100-129 | a capture is stored in memory and on disk together |
| `AnchorEngine.Engine.RollDayIfNeeded` | engine/anchor_engine.py:151-191 | a new day, or a restart, reads the day's anchors back and purges every other day from disk |
| `AnchorEngine.OncePerDay` | engine/anchor_engine.py:88-129 | over any ticks and restarts each symbol is captured at most once a day, inside the trading hours and no more than the window after the anchor minute begins, disk keeps the current day alone, and the captured value is what the engine answers from then on |
| `AnchorEngine.RecordsAreFirstPolls` | engine/anchor_engine.py:88-129 | every captured record repeats the arguments of the first poll of its symbol and day inside the window |
| `AnchorEngine.PolledInWindowIsAnchored` | engine/anchor_engine.py:88-98 | a symbol polled inside the window has an anchor on disk until the day changes |
| `PaperBroker.Broker.PlaceStopOrder` | brokers/paper/paper_broker.py:82-96 | the order is appended as OPEN under the next number |
| `PaperBroker.Broker.CancelOrder` | brokers/paper/paper_broker.py:123-128 | succeeds if and only if the order is OPEN, and changes only that order |
| `PaperBroker.Broker.ProcessTick` | brokers/paper/paper_broker.py:175-208 | one pass over the orders in place fills exactly those the price crosses, in order, opening a position only where there is none |
| `PaperBroker.Broker.ModifySl` | brokers/paper/paper_broker.py:153-158 | succeeds if and only if a position is held, and moves its stop only |
| `PaperBroker.Broker.ModifyTp` | brokers/paper/paper_broker.py:160-165 | succeeds if and only if a position is held, and moves its target only |
| `PaperBroker.Broker.ForceClose` | brokers/paper/paper_broker.py:210-220 | drops the position and returns its signed points, or nothing when none is held |
| `PaperBroker.OneTriggered` | brokers/paper/paper_broker.py:183-208 | when one order alone is crossed, the pass fills that order and reports that fill only |
| `PaperBroker.FillExplained` | brokers/paper/paper_broker.py:196-207 | a fill changes the status of its order alone, and opens a position at the trigger, for the order's side and quantity, only where none is held |
| `TickClock.OrdersAreFinal` | brokers/paper/paper_broker.py:123-208 | over any stretch of a run without a restart in it orders keep their terms, and one filled or cancelled is never touched again, although a pair read back from disk may name orders that are not its own |
| `Orchestrator.Orchestrator.constructor` | engine/orchestrator.py:129-142 | a new process starts with the pairs on disk, no positions and zeroed day counters |
| `Orchestrator.Orchestrator.OnTick` | engine/orchestrator.py:146-168 | the in-place tick over all shared objects is the composition of the sub-steps in the code's order; an unknown symbol changes nothing |
| `Orchestrator.Orchestrator.MaybeCloseBar` | engine/orchestrator.py:441-465 | a completed window trails the position from its last price and sends a moved stop to the broker |
| `Orchestrator.Orchestrator.UpdateRollingBar` | engine/orchestrator.py:224-234 | the rolling bar is opened or widened by the tick |
| `Orchestrator.Orchestrator.MaybeCaptureAnchor` | engine/orchestrator.py:238-259 | the anchor gate is polled with the rolling bar's open and start, or with the tick's own price and time when there is no bar |
| `Orchestrator.Orchestrator.HandlePaperFills` | engine/orchestrator.py:393-400 | every fill of the broker's pass is handled in order |
| `Orchestrator.Orchestrator.OnOrderFill` | engine/orchestrator.py:402-437 | the peer is cancelled, the position created with the filled side's levels, the broker told, the pair dropped and the pairs saved |
| `Orchestrator.Orchestrator.MaybePlaceOcoPair` | engine/orchestrator.py:263-342 | both legs are placed and the pair saved only behind all the gates, checked in the code's order |
| `Orchestrator.Orchestrator.PreSquareoffSweep` | engine/orchestrator.py:469-484 | once, from the cut-off on, every pair's open orders are cancelled and the pairs dropped and saved |
| `Orchestrator.Orchestrator.SquareoffAtClose` | engine/orchestrator.py:486-523 | a position is closed at the last price at both objects and booked into the counters and the audit |
| `TickCoupling.FillsOfTick` | engine/orchestrator.py:393-437 | on a coupled state at most one stop fills on a tick, and its pair becomes the position with the peer cancelled |
| `TickCoupling.AlwaysCoupled` | engine/orchestrator.py:146-168 | over every run: never both pair and position; each pair has exactly its two opposite equal stops OPEN at the broker; nothing else is OPEN; both position maps agree on side, entry, quantity, stop and target; the pairs on disk are the pairs in memory |
| `TickCoupling.ReloadInvertsPersist` | engine/orchestrator.py:548-568 | reading back persisted pairs returns them unchanged |
| `TickCoupling.ReloadReads` | engine/orchestrator.py:553-568 | a file of pairs is read back if and only if every record has its symbol, both order ids and its levels, and then field by field, a missing quantity as one |
| `TickCoupling.PairsSurviveRestart` | engine/orchestrator.py:548-568 | at every tick boundary of every run the disk reads back as the pairs in memory |
| `TickCoupling.SquareOffPaysGain` | engine/orchestrator.py:497-511 | the square-off books the price difference in the orchestrator position's own favour, from its entry to the last price, for its whole quantity, although the broker computes it, and tells the audit the same points and money without a quantity |
| `TickRestart.RestartCoupledIff` | brokers/paper/paper_broker.py:60-70 | after a restart orchestrator and broker are in lockstep if and only if no pair was resting |
| `TickRestart.AlwaysLoose` | engine/orchestrator.py:141-168 | over every run with restarts anywhere, but for the pairs read back from disk orchestrator, broker and disk stay in lockstep, and a symbol whose pair was read back has no order and no position in either object |
| `RestartDay.ReloadedPairIsDead` | engine/orchestrator.py:553-568 | for the rest of the day, through any ticks and further restarts and although order ids are issued anew, a symbol whose pair was read back never has an order or a position, and is paired if and only if the sweep's time has not come |
| `RestartDay.HeldSymbolPairsAgainIff` | engine/orchestrator.py:263-342 | after any run, a symbol held before a restart is paired again by its next tick if and only if the gates of a first pair are open |
| `RestartDay.HeldSymbolFillsAgain` | engine/orchestrator.py:402-437 | and it then fills a second time on the next tick at its trigger |
| `TickDay.OnePairOneFill` | engine/orchestrator.py:263-272 | on every run of one day a symbol has no orders or exactly one pair of them, and at most one fill |
| `RestartDay.FlatThroughRestarts` | engine/orchestrator.py:469-511 | from a symbol's first tick at or after the square-off time it has no pair, no position in either object and no OPEN order, for the rest of the day, whatever restarts come before or after |
| `TickClock.SweptByTheBuffer` | engine/orchestrator.py:469-484 | on every run of one day, with the entry cut-off no later than the sweep, a tick as late as the buffer before the square-off minute leaves no pair and no OPEN order |
| `TickClock.PairStandsUntilTheBuffer` | engine/orchestrator.py:469-484 | on every run, an earlier tick that reaches neither of a pair's triggers leaves the pair as it was, with both its stops OPEN at their triggers |
| `TickClock.ClosedInTheMinute` | engine/orchestrator.py:486-523 | on every run of one day a tick in the square-off minute or later leaves its symbol flat in both objects |
| `TickClock.HeldUntilTheMinute` | engine/orchestrator.py:486-523 | on every run no earlier tick closes any position: it is held on as it was filled, but for its trail |
| `TickCutoff.NoPairAfterSweep` | engine/orchestrator.py:469-484 | with the entry cut-off no later than the sweep, once it has fired no symbol has a pair again that day |
| `TickCutoff.LateRun` | engine/orchestrator.py:263-272 | with the sweep first, a run of one day from a fresh start whose sweep has fired ends with a pair standing, the symbol's second, for any symbol that can be paired |
| `TickCutoff.SweepIsFinalIff` | engine/orchestrator.py:268-269 | for every setup, anchor file and day: no run leaves a pair after its sweep if and only if the cut-off is no later than the sweep or no symbol can be paired at all |
| `TickCutoff.OnePairADayIff` | engine/orchestrator.py:263-272 | and exactly then does every symbol see at most one pair of orders and one fill on every run of the day |
| `RestartCutoff.FlatByCloseIff` | engine/orchestrator.py:469-511 | for every setup, anchor file and day: every symbol is flat from its first tick at or after the square-off time on, on every run of the day with or without restarts, if and only if the cut-off is no later than the sweep or no symbol can be paired at all |
| `RestartCutoff.PairedOnceIff` | engine/orchestrator.py:553-568 | with the cut-off first, every run of the day with restarts pairs each symbol at most once if and only if no symbol can be paired at all |
| `TickDay.DayBooksMatch` | engine/orchestrator.py:508-523 | on every run the orchestrator's P&L and trade count equal the audit's gross, net and trade count, with no cost charged |
| `TickDay.GatesStopNewPairs` | engine/orchestrator.py:263-285 | no tick opens a pair while paused, past the entry cut-off, or stopped by a guard-rail |
| `TickLimits.GuardRailsSeeEmptyBook` | engine/orchestrator.py:277-285 | with the cut-off no later than the square-off, a tick that may place a pair finds the guard-rails' answer of an empty book on every run of the day |
| `TickLimits.EverySymbolTrades` | risk/guardrails.py:25-29 | so the trade limit does not bound how many symbols trade: any number that could each trade first all hold positions at once on some run |
| `TickTrail.StreamingTrailIsBatchTrail` | engine/orchestrator.py:441-465 | on every run of one day the rolling bar is first, highest, lowest and last price of its window, and an open position is one that a tick at its entry time filled by reaching its side's trigger, trailed over the last price of each window completed from the fill's on, each once |
| `TickTrail.AnchorIsWindowOpen` | engine/orchestrator.py:238-252 | an anchor captured on a tick is the first price of that tick's five-minute window, recorded with the time the window began and the tick's own |
| `TickTrail.AnchorWithoutBar` | engine/orchestrator.py:238-252 | with no rolling bar the anchor is the tick's own price and time |
| `TickTrail.FilledRiskWithinBudget` | engine/orchestrator.py:344-389 | on every run of one day an open position's quantity is the greatest number of whole lots whose loss at the distance sized for is within the configured percentage of the capital; and so is its loss at the initial stop, when the distance sized for covers the runner's tick-multiple stop distance |
| `TickTrail.FilledOneLot` | engine/orchestrator.py:344-389 | without a sizer an open position is one lot |
| `OrderIntents.OrderIntentStore.RecordPending` | brokers/dhan/order_intents.py:86-98 | an unknown intent is saved as PENDING; a known one is returned unchanged |
| `OrderIntents.OrderIntentStore.Update` | brokers/dhan/order_intents.py:106-122 | a known intent takes the status and, if given, the order id; an unknown one is refused and nothing is saved |
| `OrderIntents.OrderIntentStore.AllPending` | brokers/dhan/order_intents.py:79-84 | lists exactly the PENDING and SUBMITTED intents, each once |
| `OrderIntents.DhanBroker.PlaceWithIntent` | brokers/dhan/dhan_broker.py:249-270 | an uninterrupted call posts if and only if no order id is stored, with the intent saved before and the id after; with one stored it returns that order as looked up afresh, or raises |
| `OrderIntents.DhanBroker.ReconcilePendingIntents` | brokers/dhan/dhan_broker.py:272-299 | refreshes exactly the live intents with an answered order id, posts nothing, and returns the undecided rest |
| `IntentProtocol.OrdersAccountedFor` | brokers/dhan/dhan_broker.py:257-270 | under any crashes and any order ids, empty ones included, every order at the broker has its intent on disk, and an intent's orders number one if its id is stored, plus one per lost reply, one per empty id written, and one in flight |
| `IntentProtocol.FileExplained` | brokers/dhan/order_intents.py:86-122 | under any crashes every intent on disk has the payload of a call made for it; without an order id it is still PENDING, and with one it is SUBMITTED or has a status that a reconcile query answered |
| `IntentProtocol.AtMostOneOrderIff` | brokers/dhan/dhan_broker.py:257-270 | after any run an intent has at most one order if and only if none of its replies was lost or left without an id, or just one was and no other order of its was accepted |
| `IntentProtocol.RetrySafeIff` | brokers/dhan/dhan_broker.py:257-270 | an intent can be retried without ever getting a second order, on every continuation without crashes, lost replies or empty ids, if and only if no reply for it has been lost or is without an id so far |
| `IntentProtocol.NoPostOnceStored` | brokers/dhan/dhan_broker.py:258-264 | once an order id is stored, on every continuation no later order is posted for the intent and the id never changes |
| `IntentProtocol.ReconcileIsReadMostly` | brokers/dhan/dhan_broker.py:272-299 | no reconcile step posts, stores an id, or touches an intent outside PENDING and SUBMITTED |
| `IntentProtocol.ReconciledOne` | brokers/dhan/dhan_broker.py:272-299 | a whole reconcile gives an intent the answered status if it was PENDING or SUBMITTED with an order id and the query succeeded, and otherwise leaves it as it was |
| `IntentProtocol.AtMostOneOrderWithoutCrash` | brokers/dhan/dhan_broker.py:249-270 | without crashes, lost replies or empty ids an intent retried at will gets at most one order |
| `IntentProtocol.SecondOrderAfterCrash` | brokers/dhan/dhan_broker.py:265-269 | one crash between the broker's reply and the write of the id admits a second order |
| `IntentProtocol.SecondOrderAfterEmptyId` | brokers/dhan/dhan_broker.py:258-259 | so does a reply with an empty order id, without any crash |
| `IntentProtocol.CallIsMicroSteps` | brokers/dhan/dhan_broker.py:249-270 | the class's call is an uninterrupted run of the micro-steps |
| `IntentProtocol.ReconcileIsMicroSteps` | brokers/dhan/dhan_broker.py:272-299 | the class's reconcile is an uninterrupted run of the micro-steps |

## Left out

- HTTP, feeds, market-data decoding, Telegram, heartbeat, status publishing, logging, CLI and shutdown: I/O around the state machine.
- The LIVE path of the orchestrator and the rest of the Dhan adapter: gated off, and nothing but conversions and requests; the client's retries are part of the one abstract post.
- Floating-point error, time zones and daylight saving: amounts are exact and times plain counters.
- JSON and file writes: a store holds one value and replaces it whole; the three keys that share files are modelled as separate stores.
- Audit event text, created/updated/placed/exit timestamps and the intent names recorded with a pair: no decision reads them.
- Malformed records on disk: a pair record with a missing key is modelled as a failed reload; malformed anchor records, which the code drops with a warning, are not modelled.
- `ExecutionEngine` persistence: the payload is written and never read back.
- Loading and grouping CSV data and the label arithmetic that picks one-minute bars: a session is a sequence of bars with its windows given, and that they partition the bar is a hypothesis.
- The Indian intraday cost model, win rate and profitable flag: a trade's cost is an arbitrary amount.
- Broker orders are entries of a sequence rather than shared records, so an order object handed out and changed later is not captured; the orchestrator's own positions are objects.
- Market orders, `close_position` and the read-only queries of the paper broker: the paper orchestrator never calls them.
- Symbol scoring, capital management and configuration merging: thin code outside the four cores.
- TickDay.OnePairOneFill: one process only, because the code forgets positions on a restart and then allows a second pair (`RestartDay.HeldSymbolFillsAgain`, `RestartCutoff.PairedOnceIff`).
- Recovery of partially filled intents: as in the code they leave the listed set and are not refreshed again.
