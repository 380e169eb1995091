# Strategy previews: a verified model

A preview takes a strategy in words, turns it into a specification, compiles that to signals, executes the
signals on daily bars, and compares the outcome with buying and holding. Previews run as durable jobs: a row in
PostgreSQL, a job in RQ, an advisory lock, a worker, a failure callback and a reconciler that recovers whatever
was lost. A browser hook submits a preview and polls its row. This project models the deterministic parts of
that system and proves what they promise.

`dafny verify dfyconfig.toml` checks the whole project.

## The modules

**The backtest.** `Market` holds bars and signals. `Engine` says what one signal and one bar do to a book (cash,
position, trades, ignored signals), and a run is the fold of that over the bars; `EngineLoop` is the program's loop
over its mutable variables, proved to compute that fold. `EngineLaws` has the laws of money and trades, `LevelLaws`
those of stops and targets, `SignalLaws` those of the signals, `FirstExit` an independent account of the trades,
one position at a time, that the engine is proved to follow. `Indicators`, `Specification` and `Compiler` go from
specifications to signals, `Crossover` is the hard-coded generator that the compiler generalises, `Causality` shows
that no result depends on a later bar, `Metrics` measures the equity curve and `Preview` composes it all.

**The preview jobs.** `JobRow` is one durable row and its writes. `Protocol` is the life of one preview as a
transition system: submitters, executions, RQ, crashes, the failure callback, the reconciler and the expiry job
take 35 kinds of step in any order, and one invariant survives all of them; `ProtocolLaws` draws the consequences
for whole runs and for systems of many previews, `RecoveryLaws` says in numbers when rows are given up, recovered
and retried, and `Finishing` shows that no preview is ever stuck. `JobStore`, `PreviewQueue`, `Worker` and
`Reconciler` are the program's own operations on the stores; `WorkerLaws` and `ReconcilerLaws` show that what these
do to a preview is a run of the protocol, and that a pass of reconciliation is complete and idempotent; `PassLaws`
shows that a whole pass, over rows, queue and locks, is a run of the system of all previews. `CallLaws` writes out
what one call, callback and submission come to, trouble by trouble.

**The edges.** `Normaliser` and `NormaliserLaws` are the draft normaliser and its audit trail; `PollingHook` and
`PollingLaws` are the browser hook as a state machine with late answers.

`Times` compares times with and without a time zone (`backend/app/services/preview_reconciliation.py:175-188`);
`Wrappers` and `Reals` are helpers.

## What is assumed

- Prices and cash are exact reals; Python's 28-digit decimal context is not modelled.
- Bars have positive prices, `low <= open, close <= high`, and strictly increasing timestamps
  (`backend/app/models/market_data.py:29-38`, `backend/app/backtesting/market_data.py:11-18`).
- Times are whole microseconds; a stored preview result is represented by a number.
- PostgreSQL: a commit is atomic, and a session's advisory locks go when the session ends.
- RQ: the scan for live jobs sees one moment; taking a job and marking it started is one step; a started job
  stays live until its execution has ended, and only then does its callback run or RQ retry it; a job that is not
  executing can be dropped or lost at any time; moving a job for a retry leaves it live. In `Protocol` a job timeout
  is never delivered after the completing commit.
- The ids that RQ and `uuid4` draw are new. Clocks, drawn ids, fractional powers, the provider's draft, what is read
  from the strategy's text, and every failure are parameters.

## What does not hold

- A finished row is not always final: when enqueueing raises although the job has arrived, the submitter may
  rewrite the failure that the callback has recorded. `ProtocolLaws.FailedRowsCanBeRewritten` is such a run, and
  `ProtocolLaws.FinishedRowsStayIff` the exact condition; completed rows are final, but for what comes next.
- A completed row is not safe from its own execution: what stops that after the completing commit, such as a job
  timeout, overwrites the result with a failure unless it is trouble of the provider or the database.
  `WorkerLaws.CompletionCanBeOverwritten` is such a call, and `WorkerLaws.CallKeepsRows` has the exact condition.
- The strategy is not always untouched where the comparison with the benchmark begins, because the first
  eligible index is the later of entry and exit. `Preview.ComparisonCanStartApart` has bars on which it has
  doubled by then; `Preview.UntouchedIff` and `Preview.ComparisonStartsTogether` say when it has not traded.
- The reconciler's counters do not always sum to the scanned rows: a row that is finished or deleted just before it
  would be given up is counted nowhere (`Reconciler.CountersMissOvertaken`, `Reconciler.OvertakenExactlyIf`).
- The compiled crossover equals the hard-coded generator only for windows that a specification admits: up to
  1000 bars (`Crossover.CompiledEqualsHardCoded`).

## Model

The main results come first, then the program's operations, and last the lemmas that the results rest on.

| member | source | states |
|---|---|---|
| `EngineLoop.ExecuteLongOnlySignals` | `backend/app/backtesting/engine.py:17-192` | for all bars, signals, cash and controls the loop returns exactly the model's execution, errors included |
| `EngineLaws.MoneyConserved` | `backend/app/backtesting/engine.py:168-192` | after every bar cash plus the cost of what is held is the starting cash plus realised profit; the final value is starting cash plus total profit and equals the last equity point |
| `EngineLaws.TradesAreSound` | `backend/app/backtesting/engine.py:50-182` | every trade enters at the open of the bar after its signal and exits on that bar or a later one, within the exit bar's range and at the price of its reason: a SELL at the open, a stop or target at its level or at an open already through it, the rest at the final close; a stop outranks a target, loses, and a target gains; profit and return agree; trades never overlap |
| `EngineLaws.AlwaysSolvent` | `backend/app/backtesting/engine.py:136-182` | cash is never negative, is below the entry price while shares are held, and every equity point is positive, whatever the stop percentage |
| `LevelLaws.NoLevelPassedOver` | `backend/app/backtesting/engine.py:50-182` | no trade passes over a level: on every bar between entry and exit the low stays above the stop and the high below the target; a strategy exit needs an open between them, and a final liquidation a whole bar between them; all in prices and percentages |
| `LevelLaws.HeldBetweenLevels` | `backend/app/backtesting/engine.py:295-314` | after every bar of every run, whatever is held has met neither of its levels on any bar since its entry |
| `SignalLaws.SignalsConserved` | `backend/app/backtesting/engine.py:34-134` | each signal stamped on a bar with a successor is used exactly once, as an entry, a strategy exit or an ignored signal, and no other signal is used |
| `SignalLaws.SignalsConservedInTotal` | `backend/app/backtesting/engine.py:34-134` | ignored signals, entries and strategy exits together are exactly as many as the signals stamped on bars with a successor |
| `FirstExit.EngineFollowsFirstExits` | `backend/app/backtesting/engine.py:50-182` | the loop's trades are those of an account that takes one position at a time, each leaving at its earliest event: opening-gap stop, opening-gap target, pending SELL, intraday stop, intraday target, final close |
| `Causality.NoLookAhead` | `backend/app/backtesting/strategy_compiler.py:29-111` | for every k, compiling and executing on the first k bars gives the first k equity points, and a prefix of the ignored signals and settled trades, of the run on all bars |
| `Indicators.EmaIsWeightedSum` | `backend/app/backtesting/strategy_compiler.py:94-111` | the exponential average is a weighted sum of the first window's mean and every later close, with weights that decay by `(window - 1) / (window + 1)` a bar |
| `Compiler.ConditionMeans` | `backend/app/backtesting/strategy_compiler.py:53-124` | each of the six operators, on the lists of its operands' values: closes, a constant, trailing means or smoothed averages; false where a value is missing |
| `Compiler.SignalsMean` | `backend/app/backtesting/strategy_compiler.py:29-38` | on every bar a BUY exactly when the entry rule holds and a SELL exactly when the exit rule holds, the BUY first |
| `Compiler.FirstEligibleIsFirst` | `backend/app/backtesting/strategy_compiler.py:40-45` | the first eligible index is the first bar on which every value that either rule looks at exists |
| `Compiler.EligibilityIsExact` | `backend/app/backtesting/strategy_compiler.py:127-140` | all operands of a condition exist on a bar if and only if the bar is at or after its first eligible index; before it the condition is false |
| `Crossover.CompiledEqualsHardCoded` | `backend/app/backtesting/sma_crossover.py:26-61` | the compiled crossover specification is accepted exactly for long windows up to 1000, and then emits the signals of the hard-coded generator on all bars |
| `Crossover.CrossingsMean` | `backend/app/backtesting/sma_crossover.py:40-61` | the generator's signal on a bar, on the two lists of trailing means: a BUY or a SELL exactly where they cross |
| `Crossover.RepeatedBuysTouch` | `backend/app/backtesting/sma_crossover.py:43-59` | two BUYs without a SELL between them happen only if the averages touch just before the second and the short one never falls below the long one |
| `Crossover.HeldMeansOnTop` | `backend/app/backtesting/sma_crossover.py:43-59` | for all windows `0 < short < long`: executing the generator's signals without risk controls, a position held after a bar's open means the short average was at or above the long one on the bar before |
| `Crossover.CompiledHeldMeansOnTop` | `backend/app/backtesting/strategy_compiler.py:29-79` | the same for the compiled crossover, for every specification that is accepted |
| `Metrics.CalculateMaximumDrawdown` | `backend/app/backtesting/metrics.py:77-84` | the running-peak loop returns the least percentage change over all ordered pairs of points, in (-100, 0], also stated in products, for every positive curve |
| `Metrics.BuyAndHoldIsOneTrade` | `backend/app/backtesting/metrics.py:55-74` | from bar k >= 1 the benchmark is the engine's own equity for a single BUY on bar k-1 and no risk controls, also when not one share is affordable |
| `Metrics.BenchmarkIsHeld` | `backend/app/backtesting/metrics.py:55-74` | from any start, the benchmark is as many whole shares as the cash buys at the first open, and the rest in cash, marked to each close |
| `Preview.CreateSpecificationPreview` | `backend/app/services/strategy_preview.py:57-106` | a valid strategy with enough bars always yields a preview whose execution is the engine's for its signals, 10000 and its two percentages, whose metrics and comparison start are the model's, and whose benchmark starts at 10000 and then marks the shares that buys; its total return is its realised profit |
| `Preview.ComparisonAligns` | `backend/app/services/preview_job_service.py:247-251` | the strict pairing of the two curves never fails and pairs points of the same bar |
| `Preview.UntouchedIff` | `backend/app/services/strategy_preview.py:64-94` | through any bar the strategy has not traded if and only if no entry before it could be filled |
| `Preview.ComparisonStartsTogether` | `backend/app/services/strategy_preview.py:64-94` | both curves start from the starting cash whenever no earlier entry could be filled, in particular when the entry warms up no sooner than the exit |
| `Preview.ComparisonCanStartApart` | `backend/app/backtesting/strategy_compiler.py:40-45` | without that proviso they can start apart: a strategy and bars on which the strategy has doubled |
| `Protocol.StepKeeps` | `backend/app/services/preview_reconciliation.py:76-142` | every step of every actor keeps the invariant: lock, live jobs, budget, who may take over a running row, what each session knows, and row consistency |
| `ProtocolLaws.RunKeeps` | `backend/app/services/preview_job_service.py:59-136` | the invariant holds after every run |
| `ProtocolLaws.OneAtATime` | `backend/app/services/preview_reconciliation.py:76-141` | in every reachable state a preview has at most one live RQ job and at most one session between claim and completion, also between persisting and enqueueing |
| `ProtocolLaws.AttemptBudget` | `backend/app/workers/preview_worker.py:64-68` | over any run a preview is claimed at most `max_retries + 1` times, the row counts exactly its claims, and claims plus retries left stay within `max_retries`, plus one once the execution has claimed |
| `ProtocolLaws.ClaimsAreNeverRefused` | `backend/app/workers/preview_worker.py:64-68` | in every reachable state a claim succeeds exactly when there is a nonterminal row: that only retried executions may take over a running row never refuses one that has work to do |
| `ProtocolLaws.RecoveryBudget` | `backend/app/services/preview_reconciliation.py:134-140` | the retry count of a recovery is never negative and is exactly what is left, and nothing is live when it is enqueued |
| `RecoveryLaws.GivesUpOnlyIf` | `backend/app/services/preview_reconciliation.py:94-113` | over any run, a row is only given up when it has been claimed `max_retries + 1` times or has expired |
| `RecoveryLaws.RecoversOnlyIf` | `backend/app/services/preview_reconciliation.py:94-142` | over any run, a row is only recovered while it has been claimed at most `max_retries` times and has not expired, and from running only when its claim is `stale_after` old |
| `RecoveryLaws.RetriesCountDown` | `backend/app/queue/preview_queue.py:54-57` | a submitter's job gets all retries and a recovered one what is left of them; after that only RQ's retries take one away each |
| `RecoveryLaws.RowsKeepTheirTimes` | `backend/app/services/job_store.py:25-92` | over any run a row keeps the time it was stored at, expires its time to live later, and shows the time of its latest claim while running and when completed |
| `ProtocolLaws.RowsMoveForward` | `backend/app/services/job_store.py:57-184` | between any two moments a row has only moved forward, by attempt, progress, return to the queue and end |
| `ProtocolLaws.ProgressRises` | `backend/app/services/preview_job_service.py:147-160` | within one attempt the progress shown never falls, and rises whenever the row changes |
| `ProtocolLaws.FinishedRowsStay` | `backend/app/services/job_store.py:133-184` | a completed or failed row stays as it is over any run until it is deleted, unless a late failure is on its way |
| `ProtocolLaws.FinishedRowsStayIff` | `backend/app/services/preview_job_service.py:94-106` | a finished row can still change if and only if a submitter is about to record that its enqueue raised although the job arrived |
| `ProtocolLaws.CompletedRowsStay` | `backend/app/services/job_store.py:101-114` | a completed row never changes again until it is deleted |
| `ProtocolLaws.FailedRowsCanBeRewritten` | `backend/app/services/preview_job_service.py:94-106` | a run in which the submitter rewrites the failure that the callback recorded |
| `ProtocolLaws.SystemKeeps` | `backend/app/services/preview_reconciliation.py:58-160` | so the invariant and the attempt budget hold for every preview of a running system |
| `Finishing.CanAlwaysFinish` | `backend/app/services/preview_reconciliation.py:50-142` | from every reachable state with an unfinished row at most 16 orderly steps, without a crash, loss, timeout, error or expiry, finish it; they complete it while a job is about to be enqueued, or its execution is still to claim, at work or to be retried |
| `WorkerLaws.CallKeepsRows` | `backend/app/workers/preview_worker.py:28-124` | whatever befalls it, a call never touches a finished row, claims at most once and completes only with its own result; it leaves a consistent row if and only if it does not fail, for another reason than the provider or the database, once its completion is stored |
| `WorkerLaws.CompletionCanBeOverwritten` | `backend/app/services/preview_job_service.py:159-183` | a call whose execution completes its row, is stopped after the commit, and fails the row that has its result |
| `CallLaws.QuietCallCompletes` | `backend/app/services/preview_job_service.py:147-160` | without trouble a call completes its row, written out field by field, and returns |
| `CallLaws.RetryableTroubleRaises` | `backend/app/services/preview_job_service.py:165-174` | an execution that a provider timeout or database trouble stops raises to RQ and leaves its row running without an error, at the stage reached |
| `CallLaws.OtherTroubleFails` | `backend/app/services/preview_job_service.py:161-192` | an execution that anything else stops fails its row with that trouble's own message, and returns |
| `CallLaws.UnstoredFailure` | `backend/app/services/preview_job_service.py:186-192` | a failure that cannot be stored is retried for database trouble, and is otherwise left to the last resort |
| `CallLaws.TroubledClaim` | `backend/app/services/preview_job_service.py:174-185` | trouble with the claim: by its kind a retry, a guarded failure, or the last resort |
| `CallLaws.OutsideTrouble` | `backend/app/workers/preview_worker.py:77-107` | trouble before or after the lock: a retry for the database only, and otherwise the last resort |
| `CallLaws.IneligibleCall` | `backend/app/workers/preview_worker.py:43-63` | a call that finds the lock held, the row gone or finished, or a running row that it may not take over does nothing |
| `CallLaws.CallbackIsStep` | `backend/app/workers/preview_worker.py:145-154` | the failure callback's write, written out, is the protocol's step |
| `CallLaws.SubmissionIsRun` | `backend/app/services/preview_job_service.py:86-136` | a submission is a run of the protocol, ending with the stored row, written out, and the RQ job with all its retries |
| `WorkerLaws.CallIsRun` | `backend/app/workers/preview_worker.py:64-107` | under its lock, and but for that case, the call does to the row what a run of the protocol does, and raises if that run raises |
| `Reconciler.ReconcilePreviewJobs` | `backend/app/services/preview_reconciliation.py:38-172` | a pass treats the oldest nonterminal rows, recovers exactly those it should with the retries left, partitions them in its summary, stops only when a scan is too large, and never gives a preview a second live job |
| `Reconciler.CountersMissOvertaken` | `backend/app/services/preview_reconciliation.py:76-142` | whatever others do between the looks, the counters sum to the scanned candidates less those that were overtaken, so they partition them if and only if none was |
| `ReconcilerLaws.PassInNumbers` | `backend/app/services/preview_reconciliation.py:50-142` | what a pass makes of a listed row that is neither live nor held: failed with the recovery message if it has more attempts than `max_retries` or has expired, else queued and live with `max_retries` less its attempts as retries if it was queued or started `stale_after` ago, else left |
| `ReconcilerLaws.BusyRowsStay` | `backend/app/services/preview_reconciliation.py:58-80` | a row that is live, or that somebody else holds, is left as it is |
| `ReconcilerLaws.CountersInNumbers` | `backend/app/services/preview_reconciliation.py:27-36` | the counters are the numbers of listed rows that are live, lost and recoverable, in attempts and times, and the rest |
| `ReconcilerLaws.PassIsComplete` | `backend/app/services/preview_reconciliation.py:50-142` | when every nonterminal row was listed, each one left is live, or running and neither stale, exhausted nor expired, or was locked by somebody else |
| `ReconcilerLaws.PassIsIdempotent` | `backend/app/services/preview_reconciliation.py:50-142` | with no other step in between, a second pass at the same time changes nothing |
| `PassLaws.PassIsRun` | `backend/app/services/preview_reconciliation.py:50-142` | when rows, queue and locks show a system of previews, what a whole pass makes of them shows where a run of that system leads: exactly the candidates are treated, each by its verdict, and a recovered one gets one live job with the retries it has left |
| `PassLaws.PassKeepsSystem` | `backend/app/services/preview_reconciliation.py:50-142` | so the invariant of every preview, one live job and the attempt budget included, survives the whole pass |
| `PollingLaws.EventKeeps` | `frontend/app/dashboard/use-preview-job.ts:56-157` | every event keeps what the hook shows in step with what it waits for; superseded requests are all aborted |
| `PollingLaws.ActiveMeansOneAwaited` | `frontend/app/dashboard/use-preview-job.ts:171-172` | over any interleaving, `isActive` holds exactly when one request or timer of the current generation is outstanding, and otherwise none is |
| `PollingLaws.PreviewMeansCompleted` | `frontend/app/dashboard/use-preview-job.ts:92-103` | a preview is shown only for a completed job and is that job's result; a failed job shows an error and no preview |
| `PollingLaws.ShowsLatestSubmit` | `frontend/app/dashboard/use-preview-job.ts:78-157` | the job shown, and with it the preview, is always the one that the latest submit was given |
| `PollingLaws.LateAnswersAreIgnored` | `frontend/app/dashboard/use-preview-job.ts:88-90` | an answer of an earlier generation changes nothing that is shown or awaited |
| `PollingLaws.InactiveStaysQuiet` | `frontend/app/dashboard/use-preview-job.ts:94-109` | once inactive, after a reset, an error or a finished job, nothing shown changes until the hook is used again |
| `PollingLaws.AnswersAreShown` | `frontend/app/dashboard/use-preview-job.ts:86-154` | after its own request's failure the hook shows that failure's text, and after an answer the answered job, its result or its error |
| `NormaliserLaws.SpelledNormalises` | `backend/app/services/strategy_parser.py:175-269` | a strategy spelled out in full comes back unchanged, without defaults or assumptions, exactly when it is valid |
| `NormaliserLaws.NormalisesExactlyIf` | `backend/app/services/strategy_parser.py:175-269` | a draft normalises if and only if both rules, or one crossover, or a shorthand are given, each rule given has an operator, each indicator a period from 1 to 1000, each constant a value, and the text's percentages are above 0 and at most 50 |
| `NormaliserLaws.NormalisesToItsMeaning` | `backend/app/services/strategy_parser.py:205-269` | the result has exactly the operators, names, periods, constants and percentages given, SMA for an unnamed average, and the opposite crossover or the shorthand for rules left out |
| `NormaliserLaws.AssumptionsAreTrue` | `backend/app/services/strategy_parser.py:272-313` | every value that the user is told was assumed is the value that the strategy has |
| `NormaliserLaws.FirstFaultIsReported` | `backend/app/services/strategy_parser.py:225-269` | of several faults the first in the program's order is the error |
| `NormaliserLaws.ErrorsAreTrue` | `backend/app/services/strategy_parser.py:225-398` | every error is true of the draft |
| `NormaliserLaws.NormalFormIsFixed` | `backend/app/services/strategy_parser.py:175-269` | spelling out any result and normalising again, with the same text, gives that result without a record |
| `NormaliserLaws.DroppedExitIsRestored` | `backend/app/services/strategy_parser.py:234-242` | leaving the exit out restores the strategy if and only if the rules are complementary crossovers, with exactly one assumption |
| `NormaliserLaws.DroppedEntryIsRestored` | `backend/app/services/strategy_parser.py:225-233` | the same for the entry |
| `NormaliserLaws.OppositeExitIsRedundant` | `backend/app/services/strategy_parser.py:324-338` | in any draft, an exit that is the entry's opposite may be left out at the price of one assumption and nothing else |
| `NormaliserLaws.RecordIsExact` | `backend/app/services/strategy_parser.py:182-221` | a field is recorded as a default or an assumption if and only if the draft left it out |
| `NormaliserLaws.ConfirmationIffAssumed` | `backend/app/services/strategy_parser.py:263-269` | confirmation is asked for exactly when assumptions exist: when a rule, or the kind of a moving average, was left out |
| `NormaliserLaws.ShorthandMeaning` | `backend/app/services/strategy_parser.py:294-321` | a shorthand alone means the two SMA crossovers of its periods, one way or the other, to be confirmed |
| `EngineLoop.GroupByTimestamp` | `backend/app/backtesting/engine.py:34-36` | the dictionary gives, for every time, the signals of that time in their order, and nothing for other times |
| `EngineLoop.ExecuteBuy` | `backend/app/backtesting/engine.py:195-221` | a BUY is ignored exactly when shares are held or none is affordable, and otherwise spends whole shares' worth at the open |
| `EngineLoop.ExecuteSell` | `backend/app/backtesting/engine.py:224-258` | a SELL is ignored exactly when nothing is held, and otherwise closes the position at the open |
| `EngineLoop.ExecutePending` | `backend/app/backtesting/engine.py:87-134` | the inner loop leaves the variables representing the book after all pending signals, in order |
| `EngineLoop.ExecuteOpen` | `backend/app/backtesting/engine.py:50-134` | a gap through a risk level closes at the open and discards the pending signals; otherwise they are executed |
| `EngineLoop.ExecuteIntraday` | `backend/app/backtesting/engine.py:136-166` | intraday exits happen at their level, and a position reopened at this open is left alone |
| `EngineLoop.ExecuteBar` | `backend/app/backtesting/engine.py:50-168` | one turn of the main loop leaves the variables representing the book after the bar, and yields its equity point |
| `EngineLoop.ExecuteBars` | `backend/app/backtesting/engine.py:50-168` | the main loop computes the fold of all bars and its equity curve |
| `EngineLoop.LiquidateAtClose` | `backend/app/backtesting/engine.py:170-182` | what is still held is sold at the last close |
| `Indicators.SimpleMovingAverages` | `backend/app/backtesting/sma_crossover.py:7-23` | from the first full window on, `window` times the value is the sum of the last `window` closes; nothing before |
| `Indicators.ExponentialMovingAverages` | `backend/app/backtesting/strategy_compiler.py:94-111` | the first value is the mean of the first `window` closes, and each later one moves by `2 / (window + 1)` of the way to its close |
| `Compiler.EvaluateOperand` | `backend/app/backtesting/strategy_compiler.py:82-91` | the list of an operand's values, bar by bar |
| `Compiler.EvaluateCondition` | `backend/app/backtesting/strategy_compiler.py:53-79` | the list is true exactly on the bars where the condition holds: compared, or crossed since the bar before |
| `Compiler.GenerateSignals` | `backend/app/backtesting/strategy_compiler.py:29-38` | the signals of all bars in order, entry before exit on each |
| `Compiler.CompileAndRun` | `backend/app/backtesting/strategy_compiler.py:25-50` | compiling fails exactly for invalid specifications, and otherwise the signals are the model's |
| `Crossover.GenerateSmaCrossoverSignals` | `backend/app/backtesting/sma_crossover.py:26-61` | the generator rejects bad windows and otherwise emits a BUY or SELL exactly on the bars where the averages cross |
| `Preview.CalculateMetrics` | `backend/app/backtesting/metrics.py:8-52` | both returns are percentages of the starting cash, positive exactly for a gain; the benchmark starts at its first bar's time and open and ends at the last close; the win rate is the share of winning trades, 0 without trades; the drawdown is the least change; the annual growth exists exactly when the data spans some time, and compounded over its years gives the final value; errors for missing data |
| `JobStore.JobStore.CreateJob` | `backend/app/services/job_store.py:17-48` | a new id gets a queued row without attempts that expires its time to live, in hours, after now; an id in use changes nothing |
| `JobStore.JobStore.ClaimJob` | `backend/app/services/job_store.py:57-92` | succeeds exactly for queued rows, or running ones if allowed, and counts the attempt |
| `JobStore.JobStore.UpdateProgress` | `backend/app/services/job_store.py:95-98` | writes stage and progress of an existing row and nothing else |
| `JobStore.JobStore.CompleteJob` | `backend/app/services/job_store.py:101-114` | completes an existing row with its result; a deleted row stays deleted |
| `JobStore.JobStore.FailJob` | `backend/app/services/job_store.py:117-130` | fails an existing row with its message; a deleted row stays deleted |
| `JobStore.JobStore.TransitionAfterOperationalFailure` | `backend/app/services/job_store.py:133-184` | changes exactly nonterminal rows, and says whether it did |
| `JobStore.JobStore.ListReconciliationCandidates` | `backend/app/services/job_store.py:230-243` | the oldest nonterminal rows by time and id, at most the limit, and all of them if fewer |
| `JobStore.JobStore.TryAcquirePreviewJobLock` | `backend/app/services/job_store.py:196-201` | succeeds exactly when no other session holds the key, and nests for the holder |
| `JobStore.JobStore.ReleasePreviewJobLock` | `backend/app/services/job_store.py:222-227` | gives back one hold of the session's own lock and nothing of anybody else's |
| `JobStore.JobStore.DeleteExpiredJobs` | `backend/app/services/job_store.py:268-274` | removes exactly the rows past their expiry and counts them |
| `PreviewQueue.RqPreviewQueue.Enqueue` | `backend/app/queue/preview_queue.py:45-69` | the job is appended with as many retries as asked for, each keeping its interval, makes its preview live, and never makes a preview live twice that was not |
| `PreviewQueue.RqPreviewQueue.ActivePreviewJobIds` | `backend/app/queue/preview_queue.py:71-113` | returns every live preview, or raises exactly when there are more entries than the limit; never a truncated set |
| `Worker.Execute` | `backend/app/services/preview_job_service.py:153-160` | from parsing to completion: the row shows the last stage stored, or the result, when something is raised before or after a point's write |
| `Worker.RunPreviewJob` | `backend/app/services/preview_job_service.py:138-192` | for every kind of trouble with the claim, at any later point, before or after its write is stored, and with storing the failure: the row, if there is one, and whether the call returns or raises; ineligible rows are untouched |
| `Worker.RecordUnexpectedEnd` | `backend/app/workers/preview_worker.py:84-107` | an unexpected end fails a nonterminal row, if there is one, is retried for database trouble, and is otherwise swallowed |
| `Worker.ProcessPreviewJob` | `backend/app/workers/preview_worker.py:28-124` | for trouble before the lock, between lock and execution, in the execution, and with recording its end: what the row becomes, whether RQ sees an exception, also for a row that is gone, and that the lock is given back |
| `Worker.HandlePreviewJobFailure` | `backend/app/workers/preview_worker.py:127-154` | a nonterminal row returns to the queue exactly when retries are left, and fails otherwise; a finished row is untouched |
| `Worker.StoreAndEnqueue` | `backend/app/services/preview_job_service.py:86-106` | the row is stored before the job is enqueued with all its retries, and a failure to enqueue is recorded if it can be |
| `Worker.SubmitPreviewJob` | `backend/app/services/preview_job_service.py:49-136` | succeeds exactly when locked, stored and delivered; then the preview is live and queued; the lock is given back in all cases |
| `Reconciler.RecoverJob` | `backend/app/services/preview_reconciliation.py:126-142` | a running row returns to the queue by the guarded write and is refreshed again, and the job is enqueued with what is left of its retries; a row deleted meanwhile ends it |
| `Reconciler.ActOnJob` | `backend/app/services/preview_reconciliation.py:94-143` | whatever has become of the row since its refresh: an exhausted or expired one is given up, unless it was finished or deleted meanwhile; a running one that is not stale is left; any other is requeued with its remaining retries |
| `Reconciler.ReconcileLockedJob` | `backend/app/services/preview_reconciliation.py:81-143` | everything is looked at again under the lock, and the row once more by the writes: a finished row, a live job, a deleted row and an oversized scan each end it without a write |
| `Reconciler.ReconcileJob` | `backend/app/services/preview_reconciliation.py:58-160` | for any stale listing and any stale set of live ids, the outcome and its effect on row, queue and lock |
| `Reconciler.ReconcileCandidates` | `backend/app/services/preview_reconciliation.py:58-160` | the loop treats exactly the candidates, in order, each by its own verdict, and gives every lock back |
| `PollingHook.PreviewJobPolling.StopCurrentRequest` | `frontend/app/dashboard/use-preview-job.ts:56-64` | a new generation, no timer, no current request, and the old request aborted |
| `PollingHook.PreviewJobPolling.Reset` | `frontend/app/dashboard/use-preview-job.ts:66-72` | a reset clears everything shown and everything awaited |
| `PollingHook.PreviewJobPolling.Submit` | `frontend/app/dashboard/use-preview-job.ts:124-136` | a submit clears what is shown and awaits only its own request |
| `PollingHook.PreviewJobPolling.OnSubmitAnswered` | `frontend/app/dashboard/use-preview-job.ts:137-145` | an answer is accepted exactly in its own generation, and then polling starts at once |
| `PollingHook.PreviewJobPolling.OnSubmitFailed` | `frontend/app/dashboard/use-preview-job.ts:146-154` | an error is shown only for the current request |
| `PollingHook.PreviewJobPolling.Poll` | `frontend/app/dashboard/use-preview-job.ts:78-87` | a poll of a superseded generation sends nothing |
| `PollingHook.PreviewJobPolling.OnPollAnswered` | `frontend/app/dashboard/use-preview-job.ts:86-117` | a finished job ends the polling, any other starts the timer, and a late answer does nothing |
| `PollingHook.PreviewJobPolling.OnPollFailed` | `frontend/app/dashboard/use-preview-job.ts:104-117` | an error is shown and polling goes on, unless the request was superseded |
| `PollingHook.PreviewJobPolling.OnTimer` | `frontend/app/dashboard/use-preview-job.ts:113-116` | the timer polls for its own generation only |
| `Normaliser.NormalizeOperand` | `backend/app/services/strategy_parser.py:356-398` | an operand, its missing-name assumption and its missing-source default, or the error of a missing period or constant |
| `Normaliser.NormalizeCondition` | `backend/app/services/strategy_parser.py:341-353` | both operands in order, with the record extended by theirs, or the first error |
| `Normaliser.InferShorthandPair` | `backend/app/services/strategy_parser.py:294-313` | a shorthand becomes a pair of opposite crossovers and one assumption |
| `Normaliser.NormalizeStrategyDraft` | `backend/app/services/strategy_parser.py:175-269` | the program's steps over its growing lists give the normal form, its record, and every error in its order |
| `Engine.RiskLevels` | `backend/app/backtesting/engine.py:261-278` | a stop lies below the entry price and a target above it, each present exactly when its percentage is given |
| `Engine.LevelsArePercentages` | `backend/app/backtesting/engine.py:261-278` | a stop is exactly the entry price less its percentage of it, and a target exactly the entry price plus its percentage |
| `Engine.AffordableIffShares` | `backend/app/backtesting/engine.py:210-221` | at least one whole share is bought if and only if cash covers the open |
| `Engine.LeftoverCash` | `backend/app/backtesting/engine.py:210-221` | after sizing in whole shares the cash left is non-negative and less than one share's price |
| `Engine.EquityAt` | `backend/app/backtesting/engine.py:168` | each equity point is the book after that bar, marked to that bar's close |
| `EngineLoop.ClosePositionIsClose` | `backend/app/backtesting/engine.py:317-351` | closing a held position never fails and records the trade and cash of the model's close |
| `FirstExit.HeldUntilSell` | `backend/app/backtesting/engine.py:87-134` | while a position is held, the pending signals before the first SELL are all ignored and the rest act on the book that SELL leaves |
| `Indicators.SmaWithin` | `backend/app/backtesting/sma_crossover.py:7-23` | a mean stays between the least and greatest close of its window |
| `Indicators.EmaWithin` | `backend/app/backtesting/strategy_compiler.py:94-111` | an exponential average stays between the least and greatest close so far |
| `Indicators.PeriodOneIsClose` | `backend/app/backtesting/strategy_compiler.py:82-111` | with period 1 both averages are the close |
| `Compiler.SignalsOfBar` | `backend/app/backtesting/strategy_compiler.py:29-38` | the signals stamped with a bar's time are exactly those its conditions emit |
| `JobRow.WritesAreConsistent` | `backend/app/services/job_store.py:57-184` | each write of the store leaves status, stage, progress, times, error and result consistent, under the condition its caller has established |
| `JobRow.UnguardedWritesNeedTheLock` | `backend/app/services/job_store.py:101-130` | completing is right exactly for running or completed rows and failing exactly for rows not completed, so the unguarded writes depend on the lock |
| `JobStore.LockKeysAreLowHalf` | `backend/app/services/job_store.py:187-193` | lock keys fit signed 32 bits, and two previews share a lock exactly when their ids share the low 64 bits |
| `Protocol.ClaimKeeps` | `backend/app/services/job_store.py:57-92` | a claim by the one live execution keeps the invariant, the attempt budget included |
| `Protocol.GuardedWriteKeeps` | `backend/app/services/job_store.py:133-184` | the callback's guarded write keeps the invariant without the lock, because no session is relying on the row |
| `Protocol.EnqueueKeeps` | `backend/app/services/preview_reconciliation.py:126-141` | adding the one live job under the lock, with what is left of the budget, keeps the invariant |
| `Protocol.EndKeeps` | `backend/app/workers/preview_worker.py:108-124` | an execution that returns, raises or dies keeps the invariant, wherever it is |
| `ProtocolLaws.StepMoves` | `backend/app/services/job_store.py:57-184` | what one step can do to a row: claim it, move it forward, store it, delete it, leave it, or record a late failure |
| `ProtocolLaws.NobodyElseWrites` | `backend/app/services/preview_reconciliation.py:92-142` | between a reconciler's scan and its enqueue nobody else writes the row, which can only be deleted |
| `PreviewQueue.RetriesKeepTheirIntervals` | `backend/app/queue/preview_queue.py:54-57` | with intervals for every retry, a smaller retry count gets exactly as many intervals, and each remaining retry keeps its own |
| `Reconciler.FinalCounts` | `backend/app/services/preview_reconciliation.py:27-36` | the counters count what they are named after and partition the scanned rows |
| `Reconciler.OvertakenExactlyIf` | `backend/app/services/preview_reconciliation.py:103-113` | a candidate is overtaken if and only if it was found exhausted or expired and not live under its lock, and was finished or deleted before the write |
| `ReconcilerLaws.LeavingAloneIsRun` | `backend/app/services/preview_reconciliation.py:81-92` | finding a finished row or a live job is a run of the protocol that changes nothing |
| `ReconcilerLaws.GivingUpIsRun` | `backend/app/services/preview_reconciliation.py:103-113` | giving a row up is a run of the protocol |
| `ReconcilerLaws.RecoveringIsRun` | `backend/app/services/preview_reconciliation.py:126-142` | recovering a row is a run of the protocol, with the very retries that the queue is asked for |
| `NormaliserLaws.RecordAscends` | `backend/app/services/strategy_parser.py:182-269` | the record names its fields in a fixed order, none twice |
| `EngineLaws.ExecuteErrors` | `backend/app/backtesting/engine.py:27-32` | a run fails exactly for non-positive cash, no bars or a non-positive percentage, with the first of these as its error |
| `Compiler.AcceptedExactlyIf` | `backend/app/backtesting/strategy_compiler.py:48-50` | specifications are accepted exactly with periods from 1 to 1000 and percentages above 0 and at most 50 |
| `Compiler.SignalsAreStamped` | `backend/app/backtesting/strategy_compiler.py:32-38` | no signal is stamped with a time that is not a bar's |
| `RecoveryLaws.RetriedJobsTakeOver` | `backend/app/workers/preview_worker.py:64-68` | a job may take over a running row once RQ has retried it, and not on its first execution |
| `CallLaws.TakeOversAgree` | `backend/app/workers/preview_worker.py:64-68` | the worker's test and the protocol's agree: some retries left, and fewer than all |
| `ReconcilerLaws.VerdictInNumbers` | `backend/app/services/preview_reconciliation.py:58-142` | each verdict on a nonterminal row, in attempts, times, liveness and lock |
| `ReconcilerLaws.ActInNumbers` | `backend/app/services/preview_reconciliation.py:94-142` | the same decision under the lock, whatever has become of the row since its refresh |
| `JobStore.BatchIsOrdered` | `backend/app/services/job_store.py:230-243` | a batch is in the order of creation, and of ids among equals |
| `JobStore.BatchIsOldest` | `backend/app/services/job_store.py:230-243` | a row is only left out of a full batch, and is no older than any row in it |
| `NormaliserLaws.MeaningIsUnique` | `backend/app/services/strategy_parser.py:205-269` | there is no second strategy that a draft could mean |

## Left out

- Decimal context rounding: arithmetic is exact, and the fractional power of the annual growth rate is a parameter.
- Interpretation texts, serialised formats and logging: presentation only; the strict pairing of the curves is modelled.
- Extraction of risk percentages, shorthand and unsupported phrases from the text: what is found is an input, between 0 and 50 percent.
- The provider's call: an arbitrary draft, or an error.
- Routes, authentication, settings, health checks, the CSV import and all React components except the polling hook: plumbing around the modelled parts.
- Reasons and confidence in the normaliser's record: constant texts for each field.
- Waiting for a lock: an attempt succeeds or fails, at any time in `Protocol`, by who holds the lock in `JobStore`.
- Failures of a lock's release, which end the session, and malformed job ids in queue payloads, which the program never writes.
- Liveness under fairness: `Finishing.CanAlwaysFinish` says that every preview can be finished, and `ReconcilerLaws.PassIsComplete` what one pass achieves, not that workers and passes keep coming.
- Reconciler.ReconcilePreviewJobs: nothing else moves during the pass; `Reconciler.ActOnJob`, `Reconciler.ReconcileLockedJob` and `Reconciler.CountersMissOvertaken` say what holds when others do, and `Protocol` interleaves all of it.
- PassLaws.PassIsRun: for the same undisturbed pass; each preview has its own lock in `Protocol`, so that two ids sharing a lock key only ever show as locks that cannot be taken.
- Worker.Execute: the row is not deleted midway; an execution that finds its row deleted is in `Protocol`.
- WorkerLaws.CallIsRun: starts where the lock has just been taken; trouble before that is in `Worker.ProcessPreviewJob` and in the protocol's own steps. An execution that fails after its completing commit is excluded, as it is from `Protocol`.
- Small members that need no row: `JobStore.GetJob`, `FirstExit.First` and the module `Times`.
