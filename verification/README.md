# Verified models of the crypto paper-trading backend

These Dafny modules model the parts of the backend whose correctness depends on interleavings, on
unbounded histories or on arithmetic over whole series, and prove what those parts are for.

* **Stream manager** (`StreamManager.dfy`). One snapshot per symbol is folded from trades, book tops and
  candles. After any sequence of payloads, reads and staleness checks, a symbol's snapshot holds the latest
  trade, book and candle of that symbol and nothing else.
* **Paper-bot runtime** (`Runtime.dfy`, `RuntimeLifecycle.dfy`, `RuntimeDurability.dfy`, `RuntimeStop.dfy`,
  `RuntimeControls.dfy`, `RuntimeGate.dfy`, `RuntimeSessions.dfy`, `RuntimeClass.dfy`). The asyncio object is a machine whose steps run between await points: start, pause,
  resume, stop, reset, manual trades, the background loop, cancellation, and crash with restart. Every
  storage write may succeed or fail. The lifecycle invariant, crash consistency and the exactly-once candle
  gate are proved for every run of the machine; the class methods are proved to take exactly its steps.
* **Scanner jobs** (`ScannerJobs.dfy`, `ScanLoop.dfy`). A worker thread publishes through a locked registry
  while any other thread may cancel. Cancellation is final under every interleaving, and the batch loop
  accounts for every candidate.
* **Liquidation feed** (`LiquidationFeed.dfy`). The front-pruned queue per symbol answers window queries as
  a filter of the whole arrival history would, within bounds that are shown to be tight.
* **Series and scores** (`Aggregation.dfy`, `SwingLevels.dfy`, `Patterns.dfy`, `Drawdown.dfy`,
  `Indicators.dfy`, `FlipRates.dfy`, `SymbolRanking.dfy`, `Evaluation.dfy`, `Fusion.dfy`). Each loop is
  proved against an independent specification over sequences of any length.

`Prelude.dfy`, `Sorting.dfy`, `Folds.dfy` and `MarketData.dfy` hold shared vocabulary. `Decimal` numbers are
exact reals, with explicit half-up rounding where the source quantizes; times are integers.

`dafny verify dfyconfig.toml` checks the whole project.

## What the proofs found

* A failing `start_paper_session_run` write (`app/bot/runtime.py:843-850`) is not caught: `start` raises after
  the status became `running` but before the background loop exists, so the runtime shows `running` with
  nothing behind it. `RuntimeLifecycle.OrphaningStart` names the condition and
  `OrderlyUnlessStartLogFails` proves it is the only way the lifecycle law fails.
* A failing `finish_paper_session_run` write raises where nobody catches it (`app/bot/runtime.py:785-790` and
  `875-880`). In the loop's `finally` block it skips the last session write (`EndedLoopIsRecorded`) and makes the
  waiting `stop` or `reset_session` raise before its own writes. A plain stop still completes in memory. A reset
  completes exactly when neither half's log write raises and both of its deletes succeed (`StopCompletes`). When
  a log write raises it forgets nothing (`FailedResetForgetsNothing`). After a restart the session stays stopped exactly when some write of the two
  halves recorded its end; otherwise it comes back paused, although the user had stopped or reset it
  (`StoppedSessionComesBack`).
* The two deletes of `reset_session` (`app/bot/runtime.py:916-917`) are not caught either, and they come after the
  runner and the gate are dropped from memory. When one raises, the live broker is gone while its durable row
  stays: a restart brings it back, a new start overwrites it with an initial one (`ResetRaisesAtClear`). This is
  one of the steps after which live and durable broker differ (`SyncExactlyUnlessLossy`).
* The notice shown with a recovered session asks for a manual resume, but `resume` rejects it because no
  background loop exists (`app/bot/runtime.py:296-298` against `894-900`). A recovered pause is left only
  through start, stop or reset (`RecoveredPauseIsSticky`). The model follows the code.
* A manual trade that raises after changing the broker skips the broker write (`app/bot/runtime.py:970-977`)
  and, unlike a failing cycle, leaves the state as it was. With working storage this is the only step that lets
  the durable broker fall behind outside the error state (`WorkingStorageStep`).
* The stream manager's snapshots outlive a session while the candle gate does not. A new session processes
  exactly the announced candles, whatever it is fed, if and only if the cache carries no closed candle of its
  symbol as it starts (`NewSessionLaw`); otherwise the carried candle is processed again
  (`NewSessionRepeatsCarriedCandle`). Processing is exactly once per session, not per candle.
* `max_levels` of zero or less still returns one swing level: the result respects the cap exactly when the cap
  is at least one, or zero with no swing on the side (`CapIsRespected`).
* Aggregating in two steps equals aggregating at once exactly when the first timeframe is at most one minute,
  or the second is at least two and a multiple of the first or at least an hour (`CompositionLaw`).
* The point the fusion's risk grade adds for three or more warnings never changes a grade
  (`app/fusion/scoring.py:314-315`, `GradeCountsDangers`); nor does its limit on available inputs ever act
  (`ConfidenceIsExact`). Pattern, sentiment and readiness can never open a position by themselves
  (`OthersNeverOpenAlone`).
* Any one-sided flow of liquidations, however small, is of the highest pressure level, because its imbalance is
  100% (`OneSidedFlow`).

## Model

| member | source | states |
|---|---|---|
| StreamManager.ReplayIsLatestPerSymbol | app/market_data/stream_manager.py:50-82 | after any sequence of payloads and reads the snapshot of a symbol is the one built from its own latest trade, book and candle: bid and ask of the held book, last price of the most recent trade or candle |
| StreamManager.CarriedCandleIsOwn | app/market_data/stream_manager.py:62-82 | the candle a snapshot carries is always one of the snapshot's own symbol |
| StreamManager.ReadsChangeOnlyStaleness | app/market_data/stream_manager.py:149-181 | dropping every read and staleness check from a history changes nothing in the snapshots but the stale flag |
| StreamManager.StalenessIsMonotone | app/market_data/stream_manager.py:164-172 | without new events a stale symbol stays stale as time passes, whatever is read in between |
| StreamManager.StaleIsExact | app/market_data/stream_manager.py:164-172 | after any operations a symbol is stale exactly if nothing was fed under its upper-case name or the last feed is more than the limit ago |
| StreamManager.ReadBackNeedsUpperCase | app/market_data/stream_manager.py:149-162 | what a payload just left in any cache is what a lookup under its symbol finds, exactly when that symbol is upper-case |
| StreamManager.Manager.MergeSnapshot | app/market_data/stream_manager.py:50-82 | stores and returns the merge of the held snapshot and the new parts under the symbol, other symbols untouched |
| StreamManager.Manager.NormalizePayload | app/market_data/stream_manager.py:132-147 | a recognised payload is merged under its symbol and logged, an unsupported or malformed one changes nothing |
| StreamManager.Manager.IsStale | app/market_data/stream_manager.py:164-172 | stale exactly when nothing was received or the last event is older than the limit |
| StreamManager.Manager.GetSnapshot | app/market_data/stream_manager.py:149-162 | returns the held snapshot with a fresh stale flag and stores that flag only |
| RuntimeLifecycle.StepKeepsInv | app/bot/runtime.py:719-975 | every step of every operation keeps the invariant: matching state and mode, at most one live loop, owned by the active session, recovered states never running |
| RuntimeLifecycle.RunKeepsInv | app/bot/runtime.py:719-975 | the invariant holds after any run, whatever writes fail and wherever it crashes |
| RuntimeLifecycle.RunnerIsThereWhenTaskBegins | app/bot/runtime.py:722-722 | the assertion at the head of the loop never fails |
| RuntimeLifecycle.OrderlyUnlessStartLogFails | app/bot/runtime.py:792-858 | from an orderly state a step leads to an orderly one unless, and only unless, it is an accepted start whose session log write fails |
| RuntimeLifecycle.RunStaysOrderly | app/bot/runtime.py:719-920 | a run without such a start stays orderly |
| RuntimeLifecycle.LifecycleLaw | app/bot/runtime.py:719-920 | in every such run from a fresh process, whenever the lock is free, a live loop exists exactly when the state is running or paused and not recovered, and state and mode match |
| RuntimeLifecycle.StopLocksOthersOut | app/bot/runtime.py:860-881 | while a stop awaits the cancelled loop no operation that needs the lock can run |
| RuntimeLifecycle.RecoveredPauseIsSticky | app/bot/runtime.py:290-331 | no event but start, stop, reset or another crash changes a recovered pause; resume and pause are no-ops on it |
| RuntimeControls.StateDiagram | app/bot/runtime.py:719-920 | the exact state diagram: which step makes the session running, paused, failed or stopped, every other step leaving the state alone |
| RuntimeControls.DeliveryTells | app/bot/runtime.py:725-779 | a delivery notes the time of its event, an exception ends in the error state with its message, and no other part of the status moves |
| RuntimeControls.StartOpens | app/bot/runtime.py:792-858 | a start changes nothing exactly without a symbol or while any loop is live; an accepted one opens a session of its own in which only the broker survives |
| RuntimeControls.ResumeUndoesPause | app/bot/runtime.py:883-903 | pausing and resuming a running session restores everything but the session row, which is that of the status again |
| RuntimeControls.ControlsNeedTheLoop | app/bot/runtime.py:883-903 | without a live loop neither changes anything |
| RuntimeControls.PausedIsIdle | app/bot/runtime.py:733-734 | over any run without a start, resume or restart a session that is not running considers and hands over no candle and does not run again |
| RuntimeControls.ManualNeedsSession | app/bot/runtime.py:932-977 | a manual trade goes through exactly for the own symbol of a session that is not stopped and has a runner; otherwise nothing changes |
| RuntimeControls.RestartReads | app/bot/runtime.py:260-331 | a restart over any durable rows rebuilds the broker position for position, with initial balances only where none are stored, and pauses an interrupted session |
| RuntimeStop.EndedFacts | app/bot/runtime.py:866-872 | the cancellation ends the one live loop, raising exactly when it had begun with a session and its log write fails, and tells what was saved |
| RuntimeStop.StopCompletes | app/bot/runtime.py:860-920 | stopping a live session always runs to its end in three steps; a plain stop ends cleanly whatever writes fail, a reset exactly when neither half's log write raises and both deletes succeed |
| RuntimeStop.IdleStopCompletes | app/bot/runtime.py:860-920 | without a live loop (a recovered pause, the error state) a stop ends cleanly in one step, and a reset exactly when its log write and both deletes succeed, or there was nothing to reset |
| RuntimeStop.FailedResetForgetsNothing | app/bot/runtime.py:911-920 | a reset that raises at one of the two log writes leaves broker and gate in memory and a broker in storage |
| RuntimeStop.ResetRaisesAtClear | app/bot/runtime.py:911-920 | a reset that raises at a delete has dropped broker and gate from memory and keeps the durable broker, and the session row if its own delete failed; a restart brings that broker back, a new start replaces it by an initial one |
| RuntimeStop.StoppedSessionComesBack | app/bot/runtime.py:780-790 | after a restart a stopped or reset session stays stopped exactly when one half recorded its end, by a session write or by deleting the row, and otherwise comes back paused with the notice |
| RuntimeDurability.SyncExactlyUnlessLossy | app/bot/runtime.py:241-258 | from an in-step state the durable broker equals the live one after a step if and only if the step did not lose a broker change, with the losing steps listed: failed broker writes, raising cycles and manual trades, and a reset that raises at a delete |
| RuntimeDurability.RunKeepsSync | app/bot/runtime.py:241-288 | a run without losing steps keeps the durable broker equal to the live one |
| RuntimeDurability.CrashRebuildsBroker | app/bot/runtime.py:260-288 | after such a run a crash and restart rebuilds the same balances, positions and profit |
| RuntimeDurability.WorkingStorageStep | app/bot/runtime.py:719-977 | when every write succeeds, a step keeps the durable broker in step outside the error state unless, and only unless, it is an accepted manual trade that raises after changing the broker |
| RuntimeDurability.WorkingStorageKeepsBrokerDurable | app/bot/runtime.py:719-977 | every run without such a trade keeps it in step, over every interleaving and any number of crashes |
| RuntimeDurability.FailedCycleRollsBackOnlyItself | app/bot/runtime.py:768-780 | a cycle that raises leaves the durable broker at its state before that cycle, which is what a restart rebuilds |
| RuntimeDurability.NextWriteHeals | app/bot/runtime.py:241-258 | whatever was lost, the next successful broker write of a start, stop, manual trade or completed cycle, a completed reset, or a restart ends the divergence |
| RuntimeDurability.RunKeepsRecordSound | app/bot/runtime.py:241-258 | whatever fails, no run stores a broker that a restart would alter while rebuilding it |
| RuntimeDurability.SessionStaysSynced | app/bot/runtime.py:218-239 | with working storage each step leaves the session row equal to the status |
| RuntimeDurability.RunKeepsSessionSynced | app/bot/runtime.py:218-239 | ... and so does every run |
| RuntimeDurability.EndedLoopIsRecorded | app/bot/runtime.py:780-790 | the end of the loop is recorded exactly when the last session write succeeds and the log write before it did not raise |
| RuntimeDurability.CrashRestoresSession | app/bot/runtime.py:279-331 | with working storage a crash at any await point brings back symbol, session, times, error and profile, an active session as paused and never as running |
| RuntimeDurability.RestartIsIdempotent | app/bot/runtime.py:279-331 | restarting twice equals restarting once |
| RuntimeGate.StrictMaximaAreTheRecords | app/bot/runtime.py:755-772 | the gate's reference list holds exactly the candles that open after everything before them |
| RuntimeGate.MaximaIncrease | app/bot/runtime.py:755-772 | ... in strictly increasing open time |
| RuntimeGate.GateDecides | app/bot/runtime.py:755-766 | the gate lets a candle through exactly when it opens after the last one handed over |
| RuntimeGate.StepKeepsGate | app/bot/runtime.py:719-772 | every step keeps the candles handed over equal to the strict maxima of those met while not paused |
| RuntimeGate.RunKeepsGate | app/bot/runtime.py:719-772 | ... and so does every run |
| RuntimeSessions.FeedIsReplay | app/bot/runtime.py:725-730 | over every run the snapshots are the stream manager's replay of the payloads since the process began |
| RuntimeSessions.OfferedIsMet | app/bot/runtime.py:733-738 | over every run, pauses and crashes included, the candles offered to the gate are those the events show: for each payload looked at, the latest kline fed for its symbol, if closed |
| RuntimeSessions.ExactlyOncePerSession | app/bot/runtime.py:755-772 | over every run from a fresh process the candles passed to `process_snapshot` in the session are the strict running maxima of those |
| RuntimeSessions.RunKeepsFeedSound | app/market_data/stream_manager.py:62-82 | every run keeps each snapshot under its own symbol |
| RuntimeSessions.NewSessionLaw | app/bot/runtime.py:840-840 | a new session processes exactly the announced closed candles, whatever calm payloads it gets, if and only if the cache carries no closed candle of its symbol as it starts |
| RuntimeSessions.LawAppliesToEveryRun | app/bot/runtime.py:792-858 | the law holds at every accepted start of every run |
| RuntimeSessions.NewSessionExactlyOnce | app/bot/runtime.py:719-772 | with nothing carried over the cycles of a new session are the strict maxima of the announced closed candles |
| RuntimeSessions.NewSessionRepeatsCarriedCandle | app/bot/runtime.py:840-840 | otherwise the first trade of the new session processes the carried candle again |
| RuntimeGate.RawStreamExactlyOnce | app/market_data/stream_manager.py:62-82 | over any uninterrupted running stretch of raw payloads whose carried candles were already offered, although every trade and book update re-delivers the carried candle, the candles handed over are the strict maxima of the earlier ones and the closed candles the exchange announced |
| RuntimeGate.CarriedCandleIsCaughtUp | app/market_data/stream_manager.py:73-73 | a closed candle carried through a pause is handed over by the next trade or book update |
| RuntimeClass.PaperBotRuntime.constructor | app/bot/runtime.py:279-331 | a new process over given storage is exactly the machine's restart |
| RuntimeClass.PaperBotRuntime.Start | app/bot/runtime.py:792-858 | takes exactly the machine's start step and is rejected without a symbol or while a loop is live |
| RuntimeClass.PaperBotRuntime.Stop | app/bot/runtime.py:860-872 | takes exactly the machine's stop step up to the await |
| RuntimeClass.PaperBotRuntime.StopContinues | app/bot/runtime.py:869-920 | ... and the rest of stop and reset behind it |
| RuntimeClass.PaperBotRuntime.ResetSession | app/bot/runtime.py:911-920 | memory is forgotten before the two deletes, each of which may raise and leave the rest undone, exactly as in the machine |
| RuntimeClass.PaperBotRuntime.Pause | app/bot/runtime.py:883-892 | takes exactly the machine's pause step |
| RuntimeClass.PaperBotRuntime.Resume | app/bot/runtime.py:894-903 | takes exactly the machine's resume step |
| RuntimeClass.PaperBotRuntime.ExecuteManualTrade | app/bot/runtime.py:932-977 | takes exactly the machine's manual-trade step |
| RuntimeClass.PaperBotRuntime.RunBegins | app/bot/runtime.py:719-722 | the loop's first step |
| RuntimeClass.PaperBotRuntime.RunPayload | app/bot/runtime.py:725-772 | one pass of the loop from a payload to the next await is exactly the machine's delivery step |
| RuntimeClass.PaperBotRuntime.RunFails | app/bot/runtime.py:775-790 | an exception ends the loop in the error state |
| RuntimeClass.PaperBotRuntime.RunEnds | app/bot/runtime.py:780-790 | the end of the stream ends the loop as stopped |
| RuntimeClass.PaperBotRuntime.RunCancelled | app/bot/runtime.py:773-790 | a cancelled loop runs its final block exactly if it had begun |
| ScannerJobs.StepKeepsInv | app/api/bot_api.py:4649-4960 | every locked registry call of worker, canceller and starter keeps the job invariant |
| ScannerJobs.RunKeepsInv | app/api/bot_api.py:4649-4960 | ... and so does every interleaving |
| ScannerJobs.CancelledIsFrozen | app/api/bot_api.py:750-760 | no step of anybody changes what a cancelled job shows |
| ScannerJobs.CancelIsFinal | app/api/bot_api.py:762-774 | after any run, once cancel returned the job is cancelled for good and its response, counts, failures and candidate lists never change again |
| ScannerJobs.TerminalMovesOnlyToCancelled | app/api/bot_api.py:762-774 | a completed or failed job can only become cancelled, and shows the same otherwise |
| ScannerJobs.ProgressIsMonotone | app/api/bot_api.py:4812-4822 | until the worker is done, scanned never falls and never exceeds the total |
| ScannerJobs.RequestIsSeen | app/api/bot_api.py:4770-4773 | a worker check after a user's request always leads to the cancelled state |
| ScannerJobs.NoNewBatchAfterCancel | app/api/bot_api.py:4765-4800 | in any run after a user's request at most one batch starts, and only if it was already admitted |
| ScannerJobs.NeverCompletesAfterCancel | app/api/bot_api.py:4911-4922 | after a cancellation no run completes or fails the job |
| ScannerJobs.LastStepDecides | app/api/bot_api.py:4898-4950 | the worker's last step leaves an uncancelled job completed with the final response, failed, or cancelled, each exactly for its own event |
| ScannerJobs.OutcomeLaw | app/api/bot_api.py:4898-4950 | over every interleaving a job is completed exactly if completion was published and no user cancelled, failed exactly if a failure was and no user cancelled, cancelled exactly if a user cancelled or the worker withdrew |
| ScannerJobs.QueuedUntilTouched | app/api/bot_api.py:5092-5092 | a job is queued exactly until something other than the recording of its thread happens to it |
| ScannerJobs.LoopLaw | app/api/bot_api.py:4767-4830 | behind its loop the worker has started, scanned and answered equally many batches, the last with candidates left, and all candidates unless cut short; published progress is the candidates of the batches scanned |
| ScannerJobs.ActiveStatus | app/api/bot_api.py:4779-4836 | an active job shows partial exactly when signals exist as a batch starts or candidates are left after its response |
| ScannerJobs.LatestIsShown | app/api/bot_api.py:5192-5230 | while the worker is busy a job nobody cancelled shows the latest published response, candidates and failures |
| ScannerJobs.UpdatesCompose | app/api/bot_api.py:750-760 | two effective updates act as one with merged fields; an empty one only touches the time, a rejected one nothing |
| ScannerJobs.UpdateSetsItsFields | app/api/bot_api.py:750-760 | an effective update sets the fields it names and no others |
| ScannerJobs.CancellationTells | app/api/bot_api.py:882-896 | a cancellation keeps what the job shows but its status, and says whether there are partial results |
| ScannerJobs.ScannerJobManager.Create | app/api/bot_api.py:733-737 | registers a queued job and touches no other |
| ScannerJobs.ScannerJobManager.SetThread | app/api/bot_api.py:739-744 | touches only the time of the job |
| ScannerJobs.ScannerJobManager.Update | app/api/bot_api.py:750-760 | applies the given fields unless the job is cancelled and the update would change that |
| ScannerJobs.ScannerJobManager.Cancel | app/api/bot_api.py:762-774 | marks the job cancelled and keeps its results |
| ScanLoop.ScanBatch | app/api/bot_api.py:4788-4808 | one batch sorts its symbols into signals and failures as their scans and cut-offs decide, without duplicates, in any order of completion |
| ScanLoop.NextBatch | app/api/bot_api.py:4778-4812 | accounts for one more batch and reports whether scans were cut off |
| ScanLoop.ScanCandidates | app/api/bot_api.py:5146-5231 | every scanned candidate is in exactly one of signals, failed or dropped; the deadline puts the whole tail into failed, pending scans stop without it; progress rises to the scanned count; the first disturbed batch decides how the loop ends |
| ScanLoop.DeadlineTailIsFailed | app/api/bot_api.py:4774-4777 | the failed list with the unscanned tail has no duplicates and none of the tail is a signal |
| ScanLoop.FatesPartition | app/api/bot_api.py:4768-4832 | no candidate is both signal and failure, and it is neither exactly when its result was dropped |
| LiquidationFeed.QueueIsSuffixOfHistory | app/data/binance_liquidation_feed.py:118-124 | the queue is always a suffix of the symbol's arrival history |
| LiquidationFeed.WindowIsExact | app/data/binance_liquidation_feed.py:177-190 | even out of order, filtering the queue equals filtering the whole history when the lookback is within retention and no earlier reference time lies too far ahead |
| LiquidationFeed.LateReferenceLosesEvents | app/data/binance_liquidation_feed.py:209-216 | one reference time beyond that bound can lose an event of the window |
| LiquidationFeed.LongLookbackLosesEvents | app/data/binance_liquidation_feed.py:177-190 | so can a lookback beyond retention |
| LiquidationFeed.WindowLaw | app/data/binance_liquidation_feed.py:177-216 | for every history with reference times up to a bound the window is answered exactly if and only if the bound lies before the window, or the lookback is within the retention and the bound is late by at most the rest of it |
| LiquidationFeed.PressureIsSymmetric | app/data/binance_liquidation_feed.py:126-175 | swapping longs and shorts swaps the notionals and the direction, negates the imbalance and keeps the level |
| LiquidationFeed.ImbalanceBounded | app/data/binance_liquidation_feed.py:148-149 | the imbalance is odd in the two sides and within 100% |
| LiquidationFeed.PressureMeans | app/data/binance_liquidation_feed.py:140-175 | longs are the forced sells and shorts the forced buys; the direction and both level limits are stated in those sums and their shares |
| LiquidationFeed.OneSidedFlow | app/data/binance_liquidation_feed.py:285-290 | forced sells alone mean long liquidations and forced buys alone short ones, always at the highest level |
| LiquidationFeed.FeedService.PruneQueue | app/data/binance_liquidation_feed.py:209-216 | drops from the front of one queue what is older than the cutoff, up to the first event that is not |
| LiquidationFeed.FeedService.AddEvent | app/data/binance_liquidation_feed.py:118-124 | keeps every queue equal to the one its history of arrivals and queries builds |
| LiquidationFeed.FeedService.RecentEvents | app/data/binance_liquidation_feed.py:177-190 | returns the window of the pruned queue |
| LiquidationFeed.FeedService.PressureSnapshot | app/data/binance_liquidation_feed.py:126-175 | summarises exactly the window of the pruned queue |
| Aggregation.FlattenBuckets | app/analysis/multi_timeframe.py:92-107 | the buckets put together are the input: nothing lost, repeated or moved |
| Aggregation.BucketsAreMaximalRuns | app/analysis/multi_timeframe.py:96-107 | each bucket is one run of equal bucket times and neighbouring buckets differ |
| Aggregation.OneBarPerBucket | app/analysis/multi_timeframe.py:109-130 | one output candle per bucket, merged from it |
| Aggregation.AggregateConserves | app/analysis/multi_timeframe.py:80-130 | aggregation conserves volume, quote volume, trade count, global high and low, first open, last close and its times, and whether all is closed |
| Aggregation.OrderedBucketsIncrease | app/analysis/multi_timeframe.py:133-137 | ordered input gives strictly increasing bucket opens |
| Aggregation.GroupingComposes | app/analysis/multi_timeframe.py:80-130 | two-step aggregation equals one-step aggregation whenever the coarse floor absorbs the fine one |
| Aggregation.CompositionLaw | app/analysis/multi_timeframe.py:80-137 | for all inputs two steps equal one exactly when a ≤ 1, or b ≥ 2 and a divides b or b ≥ 60 |
| Aggregation.CollectBuckets | app/analysis/multi_timeframe.py:92-107 | the bucket loop computes the maximal runs |
| Aggregation.AggregateCandles | app/analysis/multi_timeframe.py:80-130 | the whole function computes one merged candle per run, or the input for a timeframe of at most one |
| SwingLevels.LevelsAreGreedyPacking | app/analysis/support_resistance.py:47-100 | for any candles, price, window and cap the result holds genuine swings strictly on the side, ascending, pairwise farther apart than the tolerance, at most the cap (or one), and every omitted swing is near a kept one unless the cap was hit |
| SwingLevels.SwingMeans | app/analysis/support_resistance.py:60-78 | a swing low has a full window on both sides, none of it lower and some of it higher; a swing high the other way around |
| SwingLevels.LevelsKeepDistance | app/analysis/support_resistance.py:80-100 | kept levels stand more than 0.3% of the price apart on the right side, and below the cap each omitted swing is within that distance of a kept one |
| SwingLevels.PackingIsMaximum | app/analysis/support_resistance.py:88-100 | no selection of swings that far apart is larger, unless the cap cut it short |
| SwingLevels.NearestIsKept | app/analysis/support_resistance.py:88-98 | the nearest swing is always kept, and is all that is kept for a cap of one or less |
| SwingLevels.CapIsRespected | app/analysis/support_resistance.py:97-98 | the result is within the cap exactly when the cap is at least one, or zero with no swing on the side |
| SwingLevels.RawSwings | app/analysis/support_resistance.py:60-78 | the index scan collects exactly the swing points |
| SwingLevels.ExtractLevels | app/analysis/support_resistance.py:47-100 | the function with its early returns and break computes the specified levels |
| Patterns.NearestOnReducedList | app/analysis/patterns.py:30-34 | the nearest level of the reduced list is the nearest of all swings |
| Patterns.AssessmentsIgnoreReduction | app/analysis/patterns.py:18-91 | breakout readiness and reversal risk are the same on the reduced levels as on all swings |
| Patterns.BreakoutMeansSwings | app/analysis/patterns.py:16-56 | each of the five answers with a price has its exact condition: trend, momentum, volatility and a genuine swing point within 0.3% or 1% |
| Patterns.ReversalMeansSwings | app/analysis/patterns.py:59-91 | high risk means exactly an exhausted trend within 0.6% of a genuine swing point, medium any other exhaustion, low none |
| Patterns.UnknownWithoutPrice | app/analysis/patterns.py:16-91 | both answers are unknown exactly without a price |
| Drawdown.MaxDrawdownPct | app/analysis/range_behavior.py:75-88 | the one-pass loop computes the running-peak drawdown, and nothing for no points |
| Drawdown.OnePassIsQuadratic | app/analysis/range_behavior.py:75-88 | for prices that are not negative it is the worst fall over all ordered pairs |
| Drawdown.WorstFallUnique | app/analysis/range_behavior.py:75-88 | there is only one such value |
| Drawdown.DrawdownRange | app/analysis/range_behavior.py:75-88 | for positive prices it lies in [0, 100) and is 0 exactly when prices never fall |
| Drawdown.DrawdownGrows | app/analysis/range_behavior.py:75-88 | appending points never lowers it |
| Indicators.SmaWithinBounds | app/features/indicators.py:9-14 | an error exactly for no values, otherwise within any bounds of the values |
| Indicators.EmaOf | app/features/indicators.py:17-29 | error for a period that is not positive, nothing for a short series, else the recurrence |
| Indicators.EmaIsWeightedSum | app/features/indicators.py:25-29 | the loop equals a weighted sum with closed-form weights that total one |
| Indicators.WeightsNonNegative | app/features/indicators.py:25-29 | the weights are not negative |
| Indicators.EmaWithinBounds | app/features/indicators.py:17-29 | the EMA lies within any bounds of its values |
| Indicators.EmaMonotone | app/features/indicators.py:17-29 | the EMA is monotone in every input |
| Indicators.EmaNewest | app/features/indicators.py:25-29 | raising the newest value moves the EMA by two parts in period plus one |
| Indicators.RsiOf | app/features/indicators.py:32-57 | error, nothing, or the smoothed strength, as the source branches |
| Indicators.StrengthIsShare | app/features/indicators.py:50-57 | the strength is the gains' share of all movement, and 50 without movement |
| Indicators.RsiIsPercentage | app/features/indicators.py:32-57 | the RSI lies in [0, 100] |
| Indicators.RsiMirrors | app/features/indicators.py:32-57 | negating the series gives 100 minus the RSI, in every branch |
| Indicators.RsiIsAffineInvariant | app/features/indicators.py:32-57 | a positive unit and any offset leave the RSI unchanged |
| Indicators.RsiExtremes | app/features/indicators.py:43-57 | with a period of two or more the RSI is 100 exactly when the series never falls and rises somewhere |
| Indicators.AveragesNewest | app/features/indicators.py:43-52 | with each further price both averages move by one part in period towards the newest gain and the newest loss |
| Indicators.WilderLoop | app/features/indicators.py:82-85 | the smoothing loop computes the recurrence |
| Indicators.AtrOf | app/features/indicators.py:60-85 | error, nothing, or the smoothed true range |
| Indicators.TrueRangeIsSpan | app/features/indicators.py:71-80 | the true range is the span of candle and previous close |
| Indicators.AtrWithinRanges | app/features/indicators.py:82-85 | the ATR stays between the smallest and the largest true range |
| Indicators.AtrNewest | app/features/indicators.py:82-85 | with each further candle the ATR moves by one part in period towards its true range |
| FlipRates.MoveCounts | app/analysis/range_behavior.py:42-55 | counts exactly the rising, falling and flat pairs |
| FlipRates.MovesAreSteps | app/analysis/range_behavior.py:42-55 | the upward moves are in number the rises of the series and the downward ones its falls |
| FlipRates.CollectReturns | app/analysis/range_behavior.py:159-167 | collects the returns, skipping pairs that start at or below zero |
| FlipRates.ReturnMeans | app/ai/features.py:36-41 | a return is what the price gained as a share of its start, and zero from a zero close |
| FlipRates.ReturnsSkip | app/analysis/range_behavior.py:159-167 | the pattern returns skip exactly the pairs that do not start above zero, the feature returns none |
| FlipRates.TrendCharacter | app/analysis/range_behavior.py:91-116 | the single pass with its counters classifies the non-zero moves |
| FlipRates.Directions | app/analysis/regime.py:303-313 | the direction list without its flats is the sequence of moves |
| FlipRates.RegimeDirectionFlipRate | app/analysis/regime.py:303-319 | the rounded percent of flips, zero below two moves |
| FlipRates.FewMoves | app/ai/features.py:51-72 | what each computation answers for too few moves |
| FlipRates.ReturnsCarryMoves | app/ai/features.py:36-41 | on positive prices both kinds of returns carry the same moves as the price differences |
| FlipRates.PairsAreSameOrFlips | app/analysis/range_behavior.py:99-108 | same-direction pairs and flips add up to the directional pairs |
| FlipRates.ThreeImplementationsAgree | app/ai/features.py:65-72 | the three computations read one flip rate, and the trend is choppy exactly from 60% on and persistent exactly up to 35% |
| FlipRates.ThresholdsAgree | app/analysis/regime.py:211-213 | the rounded and the exact 45% tests disagree exactly when the flips fall short by at most one per two million pairs, never below 100000 pairs |
| FlipRates.PersistenceBoundsFlips | app/ai/features.py:51-62 | persistence is 1 exactly without flips, at least one half, and each lost share allows at most two flips |
| SymbolRanking.RankActiveSymbols | app/exchange/symbol_service.py:73-110 | for distinct names and any ticker answer, also none, the result is a permutation with the active symbols first by falling volume and name and the rest in fallback order |
| SymbolRanking.RankingIsUnique | app/exchange/symbol_service.py:54-110 | that specification determines the list |
| SymbolRanking.RankingMeans | app/exchange/symbol_service.py:54-110 | of two places in a ranking the first has the greater activity, or the smaller name at equal activity; silent symbols come last, popular ones in their fixed order, then by name |
| SymbolRanking.TextIsLexicographic | app/exchange/symbol_service.py:87-92 | names are ordered as texts: by beginning or first difference |
| SymbolRanking.FirstOfEach | app/exchange/symbol_service.py:96-102 | the loop keeps each record once, at its first entry |
| SymbolRanking.ActivityIsGreatest | app/exchange/symbol_service.py:85-92 | the activity of a symbol is the greatest volume among its usable tickers |
| SymbolRanking.ActivityMeans | app/exchange/symbol_service.py:65-92 | a symbol is silent exactly if no ticker names it; its activity is the greatest reported volume, an unreadable one counting as zero |
| SymbolRanking.SearchSymbols | app/exchange/symbol_service.py:166-195 | what the limit leaves, as a Python slice, of the ranking for an empty query and of the full answer for any other |
| SymbolRanking.LimitMeans | app/exchange/symbol_service.py:178-195 | what a limit leaves of a list, as a Python slice, for any sign and size |
| SymbolRanking.SearchFindsEachOnce | app/exchange/symbol_service.py:180-195 | the full answer holds every symbol whose name or base contains the query exactly once, prefix matches first, each kind in listing order |
| SymbolRanking.MatchMeans | app/exchange/symbol_service.py:180-195 | a match contains the query in its name or base asset, a prefix match begins with it |
| SymbolRanking.NormalizedMeans | app/exchange/symbol_service.py:174-174 | a query loses the white space around it and no other, and is upper-cased |
| SymbolRanking.ListingFacts | app/exchange/symbol_service.py:112-162 | the listing holds exactly the supported symbols, each once, in name order |
| SymbolRanking.ListingMeans | app/exchange/symbol_service.py:112-162 | a record is listed exactly if it is that of a USDT symbol in trading status that any of the three permission fields admits to the spot market |
| SymbolRanking.SymbolService.Peek | app/exchange/symbol_service.py:139-145 | the look before the lock answers exactly from a young non-empty cache when no refresh is asked |
| SymbolRanking.SymbolService.RefreshLocked | app/exchange/symbol_service.py:147-164 | under the lock the cache is looked at again and replaced only by a successful request |
| SymbolRanking.SymbolService.TakeTurns | app/exchange/symbol_service.py:147-164 | any number of callers waiting for the lock are answered one after the other, each from what the callers before it left |
| SymbolRanking.OneRequestServesAll | app/exchange/symbol_service.py:147-164 | once the first waiting caller got a listing that is not empty, all behind it that neither insist nor come after the time to live get that listing, and just one request is sent |
| SymbolRanking.RequestMeans | app/exchange/symbol_service.py:147-164 | a call under the lock sends a request exactly if it insists, nothing is listed, or the listing has reached its time to live; a failing request leaves the listing as it was |
| SymbolRanking.SymbolService.ListSymbols | app/exchange/symbol_service.py:136-164 | a whole call: answered by the cache if either look finds it young and non-empty, else refetched; a failing request leaves the cache alone |
| Evaluation.SampleMeansPrices | app/ai/evaluation.py:185-203 | the flags of a sample stated in prices |
| Evaluation.BisectLeft | app/ai/evaluation.py:171-171 | on sorted times the search returns the first position at or after the target |
| Evaluation.FindFutureCandle | app/ai/evaluation.py:162-174 | returns the candle at that position, if any |
| Evaluation.ChosenIsEarliest | app/ai/evaluation.py:162-174 | the chosen candle closes at or after the target and none earlier does |
| Evaluation.BuildSamples | app/ai/evaluation.py:130-160 | the nested loops fill each horizon with exactly the evaluated advice in order |
| Evaluation.HorizonsNest | app/ai/evaluation.py:28-32 | advice evaluated at a longer horizon is evaluated at every shorter one, at a position no later |
| Evaluation.SamplesNest | app/ai/evaluation.py:130-160 | each sample of a longer horizon has its counterpart of the same advice at every shorter one |
| Evaluation.ShorterHasMoreSamples | app/ai/evaluation.py:130-160 | shorter horizons have at least as many samples |
| Evaluation.BuiltSamplesAreCoherent | app/ai/evaluation.py:176-221 | false positives are actionable and wrong, false reversals are wrong |
| Evaluation.SampleTells | app/ai/evaluation.py:176-221 | every sample compares one advice with the first candle closing at least 5, 15 or 60 minutes later, and the horizon's own confidence, action and abstention replace the general ones |
| Evaluation.SummaryCounts | app/ai/evaluation.py:246-250 | abstained plus actionable is the total, false positives are at most actionable and at most incorrect, reversals at most incorrect |
| Evaluation.SummaryRates | app/ai/evaluation.py:257-273 | every rate lies in [0, 100] |
| Evaluation.SummaryMeans | app/ai/evaluation.py:223-274 | each count is the number of samples with its flag and each rate that percentage to the nearest hundredth, 0 for none and 100 for all |
| Evaluation.CalibrationMeans | app/ai/evaluation.py:251-261 | the calibration is 100 less the mean of the wrong confidence points, to the nearest hundredth |
| Evaluation.CalibrationIsExact | app/ai/evaluation.py:251-261 | for confidences in 0..100 the calibration is one minus the mean error and its clamp never acts |
| Fusion.TechnicalSignal | app/fusion/scoring.py:78-119 | the step-by-step score and warnings equal their closed form |
| Fusion.PatternSignal | app/fusion/scoring.py:122-152 | the same for patterns |
| Fusion.AiSignal | app/fusion/scoring.py:155-186 | the same for the advisory model |
| Fusion.SentimentSignal | app/fusion/scoring.py:189-208 | the same for sentiment |
| Fusion.ReadinessSignal | app/fusion/scoring.py:211-241 | the same for readiness |
| Fusion.BuildFusionSignal | app/fusion/scoring.py:11-75 | fuses the five into the specified advice for any weights |
| Fusion.AdviceIsExact | app/fusion/scoring.py:244-274 | each of the six advices has its exact condition over volatility, position, exit signal, risk block and fused score |
| Fusion.ExitSignalIsHeeded | app/fusion/scoring.py:262-265 | a long position with an active exit signal is always exited, or reduced when volatile |
| Fusion.TechnicalEffects | app/fusion/scoring.py:78-114 | the signed strength, and what agreement, breakout and reversal each change whatever the others say |
| Fusion.PatternEffects | app/fusion/scoring.py:117-146 | the direction, and what net return and trend character each change |
| Fusion.AiEffects | app/fusion/scoring.py:149-180 | the signed confidence, and what each caution and an unstable regime leave of it |
| Fusion.SentimentEffects | app/fusion/scoring.py:183-202 | the proxy score weighted by a confidence of at least a quarter, and what a stable mood leaves of it |
| Fusion.ReadinessEffects | app/fusion/scoring.py:205-241 | what each readiness flag adds or takes |
| Fusion.UnusableIsSilent | app/fusion/scoring.py:78-241 | a missing or unusable view scores nothing |
| Fusion.ViewsAddUp | app/fusion/scoring.py:25-32 | the default score of any views is the sum of their scores alone |
| Fusion.TechnicalOpensAlone | app/fusion/scoring.py:78-274 | which strengths let the technical view alone open a position, for each agreement and breakout |
| Fusion.AiOpensAlone | app/fusion/scoring.py:149-274 | the advisory model alone opens a position exactly when fully confident and unqualified |
| Fusion.OthersNeverOpenAlone | app/fusion/scoring.py:117-274 | pattern, sentiment and readiness never open a position alone |
| Fusion.GradeCountsDangers | app/fusion/scoring.py:304-322 | the grade is high exactly for two of three dangers and low exactly for none; the number of warnings never decides |
| Fusion.ConfidenceIsExact | app/fusion/scoring.py:277-301 | confidence and alignment over score, views and raised warnings; the limit on views and the removal of duplicates never act |
| Fusion.HorizonIsExact | app/fusion/scoring.py:325-336 | the advisory choice, else aligned timeframes, else a persistent pattern decide the horizon |
| Fusion.WarningsAreExact | app/fusion/scoring.py:78-241 | each warning is raised exactly under its own condition on the inputs |
| Fusion.OuterClampIsIdle | app/fusion/scoring.py:25-32 | with the default weights the outer clamp never acts |
| Fusion.MirrorIsInvolution | app/fusion/scoring.py:372-378 | turning the market around twice gives it back |
| Fusion.ScoreMirrors | app/fusion/scoring.py:25-32 | turning the market around negates the score exactly when readiness contributes nothing |
| Fusion.FusionMirrors | app/fusion/scoring.py:244-322 | and then, without an exit signal, swaps long and short and the two exits and keeps everything else |
| Fusion.RiskBlockNeverOpens | app/fusion/scoring.py:268-269 | a risk block never yields long or short and never a low grade |
| Fusion.NeverReversesPosition | app/fusion/scoring.py:264-274 | never long while short nor short while long |
| Fusion.ReduceRiskMeansVolatile | app/fusion/scoring.py:255-262 | reduce-risk exactly on high volatility from a usable technical view or the advisory model, and never graded low |
| Fusion.ConfidenceLimits | app/fusion/scoring.py:277-301 | confidence within 5..95, at most 58 for wait and reduce-risk, alignment within 0..100 |
| Fusion.WarningsNeverRepeat | app/fusion/scoring.py:35-43 | no warning is raised twice, so removing duplicates changes nothing |

## Left out

- REST and websocket clients, SQLite, FastAPI routes, response models, logging and configuration: I/O and plumbing.
- `StrategyRunner` and `PaperBroker`: a cycle or manual trade may set the broker to any value, answer `None` or raise; their own files are not part of this model. A cycle that answers `None` and an ingest that raises are taken to leave the broker as it was; the durability laws rest on that premise, which `StrategyRunner` has to meet.
- Tuning versions, the profile thresholds and the order counter of the broker: not persisted with the broker or without effect on the proved laws. Failures of the tuning lookup are not modelled.
- Trimming of white space around symbols in the runtime: symbols arrive trimmed there (the search models it).
- Two writes of one step are not separated by a crash: a crash falls between steps.
- A caller that cancels its own `stop`, and `wait_for` races: a cancelled pending scan adds nothing further.
- Persisting of candle history and advisory signals inside the loop: caught by the loop and without effect on its state. An exception raised by the advisory persist counts as a cycle that raises.
- Message texts. Warning texts of scanner jobs and of fusion are kept as tags or opaque text.
- Exceptions of a scan worker before its own error handler is in place.
- The scanned count copied from a cached degraded response when a job completes belongs to an older run; the accounting claims cover the loop.
- Windows of swing levels below zero: the window is a natural number.
- Context precision of `Decimal` and not-a-number volumes; numbers are exact reals.
- Realized volatility (a float square root), average ranges and the other score tables of the regime model.
- The guards of the fusion engine that answer with an empty snapshot, and its invalidation hints: one-branch facts.
- Ordering of the recent samples shown by an evaluation.
