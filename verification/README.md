# Transform: verified models of the workers and the stream reader

The platform converts files and runs user code in the background. Redis streams carry the work, SQL rows record
it, object storage holds the results, and browsers follow along over server-sent events. The hard part is what
happens when workers overlap, crash or retry, and when calls fail half-way. This project models that part in Dafny
and proves what it keeps over every input, every run and every interleaving. `dafny verify dfyconfig.toml` checks
the whole project.

| file | component |
|---|---|
| `WorkQueue.dfy` | workspace work as a transition system: one stream, its pending list and dead letters, the execution rows, and any number of workers and API requests |
| `WorkQueueSafety.dfy`, `WorkQueueDelivery.dfy`, `WorkQueueMessages.dfy`, `WorkQueueRecovery.dfy`, `WorkQueueFinality.dfy` | at most one run per execution; nothing published is lost; every copy is a copy; what is not settled can always be delivered again; when a final status stays final |
| `WorkMessage.dfy` | the fields of a message on the stream |
| `WorkspaceProgram.dfy`, `WorkspaceOutcome.dfy` | the steps a worker takes for the way its calls go; what an execution becomes |
| `WorkspaceWorker.dfy` | the workspace worker as code, performing runs of that system with arbitrary interference at every await |
| `ConversionJob.dfy` | the converter's `process_job` and the worker's settling of a delivery |
| `Telemetry.dfy` | the telemetry sink: bounded queue, batching flusher, retry buffer, health counters |
| `SseReader.dfy` | the web client's incremental event-stream reader |
| `CleanupCycle.dfy` | the retention sweeps over rows and objects |
| `CreditLedger.dfy`, `CreditWallet.dfy` | concurrent spends on one credit bucket for any spend function; the wallet's own spend |
| `StaleThreshold.dfy` | when a pending message counts as abandoned |
| `Revisions.dfy` | snapshot retention |
| `ObjectKeys.dfy` | object keys and the copying of artifacts |
| `Basics.dfy` | values shared by several components |
| `RetryLoop.dfy`, `UploadLimits.dfy` | backoff totals; the multipart part limit |

How calls end, what arrives and who runs next are parameters of the models, so each theorem holds for every choice
of them. Clocks are parameters too; random jitter is any value in its range.

## Where the code and its comments disagree

The models follow the code.

- A failed telemetry batch is documented as retried once and then dropped and counted
  (`src/infrastructure/telemetry/ingestion.py:248-294`). The retry buffer is cleared before every write, so a failing
  batch is kept again and again and nothing is counted as dropped. The two tables commit separately, so a batch that
  was stored in part repeats a primary key on every retry: `Telemetry.StuckExactlyWhen` shows that this, and only this,
  stops all writing, until the retention sweep happens to delete the rows left behind.
- `stop` is documented to flush whatever is buffered. It writes one batch (`Telemetry.ShutdownFlushesExactly`), and a
  batch half-gathered when the sentinel arrives is dropped.
- A dead letter is written before the acknowledgement so that nothing is lost, but its failure is swallowed and the
  message is still acknowledged (`WorkQueueDelivery.FailedDeadLetterLosesWork`).
- A cancellation "must win" only on the path that re-reads the row. Three failure branches write without re-reading
  (`WorkQueueFinality.CancellationCanLose`); `FinalExactlyWhen` gives the exact condition.
- `_consume_once` expects a concurrent first use to violate a key and be retried. `save_credit` looks the row up again
  and updates it when it is there, so a commit between the first read and that lookup violates nothing and is
  overwritten (`CreditLedger.FirstUseCanOvertake`). `SerialExactlyWhen` gives the exact condition.
- Job rows created from a library file carry that file's key (`src/presentation/api/routers/v1/conversions.py:492`),
  so archiving such a job removes the object of a file row that stays (`CleanupCycle.ArchivingCanStrandAFile`).
- Pruning lists twenty rows beyond the retention. Twenty newer failed snapshots hide a READY one
  (`Revisions.FailuresHideRevisions`); `RetentionHoldsExactlyWhen` gives the exact condition.
- A COMPLETED event that cannot be published turns a stored, charged job FAILED, and the next delivery charges again.
  `ConversionJob.WastedExactlyWhen` decides exactly when a deduction is wasted.
- `consume` tries again after any dropped connection. A first attempt that commits and then drops is deducted again, and
  the delivery completes as if nothing had happened (`ConversionJob.PaidTwiceForOneResult`). `DoubleExactlyWhen` gives
  the exact condition.
- The idempotency guard is said to keep a replay from charging twice. It reads the row and then acts, so two deliveries
  that overlap both charge (`ConversionJob.WindowOfDoubleCharge`). `BothDeductExactlyWhen` gives the exact condition.
- A completed row is meant to be stored before it is announced. Persisting is an UPDATE that does not check whether it
  found a row, and rows can be deleted while a job runs (`src/presentation/api/routers/v1/conversions.py:412-422`, and
  the guest sweep), so COMPLETED is then announced, and charged, with no row at all
  (`ConversionJob.MissingRowIsAnnounced`). `StoredBeforeAnnounced` gives the exact condition.
- The event-stream reader ends lines at LF only. The standard also ends them at CR and CRLF
  (`SseReader.InnerCarriageReturnDiffers`, `SseReader.CrlfAgreesExactlyWhenSilent`).

## Model

| member | source | states |
|---|---|---|
| `WorkQueueSafety.AtMostOnce` | workers/workspace_worker/processor.py:61-121 | after any run from the empty system, with any workers, redeliveries, re-queues, cancels, failures and crashes, the provider has been called at most once for a given execution, a call cut off by a crash included |
| `WorkQueueSafety.WonClaimStarts` | workers/workspace_worker/processor.py:96-105 | in every reachable state a won claim leads to the provider call: the entity behind it was read as QUEUED, because nothing writes QUEUED again |
| `WorkQueueSafety.NeverExecutedAgain` | workers/workspace_worker/processor.py:98-103 | once an execution has left QUEUED and its claim holder is gone, no continuation of the run executes it again |
| `WorkQueueSafety.RunKeeps` | workers/workspace_worker/processor.py:50-172 | the claim invariant (rows, claims and past calls of the provider agree) holds through every run |
| `WorkQueueDelivery.NothingIsLost` | workers/workspace_worker/consumer.py:145-215 | every published unit has an undelivered or pending entry that carries the very message it was published with, or was processed to a normal return, or dead-lettered, or is one whose own dead letter failed or entry was deleted |
| `WorkQueueDelivery.NothingIsLostWithoutHarm` | workers/workspace_worker/consumer.py:145-215 | with dead-letter writes succeeding and no entry deleted there are no exceptions, and what is still to be done is on the stream or pending with its own message, whatever crashes and whichever acknowledgements and re-publishes fail |
| `WorkQueueRecovery.SettledOrDeliverable` | workers/workspace_worker/consumer.py:123-215 | from every reachable state and for every worker, a published unit is settled, or the run can go on, executing and writing nothing, until that worker holds an entry for it with its own message: no crash or half-finished sweep wedges the queue |
| `WorkQueueRecovery.SweepMovesBack` | workers/workspace_worker/consumer.py:173-209 | a sweep whose calls work moves a pending entry, unchanged, to the end of the stream and leaves everything else as it was |
| `WorkQueueRecovery.CrashedDoNothing` | workers/workspace_worker/worker.py:49-69 | whatever else happens, a crashed worker does nothing until it is started again |
| `WorkQueueRecovery.DeletedIsNotDelivered` | workers/workspace_worker/consumer.py:194-198 | an entry deleted before it was delivered is delivered to nobody, in any continuation |
| `WorkQueueRecovery.SnapshotSettles` | workers/workspace_worker/worker.py:71-88 | a handled snapshot message is acknowledged and done; one whose handler raises is dead-lettered and acknowledged |
| `WorkQueueRecovery.UnqueuedSubmitFails` | src/application/services/workspaces/execution_service.py:212-242 | a submission that cannot be queued ends FAILED, with a message on the stream only if the publish took effect before it raised |
| `WorkQueueRecovery.CancelSettles` | src/application/services/workspaces/execution_service.py:265-277 | a cancellation nobody interferes with sets exactly that row and touches nothing else |
| `WorkQueueDelivery.OnlyHarmHarms` | workers/workspace_worker/consumer.py:148-162 | only a failed dead letter or a deleted entry adds to the exceptions, over every run |
| `WorkQueueDelivery.FailedDeadLetterLosesWork` | workers/workspace_worker/consumer.py:148-162 | one failed dead-letter write leaves a unit neither processed, nor dead-lettered, nor on the stream, nor pending |
| `WorkQueueMessages.RunKeeps` | workers/workspace_worker/consumer.py:189-209 | through every run, every entry of the stream carries the message its unit was published with, and published messages never change |
| `WorkQueueMessages.SameTaskSameMessage` | workers/workspace_worker/consumer.py:200-205 | two entries of one unit, however often it was re-queued, are equal |
| `WorkQueueMessages.QueueStreams` | workers/workspace_worker/consumer.py:198-208 | the only queue command that adds to the stream is the re-publish of a sweep, and it adds the very entry the sweep is at |
| `WorkQueueMessages.SubmitPublishes` | src/application/services/workspaces/execution_service.py:212-242 | a submitted execution has a QUEUED row and a message that names it |
| `WorkMessage.CopiesReadTheSame` | workers/workspace_worker/consumer.py:200-204 | whatever fields an entry holds, its re-published copy is read as the original is |
| `WorkMessage.RoundTripExactlyWhen` | src/infrastructure/adapters/queues/redis_stream_workspace_queue.py:40-63 | a message is read back as itself if and only if none of its ids is empty |
| `WorkMessage.CopiesAreEqualExactlyWhen` | src/infrastructure/adapters/queues/redis_stream_workspace_queue.py:40-63 | the copy has the same fields if and only if the original named kind and workspace, no empty id and nothing else |
| `WorkQueueFinality.FinalExactlyWhen` | workers/workspace_worker/processor.py:61-164 | a terminal status survives every continuation if and only if no actor stands between its last read of the row and a write of another status |
| `WorkQueueFinality.SealedRun` | workers/workspace_worker/processor.py:61-164 | a terminal status nobody is about to overwrite stays through every run, including all redeliveries |
| `WorkQueueFinality.StaleWriteLands` | workers/workspace_worker/processor.py:77-121 | an actor that stands there can carry out its write at once |
| `WorkQueueFinality.RunningWriteLands` | workers/workspace_worker/processor.py:113-121 | a provider error during the call does write FAILED over whatever the row says |
| `WorkQueueFinality.CancellationWins` | workers/workspace_worker/processor.py:105-164 | a cancellation committed while the only delivery holds its claim, runs the program or has not yet re-read the row is the status after every continuation, redeliveries included, unless that call of the provider raises a provider error |
| `WorkQueueFinality.CancellationCanLose` | workers/workspace_worker/processor.py:77-94 | a run in which a committed cancellation is overwritten by FAILED |
| `WorkspaceOutcome.EndsAsItsCallsSay` | workers/workspace_worker/processor.py:50-172 | in every run in which nobody else writes the row of a QUEUED execution, the handler ends with the row status, the number of provider calls and the return or raise that a table over the outcomes of its calls gives, for every way each call can go |
| `WorkspaceOutcome.WhatAnExecutionBecomes` | workers/workspace_worker/processor.py:74-164 | with every call working: FAILED without a run when there is no workspace or no serving runtime; otherwise exactly one run, and TIMED_OUT after a timeout, FAILED after an error or a provider error, SUCCEEDED otherwise; never a raise |
| `WorkspaceOutcome.RunStaysOnCourse` | workers/workspace_worker/processor.py:50-172 | at every point of such a run, the place of the worker, the row and the calls made agree with that ending |
| `WorkspaceOutcome.LosersReturn` | workers/workspace_worker/processor.py:61-105 | a missing or settled execution, and one whose claim is lost, end in a normal return with no run and nothing written |
| `WorkspaceProgram.AwaitAllowsEverything` | workers/workspace_worker/worker.py:49-88 | whatever the other actors do during an await is allowed by its contract: it keeps this worker's place, its record of prescribed steps and its tally of copies |
| `WorkspaceProgram.OthersLeaveMe` | workers/workspace_worker/worker.py:49-88 | steps of other actors never move a worker |
| `WorkspaceWorker.Worker.Await` | workers/workspace_worker/worker.py:55-67 | callers may assume only that other actors took steps |
| `WorkspaceWorker.Worker.Fetch` | workers/workspace_worker/consumer.py:123-143 | delivers the next entry that was not deleted and leaves it pending here; no work only when the stream is used up |
| `WorkspaceWorker.Worker.HandleExecution` | workers/workspace_worker/processor.py:50-172 | with arbitrary interference at every await, performs exactly the prescribed steps for the way its calls go, up to a return or a raise; unless somebody else wrote its row meanwhile, a QUEUED execution ends with the status, the number of runs and the raise its calls say |
| `WorkspaceWorker.Worker.ReadStatus` | workers/workspace_worker/processor.py:61-72 | reads the row; returns when it is missing or terminal |
| `WorkspaceWorker.Worker.BringUp` | workers/workspace_worker/processor.py:74-94 | gives up with FAILED, without re-reading, when there is no workspace or no serving runtime |
| `WorkspaceWorker.Worker.TryClaim` | workers/workspace_worker/processor.py:98-105 | continues only with a won claim, which never fails to start; a claim that commits and still raises leaves the row RUNNING |
| `WorkspaceWorker.Worker.CallProvider` | workers/workspace_worker/processor.py:113-121 | the call of the provider, on record before it comes back; a provider error is persisted without re-reading; the status is TIMED_OUT, FAILED or SUCCEEDED as the result says |
| `WorkspaceWorker.Worker.EnterProvider` | workers/workspace_worker/processor.py:113-114 | entering the provider is what counts as a run |
| `WorkspaceWorker.Worker.Recheck` | workers/workspace_worker/processor.py:123-133 | returns without writing when the row has become terminal |
| `WorkspaceWorker.Worker.RunClaimed` | workers/workspace_worker/processor.py:113-172 | the prescribed steps from a won claim to the end of the handler |
| `WorkspaceWorker.Worker.Update` | src/infrastructure/adapters/repository/sql_execution_repo.py:121-145 | writes the outcome if the row still exists, unless the call raises before it commits; it may also raise after |
| `WorkspaceWorker.Worker.Process` | workers/workspace_worker/processor.py:380-388 | dispatches on the kind of message and ends in a return or a raise; a malformed message always raises, a snapshot exactly when its handler does |
| `WorkspaceWorker.Worker.Handle` | workers/workspace_worker/worker.py:71-88 | settles every message: acknowledged after a return, dead-lettered and then acknowledged after a raise; an acknowledgement that raises, with or without effect, ends the worker |
| `WorkspaceWorker.Worker.Fail` | workers/workspace_worker/consumer.py:148-162 | the dead letter first, then the acknowledgement, neither stopping the other |
| `WorkspaceWorker.Worker.RequeueOne` | workers/workspace_worker/consumer.py:190-208 | publishes a copy equal to the original before acknowledging the original, keeps the original when publishing raises, and counts a copy if and only if its publish returned; a copy beyond that is one whose reply was lost |
| `WorkspaceWorker.Worker.PublishCopy` | workers/workspace_worker/consumer.py:198-206 | a publish that takes effect leaves an entry equal to the original at the end of the stream; it is counted if and only if it returned |
| `WorkspaceWorker.Worker.RequeueAll` | workers/workspace_worker/consumer.py:189-209 | works off all claimed entries in order; the count is exactly the publishes that returned, and the uncounted copies are at most the lost replies |
| `WorkspaceWorker.Worker.ReclaimStale` | workers/workspace_worker/consumer.py:173-209 | claims, re-queues and returns exactly the number of publishes that returned; the uncounted copies are at most the lost replies; afterwards every entry carries the message of its unit |
| `WorkspaceWorker.Worker.MaybeSweep` | workers/workspace_worker/worker.py:90-107 | sweeps at every thirtieth idle fetch and does nothing otherwise |
| `WorkspaceWorker.Worker.Turned` | workers/workspace_worker/worker.py:53-67 | one turn of the loop takes only prescribed steps and ends idle, or gone after a failed acknowledgement |
| `WorkspaceWorker.Worker.RunLoop` | workers/workspace_worker/worker.py:49-69 | for any plan of outcomes and any interference, in every turn the worker took exactly the prescribed steps, it stopped early only for a failed acknowledgement, no execution was called twice, every unit is accounted for and every entry carries its own message |
| `ConversionJob.OneTerminalEvent` | workers/converter_workers/processor.py:302-500 | with publishing working, a delivery publishes a prefix of the three phases and then exactly one terminal event; it completes or raises exactly as the failing calls say, from the preparation before the first event on |
| `ConversionJob.StoredBeforeAnnounced` | workers/converter_workers/processor.py:444-500 | for every pattern of failures, any stored row or none, and the row deleted at any point: an announced COMPLETED is backed by a row with that output if and only if the row was there, was not deleted before, and the terminal row could be stored (or it said so already and nothing was stored over it) |
| `ConversionJob.UploadedFirst` | workers/converter_workers/processor.py:390-484 | in every delivery that is no replay, cut off by a crash anywhere: every charge, every row stored as COMPLETED and every announced completion comes after the upload of the output under that key, and stored progress right after its announcement |
| `ConversionJob.UploadsExactly` | workers/converter_workers/processor.py:302-442 | the output is uploaded once, under its own key, if and only if guard, credits, preparation and the stages before it let it; otherwise nothing is |
| `ConversionJob.RowAtTheEnd` | workers/converter_workers/processor.py:302-500 | how every delivery ends for every pattern of failures: a replay changes nothing; an announced lack of credits ends quietly with FAILED; if all stages and announcements work the row is COMPLETED at 100 with the output; otherwise it raises, and the row, if it can be stored, is FAILED with the phase reached |
| `ConversionJob.WastedExactlyWhen` | workers/converter_workers/processor.py:444-500 | a delivery deducts at most twice; what it deducts leaves no finished row if and only if the row was missing or deleted, the terminal row was not stored, or the announcement raised and the failure was stored over it |
| `ConversionJob.DeductsExactly` | workers/converter_workers/processor.py:302-464 | a delivery deducts exactly what its call of consume deducts, if and only if guard, credits, stages and announcements let it get that far |
| `ConversionJob.DoubleExactlyWhen` | workers/converter_workers/dependencies.py:181-192 | one delivery deducts twice if and only if it calls consume, the first attempt commits and then loses its connection, and the second commits as well |
| `ConversionJob.PaidTwiceForOneResult` | workers/converter_workers/dependencies.py:181-192 | such a delivery returns normally with the row COMPLETED and its output stored: nothing shows that the user paid twice |
| `ConversionJob.MissingRowIsAnnounced` | src/infrastructure/adapters/repository/sql_conversion_job_repo.py:53-87 | with every call working and no row, COMPLETED is announced and nothing is stored |
| `ConversionJob.RowsAreOnlyUpdated` | src/infrastructure/adapters/repository/sql_conversion_job_repo.py:53-87 | no effects of a delivery create or remove a row |
| `ConversionJob.FinishedIsKept` | workers/converter_workers/processor.py:302-326 | a delivery of a finished job deducts nothing and does not change the row |
| `ConversionJob.FinishedForever` | workers/converter_workers/processor.py:302-326 | however often a finished job is redelivered, nothing is charged while its row is there |
| `ConversionJob.FinishedThenWasted` | workers/converter_workers/processor.py:302-326 | once its row is deleted, everything charged for it is wasted |
| `ConversionJob.MissingWastesAll` | src/infrastructure/adapters/repository/sql_conversion_job_repo.py:53-87 | without a row every deduction of every delivery is wasted |
| `ConversionJob.ChargedOncePerResult` | workers/converter_workers/processor.py:302-500 | over any sequence of non-overlapping deliveries with crashes anywhere and the row deleted at any time, deductions are at most one, plus those of deliveries that did not leave the row COMPLETED with an output, plus the second ones of deliveries whose consume committed twice |
| `ConversionJob.OverlapAddsUp` | workers/converter_workers/processor.py:295-326 | two overlapping deliveries deduct, in every interleaving of their effects, what the first deducts alone plus what the second deducts on the row the first had left at its guard read |
| `ConversionJob.BothDeductExactlyWhen` | workers/converter_workers/processor.py:295-326 | both deduct if and only if both would and neither guard read found a finished row |
| `ConversionJob.ProcessorsBothDeduct` | workers/converter_workers/processor.py:295-326 | the same for the processor itself |
| `ConversionJob.ProcessingPays` | workers/converter_workers/processor.py:302-464 | the processor deducts on a row if and only if it would on its own and its guard finds no result there |
| `ConversionJob.FinishedExactlyWhen` | workers/converter_workers/processor.py:302-303 | on the way the guard finds a result if and only if a stored one is the last thing stored |
| `ConversionJob.WindowOfDoubleCharge` | workers/converter_workers/processor.py:302-484 | with every call working, both deduct if and only if the second guard read comes before the first terminal persist |
| `ConversionJob.ProcessingEndsWell` | workers/converter_workers/processor.py:444-484 | with every call working the terminal persist and the announcement come last and no result is stored before |
| `ConversionJob.Processor.ProcessJob` | workers/converter_workers/processor.py:244-500 | the imperative processor produces exactly the effects the properties above are about |
| `ConversionJob.Processor.PersistTerminal` | workers/converter_workers/processor.py:249-274 | two attempts, the second only after the first failed; a missing row is not inserted |
| `ConversionJob.Processor.UpdateRow` | src/infrastructure/adapters/repository/sql_conversion_job_repo.py:53-87 | an existing row takes the job's columns; a missing one stays missing |
| `ConversionJob.Processor.AbortJob` | workers/converter_workers/processor.py:486-500 | the row is forced to FAILED with the phase reached, stored, then announced |
| `ConversionJob.Processor.Stage` | workers/converter_workers/processor.py:390-442 | a phase is announced, then mirrored on the row, then worked on |
| `ConversionJob.Processor.Finish` | workers/converter_workers/processor.py:444-484 | completion, deduction, terminal row and announcement in this order |
| `ConversionJob.Processor.Consume` | workers/converter_workers/dependencies.py:173-192 | the loop over two attempts deducts once per attempt that commits, and tries again only after a dropped connection |
| `ConversionJob.Deliver` | workers/converter_workers/worker.py:85-118 | the dead letter is attempted exactly when the processor raised, that is (with publishing working) exactly when a stage fails that credits did not stop; the acknowledgement comes after it and whatever it does; so the message is lost exactly when the dead letter fails and the acknowledgement works |
| `ConversionJob.RaisesExactlyWhen` | workers/converter_workers/processor.py:302-500 | with publishing working, the processor raises if and only if the job was not finished, not out of credits, and some stage fails |
| `Telemetry.ExactAccounting` | src/infrastructure/telemetry/ingestion.py:159-294 | in every run, for each kind, accepted = written + queued + retry-buffered + in hand + in flight + discarded, and the health counters report accepted and written exactly |
| `Telemetry.OnlyTwoDiscards` | src/infrastructure/telemetry/ingestion.py:208-255 | items are discarded only by cutting a retried batch and by the sentinel arriving with part of a batch in hand |
| `Telemetry.LossesAreBounded` | src/infrastructure/telemetry/ingestion.py:208-294 | truncation loses at most batch size times write failures, hence nothing without failures; queue and retry buffer stay within their bounds |
| `Telemetry.WrittenInOrder` | src/infrastructure/telemetry/ingestion.py:208-294 | the written items are a subsequence of the accepted ones, none twice |
| `Telemetry.RunAccounts` | src/infrastructure/telemetry/ingestion.py:159-294 | conservation and order hold after every run |
| `Telemetry.RunBounds` | src/infrastructure/telemetry/ingestion.py:111-115 | the bounds hold after every run |
| `Telemetry.RunCounts` | src/infrastructure/telemetry/ingestion.py:159-185 | accepted and written counters agree with the history after every run |
| `Telemetry.EveryRecordIsCounted` | src/infrastructure/telemetry/ingestion.py:159-185 | over every run and for each kind, accepted plus dropped is the number of items recorded; a disabled sink counts nothing |
| `Telemetry.AcceptsExactlyWhenRoom` | src/infrastructure/telemetry/ingestion.py:111-183 | an item is taken if and only if the sink is enabled and the queue, of at least one place, has room; it is then last in the queue, with its kind |
| `Telemetry.FailuresAreCounted` | src/infrastructure/telemetry/ingestion.py:276-294 | over every run the failure counter is the number of writes that wrote nothing |
| `Telemetry.FlushWrites` | src/infrastructure/telemetry/ingestion.py:208-294 | in every run, unless a row left behind is in the way, a faultless write adds exactly the kept and gathered items, in order, up to one batch, and leaves nothing behind in hand or retry buffer |
| `Telemetry.StopsOnlyWhenAsked` | src/infrastructure/telemetry/ingestion.py:133-206 | over every run the flusher stops, drains or meets a sentinel only after a stop was asked for |
| `Telemetry.PoisonedExactlyBy` | src/infrastructure/adapters/repository/sql_api_telemetry_repo.py:155-199 | from a matching state, a step makes the sink stuck if and only if its write commits rows and then fails; otherwise tables and counters still match |
| `Telemetry.StuckUntilPurged` | src/infrastructure/telemetry/ingestion.py:248-294 | while one kept row is stored, nothing is written in any continuation that does not purge it |
| `Telemetry.RefusedExactlyWhen` | src/infrastructure/adapters/repository/sql_api_telemetry_repo.py:155-199 | the tables refuse a batch if and only if it holds a stored row |
| `Telemetry.StuckExactlyWhen` | src/infrastructure/telemetry/ingestion.py:248-294 | over whole runs, retention purges included, the sink is stuck if and only if a row left behind by a failed write is still stored; otherwise the tables hold what the counters report less what was purged, and the next faultless write succeeds |
| `Telemetry.ResidueIsStored` | src/infrastructure/telemetry/ingestion.py:248-294 | the rows left behind by failed writes, less those purged or made good, are exactly the kept rows that are stored |
| `Telemetry.StuckForGood` | src/infrastructure/telemetry/ingestion.py:248-294 | without purges it is stuck for good, if and only if some write committed rows and then failed; otherwise the tables hold exactly what the counters report |
| `Telemetry.ShutdownFlushesExactly` | src/infrastructure/telemetry/ingestion.py:195-206 | the last write leaves nothing behind if and only if buffer and queue fit one batch together and the write succeeds |
| `Telemetry.TelemetryIngestion.constructor` | src/infrastructure/telemetry/ingestion.py:111-115 | an empty sink |
| `Telemetry.TelemetryIngestion.Enqueue` | src/infrastructure/telemetry/ingestion.py:159-185 | accepts or drops, counts, never blocks; the warning flag is set exactly while the queue is full |
| `Telemetry.TelemetryIngestion.PutSentinel` | src/infrastructure/telemetry/ingestion.py:133-141 | the sentinel is queued unless the queue is full |
| `Telemetry.TelemetryIngestion.PurgeRows` | workers/cleanup_worker/worker.py:265-276 | the retention sweep takes rows out of the tables and touches nothing else |
| `Telemetry.TelemetryIngestion.Await` | src/infrastructure/telemetry/ingestion.py:195-234 | at every wait any items may arrive, a stop may be asked for and rows may be purged; the flusher itself does not move |
| `Telemetry.TelemetryIngestion.Collect` | src/infrastructure/telemetry/ingestion.py:208-234 | gathers until the batch is full, the deadline passes, nothing comes, or the sentinel is taken, with arrivals at every wait |
| `Telemetry.TelemetryIngestion.DrainAvailable` | src/infrastructure/telemetry/ingestion.py:236-246 | takes up to a batch of items from the front and swallows the sentinels it meets |
| `Telemetry.TelemetryIngestion.Write` | src/infrastructure/telemetry/ingestion.py:248-294 | one batch: begun, then stored with its outcome; nothing is stored when there is no batch or no storage |
| `Telemetry.TelemetryIngestion.Begin` | src/infrastructure/telemetry/ingestion.py:254-274 | merges the retry buffer, cuts to one batch and clears the buffer |
| `Telemetry.TelemetryIngestion.Finish` | src/infrastructure/telemetry/ingestion.py:276-294 | counts a stored batch; keeps a failed one for retry |
| `Telemetry.TelemetryIngestion.Save` | src/infrastructure/adapters/repository/sql_api_telemetry_repo.py:155-199 | each table commits on its own and refuses a repeated key |
| `Telemetry.TelemetryIngestion.Run` | src/infrastructure/telemetry/ingestion.py:195-206 | the flusher performs exactly the rounds its schedule gives, ending with one write after the sentinel |
| `Telemetry.SplitByKind` | src/infrastructure/telemetry/ingestion.py:259-265 | both kinds, complete and in order |
| `SseReader.ReadStream` | web/src/api/client.ts:2214-2230 | for every cutting into chunks, dispatches exactly the frames of the whole text in order and keeps exactly its unfinished tail |
| `SseReader.ReadBlock` | web/src/api/client.ts:2221-2229 | the two inner loops compute the frame of a block: the last event name, the joined data lines, nothing without data |
| `SseReader.ReadBlocks` | web/src/api/client.ts:2221-2229 | the frames of all finished blocks in order |
| `SseReader.TrimExactly` | web/src/api/client.ts:2225-2226 | trimming removes white space at both ends, all of it, and nothing else |
| `SseReader.SpaceExactly` | web/src/api/client.ts:2225-2226 | what counts as white space, by code point |
| `SseReader.SplitAppend` | web/src/api/client.ts:2217-2220 | splitting on blank lines commutes with appending a chunk: only the unfinished tail is split again |
| `SseReader.Extend` | web/src/api/client.ts:2217-2220 | one more chunk adds the frames of the extended tail, nothing more or less |
| `SseReader.BlocksAgreeWithLines` | web/src/api/client.ts:2214-2230 | on every text, block splitting dispatches what a line-by-line reader dispatches |
| `SseReader.PlainIsExact` | web/src/api/client.ts:2225-2226 | a line is read as section 9.2.6 of the WHATWG HTML Standard says, with no empty event name, if and only if it is plain |
| `SseReader.PlainInWords` | web/src/api/client.ts:2225-2226 | a data line is plain if and only if its value has no white space at either end but one space after the colon; an event line, if also its name is not empty |
| `SseReader.PlainExactlyWhen` | web/src/api/client.ts:2214-2230 | inside any named event with a data line, a line without line ends leaves the whole stream read as the standard reads it if and only if it is plain |
| `SseReader.PlainInPrintedEvents` | web/src/api/client.ts:2214-2230 | in particular between the name and the data of every printed event |
| `SseReader.AgreesWithStandard` | web/src/api/client.ts:2214-2230 | on every chunking of lines that are plain and hold no carriage return except before a line feed, blank lines ending in LF, the reader dispatches exactly what the standard's algorithm (sections 9.2.5 and 9.2.6) dispatches with its own line ends CRLF, LF and CR |
| `SseReader.StandardLinesOfTame` | web/src/api/client.ts:2219-2224 | on such texts the standard's lines are the client's, less the carriage return of a CRLF |
| `SseReader.TameInWords` | web/src/api/client.ts:2219-2224 | which lines the previous two rows cover: plain ones, ended by LF, or by CRLF unless blank |
| `SseReader.InnerCarriageReturnDiffers` | web/src/api/client.ts:2224-2226 | a carriage return inside a data line: the client dispatches both parts as one value, the standard only the first |
| `SseReader.CrlfAgreesExactlyWhenSilent` | web/src/api/client.ts:2219-2220 | with every line ended by CRLF the standard reads the same events as with LF, and the client agrees if and only if there are none |
| `SseReader.CarriageReturnsStall` | web/src/api/client.ts:2219-2220 | a stream whose lines all end in CRLF, which the standard allows, is never dispatched |
| `SseReader.RoundTrip` | src/presentation/api/routers/v1/developer.py:473-474 | printing any list of events with trimmed, newline-free names and data lines and reading it gives the list back |
| `SseReader.ReadPrinted` | web/src/api/client.ts:2214-2230 | the same through the reading loop, in any chunking |
| `SseReader.JoinLosesNothing` | web/src/api/client.ts:2228-2229 | the joined data determines the data lines |
| `CleanupCycle.CycleIsAtOnce` | workers/cleanup_worker/worker.py:117-126 | five sweeps in sequence, each at its own time, equal one removal judged on the initial state |
| `CleanupCycle.TwoCyclesAreOne` | workers/cleanup_worker/worker.py:117-320 | with storage working and no new data, a cycle followed by a later one equals the later one alone |
| `CleanupCycle.JobGoesExactlyWhen` | workers/cleanup_worker/worker.py:148-320 | by its own columns: a job row goes if and only if it is a guest's and older than the guest window, or COMPLETED or FAILED and older than the archive window; else it is unchanged |
| `CleanupCycle.FileGoesExactlyWhen` | workers/cleanup_worker/worker.py:187-218 | a file row goes if and only if it has an expiry, that lies in the past, and the row is older than its window; else it is unchanged |
| `CleanupCycle.ObjectGoesExactlyWhen` | workers/cleanup_worker/worker.py:148-344 | by columns: an object goes if and only if its removal does not raise and it is the output of a removed job, its object key (its display name only for old rows without a key), the key of a removed file, or a temp object older than its window |
| `CleanupCycle.DisplayNamesAreSpared` | workers/cleanup_worker/worker.py:322-344 | an object that only shares a job's display name stays |
| `CleanupCycle.DisappearsExactlyWhen` | workers/cleanup_worker/worker.py:148-344 | an object disappears if and only if a removed row names it or it is a stale temp object, and its removal does not raise; the others are unchanged |
| `CleanupCycle.SurvivorsKeepTheirObjects` | workers/cleanup_worker/worker.py:148-344 | every surviving row keeps all its objects if and only if, before the cycle, no row that will survive names a removable key that a removed row names or that is a stale temp object |
| `CleanupCycle.ApartKeysSurvive` | workers/cleanup_worker/worker.py:148-344 | in particular when no two rows share a key and none names a stale temp object |
| `CleanupCycle.SharedKeyStrands` | workers/cleanup_worker/worker.py:286-344 | whenever a removed job names the object of a file row that stays, the row stays without its object |
| `CleanupCycle.ArchivingCanStrandAFile` | workers/cleanup_worker/worker.py:286-320 | such a state exists: an old completed job made from a library file |
| `CleanupCycle.CleanupWorker.RunCycle` | workers/cleanup_worker/worker.py:117-142 | performs the cycle and returns the report of all five counts that the next four rows speak about |
| `CleanupCycle.JobCounts` | workers/cleanup_worker/worker.py:117-142 | guest and archive counts sum to exactly the job rows removed, none counted twice |
| `CleanupCycle.FileCounts` | workers/cleanup_worker/worker.py:187-218 | the file count is the file rows removed |
| `CleanupCycle.TempCounts` | workers/cleanup_worker/worker.py:220-253 | the temp count is the objects the temp sweep removes |
| `CleanupCycle.TelemetryCounts` | workers/cleanup_worker/worker.py:255-284 | the telemetry count is the rows both tables lose |
| `CleanupCycle.CleanupWorker.DeleteObjects` | workers/cleanup_worker/worker.py:336-344 | removes exactly the named, non-empty keys whose removal does not raise |
| `CleanupCycle.CleanupWorker.RemoveRows` | workers/cleanup_worker/worker.py:168-185 | removes the listed rows and their objects, counting each once |
| `CleanupCycle.CleanupWorker.CleanGuestJobs` | workers/cleanup_worker/worker.py:148-185 | the guest sweep and its exact count: of the job rows exactly the guests' older than the window go |
| `CleanupCycle.CleanupWorker.CleanExpiredFiles` | workers/cleanup_worker/worker.py:187-218 | the file sweep and its exact count: exactly the expired rows older than the window go |
| `CleanupCycle.CleanupWorker.CleanTempFiles` | workers/cleanup_worker/worker.py:220-253 | the temp sweep: a failed listing does nothing, failed removals are not counted |
| `CleanupCycle.CleanupWorker.ArchiveOldJobs` | workers/cleanup_worker/worker.py:286-320 | the archive sweep and its exact count: exactly the COMPLETED and FAILED rows older than the window go |
| `CleanupCycle.CleanupWorker.CleanTelemetry` | workers/cleanup_worker/worker.py:255-284 | of every creation time both tables keep all rows or none, by age alone, and the result is the number of rows they lost together |
| `CleanupCycle.RecentKeepsExactly` | workers/cleanup_worker/worker.py:266-276 | deleting below the cutoff removes exactly the rows older than the retention, with their multiplicity |
| `CreditLedger.SerialUnlessOvertaken` | workers/converter_workers/dependencies.py:194-266 | for any spend function, any number of transactions and any interleaving, bucket and wallet end as if the committed spends ran one after the other in commit order, unless an update was overtaken; each transaction commits at most once and its retry after a refused insert never fails |
| `CreditLedger.InsertsAreSafe` | workers/converter_workers/dependencies.py:252-264 | a successful insert is never overtaken, in any reachable state |
| `CreditLedger.SerialExactlyWhen` | src/infrastructure/adapters/repository/sql_credit_repo.py:52-83 | from any start, a schedule is serial for every spend function exactly when it lets no worker update a row it read before another commit; otherwise counting spends shows the loss |
| `CreditLedger.FirstUseCanOvertake` | src/infrastructure/adapters/repository/sql_credit_repo.py:59-81 | two first uses of a missing bucket for which the condition fails |
| `CreditLedger.UpdatesCanOvertake` | src/infrastructure/adapters/repository/sql_credit_repo.py:59-81 | the same with an existing bucket, where nothing is ever retried |
| `CreditLedger.RefusedInsertRetries` | workers/converter_workers/dependencies.py:252-264 | the race the retry is for ends with both spends counted |
| `CreditWallet.ConsumeIsExact` | src/domain/subscriptions/policies/credit_wallet.py:106-177 | a spend takes exactly what was asked or everything there is, never goes negative, leaves an expired carryover alone and respects the order of the pools |
| `CreditWallet.CarryoverSpentExactlyWhen` | src/domain/subscriptions/policies/credit_wallet.py:85-89 | a spend touches the carryover if and only if there is some and no expiry is recorded or now lies strictly before it; then before any other pool |
| `CreditWallet.ConsumeAdds` | src/domain/subscriptions/policies/credit_wallet.py:106-177 | two spends equal one of their sum |
| `CreditWallet.SpendsTake` | workers/converter_workers/dependencies.py:194-266 | charges one after the other, each with its own time, expiry and preference, take together exactly what each asks or finds spendable, and no pool goes negative |
| `CreditWallet.SpendsTakeTheSum` | src/domain/subscriptions/policies/credit_wallet.py:106-177 | unless the carryover expires in between, that is the sum of the charges or everything, whatever the order and the preferences |
| `CreditWallet.SpendsAreOne` | src/domain/subscriptions/policies/credit_wallet.py:106-177 | on the same terms, any order of charges equals one charge of their sum, pool by pool |
| `CreditWallet.SerialIsSpends` | workers/converter_workers/dependencies.py:207-250 | the serial transactions are these charges, from a missing bucket or an existing one |
| `CreditWallet.ChargesAddUp` | workers/converter_workers/dependencies.py:194-266 | concurrent charges, none overtaken, from any bucket and wallet row, take together exactly what they would take in commit order; that is their sum or everything, unless the carryover expires in between |
| `CreditWallet.OthersLeaveMe` | workers/converter_workers/dependencies.py:194-266 | steps of other workers never move a worker, so the await's contract allows every interference |
| `CreditWallet.CreditRepository.ConsumeOnce` | workers/converter_workers/dependencies.py:194-266 | with other workers at every await, ends in a commit whose remaining balance is returned, or in a second refusal |
| `CreditWallet.CreditRepository.Commit` | src/infrastructure/adapters/repository/sql_credit_repo.py:65-83 | bucket and wallet are written together; an insert of an existing bucket is refused |
| `CreditWallet.CreditRepository.Charge` | workers/converter_workers/dependencies.py:252-264 | the second refusal never happens |
| `StaleThreshold.SweepsTakeFromTheDeadOnly` | workers/converter_workers/worker.py:21-48 | over every run with any consumers, crashes and sweeps, if live consumers' jobs fit the timeout and their overhead fits the margin, no message they hold reaches the threshold or is taken from them |
| `StaleThreshold.IdleIsTimeSpent` | src/infrastructure/adapters/queues/redis_stream_job_queue.py:168-201 | in every run, however slow, a held message has been idle exactly for the time its consumer spent since the read that delivered it |
| `StaleThreshold.ThresholdIsTight` | workers/converter_workers/worker.py:46-48 | a live consumer that fills its slots and gives each message its full timeout loses the last one exactly when its overhead reaches the margin |
| `StaleThreshold.BothThresholdsAreTight` | workers/workspace_worker/consumer.py:164-171 | the same for the converter's four slots and the workspace worker's single one, the consumer being alive |
| `Revisions.ReadyLeft` | workers/workspace_worker/processor.py:353-377 | the READY rows a prune leaves: at most the retention inside the listing, all beyond it |
| `Revisions.RetentionHoldsExactlyWhen` | workers/workspace_worker/processor.py:362-371 | a prune enforces the retention if and only if no READY row lies beyond the listing or there were few enough already |
| `Revisions.NineteenOthersAreFine` | workers/workspace_worker/processor.py:362-371 | with at most 19 rows that are not READY and one READY row too many, in any order, a prune leaves at most the retention |
| `Revisions.FailuresHideRevisions` | workers/workspace_worker/processor.py:362-371 | twenty newer failures leave one READY revision too many, for every retention |
| `Revisions.RetentionHoldsForever` | workers/workspace_worker/processor.py:343-377 | over every run of requested and completed snapshots with at most 19 other rows at each prune, the READY count stays within the retention |
| `Revisions.NewestSurvive` | workers/workspace_worker/processor.py:370-377 | whichever deletes fail, non-READY rows and the newest READY ones survive |
| `Revisions.PruneIsPruned` | workers/workspace_worker/processor.py:370-377 | with deletes succeeding, the loop leaves exactly what the retention rule keeps |
| `Revisions.DoomedIsTail` | workers/workspace_worker/processor.py:370-371 | the loop visits exactly the listed READY rows with enough newer READY ones |
| `Revisions.RevisionTable.Prune` | workers/workspace_worker/processor.py:353-377 | removes exactly the stale rows whose delete works, nothing when listing fails |
| `ObjectKeys.OutputKeyIsInjective` | workers/converter_workers/processor.py:199-203 | two converted files share a key if and only if owner, job and name agree, whatever the job ids contain |
| `ObjectKeys.ArtifactKeyIsInjective` | workers/workspace_worker/processor.py:240-245 | the same for artifacts in workspace, execution and name, when workspace ids have no slash |
| `ObjectKeys.SlashesCollide` | workers/workspace_worker/processor.py:240-245 | with slashes in workspace ids, two different executions share a key |
| `ObjectKeys.KindsAreDisjoint` | workers/workspace_worker/processor.py:240-245 | a converted file and an artifact never share a key |
| `ObjectKeys.ActorKeyIsInjective` | workers/converter_workers/processor.py:225-227 | owners' keys have no slash and are distinct; the guest is nobody's id |
| `ObjectKeys.ArtifactsSurvive` | workers/workspace_worker/processor.py:174-261 | recorded artifacts are found under their keys with the bytes read and the size recorded, after any later collections of other executions and any conversions |
| `ObjectKeys.OutputsSurvive` | workers/converter_workers/processor.py:189-222 | a converted file keeps its bytes through any later collections and any other conversions |
| `ObjectKeys.ListingsHaveDistinctNames` | src/infrastructure/adapters/runtime/docker_runtime_provider.py:789-861 | the files kept from one directory listing have distinct base names |
| `ObjectKeys.BaseName` | workers/workspace_worker/processor.py:242 | the part after the last slash |
| `ObjectKeys.KeptFilesExactly` | workers/workspace_worker/processor.py:199-209 | the files kept are the first max_count entries that are no directories, in the order listed, and none is passed over before the limit |
| `ObjectKeys.PlainFilesExactly` | workers/workspace_worker/processor.py:199 | the files are all the entries that are no directories, in order |
| `ObjectKeys.OutputKeyReads` | workers/converter_workers/processor.py:199-203 | the layout of the key, written out |
| `ObjectKeys.ArtifactKeyReads` | workers/workspace_worker/processor.py:240-245 | the layout of the key, written out |
| `ObjectKeys.TrailingSlashes` | workers/converter_workers/processor.py:199-203 | slashes at the end of the base do not change a key |
| `ObjectKeys.ObjectStore.CollectArtifacts` | workers/workspace_worker/processor.py:174-261 | records one artifact per kept file, with a key exactly when it was copied, and stores exactly the copied files |
| `RetryLoop.Retry` | workers/converter_workers/retry.py:16-38 | calls exactly up to the first stopping attempt or max(1, n), sleeps one time fewer, returns the last call's ending, and sleeps at most base·(2^(n-1)-1) and (n-1)·cap in total |
| `RetryLoop.SleepIsBounded` | workers/converter_workers/retry.py:31-37 | both bounds for any number of attempts |
| `RetryLoop.BoundIsReachedExactly` | workers/converter_workers/retry.py:31 | the exponential bound is reached if and only if the cap never bites |
| `RetryLoop.WholeWrapperIsBounded` | workers/converter_workers/retry.py:17-38 | the bounds for the configured number cover every earlier stop |
| `RetryLoop.TotalSleep` | workers/converter_workers/retry.py:31-37 | the bounds in closed form |
| `RetryLoop.DelayExactly` | workers/converter_workers/retry.py:31 | the k-th delay before jitter is base·2^(k-1), or the cap if that is less |
| `UploadLimits.CeilDivCovers` | src/infrastructure/config/settings.py:973 | n parts of a size cover a file if and only if n is at least the rounded-up quotient |
| `UploadLimits.SuggestionIsLeast` | src/infrastructure/config/settings.py:973-975 | a part size passes the part-count check if and only if it is at least the suggested one |
| `UploadLimits.AcceptedExactlyWhen` | src/infrastructure/config/settings.py:921-991 | the accepted settings, in terms of sizes alone |
| `UploadLimits.RejectedForTheFirstReason` | src/infrastructure/config/settings.py:921-991 | a rejection names the first thing wrong, in the order ceiling, tier caps, part size, threshold |
| `UploadLimits.EveryFileFits` | src/infrastructure/config/settings.py:937-982 | under accepted settings every file within any tier's cap needs at most 10 000 parts |
| `UploadLimits.SuggestionHelps` | src/infrastructure/config/settings.py:973-991 | following the suggestion removes that error |

## Left out

- Liveness: a crash after the claim leaves the row RUNNING, and its redelivery only acknowledges; the code does not promise that every execution settles.
- Calls that take effect and then raise are modelled for `consume`, telemetry writes, claims, execution updates and the work queue's commands. Where the caller swallows the error, as for conversion-row updates, such a call is the same as one that works. An event or upload of the converter that lands and then raises is modelled as not having landed.
- The dead-letter streams are bounded (`maxlen`), so old dead letters are evicted; here a dead letter stays.
- Database failures inside a cleanup sweep: objects already removed would be gone while the rows stay.
- Row locks and isolation levels of the database: every interleaving of the statements is allowed, so locks could only remove schedules.
- `handle_snapshot` inside the work queue is one step that returns or raises; only its pruning is modelled in detail.
- XAUTOCLAIM in the work queue may claim any pending entry; the idle test is the subject of `StaleThreshold.dfy` alone. Its limit of twenty entries only narrows the choice.
- IdleIsTimeSpent: covers messages the consumer still holds; one whose acknowledgement failed stays pending with nobody working on it.
- RetentionHoldsForever: a new revision is the newest row; ties of creation times are not modelled.
- BothDeductExactlyWhen: two overlapping deliveries; three or more, and crashes or deletions while they overlap, are not stated.
- ChargesAddUp: a retried charge uses the time of its first attempt; a missing wallet row is a row of zeros.
- The class `Processor` runs one delivery on a row nobody else deletes; deletions are the subject of the lemmas on its effects.
- Begin: a negative batch size is not modelled.
- Cancellation of the telemetry task by the ten-second timeout in `stop`, concurrent `flush_now` calls and start-up.
- Shutdown of the workspace worker by task cancellation is a crash in the model; a failing read of the queue is a turn without work.
- The converter's multi-stream consumer, beyond what a live consumer can hold.
- The byte decoding in front of the event-stream reader, and the JSON inside frames.
- Storage in `ObjectKeys.dfy` is a map: an upload that raises leaves no object.
- Converters, encryption, temporary files, tiers and the price of a conversion; Docker, Minio, Stripe, email and SMS.
- The other settings checks, the MCP tools, OAuth metadata, schemas, normalisers, request cache and React code: wiring, or easy single-branch facts.
