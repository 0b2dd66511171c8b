# BFrost: verified models of its concurrency and bookkeeping

BFrost is a local job platform written as single-threaded async TypeScript. This project models its
hardest code in Dafny and proves what that code promises. Each stretch between two awaits is one
step; clocks, ids, `hasWork`, handlers, URL decoding and the outcome of every file-system call are
parameters. Times are integer milliseconds. A module either holds a transition system with lemmas
about every interleaving, or functions on values with lemmas about them; where the source updates
state in place, a class with the source's fields has one method per stretch of code, proved to be the
corresponding step.

| file | what it models |
|---|---|
| `ExecutionPool.dfy` | per-worker locks with direct hand-off, and the bounded slot pool |
| `JobProtocol.dfy` | trigger, claim, execution, retry and time-out of one job; bus-wake generations |
| `JobHistory.dfy` | whole runs of the protocol, read from their steps |
| `ReloadCoalescing.dfy`, `TickCoalescing.dfy` | coalesced schedule reloads and pipeline ticks |
| `PromiseChain.dfy` | the promise-chain lock of the run store, the queue and the local model runtime |
| `RunStore.dfy` | the run history: collapse of missed slots, retention, attempts, reconciliation |
| `SlotClaims.dfy`, `CronSearch.dfy` | once-only slot claims; the backward search for a missed slot |
| `BusItems.dfy`, `QueueStore.dfy` | merge of copies; the table with sort numbers as an ordered list |
| `ConsumerQuery.dfy`, `ItemBus.dfy` | the indexed consumer listing; publishing and consumer metadata |
| `ReadCache.dfy` | the generation-guarded read cache |
| `Restore.dfy` | the restore at start-up, interrupted by crashes |
| `ApprovalDiff.dfy` | the review diff |
| `Routing.dfy`, `RouteValidation.dfy` | the HTTP router, and the validator that must agree with it |
| `NetErrors.dfy` | reachability over the error graph |
| `Common.dfy` | options, filters and the stable descending sort |

`dafny verify dfyconfig.toml` checks the whole project.

## What turned out not to hold

The model follows the code. Each point names the lemmas: a concrete input or run on which the
documented behaviour fails, the exact condition under which it holds, or both.

- A scheduled slot that finds no work clears the running flag without looking at the job again, so a
  second handler can start next to a live one (`BlindSkipAdmitsTwoHandlers`, `SkipWriteHarmfulIff`).
- A recorded slot writes the derived running flag back; if the flag comes from an abandoned handler
  alone and no final write is to come, the job stays busy until a start-up sweep resets it
  (`RecordHarmfulIff`, `WedgeReachable`, `WedgedJobNeverRuns`).
- A tick that fails drops the requests made during it, unless the starter of an earlier normal tick
  has still to go on (`FailedTickDropsIff`, `FailedTickDropsTheRequest`).
- Writers invalidate the read cache before an await and commit after it; a read that looks in between
  leaves a stale cache (`StaleCacheReachable`). So does a read that looks while the path points to a
  database that differs, with no write at all (`SwapAloneGoesStale`). `LookHarmfulIff` has both.
- Of three copies of an item, the newest entry of a consumer can lose to the oldest
  (`NewestCarrierCanLose`, `NewestCarrierWinsIff`), and an empty newer entry un-handles an item
  (`MergeUnhandlesIff`).
- The indexed consumer listing and the reaper read only the state-change time, the prune reads the
  first timestamp present (`ListingAgreesIff`, `ReaperAgreesIff`).
- A schedule with seconds can have more slots in the 48-hour window than the search walks
  (`SecondSchedulesDoNotFit`, `SearchCorrectIff`).
- A restore that fails after removing the WAL leaves the old database without it
  (`FailedRenameLosesTheLog`, `FailedRestoreIsHarmlessIff`), and a crash after the swap makes the next
  boot copy the restored database over the kept outgoing one (`OutgoingKeptIff`).
- Methods that contain a colon or a space make the two route pattern keys ambiguous
  (`ColonMethodsCollide`, `DuplicateChecksAgreeIff` for a pair, `PatternCheckAgreesIff` for a list), and
  a malformed path part can throw on one route although another fits (`MalformedPartHidesAFit`,
  `MatchThrowsIff`).

## Model

| member | source | states |
|---|---|---|
| ExecutionPool.StepKeepsInv | src/scheduler.ts:223-297 | every step of `enqueueJobExecution` keeps the whole pool invariant: a worker is busy exactly when one run holds its lock, lock queues stand only behind a holder, the counter is the number of slot holders and at most the limit, slot queues only while full, both queues FIFO |
| ExecutionPool.ReachableInv | src/scheduler.ts:223-297 | the invariant holds after any interleaving of calls, resumptions and settled bodies |
| ExecutionPool.BodiesBoundedAndSerialPerWorker | src/scheduler.ts:205-222 | never more bodies run than the limit, and never two of one worker |
| ExecutionPool.NoDeadlock | src/scheduler.ts:278-297 | while some run is unfinished, some run can take a step |
| ExecutionPool.EveryRunFinishes | src/scheduler.ts:278-297 | once calls stop arriving, every interleaving has at most five steps a run, and one that cannot be extended has finished every run |
| ExecutionPool.EveryBodyRuns | src/scheduler.ts:278-297 | read from the steps: the runs are those of the calls in their order, and once nothing can go on any more the body of every single one has been started and has settled |
| ExecutionPool.NoBodyRunsTwice | src/scheduler.ts:278-297 | no body is ever started twice |
| ExecutionPool.StepDoesWork | src/scheduler.ts:278-297 | every step other than a new call strictly decreases the work left |
| ExecutionPool.JobPool.AcquireWorkerLock | src/scheduler.ts:229-239 | takes a free worker lock or joins its queue: the new state is that of the specification step |
| ExecutionPool.JobPool.ReleaseWorkerLock | src/scheduler.ts:241-249 | hands the lock directly to the first waiter, or frees it and drops its entries |
| ExecutionPool.JobPool.AcquireJobSlot | src/scheduler.ts:251-263 | takes a free slot or joins the FIFO |
| ExecutionPool.JobPool.ReleaseJobSlot | src/scheduler.ts:265-272 | gives the slot back and lets at most one waiter in |
| ExecutionPool.JobPool.EnqueueJobExecution | src/scheduler.ts:278-282 | the call up to its first await keeps the invariant; the new run has the lock if the worker was free and waits for it otherwise |
| ExecutionPool.JobPool.ResumeWithLock | src/scheduler.ts:282-284 | a run resumed with its lock has a slot if one was free and waits for one otherwise; invariant kept |
| ExecutionPool.JobPool.ResumeWithSlot | src/scheduler.ts:284-288 | a run resumed with its slot starts its body and no other run changes; invariant kept |
| ExecutionPool.JobPool.BodySettled | src/scheduler.ts:286-297 | both `finally` blocks in one stretch, after success or failure: the first in line for the slot and for the lock are given them; invariant kept |
| JobProtocol.StepKeepsInv | src/scheduler.ts:1191-1286 | every step of the trigger, claim, execution, retry and time-out protocol keeps: at most one claimant, at most one live handler, live handlers are covered by queued, running or abandoned; the two blind skip writes are restricted to jobs with no run in progress |
| JobProtocol.NeverTwoHandlers | src/scheduler.ts:1521-1555 | over any run in which the blind skip writes meet no run in progress, a job never has two live handlers, abandoned ones included, and a live handler makes the job report busy |
| JobProtocol.InvMeansSingleHandler | src/scheduler.ts:325-348 | the invariant implies what the abandoned-run guard promises: one live handler, and then the job is busy |
| JobProtocol.SkipWriteHarmfulIff | src/scheduler.ts:1352-1366 | clearing the running flag without a re-check leads to two live handlers in some continuation if and only if a run is between its start and the end of its last attempt |
| JobProtocol.IdleJobSkipsSafely | src/scheduler.ts:1092-1101 | the same write on a job that reports neither queued nor running is harmless |
| JobProtocol.BlindSkipAdmitsTwoHandlers | src/scheduler.ts:1311-1366 | a concrete run from the initial state in which the skip of a scheduled slot admits a second handler next to a live one |
| JobProtocol.RecordedSlotWedges | src/scheduler.ts:978-992 | a record made while only an abandoned handler makes the job count as running becomes a wedge when that handler ends |
| JobProtocol.WedgeReachable | src/scheduler.ts:978-992 | an example run from the initial state that ends in a wedge; the exact condition is `RecordHarmfulIff` |
| JobProtocol.RecordHarmfulIff | src/scheduler.ts:978-992 | writing the derived running flag back makes a wedge reachable if and only if the saved flag is not set, an abandoned handler is, and no final write is to come: as long as the flag has a run behind it, which every run without such records keeps |
| JobProtocol.BusyMeansSomethingIsLeft | src/scheduler.ts:325-348 | along every interleaving without such records and harmful skip writes, a job that reports busy has a claimant, a final write to come, or a live abandoned handler |
| JobProtocol.WedgedJobNeverRuns | src/scheduler.ts:978-992 | a job that is wedged with no eligibility check awaited stays so: no trigger ever starts a handler, until a start-up sweep resets the flag |
| JobProtocol.NoWakeIsLost | src/scheduler.ts:651-703 | after any interleaving: handled never exceeds requested, and every requested wake generation was checked, waived (disabled), left to the tick, or is still pending with a timer, a wake in flight or a run that will reschedule it |
| JobProtocol.QuietJobHasServedItsWakes | src/scheduler.ts:651-703 | with all timers fired and all calls ended, every generation was checked, waived or left to the tick |
| JobProtocol.OnlyRunlessJobsDefer | src/scheduler.ts:684-689 | a wake is left to the tick only over an abandoned handler or a stale flag, never over a claimant |
| JobProtocol.WakeStep | src/scheduler.ts:651-703 | every step keeps the wake counters consistent and the latest generation accounted for |
| JobProtocol.JobRuntime.BuildJobState | src/scheduler.ts:1906-1913 | the busy report is queued, saved running, or abandoned; a job that is not reported busy has no live handler at all |
| JobProtocol.JobRuntime.SchedulePendingBusWake | src/scheduler.ts:656-667 | leaves no unhandled generation without a timer, and arms none without one |
| JobProtocol.JobRuntime.ScheduleBusWake | src/scheduler.ts:651-654 | keeps the invariant; a published item always ends up unhandled with a timer armed |
| JobProtocol.JobRuntime.BusWakeTimerFires | src/scheduler.ts:661-671 | keeps the invariant; an unhandled generation is then carried by a wake in flight |
| JobProtocol.JobRuntime.BusWakeGate | src/scheduler.ts:672-689 | keeps the invariant; goes on to `runJob` exactly for an enabled job that is not busy, over which nothing is live; a disabled one is marked handled, a busy one left unhandled and deferred only over an abandoned handler or a stale flag |
| JobProtocol.JobRuntime.BusWakeEnds | src/scheduler.ts:690-703 | keeps the invariant; the generation is marked handled exactly if `runJob` returned, has then had an eligibility check of its own or a later one, and what is unhandled has a timer |
| JobProtocol.JobRuntime.SlotFires | src/scheduler.ts:856-864 | a cron slot calls `runJob` whatever else is going on; invariant kept |
| JobProtocol.JobRuntime.TickSelects | src/scheduler.ts:783-786 | so does the pipeline tick for a job it selects; invariant kept |
| JobProtocol.JobRuntime.RunJobFirstCheck | src/scheduler.ts:1209-1217 | keeps the invariant; the job is probed exactly if it is enabled and not busy, over nothing live, and the probe answers for every generation so far |
| JobProtocol.JobRuntime.HasWorkAnswers | src/scheduler.ts:1311-1363 | with work the call goes on to the re-check, for every kind of trigger; without, a wake returns and any other call is over, and only a scheduled slot clears the running flag, which loses no wake and admits a second handler exactly when it hits a run in progress |
| JobProtocol.JobRuntime.RunJobSecondCheck | src/scheduler.ts:1225-1251 | keeps the invariant; a job that is not busy is claimed, over nothing live and as the only claim, and a busy one refuses |
| JobProtocol.JobRuntime.TriggerJobNow | src/scheduler.ts:522-543 | keeps the invariant; accepted exactly if the job is not busy, and then the only claimant; refused over any live handler, and then nothing changes |
| JobProtocol.JobRuntime.ExecuteQueuedJob | src/scheduler.ts:1269-1286 | keeps the invariant; the first attempt is prepared, with no handler of the job live and the job busy |
| JobProtocol.JobRuntime.LaunchAttempt | src/scheduler.ts:1534-1548 | keeps the invariant; the launched handler is the only live one, and the job reports busy |
| JobProtocol.JobRuntime.AttemptSettles | src/scheduler.ts:342-347 | keeps the invariant; goes on to the next attempt exactly on a retry; nothing is left live, so it starts alone |
| JobProtocol.JobRuntime.DeadlineFires | src/scheduler.ts:333-341 | keeps the invariant; the handler stays the only live one, the job stays busy over it, and no claimant is left that could launch another |
| JobProtocol.JobRuntime.OrphanSettles | src/scheduler.ts:342-345 | keeps the invariant; when the guard is lifted nothing is live |
| JobProtocol.JobRuntime.WriteFinalState | src/scheduler.ts:1561-1570 | keeps the invariant; after the flag is cleared no run is in progress, and what is still live is abandoned and guarded |
| JobProtocol.JobRuntime.RunCompletes | src/scheduler.ts:1689-1690 | keeps the invariant; a wake returns to its tail and any other call is over; a pass that ends leaves no unhandled generation without a timer |
| JobProtocol.JobRuntime.RecordSkippedSlot | src/scheduler.ts:978-992 | keeps the invariant, so it never admits a second handler; it makes a wedge reachable exactly when the written flag comes from an abandoned handler alone |
| JobProtocol.JobRuntime.RecordUnrecoveredSlot | src/scheduler.ts:1092-1101 | loses no wake, and admits a second handler exactly when it hits a run in progress; otherwise it keeps the invariant |
| JobHistory.HandledWasServed | src/scheduler.ts:651-703 | along every run: whatever generation is marked handled, some step has marked it because its job or worker was disabled, because its eligibility check found no work, or after its handler was launched |
| JobHistory.ReadyCallsLaunch | src/scheduler.ts:1219-1251 | a call whose `hasWork` answered true never returns to its wake without having launched its handler |
| JobHistory.NoRunWithoutHandler | src/scheduler.ts:1534-1570 | no run of any trigger settles, times out, retries or writes its result without having launched its handler |
| JobHistory.PublishedWorkStarts | src/scheduler.ts:651-703 | from every job at rest, an item published to it with work gets its handler launched |
| JobHistory.PublishedWorkEnds | src/scheduler.ts:690-703 | and when the handler is done the generation is handled and the job at rest again |
| JobHistory.NoCallIsStuck | src/scheduler.ts:1191-1286 | every call in flight can take its next step, or waits queued behind a run that can |
| ReloadCoalescing.ReturnedCallsAreServed | src/scheduler.ts:811-831 | a call of `reloadSchedules` that returns normally has had a complete reload that began no earlier than the call; one that throws saw its reload fail |
| ReloadCoalescing.OneReloadAtATime | src/scheduler.ts:811-831 | no two reloads are ever going on at once |
| ReloadCoalescing.NoMoreReloadsThanCalls | src/scheduler.ts:811-831 | coalescing never multiplies: no more reloads than calls |
| ReloadCoalescing.NoCallIsStuck | src/scheduler.ts:811-831 | for every waiting call the step that brings it on can be taken: its own return once its flight has settled, else the end of the reload or the loop test of its flight |
| ReloadCoalescing.EveryCallReturns | src/scheduler.ts:811-831 | once calls stop arriving, every interleaving has at most four steps and one for each call, and one that cannot be extended has closed the flight and returned every call |
| ReloadCoalescing.CallsEndAsReported | src/scheduler.ts:811-831 | read from the steps: a call that returns comes before a reload of its flight that began after it and was reported as done, with no failure reported; a call that throws has seen a failure reported |
| ReloadCoalescing.LateRequestStartsARound | src/scheduler.ts:811-831 | a request between the end of a reload and the test of the loop still gets a later reload |
| ReloadCoalescing.ScheduleReloader.ReloadSchedules | src/scheduler.ts:811-826 | joins the flight and sets the flag, or opens a flight and starts its first round |
| ReloadCoalescing.ScheduleReloader.ReloadEnds | src/scheduler.ts:822-823 | a reload resolves or rejects |
| ReloadCoalescing.ScheduleReloader.LoopGoesOn | src/scheduler.ts:819-828 | another round if somebody asked meanwhile; else the flight ends and the variable is cleared, after failures too |
| ReloadCoalescing.ScheduleReloader.CallerResumes | src/scheduler.ts:812-830 | the caller returns or throws as its flight did |
| TickCoalescing.RequestsGetAFollowUp | src/scheduler.ts:415-442 | a request made during a tick that ends normally is followed by a tick that starts later |
| TickCoalescing.FollowedUpIff | src/scheduler.ts:415-442 | the exact condition: if nobody calls again, then in any order of what is left a request made during the latest tick, now cleared, is followed by a later tick if and only if some tick that ended normally, this one or an earlier one, has a starter that has still to go on |
| TickCoalescing.FailedTickDropsIff | src/scheduler.ts:423-442 | so a tick that failed drops the requests made during it if and only if the starters of all earlier normal ticks have gone on already |
| TickCoalescing.ComesToRest | src/scheduler.ts:415-422 | once calls stop, at most three further stretches happen for every call ever made: follow-ups cannot chain on their own |
| TickCoalescing.EveryRequestIsServed | src/scheduler.ts:415-442 | read from the steps: at rest and with no failing tick, every call was followed by a whole tick that began no earlier than it |
| TickCoalescing.FailedTickDropsTheRequest | src/scheduler.ts:423-442 | an example run on which the request is dropped; the exact condition is `FailedTickDropsIff` |
| TickCoalescing.OneTickAtATime | src/scheduler.ts:423-442 | two tick bodies never run at once |
| TickCoalescing.NoMoreTicksThanCalls | src/scheduler.ts:419-422 | follow-ups chain only when somebody asks: no more ticks than calls |
| TickCoalescing.TicksNeverOutnumberCalls | src/scheduler.ts:419-422 | the same with the calls counted from the steps |
| TickCoalescing.StepKeepsInv | src/scheduler.ts:423-442 | every step, other calls in the gap between clearing and continuing included, keeps the coalescing invariant |
| TickCoalescing.PipelineTicker.StartOrJoin | src/scheduler.ts:423-432 | joins the tick in flight and sets the flag, or starts one |
| TickCoalescing.PipelineTicker.RunPipelineTick | src/scheduler.ts:423-432 | a call from outside, up to its await |
| TickCoalescing.PipelineTicker.FinallyClears | src/scheduler.ts:429-431 | the `finally` clears the in-flight variable |
| TickCoalescing.PipelineTicker.StarterContinues | src/scheduler.ts:433-442 | the follow-up is started only by the starter of a tick that ended normally |
| PromiseChain.MutualExclusionInArrivalOrder | src/jobs/queue.ts:880-922 | at most one ticket is inside, and whoever is past its gate comes after released tickets only |
| PromiseChain.InterleavingEqualsSequential | src/scheduler-runs.ts:18-24 | however load, modify and save steps of the calls interleave, the document is what the operations of those calls that took the step of saving give one after another in the order of the calls |
| PromiseChain.SavedRunsAreComplete | src/scheduler-runs.ts:18-24 | nothing is left out: once every call has saved, the document is what all the operations give in the order of the calls |
| PromiseChain.CompleteRunExists | src/jobs/queue.ts:893-922 | for any operations there is a run in which all of them are called, get the lock and save |
| PromiseChain.UnsavedWasRefusedOrFailed | src/jobs/queue.ts:900-922 | a call that is over without having been refused the file lock has been inside, and one that got the lock stays inside until it leaves |
| PromiseChain.SnapshotIsCurrent | src/scheduler-runs.ts:346-362 | what a call has loaded is still the document when it saves |
| PromiseChain.NoDeadlock | src/jobs/queue.ts:880-922 | while a ticket is unreleased some ticket can step, nested calls, failing bodies and file-lock time-outs included |
| PromiseChain.NestedTicketWouldWait | src/jobs/queue.ts:884-892 | a nested call that queued instead of passing through would wait as long as its caller is inside |
| PromiseChain.NestedCallsHoldTheGate | src/jobs/queue.ts:884-892 | a nested call passes straight through: the caller cannot leave before it is back, nobody gets in meanwhile, and afterwards everything is as before |
| PromiseChain.StepKeepsInv | src/job-runner.ts:336-351 | every step keeps the chain and the document invariant |
| PromiseChain.ChainLock.Enter | src/jobs/queue.ts:893-901 | publishes the own gate and remembers the previous one |
| PromiseChain.ChainLock.PreviousGateOpens | src/jobs/queue.ts:900-905 | waits for the previous gate |
| PromiseChain.ChainLock.AcquireFileLock | src/jobs/queue.ts:861-878 | with the lock the ticket is inside and can load; a file lock that cannot be had releases it unsaved |
| PromiseChain.ChainLock.LoadDocument | src/scheduler-runs.ts:346-355 | the ticket inside holds the current document |
| PromiseChain.ChainLock.SaveDocument | src/scheduler-runs.ts:357-362 | the document becomes the operation applied to the document before |
| PromiseChain.ChainLock.OpenGate | src/jobs/queue.ts:906-922 | the ticket is released after success and failure alike, saved exactly if it had saved |
| RunStore.PerformKeepsInv | src/scheduler-runs.ts:114-366 | every operation keeps the history sorted newest first, at most 200 long, with distinct ids, running exactly when unfinished, attempts in order, and at most one recovery entry per job |
| RunStore.RunAllKeepsInv | src/scheduler-runs.ts:114-366 | so does every sequence of operations |
| RunStore.MissCollapses | src/scheduler-runs.ts:217-272 | a further missed slot leaves one entry for the job: the newest id, the later slot time with its message, one slot more than all the entries it absorbs, every other record untouched |
| RunStore.SlotSumAppend | src/scheduler-runs.ts:236-237 | the slots of a backlog are the sum of its parts |
| RunStore.SlotSumOne | src/scheduler-runs.ts:236-237 | and one entry counts for its stored count, or for one slot without a count |
| RunStore.MissCountsOneMore | src/scheduler-runs.ts:217-272 | from one entry of count n a further missed slot leaves one of count n + 1 |
| RunStore.MissesAreCounted | src/scheduler-runs.ts:217-272 | any number of missed slots of a job without an entry leave exactly one, which counts all of them, and touch no other record |
| RunStore.EntriesAre | src/scheduler-runs.ts:197-199 | which records are the entries of a job: skipped, by the schedule, as missed, in document order |
| RunStore.FirstMissAdds | src/scheduler-runs.ts:217-272 | the first missed slot adds one entry for one slot; others are lost to retention only |
| RunStore.FinishClosesOneRun | src/scheduler-runs.ts:160-185 | finishing sets the outcome of one run where it stands and touches no other record |
| RunStore.AttemptIsRecordedOnce | src/scheduler-runs.ts:137-158 | an attempt replaces the one of its number or is added in order; nothing else changes |
| RunStore.StartAddsOneRun | src/scheduler-runs.ts:114-135 | a started run joins the history; while there is room nothing is dropped |
| RunStore.RetentionDropsOldest | src/scheduler-runs.ts:346-362 | what retention drops is no newer than anything it keeps |
| RunStore.AbandonLeavesNoneRunning | src/scheduler-runs.ts:322-344 | after the start-up reconciliation no run is left running: those that were are ended as errors where they stand, and every other record is as it was |
| RunStore.DismissRemovesOneEntry | src/scheduler-runs.ts:282-303 | dismissing removes exactly that recovery entry or nothing |
| RunStore.DismissJobsRemovesTheirs | src/scheduler-runs.ts:305-320 | dismissing for some jobs removes their recovery entries and nothing else |
| RunStore.InterleavedStoreIsSequential | src/scheduler-runs.ts:18-24 | interleaved operations on the store equal running them one after another in submission order, and keep its invariant |
| RunStore.InterleavedStoreIsComplete | src/scheduler-runs.ts:18-24 | and when all the calls save, none of them is lost, in whatever order their steps come |
| RunStore.RunDocument.Load | src/scheduler-runs.ts:346-355 | the newest records up to the clamped limit |
| RunStore.RunDocument.Save | src/scheduler-runs.ts:357-362 | stores the sorted and trimmed list |
| RunStore.RunDocument.StartSchedulerRun | src/scheduler-runs.ts:114-135 | adds a running record |
| RunStore.RunDocument.RecordSchedulerRunAttempt | src/scheduler-runs.ts:137-158 | reports whether the run exists, and saves only then |
| RunStore.RunDocument.FinishSchedulerRun | src/scheduler-runs.ts:160-185 | reports whether the run exists, and saves only then |
| RunStore.RunDocument.RecordMissedScheduledRun | src/scheduler-runs.ts:217-272 | returns the first entry, for one slot, or the job's entry with one slot more |
| RunStore.RunDocument.DismissSkippedSchedulerRun | src/scheduler-runs.ts:282-303 | dismisses a recovery entry if there is one of that id |
| RunStore.RunDocument.DismissSkippedScheduledRunsForJobs | src/scheduler-runs.ts:305-320 | dismisses the recovery entries of the given jobs |
| RunStore.RunDocument.AbandonRunningSchedulerRuns | src/scheduler-runs.ts:322-344 | ends every run that was left running and returns exactly those, in order |
| BusItems.DedupeIds | src/jobs/queue.ts:391-407 | exactly the input ids survive, once each, in order of first appearance |
| BusItems.DedupeIdentity | src/jobs/queue.ts:391-407 | a queue without duplicates is unchanged |
| BusItems.DedupeIdempotent | src/jobs/queue.ts:391-407 | deduplicating twice is deduplicating once |
| BusItems.WinnerKeepsFields | src/jobs/queue.ts:369-403 | every field but the metadata is that of the last copy of maximal anchor |
| BusItems.AnchorIsFirstGiven | src/jobs/queue.ts:367-372 | the anchor is the first of the four timestamps that is not empty, and zero if it cannot be read |
| BusItems.MetadataIsUnion | src/jobs/queue.ts:386-404 | the namespaces of the merge are those of all copies together |
| BusItems.MetadataSource | src/jobs/queue.ts:391-404 | whose entry survives for a namespace |
| BusItems.SourceUnique | src/jobs/queue.ts:391-404 | that copy is determined |
| BusItems.WinnerKeepsMetadata | src/jobs/queue.ts:386-404 | the winning copy keeps its own entries |
| BusItems.NewestCarrierWinsIff | src/jobs/queue.ts:386-389 | the comment says the newer entry wins per consumer: the newest carrier of a namespace does exactly when no earlier copy outdates it, or nobody else carries it |
| BusItems.NewestCarrierWinsAmongTwo | src/jobs/queue.ts:386-389 | of two copies it always does, and its entry is the merged one |
| BusItems.NewestCarrierCanLose | src/jobs/queue.ts:386-389 | of three it can lose to the oldest |
| BusItems.DedupeQueueById | src/jobs/queue.ts:391-407 | the map and order loop computes the specified deduplication |
| BusItems.NormalizingKeepsAnchor | src/jobs/queue.ts:615-630 | filling in the state-change time never moves an item in its life cycle, and the filled-in time is the anchor itself unless the first time given is an empty text and a later one is not |
| BusItems.NormalizingFillsIn | src/jobs/queue.ts:615-630 | what is filled in for each field left out, and that nothing given is changed |
| BusItems.NormalizingStoredItems | src/jobs/queue.ts:615-630 | normalising complete items changes nothing |
| QueueStore.RepresentsOne | src/jobs/queue.ts:332-341 | a table with sort numbers stands for one list only |
| QueueStore.RepresentsDistinct | src/jobs/queue.ts:417-504 | its ids are distinct and its sort numbers pairwise distinct |
| QueueStore.UpsertInPlace | src/jobs/queue.ts:458-478 | an upsert replaces the item where it stands or appends it |
| QueueStore.UpsertAllIds | src/jobs/queue.ts:458-478 | upserts never reorder: known ids stay, new ones follow in argument order, each once |
| QueueStore.UpsertAllItems | src/jobs/queue.ts:458-478 | of the items of one id the last one handed in is stored, and items of other ids are kept |
| QueueStore.UpdateIsUpsert | src/jobs/queue.ts:493-504 | updating by read, change and upsert changes exactly the items of the given ids, in place |
| QueueStore.FilterRepresents | src/jobs/queue.ts:480-491 | a table from which rows are deleted stands for the filtered list |
| QueueStore.ReaperAgreesIff | src/jobs/queue.ts:518-534 | the reaper keeps exactly what pruning shows if and only if no item without a state-change time is alive by another of its timestamps |
| QueueStore.AliveIff | src/jobs/queue.ts:607-613 | an item is alive exactly if its first timestamp that is not empty can be read and is less than seven days old |
| QueueStore.QueueTable.Select | src/jobs/queue.ts:318-330 | returns the matching items in sort order |
| QueueStore.QueueTable.LoadQueue | src/jobs/queue.ts:332-341 | returns the list |
| QueueStore.QueueTable.NextOrder | src/jobs/queue.ts:452-452 | one more than the largest sort number, after deletions too |
| QueueStore.QueueTable.InsertQueueItem | src/jobs/queue.ts:443-456 | appends, or returns the stored item and changes nothing |
| QueueStore.QueueTable.UpsertQueueItems | src/jobs/queue.ts:458-478 | the list becomes the specified upsert: the last item handed in of each id, and the others as they were |
| QueueStore.QueueTable.DeleteQueueItems | src/jobs/queue.ts:480-491 | exactly the items of the given ids are gone, the others are left in their order, and the result is the number of given ids that were there |
| QueueStore.QueueTable.SaveQueue | src/jobs/queue.ts:417-431 | the list becomes the argument, normalised and deduplicated |
| QueueStore.QueueTable.UpdateQueueItems | src/jobs/queue.ts:493-504 | upserts the updated items and returns them, whatever the callback does; when it keeps ids, exactly the items of the given ids are changed, where they stand |
| QueueStore.QueueTable.ReapExpiredQueueItems | src/jobs/queue.ts:518-534 | keeps exactly the items whose state-change time can be read and is less than seven days old, in order, and counts the others |
| ConsumerQuery.PrefilterIff | src/jobs/item-bus.ts:182-194 | selecting first changes a scan exactly if it drops something the scan keeps |
| ConsumerQuery.ListingAgreesIff | src/jobs/item-bus.ts:182-194 | for every queue, filter and clock: the indexed listing equals loading, pruning and filtering everything if and only if no live accepted item has an empty or too early state-change text |
| ConsumerQuery.ListedIff | src/jobs/item-bus.ts:149-194 | which items a consumer is shown, in plain terms: alive, not before the cutoff, of an accepted type, tag and state, and not handled if so asked |
| ConsumerQuery.CanonicalListingAgrees | src/jobs/item-bus.ts:182-194 | with canonical timestamps it always does |
| ConsumerQuery.ReaperHidesNothing | src/jobs/queue.ts:507-534 | with canonical timestamps reaping changes no consumer listing |
| ConsumerQuery.QueryQueue | src/jobs/queue.ts:277-330 | exactly the items that satisfy each given clause, in table order |
| ConsumerQuery.ListItemsForConsumer | src/jobs/item-bus.ts:182-194 | query, prune, filter |
| ItemBus.PublishedOnce | src/jobs/item-bus.ts:125-146 | over any publishes each new id is stored as first published and announced exactly once, in order of first publication, and what was on the bus is untouched |
| ItemBus.ItemBus.PublishItem | src/jobs/item-bus.ts:125-146 | stores a new id at the end as it is and announces its type, producer and state; a taken id is refused exactly for another producer or type, and neither changes nor announces anything |
| ItemBus.ConsumersDoNotInterfere | src/jobs/item-bus.ts:7-9 | metadata writes of two consumers commute |
| ItemBus.WritingMerges | src/jobs/item-bus.ts:197-207 | writing replaces the consumer's entries of the keys written and keeps its others, all other namespaces and the rest of the item |
| ItemBus.OtherConsumersSeeTheSame | src/jobs/item-bus.ts:197-207 | what one consumer writes changes no other consumer's listing but for its own namespace |
| ItemBus.StampedItemsAreNotListedAgain | src/jobs/item-bus.ts:171-177 | a consumer that excludes handled items is not shown again what it has stamped |
| ItemBus.MergedHandledIff | src/jobs/queue.ts:386-389 | a merge is handled by a consumer exactly when the surviving entry is not empty |
| ItemBus.MergeKeepsHandled | src/jobs/queue.ts:386-389 | without empty entries merging keeps every handled stamp and invents none |
| ItemBus.MergeUnhandlesIff | src/jobs/queue.ts:386-404 | two copies lose a stamp if and only if the newer carries an empty entry over a handled older one |
| ReadCache.CacheEqualsTable | src/jobs/queue.ts:551-605 | along any run in which no read that may still be installed looks inside a write or at another database that differs, a cached value for the current database equals its table |
| ReadCache.AtomicWritesKeepCache | src/jobs/queue.ts:551-605 | so with atomic writes it always does, under any interleaving of reads, joined reads and writes, path swaps included as long as no such read sees another database that differs; without path swaps that holds of itself |
| ReadCache.LookHarmfulIff | src/jobs/queue.ts:568-605 | a look makes a stale cache possible if and only if nothing was invalidated since the read started and either a write is between its invalidation and its commit, or the database seen differs from the one the read was started for |
| ReadCache.StaleCacheReachable | src/jobs/queue.ts:417-431 | a concrete interleaving in which the cache differs from the table: the invalidation comes before an await and the commit after it |
| ReadCache.SwapAloneGoesStale | src/jobs/queue.ts:568-605 | a concrete interleaving without any write in which the cache differs from the table: the path is swapped before the look and back before the result is installed |
| ReadCache.SupersededReadIsNotInstalled | src/jobs/queue.ts:568-605 | a read superseded by an invalidation is returned but not cached |
| ReadCache.InvalidationSupersedes | src/jobs/queue.ts:562-566 | generations only grow, and an invalidation supersedes every read started before it |
| ReadCache.ResultIsATableState | src/jobs/queue.ts:568-605 | what a read returns was the table at some moment of its lifetime |
| ReadCache.NoReaderIsStuck | src/jobs/queue.ts:568-605 | a caller that waits can always be brought on |
| ReadCache.QueueReadCache.InvalidateQueueReadCache | src/jobs/queue.ts:562-566 | drops the value and supersedes every read started so far; cache invariant kept |
| ReadCache.QueueReadCache.LoadQueueForRead | src/jobs/queue.ts:568-590 | a hit, exactly when something is cached for the current database, is its table; otherwise the call joins the read in flight or starts one; cache invariant kept |
| ReadCache.QueueReadCache.ReadSettles | src/jobs/queue.ts:585-592 | a read that is over leaves the in-flight slot, and a later read keeps its place there |
| ReadCache.QueueReadCache.CallerResumes | src/jobs/queue.ts:596-605 | the caller is given what its read saw; it is installed exactly if nothing was invalidated since and the database is the same, and then is the current table |
| ReadCache.QueueReadCache.ReadFails | src/jobs/queue.ts:585-595 | a read that fails leaves the slot, takes only its own callers with it and touches no cached value |
| SlotClaims.AtMostOnce | src/scheduler-locks.ts:4-53 | over any run of claims with a clock that never goes back and slots no older than 14 days, each slot of a command is granted at most once, although every claim prunes first |
| SlotClaims.RegrantedIff | src/scheduler-locks.ts:11-30 | a claimed slot is granted again if and only if it is by then older than the retention |
| SlotClaims.GrantedIff | src/scheduler-locks.ts:11-30 | in terms of the earlier claims alone: granted if and only if the slot was never claimed before or is out of retention by now |
| SlotClaims.EarlierPruneIsInvisible | src/scheduler-locks.ts:50-53 | an earlier prune changes neither the verdict of a claim nor the table after it |
| SlotClaims.FirstClaimGranted | src/scheduler-locks.ts:11-30 | the first claim of a slot is granted |
| SlotClaims.StaleSlotGrantedTwice | src/scheduler-locks.ts:50-53 | a slot older than the retention is granted on every claim |
| SlotClaims.LockKeyInjective | src/scheduler-locks.ts:32-34 | the key determines command and slot, because slots contain no @ |
| SlotClaims.LockKeyNeedsPlainSlots | src/scheduler-locks.ts:32-34 | with an @ in the slot two claims can share a key |
| SlotClaims.ClaimTable.AcquireSchedulerExecutionLock | src/scheduler-locks.ts:11-30 | with a clock that never goes back: granted exactly when no earlier claim of that slot is within the retention |
| SlotClaims.ClaimTable.PruneSchedulerExecutionLocks | src/scheduler-locks.ts:50-53 | drops only rows that no claim at this or a later clock reading could have met |
| CronSearch.GetPreviousCronMatch | src/cron-internals.ts:59-89 | with a schedule given by its next-slot function, the bounded loop returns the last slot it walks to |
| CronSearch.SearchCorrectIff | src/cron-internals.ts:59-89 | it returns the greatest slot strictly inside the window, or nothing when there is none, if and only if the window holds at most `maxIterations` slots and, unless it holds none or exactly that many, the schedule goes on after it |
| CronSearch.DefaultsFindMinuteSlots | src/cron-internals.ts:4-5 | the defaults of 48 hours and 3000 steps find the last slot of every minute-aligned schedule that goes on |
| CronSearch.MinuteSchedulesFit | src/cron-internals.ts:4-5 | a minute-aligned schedule has at most 2880 slots in the default window |
| CronSearch.SecondSchedulesDoNotFit | src/cron-internals.ts:4-5 | for a schedule that fires every second they are not enough |
| CronSearch.MatchIffWholeSecondIsSlot | src/cron-internals.ts:46-51 | the patched matcher accepts a date exactly when it lies within the second of a slot |
| Restore.CrashSafe | src/app-backup.ts:193-320 | at every moment of every run, with crashes and I/O errors anywhere, the live file is the old one or the whole verified backup, and when it is the backup no old WAL or SHM lies beside it |
| Restore.EventuallyRestored | src/app-backup.ts:193-320 | after any number of crashes one uninterrupted boot puts an intact backup live and drops the marker |
| Restore.BadBackupChangesNothing | src/app-backup.ts:198-245 | a missing or corrupt backup leaves every file as it was, and a boot without errors drops the marker |
| Restore.FailedRestoreIsHarmlessIff | src/app-backup.ts:270-311 | the comment says a failed restore leaves the installation exactly as it was: it does if and only if it failed before an existing sidecar was removed; and exactly when a boot swaps |
| Restore.BootEndsIff | src/app-backup.ts:193-320 | a boot throws exactly if it has a restore to do and making the directory, the clean-up after a failed swap or dropping the marker fails; it drops the marker exactly if it has one to do and does not throw, and then leaves no staged copy |
| Restore.FailedRenameLosesTheLog | src/app-backup.ts:287-299 | a failing rename leaves the old main file without its WAL |
| Restore.OutgoingKeptIff | src/app-backup.ts:248-254 | after crashes the copy of the outgoing database survives the final boot if and only if no earlier boot had swapped, or both files were the same |
| Restore.AppFiles.ApplyPendingRestoreIfAny | src/app-backup.ts:193-320 | the ordered calls with their early exits end where the step machine ends, for any outcome of each call |
| Restore.AppFiles.KeepOutgoing | src/app-backup.ts:248-254 | copies the outgoing database, ignoring errors |
| Restore.AppFiles.StageAndSwap | src/app-backup.ts:270-294 | the body of the try block |
| Restore.AppFiles.SwapIn | src/app-backup.ts:287-294 | sidecars, then the rename |
| Restore.AppFiles.CancelPendingRestore | src/app-backup.ts:174-176 | drops the marker |
| ApprovalDiff.ScriptSpellsBothFiles | src/actions/primitives.ts:96-127 | kept and removed lines spell the old file, kept and added ones the new file, whatever the lookahead matched |
| ApprovalDiff.KeptIffEqual | src/actions/primitives.ts:129-131 | nothing is marked exactly when the files are equal |
| ApprovalDiff.Align | src/actions/primitives.ts:96-127 | the two-cursor loop terminates and computes the specified script |
| ApprovalDiff.AlignRound | src/actions/primitives.ts:97-126 | one round of the loop, lookahead of two included |
| ApprovalDiff.ChangedIndices | src/actions/primitives.ts:129-131 | first and last changed index, or none |
| ApprovalDiff.BuildDiff | src/actions/primitives.ts:87-140 | no changes exactly for equal files; otherwise the single hunk around all changes |
| ApprovalDiff.HunkParts | src/actions/primitives.ts:132-138 | nothing outside the hunk is changed |
| ApprovalDiff.DiffIsFaithful | src/actions/primitives.ts:87-140 | the hunk's old lines stand in the old file and its new lines in the new file at the stated line, and replacing them gives the new file |
| ApprovalDiff.LookaheadFindsNearest | src/actions/primitives.ts:107-123 | the lookahead takes the nearest match within two lines, on the new side first |
| ApprovalDiff.InsertionIsShown | src/actions/primitives.ts:96-127 | one or two lines put in, unlike the three lines after them, are shown as added and everything else as kept |
| ApprovalDiff.DeletionIsShown | src/actions/primitives.ts:96-127 | one or two lines taken out, unlike the three lines after them, are shown as removed and everything else as kept |
| ApprovalDiff.ReplacementIsShown | src/actions/primitives.ts:96-127 | a replaced line is shown as removed and added and everything else as kept, if neither version is like one of the three lines after it |
| ApprovalDiff.HunkShowsThreeLines | src/actions/primitives.ts:132-138 | the hunk shows three kept lines on both sides of the changes, fewer only where the file begins or ends |
| Routing.MatchIsMostSpecific | src/http/router.ts:80-104 | nothing is found exactly when every route misses; otherwise the outcome is that of the earliest-registered reacting route with the most literals |
| Routing.MatchFindsBestFitIff | src/http/router.ts:80-104 | for every path: null exactly when no route fits, else the earliest-registered fitting route with the most literals, if and only if `match` does not throw |
| Routing.MatchThrowsIff | src/http/router.ts:80-104 | it throws if and only if the earliest-registered route with the most literals, among those that fit or agree up to a parameter that does not decode, is one of the latter |
| Routing.DecodablePathsMatchBestFit | src/http/router.ts:80-104 | so it finds the best fit on every path whose parts all decode |
| Routing.RouterAnswers | src/http/router.ts:66-104 | from end to end, in terms of the patterns and the path as texts: among the added routes whose method and parts agree with the request the one with the most literal parts is found, added first among equals, with the decoded parts as its parameters, and nothing exactly when none agrees |
| Routing.MalformedPartHidesAFit | src/http/router.ts:80-104 | an example on which it throws although a later route fits; the exact condition is `MatchThrowsIff` |
| Routing.ScanByTrouble | src/http/router.ts:87-101 | the earliest trouble decides whether a route misses, throws or is hit |
| Routing.HitIffFits | src/http/router.ts:84-101 | with decodable parts a route is hit exactly when method, length and literals agree |
| Routing.HitParams | src/http/router.ts:87-101 | the parameters are the route's names, each with its last decoded part |
| Routing.SplitJoin | src/http/router.ts:36-38 | splitting is the inverse of joining plain parts |
| Routing.SplitConcat | src/http/router.ts:36-38 | a slash separates wherever it stands: what is before and after it split on their own, for all texts |
| Routing.SplitIsDetermined | src/http/router.ts:36-38 | these laws determine splitting: any function with them is the same |
| Routing.SplitAbsolute | src/http/router.ts:36-38 | an absolute path has the parts it was joined from |
| Routing.CompilePath | src/http/router.ts:40-52 | each part that begins with a colon becomes a parameter of the name after it, each other a literal, and the literals are counted |
| Routing.UpperFoldsCase | src/http/router.ts:66-82 | two methods are the same exactly if they differ only in the case of letters |
| Routing.HttpRouter.Add | src/http/router.ts:66-78 | throws exactly when an earlier route has the same pattern key, and then changes nothing; else the table is the stable sort of all registrations |
| Routing.HttpRouter.Match | src/http/router.ts:80-104 | on every path whose parts decode, the best answer of the routes added so far |
| Routing.HttpRouter.MatchRoute | src/http/router.ts:84-102 | the loop over the segments |
| Common.ResortAfterPush | src/http/router.ts:74-76 | re-sorting after each addition is one stable sort of all |
| Common.StableSortUnique | src/http/router.ts:74-76 | a stable sort is determined by order and groups |
| Common.FirstOfSorted | src/http/router.ts:12-14 | the first selected element of the sorted list is the earliest largest of the original |
| Common.FilterKeepsOrder | src/jobs/queue.ts:318-330 | selecting keeps the order |
| RouteValidation.PatternCheckAgreesIff | src/workers/validation.ts:54-89 | for every list: the pattern check accepts it exactly when adding it to an empty router never throws, if and only if two patterns are the same up to parameter names, or some pair clashes in the router exactly when some pair clashes in the validator |
| RouteValidation.DuplicateCheckAgreesIff | src/workers/validation.ts:54-81 | the same for raw-key and pattern check together |
| RouteValidation.RouterDuplicateIff | src/http/router.ts:61-72 | exactly when the router takes two routes for duplicates, for all methods |
| RouteValidation.AdminDuplicateIff | src/workers/validation.ts:83-89 | exactly when the validator does |
| RouteValidation.DuplicateChecksAgreeIff | src/workers/validation.ts:54-89 | exactly when they agree on a pair |
| RouteValidation.ColonMethodsCollide | src/http/router.ts:61-63 | a pair with a colon in a method that passes validation and throws on adding |
| Routing.AddAllIff | src/http/router.ts:66-78 | adding a list throws nowhere exactly for distinct keys, and then registers all of it in order |
| RouteValidation.ValidateAdminApiRoutes | src/workers/validation.ts:54-81 | accepts exactly the lists in which every route has owners, knows them all and is not refused because of an earlier one; else reports the first failing route with an error that is justified by it |
| NetErrors.IsTransientFetchFailure | src/net-errors.ts:181-202 | terminates on every finite error graph, cyclic or not, and is true exactly when an error reachable through errors by child and cause edges is marked or has a listed code or name |
| NetErrors.VerdictRecurrence | src/net-errors.ts:181-202 | an error is transient exactly if it looks so itself, its cause is, or one of its children is |
| NetErrors.WrappingKeepsVerdict | src/net-errors.ts:154-158 | a wrapper with the original as its cause has the original's verdict, and changes no other |
| NetErrors.MarkingReachesUpwards | src/net-errors.ts:165-168 | marking an error makes exactly the errors that reach it transient |

## Left out

- HTTP serving, static files, authentication, the user interface, model providers, child processes and archives: input and output, or libraries that are not part of this model.
- SQLite, JSON columns and schemas: a transaction is one step, a column a value; hashes and generated ids are opaque.
- Migration of the legacy queue stores (src/jobs/queue.ts:252-265, 632-682): the table starts initialised.
- Breaking a stale queue lock file between processes (src/jobs/queue.ts:861-878): one process is modelled; a lock file that cannot be had in time is.
- The assertion that a writer holds the queue lock (src/jobs/queue.ts:841-845).
- `stopScheduler`, `stopBusWake`, failing persistence and changes of the concurrency limit while runs are queued.
- The tick's own selection of jobs (src/scheduler.ts:723-809) and the catch-up pass (src/scheduler.ts:1045-1150): their triggers enter the job protocol as ordinary calls.
- The lock of a scheduled slot inside `runJob` (src/scheduler.ts:1197-1207) is modelled on its own, in `SlotClaims.dfy`.
- The clamp of catch-up windows, retry delays, labels, events and notification texts.
- The test seam that runs the wake path of one item type (src/scheduler.ts:705-721).
- Rendering a diff as text, its header, and the diff of a new file.
- Upper-casing of methods is that of ASCII letters.
- Flushing: a file-system call that has returned is durable, and copying a file is not atomic while renaming is; reordering of unflushed writes by the disk is not modelled. Event logging during a restore is not either.
- An item without metadata and one with an empty metadata object are the same value.
- Approving, rejecting and failing items, artifacts, projects, chat threads, cost estimates and settings: members with easy contracts.
- Key and table name isolation of workers (src/workers/storage.ts, src/workers/db.ts).
- JobProtocol.NeverTwoHandlers: restricted to runs whose blind skip writes meet jobs with no run in progress, because the code as it is admits two handlers otherwise; `SkipWriteHarmfulIff` is the exact condition.
- JobProtocol.StepKeepsInv: excludes the same two writes over a run in progress, for the same reason.
- ReadCache.CacheEqualsTable: assumes that no read that may still be installed looks at the table inside a write, or at another database that differs, because the code as it is can cache a stale value then; `LookHarmfulIff` is the exact condition.
- PromiseChain.InterleavingEqualsSequential: assumes that a nested call is awaited by the body that makes it. An async call that a body detaches keeps the async-local mark (src/jobs/queue.ts:884-885) after the release, and would pass through without the lock; that is not modelled.
- QueueStore.QueueTable.SaveQueue: validation by the schema is not modelled; the id generated for a draft without one is a parameter.
