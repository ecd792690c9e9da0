# Dispatch protocol of DisparaGO, modelled and proved in Dafny

DisparaGO sends WhatsApp campaigns. Message and campaign rows live in PostgreSQL, jobs in a
Redis list, retries in in-memory timers and, a second time, in a column that a sweeper reads;
a scheduler releases campaigns in batches and webhooks report delivery. All of these act on
the same rows with UPDATE statements that check no status. This project models them as one
state machine and proves what survives every interleaving.

* `Basics`, `Text`, `Selections`: identifiers, options, the parts of Go's `strings` the program uses, and lists from
  which the blank entries are dropped.
* `Messages`, `Campaigns`: the rows, each UPDATE as a function on a row, the six counters and
  the status CASE of `RecalculateCampaign`.
* `Protocol`: the state machine. One step is one SQL statement, one Redis command, one provider
  call or one local decision. `Step` is total: a step that is not enabled changes nothing. `Run`
  folds it over any sequence of events, so a statement about `Run(cfg, Init(clock), es)` is about
  every interleaving of worker, timers, sweeper, scheduler, HTTP requests, webhooks and crashes.
  The fields `issued`, `stale`, `tally` and `log` are history that the program never reads.
* `Invariants`, `CoreSteps`, `Accounting`, `Counters`, `Interleaving`, `Invariance`: the inductive invariants.
* `Gates`: which runs are permitted, that is, consist of steps that the program can make: requests pass the gates of
  `CampaignService`, batches have the configured size, and a timer fires after its delay.
* `Guarantees`, `NoLostWork`, `Drain`, `Completion`, `Fifo`, `Delivery`, `StatusLaws`, `Receipts`, `ReceiptRuns`,
  `Batches`, `ReleaseTicks`, `Outcomes`, `Handled`, `Requests`, `Origins`: what they mean for whole runs. `Requests` and
  `Origins` read the columns of both tables back: each holds what was last asked for, or what an event of the run
  wrote.
* `AttemptLimits`, `LateCancels`, `Stranded`, `Forgotten`, `LostMarks`, and the end of `ReleaseTicks`: where a promise
  fails, a permitted run from the empty system in which it does and when exactly it holds. `Outstanding`, `Revival` and
  `Scenarios` hold what these share: which jobs can still bring a message to the provider, how to build a run in which
  they do, and the runs that the witnesses start with.
* `Platform`, `Worker`, `Sweeper`, `CreateInputs`, `CampaignService`, `Scheduler`, `WebhookService`, `TrackRuns`,
  `Cadence`, `Pacing`, `Settings`: the program's own classes and loops, statement by statement, proved to be runs of
  the machine (or, for the cadence lanes and the settings, to meet their own specification).
  Parameters called `env` are events of other goroutines that happen before a statement; `ok`
  says whether the database or Redis carries a statement out. The methods of `CampaignRepository` and
  `RedisQueue` that hold one statement each are primitives: they apply the row functions of `Messages` and
  `Campaigns`, whose effect over runs is what the lemmas state. `World.Note` records the program
  counter and the history that the machine keeps for the calling goroutine; tables, list and
  timers are changed by the statements alone, and the contracts compare all of it with the machine.

## Assumptions

* One worker process; a statement is atomic; the database, the process and the timers share one
  clock that never runs backwards, and a statement reads it once.
* Provider ids are non-empty and never issued twice. RPUSH of several payloads is all or nothing.
* Row ids are insertion positions; the UUIDs of the program only have to be distinct.
* A run may contain any step at any time: `SetCampaignPaused`, `UpdateScheduledCampaign`, `CancelScheduledCampaign` and
  `RecalculateCampaign` whatever the state, batches of any size, and timers that fire early. What holds of all runs, or
  never happens in any, is proved of all of these. What can happen is proved of permitted runs (`Gates.Permitted`): each
  request passes its gate, a recalculation follows a resume, the sweeper asks for 200 rows and the scheduler for the
  configured batch, and a timer fires when at least one whole delay has passed.

## Findings

* The repository's README asks for at most three attempts per message. The code gives the bound of
  `Guarantees.AttemptBound`: publishes + retries + sweeper claims. The bound is attained for every MaxAttempts
  (`AttemptLimits.BoundIsAttained`): a retry is recorded twice, in a timer and in next_retry_at, and nothing compares
  attempt_count with the limit before an attempt. With three attempts allowed a message published once can be
  attempted five times (`AttemptLimits.FiveAttemptsOfThree`). MaxAttempts is kept exactly by messages published at most
  once and never swept (`AttemptLimits.MaxHoldsIff`), and by one call of `handleJob` exactly if it does not mark a message
  that has used its attempts (`AttemptLimits.HandlingKeepsMaxIff`).
  The same README asks for a growing back-off; the code waits a fixed delay, and so does the model.
* When a publish fails inside a batch, the campaigns behind it stay released, unpublished and silent
  forever, whatever the other goroutines do (`ReleaseTicks.AllAccountedIffLast`, `ReleaseTicks.RestOfBatchAbandoned`,
  `ReleaseTicks.SecondIsAbandoned`).
* A lost MarkMessageSent lets a message be sent again (`LostMarks.SentTwice`); `Guarantees.SendLaw`
  counts sends exactly, faults included.
* Cancelling does not remove jobs, and it takes the status `scheduled` away that would have stopped them: a cancelled
  campaign can still send exactly those undispatched messages that a job or its own `Create` call still carries
  (`LateCancels.CancelledSendsIffCarried`; `LateCancels.CancelledAndSent` is a run in which it happens).
* A shutdown during the cadence wait leaves its message in processing. It stays there for good exactly if no other job
  of it is left and its campaign is released for good (`Stranded.ProcessingForeverIffStranded`,
  `Stranded.ShutdownStrands`); a campaign that was never released can be rescheduled and brings it back.
  `Forgotten.NeverSentIffDone` says for every message of every reachable state whether it can still be sent.
* The default subscriptions of the environment are not upper-cased when they are stored, so a second validation of the
  stored record can change it (`Settings.NormalizedTwiceIff`, `Settings.LowerCaseDefaultChanges`).

## Model

| member | source | states |
|---|---|---|
| Guarantees.SendOnce | internal/worker/dispatch_worker.go:163-244 | over every interleaving without a lost MarkMessageSent, SendText succeeds at most once per message, and exactly once iff the row is sent, delivered or read or about to be marked sent |
| Guarantees.SendLaw | internal/worker/dispatch_worker.go:208-237 | over every run, faults included: successful sends = dispatched row + lost MarkMessageSent + the one still to be written |
| Guarantees.HistoryIsTrace | internal/worker/dispatch_worker.go:163-244 | the recorded counts of sends, lost sends, sweeps, publishes and provider calls are the numbers of such steps in the run |
| Guarantees.RowsWellFormed | internal/repository/campaign_repository.go:563-751 | in every reachable state failed_at is set iff failed, provider id and sent_at iff dispatched, next_retry_at only on pending rows that were attempted, sent_at <= delivered_at <= read_at |
| Guarantees.AttemptBound | internal/worker/dispatch_worker.go:193-269 | attempt_count <= publishes + max(0, MaxAttempts-1) + sweeper claims, and the sweeper claims a message at most max(0, MaxAttempts-1) times |
| Outcomes.RejectedOutcome | internal/worker/dispatch_worker.go:215-233 | whatever the others do between its statements, a retried attempt whose write succeeds leaves a timer with one more attempt and next_retry_at exactly one delay ahead; a final error leaves a failed row and no timer |
| Handled.HandledOutcome | internal/worker/dispatch_worker.go:163-269 | the whole of an undisturbed handleJob, whichever of its statements fail: dropped without a trace, requeued at the tail, or an attempt that ends sent, failed, pending with a timer, or in processing; which turns it makes, every column of the row, and that the list, the clock and all other rows stay as they are |
| Origins.RowsAreTold | internal/repository/campaign_repository.go:695-751 | over every run: next_retry_at is one delay after a MarkMessagePendingRetry that wrote last_error, failed_at is when a MarkMessageFailed wrote last_error, sent_at is when MarkMessageSent wrote the provider id, and SendText returned that id for this message |
| Origins.SweepIsDue | internal/repository/campaign_repository.go:64-88 | in every reachable state what the sweeper claims is pending with a next_retry_at that has come, of a campaign neither paused nor cancelled; the claim clears next_retry_at, nothing else in the row, and makes one job of it |
| Origins.SweepInOrder | internal/repository/campaign_repository.go:79-80 | a due retry that a claim leaves behind is due no earlier than any it takes, and only a full batch leaves one behind |
| Origins.SweepAfterDelay | internal/worker/dispatch_worker.go:215-219 | over every run the claim of a message comes at least one retry delay after the MarkMessagePendingRetry that made it due |
| Guarantees.PublishBound | internal/service/campaign_service.go:298-326 | over a whole run the scheduler pushes a campaign at most once, through any failed publishes and reverts; Create at most once, never one born scheduled; released_at and cancelled_at are never both set |
| Requests.ColumnsAreRequests | internal/repository/campaign_repository.go:404-438 | after every run a campaign is scheduled for the instant last asked for, paused iff the last such request was a pause, cancelled iff cancelled after its last reschedule, and released iff claimed and not reverted since |
| Requests.StatusIsWritten | internal/repository/campaign_repository.go:583-652 | what each step of every run leaves in the status column: after a recalculation what the rows call for, otherwise what the request stands for, and nothing new when nobody asked |
| Requests.ReleaseIsDue | internal/repository/campaign_repository.go:446-471 | over every run what the scheduler claims is scheduled, neither released nor cancelled, and the instant last asked for has come; the claim makes it pending and released and changes nothing else |
| Requests.ReleaseInOrder | internal/repository/campaign_repository.go:460-461 | a due campaign that a claim leaves behind is planned no earlier than any it takes, and only a full batch leaves one behind |
| Requests.PublishedOnTime | internal/service/campaign_service.go:298-326 | over every run, when the scheduler pushes the jobs of a campaign, the instant last asked for has come |
| Guarantees.AttemptsWithinMax | internal/worker/dispatch_worker.go:272-275 | with publishes and sweeps adding up to at most one over the run, a message is attempted at most MaxAttempts times |
| Guarantees.ScheduledSilence | internal/repository/campaign_repository.go:440-481 | while a campaign born scheduled is unreleased it has no job anywhere and all its rows are pending, never attempted, without next_retry_at, never sent |
| Guarantees.CancelledNeverSends | internal/repository/campaign_repository.go:424-438 | a cancelled campaign that was created for later, or was never published and that no Create call is about to publish, stays silent in every continuation without a reschedule |
| Guarantees.PauseSafety | internal/worker/dispatch_worker.go:184-213 | between a pause and the next resume at most one SendText is made for the campaign, and only if the worker had read the campaign row before the pause |
| Outcomes.PausedJobRequeued | internal/worker/dispatch_worker.go:184-190 | under any interference a job whose campaign is found paused goes to the tail of the list as it is then, and its two statements change no message row |
| Outcomes.PausedAttempts | internal/worker/dispatch_worker.go:184-195 | from a pause to the next resume, over any run, the attempt counts of all messages of the campaign together rise by at most one, and only if the worker had let a job of it through before the pause |
| Guarantees.CounterCoherence | internal/repository/campaign_repository.go:583-607 | in every reachable state the six counters sum to total_messages, the number of rows, which is at least 1, and they are the true counts unless the worker or a Track call owes a recalculation or one was lost |
| Guarantees.CountersExact | internal/repository/campaign_repository.go:583-607 | in a run that loses no recalculation the counters are the true counts whenever nobody owes one |
| Invariance.InvAlways | internal/worker/dispatch_worker.go:91-289 | the invariants of tables, list, timers, program counters and counters are kept by every step of every run |
| CoreSteps.CoreAlways | internal/worker/dispatch_worker.go:163-244 | every job points to its own row and campaign, worker and row agree at every program counter, provider ids identify rows |
| NoLostWork.NoOrphans | internal/worker/dispatch_worker.go:124-161 | in runs without lost work every pending message of a campaign not waiting for its schedule is in the list, due for the sweeper, or held by worker, sweeper or publisher; timers are never needed, so a crash of a quiet process loses nothing |
| Drain.DrainStep | internal/worker/dispatch_worker.go:163-269 | every timer, sweeper and worker step that does work lowers the load, whatever the provider answers; every other step raises it by no more than what arrives |
| Drain.DrainBound | internal/worker/dispatch_worker.go:91-289 | over every run the work done is at most the load at the start plus what arrived |
| Drain.NeverStuck | internal/worker/dispatch_worker.go:91-161 | while anything is queued, timed, swept or in hand, a step that does work is enabled |
| Drain.DrainedIsDone | internal/worker/dispatch_worker.go:163-269 | when nothing is left after a run without lost work, every message is dispatched or failed |
| Drain.DrainedIsFinal | internal/repository/campaign_repository.go:607-621 | then the recalculated campaign status is sent, delivered, read, failed or partial |
| Completion.Completes | internal/worker/dispatch_worker.go:91-289 | from every state reached without losing work, with nothing paused, cancelled or being published, a permitted continuation of at most Load working steps (4 more if a bounced job is in hand) leaves every message of every campaign that does not wait for its schedule dispatched or failed, whatever the provider answers |
| Completion.EveryScheduleCompletes | internal/worker/dispatch_worker.go:91-289 | a run without lost work and without arrivals makes at most Load working steps in whatever order, and if no working step can follow it, however much time passes, and nothing is paused, cancelled or being published, every such message is dispatched or failed |
| Fifo.FirstAttemptsInOrder | internal/queue/publisher.go:32-51 | the published batch of a campaign lists its rows once, and no message of it is attempted before one that was published earlier, unless the worker lets go of a never-attempted job of that campaign or it was created to be sent at once and is rescheduled; faults, pauses, reschedules and retries of other campaigns do not matter |
| Delivery.NeverRegresses | internal/repository/campaign_repository.go:654-714 | the provider id is set iff the row is dispatched, is never changed again, and sent < delivered < read never falls in any further run |
| Delivery.ProgressNeverDecreases | internal/repository/campaign_repository.go:583-607 | what a recalculation would store for sent+delivered+read, delivered+read and read never decreases |
| StatusLaws.ElseUnreachable | internal/repository/campaign_repository.go:607-621 | with all rows counted and at least one row the ELSE arm is never taken: the stored status does not matter |
| StatusLaws.RecalculatedStatusIsHistoryFree | internal/repository/campaign_repository.go:607-621 | two reachable campaigns with the same flags and the same multiset of message statuses recalculate to the same status and counters |
| StatusLaws.RecalculateIdempotent | internal/repository/campaign_repository.go:583-632 | recalculating twice is recalculating once |
| StatusLaws.ResumeUndoesPause | internal/service/campaign_service.go:202-250 | pausing, resuming and recalculating leaves the row that a recalculation alone would have left |
| StatusLaws.FinalIffNothingOpen | internal/repository/campaign_repository.go:607-621 | without a cancel, pause or schedule override the recalculated status is final iff no message is pending or processing |
| StatusLaws.RecalculatedMeans | internal/repository/campaign_repository.go:583-632 | what a recalculation stores, in terms of the rows: the six numbers of rows, and without a cancel, pause or schedule override read iff all are read, delivered iff all are delivered or read and some is not read, sent iff all are dispatched and some is sent, failed iff all failed, partial iff none is open and both kinds exist, pending iff all are pending, otherwise processing |
| StatusLaws.PauseRefusedIff | internal/service/campaign_service.go:202-224 | when its status is up to date, a campaign refuses a pause iff it is cancelled, or it is not paused and waits for its schedule or has no open message left |
| Campaigns.CountsPartitionRows | internal/repository/campaign_repository.go:589-598 | the six filtered counts add up to the joined rows |
| Campaigns.CountPositive | internal/repository/campaign_repository.go:589-594 | a count is positive iff a joined row has that status |
| Campaigns.CountsDependOnStatuses | internal/repository/campaign_repository.go:585-599 | rows of other campaigns and all other columns do not influence the counts |
| Campaigns.CountsAfterInsert | internal/repository/campaign_repository.go:111-203 | inserting a campaign's rows gives it n pending messages and leaves every other campaign's counts alone |
| Receipts.StatusIsJoin | internal/repository/campaign_repository.go:654-693 | after any sequence of receipts the status of every row is the join of its status and of the receipts seen for its provider id |
| Receipts.Confluence | internal/service/webhook_service.go:33-82 | any permutation or repetition of the same receipts leaves the same statuses and the same counts |
| ReceiptRuns.StatusIsJoinOverRuns | internal/repository/campaign_repository.go:654-693 | a row dispatched in a reachable state has, after any further run, the join of its status and of the receipts that any Track call marked for its provider id meanwhile; delivered_at is the time of the first of them, read_at of the last one that says read, and no other column has changed |
| ReceiptRuns.SameReceiptsSameStatus | internal/service/webhook_service.go:33-82 | two runs from a reachable state that mark the same receipts, in any order and among any other steps, leave a dispatched row with the same status |
| ReceiptRuns.SameReceiptsSameCounts | internal/repository/campaign_repository.go:583-607 | a campaign whose rows are all dispatched has the same six recalculated counters after two runs that mark the same receipts, in any order and among any other steps |
| Receipts.UnknownIdsChangeNothing | internal/service/webhook_service.go:59-62 | an id is reported as not found iff no row carries it, and then nothing changes |
| AttemptLimits.AttemptsAreCounted | internal/worker/dispatch_worker.go:193-195 | over every run attempt_count rises by one per MarkMessageProcessing that is carried out, and by nothing else |
| AttemptLimits.HandlingUsesAttemptIff | internal/worker/dispatch_worker.go:163-195 | whatever the others do between its statements and whichever of them fail, a call of handleJob uses one attempt of its message iff the look-up, the gate and the mark let it, and none of any other message; MaxAttempts, next_retry_at, a failed status and cancelled_at play no part |
| AttemptLimits.UndisturbedUsesAttemptIffOpen | internal/worker/dispatch_worker.go:163-195 | without interference and failures that is so iff the message is undispatched and its campaign neither scheduled nor paused |
| AttemptLimits.HandlingKeepsMaxIff | internal/worker/dispatch_worker.go:163-244 | under any interference and any failing statements a message within MaxAttempts is still within it after a call of handleJob iff the call did not use an attempt of a message that had used them all |
| AttemptLimits.BoundIsAttained | internal/worker/dispatch_worker.go:215-269 | for every MaxAttempts >= 1, one or two publishes and any number of sweeps below MaxAttempts there is a permitted run with exactly these counts that uses publishes + (MaxAttempts - 1) + sweeps attempts |
| AttemptLimits.MaxHoldsIff | internal/worker/dispatch_worker.go:272-275 | all permitted runs with p publishes of the campaign and q sweeps of the message keep attempt_count within MaxAttempts iff p + q <= 1, and then all other runs do as well |
| AttemptLimits.FiveAttemptsOfThree | internal/worker/dispatch_worker.go:255-289 | with the program's own error classifier and MaxAttempts = 3, a permitted run that publishes a message once and attempts it five times |
| LostMarks.LostMarkSendsAgain | internal/worker/dispatch_worker.go:235-237 | from every reachable state with an accepted send whose message heads the list again, a failed MarkMessageSent is followed by a second successful send |
| LostMarks.SentTwice | internal/worker/dispatch_worker.go:235-237 | a permitted run from the empty system in which SendText succeeds twice for one message |
| ReleaseTicks.ReleaseExactness | internal/service/campaign_service.go:298-326 | over the events of one ReleaseDueScheduled call, whatever the others do between its statements, the scheduler publishes each claimed campaign before the failing one exactly once and no other campaign |
| ReleaseTicks.PushAppendsJobs | internal/service/campaign_service.go:304-317 | each of these publishes appends exactly the jobs of its claim, which hold every message of the campaign once and no other, with the instance of the campaign and the attempts of the row |
| ReleaseTicks.TickOutcome | internal/service/campaign_service.go:298-326 | after the call a campaign was published by it iff it stands before the failure in the batch; a claimed campaign is scheduled again for the instant it was claimed for iff its publish failed and the revert succeeded, otherwise it is released as before |
| ReleaseTicks.AllAccountedIffLast | internal/service/campaign_service.go:317-320 | when a publish fails, under any interference, every claimed campaign is published, or scheduled again, uncancelled and due, iff the failing one was the last of its batch and its revert succeeded |
| ReleaseTicks.FailedPublishIsRetried | internal/repository/campaign_repository.go:549-561 | under any interference a campaign whose publish failed and was reverted is scheduled for the instant it was claimed for, is due from then on, and the next tick claims it unless its batch is full of campaigns due no later |
| ReleaseTicks.RestOfBatchAbandoned | internal/service/campaign_service.go:304-323 | under any interference the never published campaigns behind the failing one are released, unpublished, and silent in every continuation |
| ReleaseTicks.AbandonedForever | internal/repository/campaign_repository.go:404-481 | a released campaign that nobody holds and that was never published stays so and silent in every run |
| ReleaseTicks.SecondIsAbandoned | internal/service/campaign_service.go:317-320 | with batches of two or more, a permitted run from the empty system in which the publish of the first of two due campaigns fails and the second is abandoned |
| LateCancels.CancelledSendsIffCarried | internal/repository/campaign_repository.go:424-438 | in every reachable state a message of a cancelled campaign can be sent by a permitted continuation without a reschedule iff it is undispatched and a job of it is in the list, in a timer, with the sweeper or with the worker, or its Create call has not published yet; otherwise no continuation of any kind sends it |
| LateCancels.CancelledSilentIffNothingCarried | internal/repository/campaign_repository.go:424-438 | a cancelled campaign can send anything in a permitted continuation without a reschedule iff one of its messages is carried in this way |
| LateCancels.CancelledAndSent | internal/service/campaign_service.go:276-296 | a permitted run from the empty system in which a campaign is published, rescheduled and cancelled, and then sends |
| Stranded.ProcessingForeverIffStranded | internal/worker/dispatch_worker.go:193-206 | in every reachable state a message in processing stays there in all permitted continuations iff it has no job left, its Create call is not about to publish, no answer for it is in hand, and its campaign is released for good; then it stays there in all others as well |
| Stranded.ShutdownStrands | internal/worker/dispatch_worker.go:200-206 | a permitted run from the empty system after which a shutdown during the cadence wait has left a message in processing for good |
| Forgotten.NeverSentIffDone | internal/worker/dispatch_worker.go:91-289 | in every reachable state, whatever faults happened, some permitted continuation sends a message iff it is undispatched and has a job left, or a Create call about to publish it, or a campaign not released for good, or a retry due to the sweeper; otherwise no continuation of any kind sends it |
| Batches.Earliest | internal/repository/campaign_repository.go:79-80 | the row found is due no later than any other |
| Batches.SelectEarliest | internal/repository/campaign_repository.go:460-461 | ORDER BY the due time LIMIT n: distinct due rows, as many as there are up to n, none of them later than one left out, in order |
| Batches.BatchExists | internal/repository/campaign_repository.go:460-461 | a batch of that kind always exists |
| Batches.BatchSizes | internal/repository/campaign_repository.go:441-443 | a claim takes as many rows as are due up to the batch size, or up to 25 campaigns and 100 messages when no positive size is given |
| Batches.ReleasedAreGone | internal/repository/campaign_repository.go:464-469 | after a release exactly the picked campaigns are no longer due |
| Batches.SweptAreGone | internal/repository/campaign_repository.go:83-87 | after a sweep exactly the picked messages are no longer due |
| Batches.TicksDrain | internal/worker/campaign_scheduler.go:53-73 | with n rows due and no arrivals exactly max(0, n-k*b) remain due after k ticks |
| Batches.TicksInOrder | internal/repository/campaign_repository.go:452-463 | everything a tick claims was due no later than anything claimed by a later tick or left behind |
| Batches.SweeperClaims | internal/worker/dispatch_worker.go:137-141 | a due retry that is neither paused nor cancelled lets the sweeper's next tick claim something |
| Platform.CampaignRepository.Create | internal/repository/campaign_repository.go:111-233 | the insert loop appends the campaign and exactly its fresh message rows, or the transaction fails and appends nothing |
| Platform.CampaignRepository.ClaimDueRetryJobs | internal/repository/campaign_repository.go:64-109 | claims an earliest batch of retries whose next_retry_at has come, of campaigns neither paused nor cancelled, clears their next_retry_at, and returns one job per claimed row, or fails and changes nothing |
| Platform.CampaignRepository.MessagesOfCampaign | internal/repository/campaign_repository.go:498-534 | every row of the campaign, each once |
| Platform.CampaignRepository.ClaimDueScheduledCampaigns | internal/repository/campaign_repository.go:440-547 | releases an earliest batch of due campaigns and returns each with all its rows, or the transaction fails and releases nothing |
| Platform.RedisQueue.PublishCampaignMessages | internal/queue/publisher.go:32-51 | appends all jobs in order or none; an empty batch never fails |
| Worker.WrappingKeepsPermanent | internal/worker/dispatch_worker.go:272-289 | wrapping an error in more text, in any case, never turns a final error into a retried one |
| Worker.PermanentIff | internal/worker/dispatch_worker.go:272-289 | an error is final iff one of the six phrases occurs in it, in any case |
| Worker.DispatchWorker.RetryAgain | internal/worker/dispatch_worker.go:272-289 | retry iff the attempt is below MaxAttempts and none of the six phrases occurs in the error, in any case |
| Worker.DispatchWorker.Lookup | internal/worker/dispatch_worker.go:163-172 | one worker turn: reads the row and skips dispatched messages |
| Worker.DispatchWorker.Gate | internal/worker/dispatch_worker.go:174-184 | one worker turn: drops, bounces or passes the job by the campaign row |
| Worker.DispatchWorker.Bounce | internal/worker/dispatch_worker.go:184-190 | one worker turn: the job goes to the tail |
| Worker.DispatchWorker.Mark | internal/worker/dispatch_worker.go:193-195 | one worker turn: MarkMessageProcessing, whose error ends the job |
| Worker.DispatchWorker.Wait | internal/worker/dispatch_worker.go:200-206 | one worker turn: the lane of the job's instance moves as specified, other lanes do not, and a cancelled wait ends the job |
| Worker.DispatchWorker.Send | internal/worker/dispatch_worker.go:208-214 | one worker turn: the provider is called once for the job |
| Worker.DispatchWorker.WriteAnswer | internal/worker/dispatch_worker.go:215-237 | the write after the answer: sent, pending with a retry time, or failed; only a failed MarkMessageSent ends the job |
| Worker.DispatchWorker.ScheduleRetry | internal/worker/dispatch_worker.go:246-269 | one worker turn: a timer with one more attempt |
| Worker.DispatchWorker.HandleJob | internal/worker/dispatch_worker.go:163-244 | whatever the other goroutines do between its statements, handleJob is a run of the machine that makes the given turns until the worker is idle; only the cadence outcome is not an input, and SendText is not called before the wait it computed is over |
| Worker.DispatchWorker.RunOnce | internal/worker/dispatch_worker.go:91-122 | one iteration of run pops the head of the list and handles it |
| Sweeper.Tick | internal/worker/dispatch_worker.go:137-153 | a sweeper tick is one claim of up to 200 retries whose time has come, followed by one push per job, interleaved with anything, and leaves nothing held; a failing claim ends the tick and changes nothing |
| Sweeper.UndisturbedSweep | internal/worker/dispatch_worker.go:137-153 | an undisturbed tick appends the jobs of its batch to the list in claim order and leaves exactly max(0, n-200) retries due |
| Sweeper.RunTicks | internal/worker/dispatch_worker.go:124-161 | k undisturbed ticks leave exactly max(0, n-200k) retries due, and the list has grown by exactly those no longer due |
| Sweeper.FireTimer | internal/worker/dispatch_worker.go:255-269 | the timer is gone and its job stands at the tail of the list, unless the push failed |
| Selections.KeptIsPicked | internal/service/campaign_service.go:347-353 | the kept entries are those that are not blank, all of them and in order, each without the blanks around it, and as many as there are of those |
| Selections.KeepsIsUnique | internal/service/campaign_service.go:347-353 | there is only one such list |
| CreateInputs.Normalize | internal/service/campaign_service.go:328-371 | a request is accepted iff it is acceptable, and the order then repeats its instance, its instant if it is for later, and every contact that is not blank, in order |
| CreateInputs.AcceptedIff | internal/service/campaign_service.go:328-371 | a request is accepted iff it has a company, a name, an instance, a text and a contact that are not blank, and the mode is blank, now, or scheduled with a schedule that parses, in any case and with any blanks around it; then the order matches the request |
| CreateInputs.OrderIsUnique | internal/service/campaign_service.go:328-371 | a request determines its order: no two orders match it |
| CampaignService.CampaignService.Create | internal/service/campaign_service.go:76-162 | refuses invalid requests and foreign references, reschedules the known campaign of an external reference, otherwise inserts the campaign with one untouched message per contact that is not blank and, when it is to be sent now, appends one job per such contact in contact order after whatever happened meanwhile; a failing lookup, write or publish leaves what was done before it |
| CampaignService.CampaignService.Pause | internal/service/campaign_service.go:202-224 | refuses missing, finalized and scheduled campaigns without a change, otherwise pauses; a failing statement changes nothing |
| CampaignService.CampaignService.Resume | internal/service/campaign_service.go:226-250 | refuses campaigns that are not paused, otherwise clears the flag and then recalculates; when the second statement fails the flag stays cleared |
| CampaignService.CampaignService.Reschedule | internal/service/campaign_service.go:252-274 | refuses released campaigns and unreadable times; a release between the check and the write gives not found and changes nothing |
| CampaignService.CampaignService.CancelScheduled | internal/service/campaign_service.go:276-296 | refuses released and unscheduled campaigns; a release between the check and the write gives not found and changes nothing |
| CampaignService.CampaignService.ReleaseDueScheduled | internal/service/campaign_service.go:298-326 | claims a due batch, publishes campaign by campaign, reverts the first one that fails and stops; nil iff the claim succeeded and every claimed campaign was published; ReleaseTicks says what the run amounts to |
| CampaignService.CampaignService.PublishAll | internal/service/campaign_service.go:304-325 | the publish loop as events of the machine, for any interference |
| Scheduler.CopiesInClaims | internal/service/campaign_service.go:304-315 | the jobs of the claims hold every message of a claimed campaign once and no other |
| Scheduler.UndisturbedRelease | internal/service/campaign_service.go:298-326 | an undisturbed call without a failure changes the list by exactly one job per message of every claimed campaign, in claim order, and changes nothing else |
| Scheduler.CampaignScheduler.RunTicks | internal/worker/campaign_scheduler.go:53-73 | k undisturbed ticks leave exactly max(0, n-k*b) campaigns due |
| WebhookService.NormalizeIgnoresPresentation | internal/service/webhook_service.go:84-102 | case and surrounding blanks do not matter; a recognised status decides alone |
| WebhookService.ReceiptMeans | internal/service/webhook_service.go:84-102 | a webhook means a read receipt iff its status spells read, or does not spell delivered and read occurs in the event; a delivered receipt iff its status spells delivered, or does not spell read and deliver but not read occurs in the event |
| WebhookService.WebhookService.Track | internal/service/webhook_service.go:33-82 | unsupported events change nothing; otherwise the call is a run of the machine, with anything between its statements: it marks the trimmed, non-empty ids in order up to the first failure, then recalculates each campaign of a matched id once up to the first failure; it succeeds iff nothing failed, and then reports those campaigns and the number of ids that matched when they were marked |
| TrackRuns.AffectedAreMatched | internal/service/webhook_service.go:39-76 | the affected campaigns are exactly those of the messages that carry one of the ids |
| TrackRuns.UndisturbedTrack | internal/service/webhook_service.go:33-82 | when no other goroutine takes a step and nothing fails, the rows are joined with the receipts of the ids and exactly the affected campaigns are recalculated, in whatever order |
| Cadence.Draw | internal/worker/dispatch_worker.go:366-381 | a drawn delay or burst size lies within its range |
| Cadence.DispatchIsTimely | internal/worker/dispatch_worker.go:307-346 | the first dispatch of a lane waits for an initial delay, every other one for a base delay after the one before it, and for a burst pause as well when the burst is used up, never any longer; it is booked as one more of its burst or as the first of a new one |
| Cadence.EveryDelayOccurs | internal/worker/dispatch_worker.go:366-381 | the draws cover their ranges: every initial delay, every base delay with every burst pause, and every burst goal can come up |
| Cadence.DispatchLane.Wait | internal/worker/dispatch_worker.go:307-349 | the in-place update of one lane: the dispatch is timely and booked, a cancelled wait leaves no dispatch but ends a burst that was used up, and the provider delay in milliseconds lies in its range |
| Cadence.Lanes.Get | internal/worker/dispatch_worker.go:352-364 | the lane of an instance, created empty on first use |
| Cadence.Lanes.WaitForHumanCadence | internal/worker/dispatch_worker.go:291-350 | one call moves one lane by one timely dispatch and leaves all others untouched; with the cadence switched off it waits for nothing |
| Cadence.BurstBounds | internal/worker/dispatch_worker.go:320-346 | after a dispatch the burst holds between one and its goal dispatches, the goal is within its range |
| Cadence.WindowedRate | internal/worker/dispatch_worker.go:291-350 | dispatches i < j of a lane are at least (j-i) base delays plus floor((j-i)/BurstSizeMax) burst pauses apart |
| Cadence.PausesAreEarned | internal/worker/dispatch_worker.go:320-330 | between two dispatches of a lane a burst pause comes no sooner than after BurstSizeMin dispatches |
| Cadence.RateFromAbove | internal/worker/dispatch_worker.go:291-350 | when no call comes late, dispatches i < j of a lane are at most (j-i) longest base delays apart, plus one longest burst pause for every BurstSizeMin dispatches |
| Cadence.WaitBounded | internal/worker/dispatch_worker.go:307-329 | no wait exceeds the largest configured delay |
| Pacing.RunRounds | internal/worker/dispatch_worker.go:91-122 | over any number of iterations of run the lanes are what the calls before the SendTexts made of them, no SendText is made before its wait is over, and no wait starts before the previous SendText |
| Pacing.FirstSend | internal/worker/dispatch_worker.go:310-312 | the first SendText of an instance comes no earlier than the shortest initial delay after its wait started, and that wait is no longer than the longest |
| Pacing.WindowedSends | internal/worker/dispatch_worker.go:291-350 | two SendTexts of one instance, n dispatches of it apart: the second is at least n base delays plus floor(n/BurstSizeMax) burst pauses after the end of the wait of the first, and at least n-1 base delays plus floor((n-1)/BurstSizeMax) burst pauses after the first itself |
| Settings.InstanceSettings.Validate | internal/service/instance_settings_service.go:168-195 | accepts exactly the valid ranges, changes nothing when it refuses, otherwise rewrites the subscriptions only: those that are not blank, in order, trimmed and in upper case, or the defaults when all are blank |
| Settings.AcceptedIffUsable | internal/service/instance_settings_service.go:168-181 | a record that fits its columns is accepted iff its conversion gives a lane ranges it can work with |
| Settings.NormalizedTwiceIff | internal/service/instance_settings_service.go:183-194 | validating what a validation stored changes nothing iff some event was given, or all defaults are trimmed, non-empty and equal to their own upper case, or all defaults are blank, for every upper-casing of characters that is idempotent and keeps blanks |
| Settings.LowerCaseDefaultChanges | internal/service/instance_settings_service.go:183-194 | with the default list ["all"] a second validation changes the stored record |
| Settings.CadenceArithmeticIsSafe | internal/service/instance_settings_service.go:87-106 | every accepted record that fits INTEGER columns converts to nanoseconds without int64 overflow, into ranges whose random draws are well defined |
| Settings.ProviderDelayIsConfigured | internal/service/instance_settings_service.go:99-100 | the delay in milliseconds that SendText is given is one of the configured ones, and each of them can be drawn |

## Left out

- Guarantees.CancelledNeverSends: a sufficient condition; the exact one is LateCancels.CancelledSilentIffNothingCarried.
- Guarantees.SendOnce: assumes that no MarkMessageSent is lost, because it fails otherwise (LostMarks.SentTwice); Guarantees.SendLaw has no such hypothesis.
- NoLostWork.NoOrphans: excludes the failures listed in `NoLostWork.LosesWork`; Forgotten.NeverSentIffDone says exactly, for every run, which messages can no longer be sent.
- Completion.Completes: starts where nothing is paused, cancelled or being published; what can still be sent from every other state is in Forgotten.NeverSentIffDone and LateCancels.CancelledSendsIffCarried.
- Pacing.RunRounds: is about rounds that are not shut down, of a worker that starts without lanes, with the cadence enabled and the same settings throughout.
- Worker.DispatchWorker.RunOnce: is one iteration of `run`, and Pacing.RunRounds a given number of them; the endless loop, its sleeps after errors and invalid payloads, which are dropped, are not modelled.
- Sweeper.Tick: is one tick of `runRetrySweeper`; its ticker and an interrupted tick are not modelled beyond the machine's crash event.
- CampaignService.CampaignService.Create: the instant that the schedule and its time zone parse to, and what the external-reference lookup found, are inputs.
- CampaignService.CampaignService.Reschedule: whether the schedule parses, and to which instant, is an input.
- Cadence.DispatchLane.Wait: reads the clock once; timer overshoot and the fallback to default settings are not modelled.
- Worker.DispatchWorker.Send: the provider is an input that accepts with a new id or rejects with an error text, as it is in the machine's own step; its HTTP client and token cache are left out.
- Settings.InstanceSettings.Validate: upper-casing is any map of characters that is idempotent, keeps blanks blank and other characters not blank, and is the usual one on ASCII letters; that Go's table is one is not proved.
- HTTP handlers, middleware, authentication, webhook tokens, health checks and the dashboard have no state of this protocol.
- Schedule and timezone parsing rests on Go's time package; the UTC instant is an input.
- Recipients, texts, JSON encoding, tenant filters and list queries do not influence the protocol.
- Concurrency below the statement (row locks, SKIP LOCKED) and several worker processes.
- Counters and attempt counts are unbounded integers; a 32-bit overflow needs two thousand million attempts.
- The React application only displays.
