# Verification of the report service's durable core

The report service turns tickets from Jira, Asana or GitHub into status reports. This project models the four parts of it
whose correctness is hardest to see from the code, and proves what they promise:

- **The durable protocol** of jobs, schedules, reports and webhook deliveries: rows claimed by conditional updates or unique
  inserts, messages that arrive any number of times in any order, workers that crash or are merely slow, sweeps that recover
  and republish, and a success that commits report, job and deliveries together.
- **Occurrence dispatch**: a backward search for the newest due cron occurrences, and a cursor that the dispatcher moves
  forward and finishing jobs move back.
- **Card redaction**: an overlapping scanner with Luhn arithmetic, an interval merge and a right-to-left splice.
- **The honest report**: three pagination loops, deduplication, a period filter, a token budget and the flags that say
  whether anything was dropped.

## How it is built

`Models` holds the rows, `Transactions` says what each database transaction makes of them. On top of that stand two things.
The services (`JobService`, `WebhookService`, `RetentionService`, `Tasks`, over the classes `Storage.Database` and
`Storage.Broker`) are imperative and are proved to compute exactly those transactions; where a service function makes several
transactions, parameters hold what other sessions have committed by each of them, and ghost results what was written. `World` is a step relation in which every step is one
transaction, one message event, one crash or the passing of time; workers, senders, sweeps and passes keep the copies of rows
they read, so that copies go stale. `Refinement` proves that what the methods promise are steps. A run interleaves steps arbitrarily, and
the theorems about the protocol are about all runs.

What a result means is said twice: by a function that the proofs work with, and in plain terms of the rows, characters,
responses or entries themselves, with the numbers written out. `CardText`, the `IsFetch` of each connector,
`PromptBudget.IsSelection`, `JobService.IsAttempt` and `IsClaim`, `RetentionService.IsDeletion` and `WebhookService.IsSent`
are such plain accounts, and `ReportTimes` and `RequestsKept` follow what was written through every run.

`World.History` records what happened (attempts begun, claims made, reports committed). No step reads it; theorems that
compare a counter with what really happened are stated about it.

## Premises

Three timing premises appear in theorems that need them, and in no others:

- **P** (`JobSafety.WorkersAreTimely`): a worker that is still generating is not past the ten-minute staleness window.
- **Q** (`JobSafety.SweepsDoNotOverlap`): one recovery sweep at a time. The sweep selects and later writes what it selected;
  `LateWrites.OverlappingSweepsReopenASucceededJob` is a run in which every worker is timely and two overlapping sweeps
  put a succeeded job back into the queue, so P alone is not enough.
- **W** (`WebhookLease.SendersAreTimely`): a sender ends its attempt, or dies, before its ten-minute lease does.

Without any premise, `LateWrites.FinishedIsAtRiskExactlyWhenHeld`, `WebhookLease.FinalIsAtRiskExactlyWhenHeld` and
`CursorSetback.CursorGoesBackExactlyWhen` say exactly when a finished job or delivery can still change status and when a cursor
can go back, the deliveries of a report follow its commit
(`Outbox.DeliveriesFollowCommits`), and the attempt bounds (`JobAccounting.AttemptsAreBounded`,
`WebhookAccounting.AttemptsAreAccountedFor`) hold with the exceptions counted.

## Where code and documentation differ

The code is followed in each case.

- The comments on `MAX_DELIVERY_ATTEMPTS` (app/core/webhook_service.py:34-38) promise that a delivery cannot retry forever.
  Claiming an expired lease does not look at the attempts (lines 113-116): `CrashLoop.AttemptsHaveNoCeiling` gives a run with
  any number of attempts on one delivery, all senders timely and no manual retry. `WebhookCeiling` has the exact
  condition: the attempts beyond the fifth are the claims of a lease that ran out on the fifth attempt or later.
- The comment on `last_attempted_at` (app/db/models.py:96-101) calls it the last occurrence claimed for dispatch, and
  docs/scheduling.md:49 has it advance. It also goes back: a finishing job writes its own occurrence
  (app/core/job_service.py:243, 257), and a pass that overlaps a newer one writes the end of its own, older batch
  (app/worker/tasks.py:80-82). `CursorRuns` has a run of each for every calendar, both with P and Q kept.
  `CursorSetback.CursorGoesBackExactlyWhen` says exactly when it can happen, `CursorSettles.SettledCursorStays` from when on
  it cannot, and `CursorSetback.CursorHasItsJob` what a cursor does promise. Coverage and skipping are proved with that.
- The retention docstring (app/core/retention_service.py:3-8) promises never to delete a report with a pending delivery. Only
  deliveries that are `pending` when retention selects protect their report; one that is `sending` then can be `pending`
  when retention deletes, and goes with it (`RetentionGap.PendingReportIsDeleted`). `RetentionGap.PendingIsTakenExactlyWhen`
  says exactly when that can happen, and `RetentionService.RetentionTakesExactly` what a deletion takes.
- An empty idempotency key is not looked up before the insert (app/core/job_service.py:65), but the unique constraint treats it
  like any other key, so callers agree on one job for it too.

## Model

| member | source | states |
|---|---|---|
| Luhn.LuhnCheck | app/core/pii.py:12-21 | The running checksum over the reversed digits decides validity as the weighted digit sum defines it. |
| Luhn.ValidByChecksum | app/core/pii.py:12-21 | A number is valid exactly when the checksum read from the left, every second digit counted from the last but one doubled, is a multiple of ten. |
| Luhn.SingleDigitErrorDetected | app/core/pii.py:12-21 | Changing any one digit of a valid number, of any length, makes it invalid. |
| Luhn.TranspositionDetected | app/core/pii.py:12-21 | Swapping two neighbours keeps a valid number valid exactly when they are equal or are 0 and 9. |
| Luhn.ExactlyOneCheckDigit | app/core/pii.py:12-21 | Every payload is completed to a valid number by exactly one check digit. |
| CardScan.CandidateIsLongest | app/core/pii.py:24 | The expression, with its greed, backtracking, lookbehind and lookahead, matches at a position exactly when some run of 13 to 19 digits between group boundaries starts there, and captures the longest. |
| CardScan.LongestPrefixCard | app/core/pii.py:31-46 | Shortening the capture finds the longest prefix that is a card, or none exists. |
| CardScan.ScanCards | app/core/pii.py:31-46 | The scan yields, for every position, the longest card starting there. |
| CardScan.SpansBeforeAreCards | app/core/pii.py:31-46 | Scanned spans are in order, and each is the longest card at its start with its digits. |
| CardScan.SpansBeforeFindsAll | app/core/pii.py:31-46 | No card of the text is missed: some span starts where it starts and reaches at least as far. |
| CardRedaction.MergeSpans | app/core/pii.py:53-61 | The in-place merge computes the merged intervals. |
| CardRedaction.MergeIsSeparated | app/core/pii.py:53-61 | Merged intervals are in order, non-empty, and neither overlap nor touch. |
| CardRedaction.MergeCoversTheUnion | app/core/pii.py:53-61 | A position is in a merged interval exactly when it is in a detected span. |
| CardRedaction.Splice | app/core/pii.py:61-63 | Replacing from right to left yields the untouched gaps in order with one marker for each interval. |
| CardRedaction.StripCards | app/core/pii.py:53-63 | Scanning, merging and splicing together compute the redacted text. |
| CardRedaction.RedactionIsComplete | app/core/pii.py:53-63 | For every text, one pass leaves no card, although each replacement joins text that was apart. |
| CardRedaction.RedactionIsIdempotent | app/core/pii.py:53-63 | A second pass changes nothing, and a text without cards is left alone. |
| CardText.CandidateIsANumber | app/core/pii.py:24 | A piece of text is a candidate exactly when it is 13 to 19 digits written with nothing, a space or a hyphen between neighbours, and no digit stands on either side. |
| CardText.CardIsAValidNumber | app/core/pii.py:31-46 | And a card exactly when the checksum of those digits is a multiple of ten. |
| CardText.CardNumberIsMerged | app/core/pii.py:53-61 | Every card number so written lies inside one merged interval. |
| CardText.RedactionReplacesCardNumbers | app/core/pii.py:53-63 | The text is pieces covered by card numbers with gaps between; the redacted text is the same gaps with `[REDACTED_CARD]` for each piece. |
| ScheduleTime.NextOccurrences | app/core/schedule_time.py:33-41 | The preview is the next `count` occurrences strictly after the instant: the k-th has k others between. |
| ScheduleTime.DueOccurrences | app/core/schedule_time.py:44-68 | The backward loop and its one-microsecond shift find, ascending, just the occurrences in (after, now] with fewer than `max_count` newer ones up to now. |
| ScheduleTime.DueIsTheNewest | app/core/schedule_time.py:44-68 | An occurrence is due exactly when it lies in (after, now] and fewer than `max_count` newer ones do not exceed now. |
| ScheduleTime.DueIsSorted | app/core/schedule_time.py:44-68 | Due instants ascend strictly and are occurrences. |
| ScheduleTime.BackwardAgreesWithForward | app/core/schedule_time.py:33-68 | Searching back from the k-th previewed run for k runs returns the first k previewed runs. |
| Storage.Database.FindByKey | app/core/job_service.py:66-71 | The lookup finds a row with the key exactly when one exists. |
| Storage.Database.InsertManualJob | app/db/models.py:130 | An insert fails exactly on a taken key, and then changes nothing. |
| Storage.Database.InsertScheduledJob | app/db/models.py:118-123 | An insert fails exactly on a taken (schedule, occurrence), and then changes nothing. |
| Storage.Database.ClaimJob | app/core/job_service.py:173-186 | The conditional update claims a queued row and no other, and counts the attempt. |
| Storage.Database.ActiveDestinations | app/core/webhook_service.py:75-76 | The query lists every active destination once. |
| JobService.CreateReportJob | app/core/job_service.py:47-97 | Look up, insert, look up again: which of the three decides, what is returned, and that only the insert writes: a queued job that asks for the request under its key. |
| JobService.ClaimScheduleOccurrences | app/core/job_service.py:100-161 | The loop of savepoints adds one queued job for each occurrence that has none, asking for what the schedule asks, and returns exactly those it added; every other row stays. |
| JobService.ClaimOccurrencesClaims | app/core/job_service.py:124-161 | What claiming means: new jobs only, each for one of the occurrences and the only one for it, and afterwards each occurrence has a job. |
| JobService.RunJob | app/core/job_service.py:164-275 | One attempt with all its ends, field by field: not owned, failed and requeued below three attempts, failed for good with the cursor at the job's occurrence, rolled back, or committed. |
| JobService.CompleteTransaction | app/core/job_service.py:248-270 | One commit creates the report now, has the job succeed with it now, the schedule run now and stand at the job's occurrence, and gives each active destination a delivery. |
| JobService.RecoverStuckJobs | app/core/job_service.py:278-309 | Selected is what has been running for more than ten minutes; each is written once, queued below three attempts of the selected copy and failed otherwise, and no other job is. |
| WebhookService.EnqueueDeliveriesForReport | app/core/webhook_service.py:68-90 | One delivery for each listed destination, pending, never attempted and due at once, and no row touched. |
| Transactions.EnqueueAdds | app/core/webhook_service.py:68-90 | Enqueueing adds exactly the listed deliveries under fresh identifiers and keeps every old row. |
| WebhookService.ClaimDelivery | app/core/webhook_service.py:100-128 | The conditional update claims a delivery that is pending and due, or being sent with its lease run out, and no other; it counts the attempt and sets a lease of ten minutes. |
| WebhookService.FinishDelivery | app/core/webhook_service.py:137-192 | The final write by outcome, from the sender's own attempt count: delivered, pending again in 30 seconds below five attempts, or failed. |
| WebhookService.SendDelivery | app/core/webhook_service.py:93-192 | A whole attempt, among other sessions' commits. |
| WebhookService.RetryDelivery | app/core/webhook_service.py:195-205 | An operator's retry makes the row pending and due at once, and keeps its attempts. |
| RetentionService.EnforceReportRetention | app/core/retention_service.py:22-57 | Zero or negative days do nothing; otherwise exactly the reports are deleted that were older than so many days and without a pending delivery at the selection, with their deliveries, and jobs lose only the reference. |
| RetentionService.RetentionTakesExactly | app/core/retention_service.py:29-51 | From the rows the deletion finds, a report survives exactly when it was recent or had a pending delivery at the selection; a delivery exactly when its report does; jobs lose only the reference. |
| RetentionGap.PendingIsTakenExactlyWhen | app/core/retention_service.py:34-52 | For a report that a retention run selects, among any others: something committed before its deletion, other than an operator's retry, can make a delivery pending and have it deleted all the same, exactly when a delivery has a sender below the ceiling or is being sent with an attempt left. |
| RetentionGap.PendingReportIsDeleted | app/core/retention_service.py:3-8 | A run with timely senders and no manual retry in which retention deletes a report whose delivery is pending at that moment. |
| RetentionService.DeleteReport | app/api/routes/report.py:130-134 | An operator's deletion takes one report with its deliveries, pending or not, and reports a missing one. |
| Tasks.DispatchDueSchedules | app/worker/tasks.py:63-90 | Every active schedule gets its turn from the copy read at the start, whatever others commit before and during the turn; exactly the created jobs are published. |
| Tasks.TurnClaimsWhatIsDue | app/worker/tasks.py:48-82 | A turn claims the newest five occurrences since the cursor, or since the creation, up to now, and moves the cursor to the last of them; when nothing is due it does nothing. |
| DispatchPass.TurnsDispatch | app/worker/tasks.py:71-82 | Turns that nothing interrupts compose to the uninterrupted pass. |
| DispatchPass.PassClaimsWhatIsDue | app/worker/tasks.py:63-90 | An uninterrupted pass leaves a job for every occurrence of its batches, and repeating it at the same instant changes nothing. |
| Tasks.RecoverStuckReportJobs | app/worker/tasks.py:142-148 | The sweep publishes, once each, the jobs that have been running for more than ten minutes and read queued afterwards. |
| Tasks.DispatchQueuedReportJobs | app/worker/tasks.py:166-185 | Every queued job is published once, except those whose publishing fails. |
| Tasks.DispatchPendingWebhookDeliveries | app/worker/tasks.py:200-221 | Every due delivery is published once, and no other. |
| Tasks.ExecuteReportJob | app/worker/tasks.py:115-139 | A message runs one attempt, and whoever reads the job back as queued publishes it again, the loser of the claim included. |
| Refinement.SubmitRefines | app/core/job_service.py:73-97 | The insert of a request is an enabled step with the same rows. |
| Refinement.ClaimRefines | app/core/job_service.py:173-198 | A won claim is an enabled step of the protocol with the same rows, and makes a worker with a copy of the row. |
| Refinement.AttemptRefines | app/core/job_service.py:209-275 | Whatever the plain contract of an attempt says is written after a won claim is an enabled step with the same rows, and so is the cursor, which a final failure of a scheduled job writes and nothing else does. |
| Refinement.FailureRefines | app/core/job_service.py:222-246 | A failed attempt requeues its message, and that of a scheduled job leaves a worker that may write the cursor. |
| Refinement.RecoveryRefines | app/core/job_service.py:278-303 | Selecting and committing a recovery are two steps with the same rows. |
| Refinement.TurnRefines | app/worker/tasks.py:71-82 | A schedule's turn is a claim step and, if anything was due, a cursor step, with other steps in between. |
| Refinement.PassRefines | app/worker/tasks.py:63-82 | A pass over several schedules is as many passes of the protocol, all begun when the schedules are read. |
| Refinement.SendRefines | app/core/webhook_service.py:100-192 | Claiming and finishing a delivery are two steps with the same rows, the final write from the attempts of the claim. |
| Refinement.RetryRefines | app/core/webhook_service.py:195-205 | An operator's retry is a step with the same rows. |
| Refinement.RetentionRefines | app/core/retention_service.py:32-52 | Selecting and deleting are two steps with the same rows. |
| Refinement.DeletionRefines | app/api/routes/report.py:130-134 | An operator's deletion is a step with the same rows. |
| JobAccounting.StepKeepsInv | app/core/job_service.py:164-309 | Every step of the protocol keeps the attempt ledger balanced, whatever workers hold in their copies. |
| JobAccounting.AttemptsAreBounded | app/core/job_service.py:173-182 | In every run, without premises: attempts equal the generation attempts begun, and never exceed 3 plus the recoveries that hit a live worker's job or a changed row. |
| JobSafety.OneOwner | app/core/job_service.py:185-196 | Two workers at work on one job are the same worker. |
| JobSafety.StepKeepsInv | app/core/job_service.py:164-309 | Under P and Q every step keeps: a live worker's copy is the row, and what a sweep selected is still as selected and unattended. |
| JobSafety.JobsAreSafe | app/core/job_service.py:173-302 | Under P and Q, in every run: one owner at most; queued means fewer than 3 attempts, running 1 to 3; attempts equal generations begun. |
| JobProgress.StepAdvances | app/core/job_service.py:173-302 | Under the invariant of P and Q, every step keeps a job's status and attempts or strictly lowers the measure 2(3 - attempts), plus 1 when running, 0 when finished. |
| JobProgress.AtMostSixChanges | app/core/job_service.py:173-302 | A job changes state at most six times in any run, and is finished after the sixth. |
| JobProgress.FinishedStaysFinished | app/core/job_service.py:222-251 | Succeeded and failed are never left. |
| JobProgress.QueuedJobCanStart | app/worker/tasks.py:166-185 | A queued job can be published, and the message starts an attempt that lowers the measure. |
| JobProgress.WorkerCanFinish | app/core/job_service.py:222-270 | A live worker can end its attempt either way, lowering the measure. |
| NoLostWork.EveryJobCanProgress | app/core/job_service.py:173-303 | From every state of a timely run, an unfinished job can be taken on: the run can go on, timely and without a crash, to where its measure is less. |
| NoLostWork.EveryJobCanFinish | app/core/job_service.py:173-303 | And hence to where the job has succeeded or failed. |
| LateWrites.FinishedIsAtRiskExactlyWhenHeld | app/core/job_service.py:222-302 | Without premises: some possible step takes a finished job to another status exactly when a worker still generates for it or a sweep has it selected (for a failed job, below the ceiling). |
| LateWrites.UnheldStaysFinished | app/core/job_service.py:173-302 | In every run, without premises: a finished job that nobody holds stays finished for good. |
| LateWrites.OverlappingSweepsReopenASucceededJob | app/core/job_service.py:285-303 | A run with timely workers in which a succeeded job becomes queued again. |
| Outbox.StepKeepsInv | app/core/job_service.py:248-270 | Every step keeps reports, succeeded jobs and deliveries consistent. |
| Outbox.DeliveriesFollowCommits | app/core/webhook_service.py:68-90 | In every run, without premises: while a committed report exists, it has exactly one delivery for each remaining destination active at its commit, and afterwards none. |
| Outbox.ReportsAreAtomic | app/core/job_service.py:248-270 | In every committed state under P and Q: a job's report exists only with its job succeeded and referring to it, each job commits one, and the deliveries are those of the commit. |
| Outbox.SuccessHasItsReport | app/core/job_service.py:248-270 | A job has succeeded exactly when it has committed a report. |
| ReportTimes.SuccessIsWritten | app/core/job_service.py:248-270 | What the success step writes, field by field: times, status and reference of job, schedule and report, and nothing else of them. |
| ReportTimes.ReportKeepsItsTime | app/db/models.py:74 | In every run: a report committed at t, by a job or a direct request, has its creation time t for as long as it exists. |
| ReportTimes.ReportWasCreated | app/core/job_service.py:248-270 | In every run: every report there is was created by the success of a job or by a direct request, at its creation time. |
| ReportTimes.NoEarlierCutoffSelectsIt | app/core/retention_service.py:34-42 | Hence no retention run with a cutoff at or before its commit selects it. |
| ReportTimes.ReportIsRetained | app/core/retention_service.py:22-52 | In every run: while no cutoff is less than the retention period ago and nobody removes it by hand, a report exists until the period since its commit is over. |
| ReportTimes.DeliveriesAreOfTheCommit | app/core/webhook_service.py:68-90 | In every run: a report has a delivery for a remaining destination exactly when that was active at the commit. |
| RequestsKept.ScheduledJobAsksAsItsSchedule | app/core/job_service.py:115-134 | In every run: the job of an occurrence asks for what its schedule asks. |
| RequestsKept.SubmittedJobAsksForItsRequest | app/core/job_service.py:73-85 | In every run: the job made for a request asks for just that, under its key, ever after. |
| ReportsOnce.OccurrenceIsReportedOnce | app/core/job_service.py:100-110 | Under P and Q, in every run: one report at most is committed for an occurrence of a schedule, and there is one exactly when the occurrence's job has succeeded. |
| ReportsOnce.RequestIsReportedOnce | app/core/job_service.py:47-97 | And the same for the requests that carry one idempotency key. |
| WebhookAccounting.StepKeepsInv | app/core/webhook_service.py:93-205 | Every step keeps the delivery ledger balanced, even when slow senders finish after losing their lease. |
| WebhookAccounting.AttemptsAreAccountedFor | app/core/webhook_service.py:100-126 | In every run: attempts equal the claims, never exceed 5 plus expired-lease reclaims plus manual retries, and without manual retry claims are 30 seconds apart. |
| WebhookLease.SendersExcludeEachOther | app/core/webhook_service.py:100-135 | Under W and without manual retry: one sender at most, its copy is the row, and a duplicate message starts nothing. |
| WebhookLease.FinalStaysFinal | app/core/webhook_service.py:166-192 | Under W and without manual retry, delivered and failed are never left; the row can only be deleted. |
| WebhookLease.FinalIsAtRiskExactlyWhenHeld | app/core/webhook_service.py:137-192 | Without premises and operator: some possible step takes a delivered or failed delivery to another status exactly when a sender is still at work on it, at whatever attempt. |
| WebhookLease.UnheldStaysFinal | app/core/webhook_service.py:100-192 | In every run, without premises: a final delivery with no sender stays so until an operator retries it. |
| WebhookCeiling.PendingHasAttemptsLeft | app/core/webhook_service.py:174-178 | Under W and without manual retry, a pending delivery has an attempt left. |
| WebhookCeiling.ClaimOverrunsExactlyWhen | app/core/webhook_service.py:113-122 | Under W and without manual retry, a message goes beyond the fifth attempt exactly when it finds a lease run out on the fifth attempt or later. |
| WebhookCeiling.CeilingBrokenExactlyWhen | app/core/webhook_service.py:100-126 | In every such run the attempts beyond the fifth are exactly the claims of a lease that ran out on the fifth attempt or later: the ceiling holds exactly when there was none. |
| NoLostDelivery.EveryDeliveryCanFinish | app/core/webhook_service.py:3-8 | From every state of a run with timely senders, a delivery pending or being sent can be brought to its end, without a crash, a manual retry or a late sender: delivered if its destination is active, failed otherwise. |
| CrashLoop.AttemptsHaveNoCeiling | app/core/webhook_service.py:113-122 | For every n a run with timely senders and no manual retry in which one delivery has n attempts. |
| BatchCoverage.BatchKeepsCoverage | app/worker/tasks.py:48-60 | A batch searched from any claimed cursor keeps: an unclaimed occurrence older than a claimed one has five later claimed ones. |
| ScheduleCoverage.ClaimsAdd | app/core/job_service.py:124-161 | Claiming adds exactly the missing occurrences, keeps one job for each, and touches no other schedule. |
| ScheduleCoverage.StepKeepsInv | app/worker/tasks.py:63-90 | Overlapping passes, crashes between the two commits and cursors set back all keep coverage. |
| ScheduleCoverage.OccurrencesAreCovered | app/worker/tasks.py:48-90 | In every run: one job at most for each occurrence, none early, and every occurrence up to a claimed one has its job or five later ones that have theirs. |
| CursorSetback.CursorGoesBackExactlyWhen | app/core/job_service.py:239-257 | Without premises, for a cursor at t or later: some possible step takes it before t exactly when a worker still has to end a job of an earlier occurrence, or a pass that claimed a batch ending before t still has to write its cursor. |
| CursorSetback.CursorHasItsJob | app/db/models.py:96-101 | In every run: a set cursor is an occurrence after the schedule's creation that has come and has its job. |
| CursorSettles.SettledCursorStays | app/worker/tasks.py:71-82 | In every run, without premises: once the jobs of occurrences before t are finished and nobody holds them, and every pass left over the schedule read a cursor at t or later or has claimed a batch that ends there, the cursor never goes before t again. |
| CursorRuns.OlderPassSetsCursorBack | app/worker/tasks.py:71-82 | For every calendar a run in which an overlapping older pass sets the cursor back. |
| CursorRuns.FinishingJobSetsCursorBack | app/core/job_service.py:253-258 | For every calendar a run with one pass in which a succeeding job sets the cursor back. |
| ScheduleSkips.SkippedStaysSkipped | app/worker/tasks.py:71-82 | An occurrence without a job that had five newer ones due at some time is never claimed, whatever the cursor does, once no unclaimed pass is from before that time. |
| ScheduleSkips.PunctualPassesMissNothing | app/worker/tasks.py:48-90 | If no pass over a schedule ever has more than five due, every occurrence of it up to any claimed one has its job. |
| IdempotentSubmit.StepKeepsInv | app/core/job_service.py:65-97 | Every lookup, insert and second lookup, and every foreign commit, keeps the race in order. |
| IdempotentSubmit.CallersAgree | app/core/job_service.py:65-97 | Any number of callers with one key, interleaved arbitrarily: all return the same job, and exactly one created it, or none when it was there before. |
| IdempotentSubmit.CallersOnlyAdd | app/core/job_service.py:65-97 | A caller writes at most one new row, a queued job for its own request under its key, and none when the key is taken: the existing job is unchanged. |
| Dedupe.DedupeTickets | app/core/report_service.py:26-39 | The dictionary loop keeps one record for each identifier, in order of first sight. |
| Dedupe.DedupedIsNewest | app/core/report_service.py:26-39 | What is kept are exactly the newest records, the earliest among equals, each once. |
| Dedupe.DedupedKeepsOrder | app/core/report_service.py:26-39 | The kept records stand in the order in which their identifiers were first seen. |
| Dedupe.DedupeByPages | app/core/report_service.py:26-39 | Collapsing two lists separately and then together is collapsing them at once: page boundaries do not matter. |
| Dedupe.SurvivorsAreNewestInPeriod | app/core/report_service.py:46-64 | After the period filter exactly those newest records remain that were updated within the window, both ends included, in the order of first sight. |
| Ranking.StringLessMeans | app/core/prompt_builder.py:159 | One identifier comes before another where they first differ, or as a proper prefix. |
| Ranking.RankedSorts | app/core/prompt_builder.py:146-159 | Ranking by tier and then identifier sorts and loses nothing. |
| Ranking.RankedIgnoresOrder | app/core/prompt_builder.py:146-159 | With distinct identifiers the ranking does not depend on the order of the tickets. |
| PromptBudget.KeepWithinBudget | app/core/prompt_builder.py:225-234 | The greedy loop with its two exits stops at the cut. |
| PromptBudget.CutIsLongest | app/core/prompt_builder.py:225-234 | The cut is the longest prefix of the ranking whose cost fits the budget, or the first ticket when not even it fits. |
| PromptBudget.SelectTickets | app/core/prompt_builder.py:216-247 | The listing, in the tickets' own order, and the count of those omitted. Those listed go before those omitted, fit in what the header and 500 tokens leave, unless it is one alone, and the next would not fit. |
| PromptBudget.BlockedSurviveFirst | app/core/prompt_builder.py:146-159 | If one ticket is listed and another omitted: the omitted one is blocked only if the listed one is, at risk only if the listed one is that or blocked, and among equals the identifier decides. |
| PromptBudget.ListedRankFirst | app/core/prompt_builder.py:146-159 | Every listed ticket ranks before every omitted one. |
| PromptBudget.SelectionIgnoresOrder | app/core/prompt_builder.py:216-234 | The selected set does not depend on the order of the tickets. |
| PromptBudget.NoneOmitted | app/core/prompt_builder.py:236 | With distinct identifiers the omitted count is zero exactly when every ticket is selected. |
| PromptBudget.ListingFits | app/core/prompt_builder.py:142-143 | When the first ticket fits, the listed lines with their newlines have at most 4 times the budget in characters. |
| PromptBudget.BudgetIsReached | app/core/prompt_builder.py:142-143 | And that bound is attained for every budget of at least 2. |
| Pagination.UntruncatedIsComplete | app/connectors/base.py:9-20 | A fetch is untruncated exactly when the source can be read to its end mark within the limits, and then it holds the whole listing. |
| Cursors.RepeatedCursorRecurs | app/connectors/asana.py:119-124 | A repeated cursor means the pages repeat for ever. |
| Pagination.RepetitionIsEndless | app/connectors/jira.py:122-127 | Such a listing has no end, so stopping there hides no complete result. |
| AsanaConnector.Fetch | app/connectors/asana.py:66-131 | Over the responses: each request but the first follows the offset of the response before, none twice; the tickets are those of all responses; the fetch is truncated exactly when the last response has an offset, and then because of 5000 records, 50 pages, a repeated offset or a failed request. Truncated exactly when the source has no complete listing within the limits; only the first page may fail the fetch. |
| JiraConnector.Fetch | app/connectors/jira.py:58-135 | The same for page tokens, a response without issues or with `isLast` being the end, and a missing token a truncation. |
| GitHubConnector.ReadIssues | app/connectors/github.py:82-107 | Pull requests are dropped, issues kept in order. |
| GitHubConnector.IssuesOnlyKeeps | app/connectors/github.py:82-107 | The tickets are those of the issues among the items, all of them, in order. |
| GitHubConnector.Fetch | app/connectors/github.py:61-123 | The same for page numbers: responses of 100 items or more, pull requests counted, are read up to the first that is shorter, and the fetch is truncated exactly when the last one read is not shorter. |
| ReportPipeline.GenerateReport | app/core/report_service.py:108-182 | The pipeline from fetch to report, the prompt being rendered around the listing and redacted as a whole, with its error for each failing stage. |
| ReportPipeline.RelevantIsNewestInPeriod | app/core/report_service.py:125-126 | Reported on are the newest records in the period, each identifier once, in the order of first sight. |
| ReportPipeline.ListingIsSelection | app/core/report_service.py:137-139 | What the prompt lists of them is a selection by rank within the configured input tokens. |
| ReportPipeline.TruncationIsExplained | app/core/report_service.py:153-167 | A report is marked truncated exactly when it gives a reason, the fetch's own first, and complete exactly when it is not. |
| ReportPipeline.CompleteListingIsFull | app/core/prompt_builder.py:238-241 | The listing of a complete report is the lines of all its tickets, in order. |
| ReportPipeline.CompleteListsEverything | app/core/report_service.py:121-167 | If a report is complete, the fetch saw the source's end, and every ticket whose newest record lies in the period has its own line in its own place of the listing. |
| ReportPipeline.CompleteExactlyWhen | app/core/report_service.py:153-167 | Complete means exactly: read to the end within the limits, every entry selected, and the provider not cut off. |

## Left out

- SQLAlchemy sessions: attribute expiry, the identity map and refreshes. A claim and the refresh after it are one step, the refreshes of one recovery read one state, and rows are values in maps, not shared objects, so aliasing of loaded rows is not captured.
- The time between reading the clock and committing: a step's `now` is its commit time. A report's creation time is that of its commit too, where a database whose clock stands still within a transaction gives the start of the transaction.
- Celery and Redis: messages are a multiset from which messages are consumed or lost and to which any may be added at any time; countdowns are not promised.
- croniter, IANA zones and daylight saving: a cron expression in a zone is an abstract, strictly increasing enumeration of instants without first or last.
- HTTP, JSON, credentials and language models: outcomes are parameters. A ticket that cannot be parsed fails the fetch in the code; here a page either arrives or does not.
- Exceptions other than the report error during an attempt: they count as the death of the worker, whose job the recovery sweep finds.
- Request signing, the outbound address guard and API authentication.
- Jinja templates, PDF rendering and the template reference of a job or report.
- The other redaction expressions, name aliases and digits outside ASCII: sanitizing enters the pipeline as a function that keeps identifiers, and the last redaction of the whole prompt as part of the function that renders it, so what the provider reads of a line is not promised.
- Mapping of statuses and priorities, risk scoring and the prompt's sections: an entry carries its line, whether it is blocked and whether it is a risk. Only the size of the header is kept.
- The argument checks before the fetch and the texts of errors and truncation reasons beyond being present.
- Aware and naive times: instants are integers.
- Editing and deleting schedules, deleting jobs, and the API routes: a schedule keeps its calendar, as the coverage theorems require.
- Health checks, the scheduler's heartbeat, migrations and the configuration UI.
- IdempotentSubmit.CallersAgree: assumes that an insert fails only on the unique key, as the code does when it looks up the row after a failure.
- JobSafety.JobsAreSafe: holds under P and Q, because the final writes and the recovery name no owner; LateWrites.FinishedIsAtRiskExactlyWhenHeld has the exact condition without them.
- WebhookLease.FinalStaysFinal: holds under W and until an operator retries, which the code allows from any state; WebhookLease.FinalIsAtRiskExactlyWhenHeld has the exact condition without either.
- PromptBudget.ListingFits: bounds the ticket listing and not the whole prompt, whose later sections are not budgeted.
- WebhookService.RetryDelivery: the operator's read and write are one step, and every column is written, where the session leaves out columns whose value has not changed since the read.
- Transactions.SetCursor: reading the schedule and writing its cursor are one step, and so with a job's success. The session leaves the cursor out of the update if it reads the very occurrence it is about to set, so another write in between would stay where the model overwrites it.
