/**
What holds of jobs in every run, with no assumption on timing: attempts are
counted exactly, and their number is bounded by the ceiling plus the recoveries
that hit a job somebody was still working on.
*/
module JobAccounting {
  import opened Wrappers
  import opened Models
  import opened Transactions
  import opened World
  import Sets

  /** No orderly requeue ends the last allowed attempt, and only requeues and misfires make room for attempts. */
  ghost predicate Balanced(row: Job, ledger: JobLedger) {
    && ledger.begun == row.attempts
    && (forall c :: c in ledger.requeued ==> 1 <= c < MAX_JOB_ATTEMPTS && c <= row.attempts)
    && row.attempts <= |ledger.requeued| + ledger.misfires + (if row.status == Queued then 0 else 1)
    && (row.status == Running ==> row.startedAt.Some? && 1 <= row.attempts && row.attempts !in ledger.requeued)
  }

  ghost predicate RowsBalanced(jobs: map<Id, Job>, ledgers: map<Id, JobLedger>) {
    forall j :: j in jobs ==> Balanced(jobs[j], JobLedgerOf(ledgers, j))
  }

  predicate SameRequest(a: Job, b: Job) {
    a.request == b.request && a.scheduleId == b.scheduleId && a.scheduledFor == b.scheduledFor
  }

  /** A worker's copy is of its job's row, at an attempt that nobody has requeued yet. */
  ghost predicate CopyFits(copy: Job, phase: Phase, row: Job, ledger: JobLedger) {
    && SameRequest(copy, row)
    && (phase == Generating ==> 1 <= copy.attempts <= row.attempts && copy.attempts !in ledger.requeued)
  }

  ghost predicate WorkersFit(workers: map<Id, Worker>, jobs: map<Id, Job>, ledgers: map<Id, JobLedger>) {
    forall i :: i in workers ==>
      workers[i].job in jobs
      && CopyFits(workers[i].copy, workers[i].phase, jobs[workers[i].job], JobLedgerOf(ledgers, workers[i].job))
  }

  /** No two workers are at the same attempt of the same job. */
  ghost predicate AttemptsDiffer(workers: map<Id, Worker>) {
    forall i, k :: i in workers && k in workers && i != k && workers[i].phase == Generating ==>
      !IsAt(workers[k], workers[i].job, workers[i].copy.attempts)
  }

  /** Whatever a sweep selected was running, and no later than the row is now. */
  predicate SelectionFits(copy: Job, row: Job) {
    copy.status == Running && 1 <= copy.attempts <= row.attempts
  }

  ghost predicate SweepsFit(sweeps: map<Id, Sweep>, jobs: map<Id, Job>) {
    forall i, j :: i in sweeps && j in sweeps[i].copies ==> j in jobs && SelectionFits(sweeps[i].copies[j], jobs[j])
  }

  ghost predicate KeysFit(jobs: map<Id, Job>, ledgers: map<Id, JobLedger>, nextId: Id) {
    && ledgers.Keys <= jobs.Keys
    && (forall j :: j in jobs ==> j < nextId)
  }

  ghost predicate PartsInv(jobs: map<Id, Job>, ledgers: map<Id, JobLedger>, workers: map<Id, Worker>,
                           sweeps: map<Id, Sweep>, nextId: Id)
  {
    && RowsBalanced(jobs, ledgers)
    && WorkersFit(workers, jobs, ledgers)
    && AttemptsDiffer(workers)
    && SweepsFit(sweeps, jobs)
    && KeysFit(jobs, ledgers, nextId)
  }

  ghost predicate Inv(w: World) {
    PartsInv(w.store.jobs, w.history.jobs, w.workers, w.sweeps, w.store.nextId)
  }

  // ----- One row changes -----

  /** A new version of a row keeps the request, never counts back, and leaves its workers' attempts unrequeued. */
  ghost predicate Follows(j: Id, before: Job, after: Job, ledger: JobLedger, workers: map<Id, Worker>) {
    && SameRequest(before, after) && before.attempts <= after.attempts
    && (forall i :: i in workers && workers[i].job == j && workers[i].phase == Generating ==>
          workers[i].copy.attempts !in ledger.requeued)
  }

  /** Only the ledger of `j` differs. */
  ghost predicate LedgerChanges(j: Id, before: map<Id, JobLedger>, after: map<Id, JobLedger>) {
    && after.Keys <= before.Keys + {j}
    && (forall k :: k != j ==> JobLedgerOf(after, k) == JobLedgerOf(before, k))
  }

  lemma RowChanges(j: Id, row: Job, jobs: map<Id, Job>, ledgers: map<Id, JobLedger>, ledgers': map<Id, JobLedger>,
                   workers: map<Id, Worker>, sweeps: map<Id, Sweep>, nextId: Id)
    requires PartsInv(jobs, ledgers, workers, sweeps, nextId)
    requires j in jobs && LedgerChanges(j, ledgers, ledgers')
    requires Balanced(row, JobLedgerOf(ledgers', j)) && Follows(j, jobs[j], row, JobLedgerOf(ledgers', j), workers)
    ensures PartsInv(jobs[j := row], ledgers', workers, sweeps, nextId)
  {
    hide Balanced;
    var jobs' := jobs[j := row];
    assert ledgers'.Keys <= jobs'.Keys;
    forall k | k in jobs'
      ensures Balanced(jobs'[k], JobLedgerOf(ledgers', k))
    {
      assert k != j ==> JobLedgerOf(ledgers', k) == JobLedgerOf(ledgers, k);
    }
    forall i | i in workers
      ensures CopyFits(workers[i].copy, workers[i].phase, jobs'[workers[i].job], JobLedgerOf(ledgers', workers[i].job))
    {
      assert CopyFits(workers[i].copy, workers[i].phase, jobs[workers[i].job], JobLedgerOf(ledgers, workers[i].job));
    }
  }

  /** Workers and sweeps may vanish at any time. */
  lemma Shrinks(jobs: map<Id, Job>, ledgers: map<Id, JobLedger>, workers: map<Id, Worker>, sweeps: map<Id, Sweep>,
                nextId: Id,
                fewer: map<Id, Worker>, fewerSweeps: map<Id, Sweep>, nextId': Id)
    requires PartsInv(jobs, ledgers, workers, sweeps, nextId) && nextId <= nextId'
    requires forall i :: i in fewer ==> i in workers && fewer[i] == workers[i]
    requires forall i :: i in fewerSweeps ==> i in sweeps && fewerSweeps[i] == sweeps[i]
    ensures PartsInv(jobs, ledgers, fewer, fewerSweeps, nextId')
  {
    hide CopyFits, Balanced;
  }

  // ----- Claiming -----

  lemma ClaimIsBalanced(row: Job, ledger: JobLedger, now: int)
    requires Balanced(row, ledger) && row.status == Queued
    ensures Balanced(ClaimedJob(row, now), ledger.(begun := ledger.begun + 1))
    ensures ClaimedJob(row, now).attempts !in ledger.requeued
  {
  }

  lemma WorkerJoins(i: Id, worker: Worker, jobs: map<Id, Job>, ledgers: map<Id, JobLedger>, workers: map<Id, Worker>,
                    sweeps: map<Id, Sweep>, nextId: Id)
    requires PartsInv(jobs, ledgers, workers, sweeps, nextId)
    requires i !in workers && worker.job in jobs
    requires CopyFits(worker.copy, worker.phase, jobs[worker.job], JobLedgerOf(ledgers, worker.job))
    requires worker.phase == Generating ==> forall k :: k in workers ==>
      !IsAt(workers[k], worker.job, worker.copy.attempts)
    ensures PartsInv(jobs, ledgers, workers[i := worker], sweeps, nextId)
  {
    hide CopyFits, Balanced;
  }

  lemma StartKeepsParts(worker: Id, j: Id, now: int, jobs: map<Id, Job>, ledgers: map<Id, JobLedger>,
                        workers: map<Id, Worker>, sweeps: map<Id, Sweep>, nextId: Id)
    requires PartsInv(jobs, ledgers, workers, sweeps, nextId)
    requires worker !in workers && JobClaimable(jobs, j)
    ensures var row, ledger := ClaimedJob(jobs[j], now), JobLedgerOf(ledgers, j);
            PartsInv(jobs[j := row], ledgers[j := ledger.(begun := ledger.begun + 1)],
                     workers[worker := Worker(j, row, Generating)], sweeps, nextId)
  {
    var row, ledger := ClaimedJob(jobs[j], now), JobLedgerOf(ledgers, j);
    var ledger' := ledger.(begun := ledger.begun + 1);
    ClaimIsBalanced(jobs[j], ledger, now);
    forall i | i in workers && workers[i].job == j && workers[i].phase == Generating
      ensures workers[i].copy.attempts !in ledger'.requeued && workers[i].copy.attempts < row.attempts
    {
      assert CopyFits(workers[i].copy, workers[i].phase, jobs[j], ledger);
    }
    RowChanges(j, row, jobs, ledgers, ledgers[j := ledger'], workers, sweeps, nextId);
    WorkerJoins(worker, Worker(j, row, Generating), jobs[j := row], ledgers[j := ledger'], workers, sweeps, nextId);
  }

  // ----- Ending an attempt -----

  function LedgerAfter(ledger: JobLedger, attempts: nat): JobLedger {
    ledger.(requeued := ledger.requeued + (if StatusAfterFailure(attempts) == Queued then {attempts} else {}))
  }

  /** A worker ends its attempt, which may by now not be the job's last one. */
  lemma FailureIsBalanced(row: Job, ledger: JobLedger, attempts: nat, now: int, reason: string)
    requires Balanced(row, ledger) && 1 <= attempts <= row.attempts && attempts !in ledger.requeued
    ensures Balanced(EndedJob(row, attempts, now, reason), LedgerAfter(ledger, attempts))
  {
  }

  /** Once a worker is out of the way, its attempt can be marked as requeued. */
  lemma FailureFollows(worker: Id, workers: map<Id, Worker>, jobs: map<Id, Job>, ledgers: map<Id, JobLedger>,
                       now: int, reason: string)
    requires worker in workers && workers[worker].phase == Generating
    requires RowsBalanced(jobs, ledgers) && WorkersFit(workers, jobs, ledgers) && AttemptsDiffer(workers)
    ensures workers[worker].job in jobs
    ensures var Worker(job, copy, _) := workers[worker];
            var row, ledger := EndedJob(jobs[job], copy.attempts, now, reason),
              LedgerAfter(JobLedgerOf(ledgers, job), copy.attempts);
      && Balanced(row, ledger)
      && Follows(job, jobs[job], row, ledger, workers - {worker})
      && CopyFits(copy, CursorPending, row, ledger)
  {
    var Worker(job, copy, _) := workers[worker];
    var ledger := JobLedgerOf(ledgers, job);
    assert CopyFits(copy, Generating, jobs[job], ledger);
    FailureIsBalanced(jobs[job], ledger, copy.attempts, now, reason);
    forall i | i in workers - {worker} && workers[i].job == job && workers[i].phase == Generating
      ensures workers[i].copy.attempts !in LedgerAfter(ledger, copy.attempts).requeued
    {
      assert CopyFits(workers[i].copy, workers[i].phase, jobs[job], ledger);
      assert !IsAt(workers[i], job, copy.attempts);
    }
  }

  lemma FailureKeepsParts(worker: Id, now: int, reason: string, jobs: map<Id, Job>, ledgers: map<Id, JobLedger>,
                          workers: map<Id, Worker>, sweeps: map<Id, Sweep>, nextId: Id)
    requires PartsInv(jobs, ledgers, workers, sweeps, nextId)
    requires worker in workers && workers[worker].phase == Generating
    ensures workers[worker].job in jobs
    ensures var Worker(j, copy, _) := workers[worker];
            var row, ledger := EndedJob(jobs[j], copy.attempts, now, reason),
              LedgerAfter(JobLedgerOf(ledgers, j), copy.attempts);
      && PartsInv(jobs[j := row], ledgers[j := ledger], workers - {worker}, sweeps, nextId)
      && PartsInv(jobs[j := row], ledgers[j := ledger], workers[worker := Worker(j, copy, CursorPending)], sweeps,
                  nextId)
  {
    hide Balanced, Follows, CopyFits, EndedJob, LedgerAfter, RowsBalanced, WorkersFit, AttemptsDiffer, SweepsFit;
    var Worker(j, copy, _) := workers[worker];
    FailureFollows(worker, workers, jobs, ledgers, now, reason);
    hide PartsInv, KeysFit;
    var row, ledger := EndedJob(jobs[j], copy.attempts, now, reason),
      LedgerAfter(JobLedgerOf(ledgers, j), copy.attempts);
    var others, pending := workers - {worker}, Worker(j, copy, CursorPending);
    Shrinks(jobs, ledgers, workers, sweeps, nextId, others, sweeps, nextId);
    RowChanges(j, row, jobs, ledgers, ledgers[j := ledger], others, sweeps, nextId);
    WorkerJoins(worker, pending, jobs[j := row], ledgers[j := ledger], others, sweeps, nextId);
    assert workers[worker := pending] == others[worker := pending];
  }

  // ----- Success and forgetting a report -----

  /** A change that keeps attempts and request, and does not bring a finished job back. */
  predicate Settles(before: Job, after: Job) {
    && SameRequest(before, after) && after.attempts == before.attempts
    && (after.status == Running || after.status == Queued ==>
        after.status == before.status && after.startedAt == before.startedAt)
  }

  lemma SettlingKeepsParts(jobs: map<Id, Job>, jobs': map<Id, Job>, ledgers: map<Id, JobLedger>,
                           workers: map<Id, Worker>, sweeps: map<Id, Sweep>, nextId: Id)
    requires PartsInv(jobs, ledgers, workers, sweeps, nextId)
    requires jobs'.Keys == jobs.Keys && forall j :: j in jobs ==> Settles(jobs[j], jobs'[j])
    ensures PartsInv(jobs', ledgers, workers, sweeps, nextId)
  {
    forall j | j in jobs'
      ensures Balanced(jobs'[j], JobLedgerOf(ledgers, j))
    {
      assert Balanced(jobs[j], JobLedgerOf(ledgers, j)) && Settles(jobs[j], jobs'[j]);
    }
    forall i | i in workers
      ensures CopyFits(workers[i].copy, workers[i].phase, jobs'[workers[i].job], JobLedgerOf(ledgers, workers[i].job))
    {
      assert CopyFits(workers[i].copy, workers[i].phase, jobs[workers[i].job], JobLedgerOf(ledgers, workers[i].job));
      assert Settles(jobs[workers[i].job], jobs'[workers[i].job]);
    }
    forall i, j | i in sweeps && j in sweeps[i].copies
      ensures SelectionFits(sweeps[i].copies[j], jobs'[j])
    {
      assert Settles(jobs[j], jobs'[j]);
    }
  }

  // ----- Recovery -----

  lemma SelectionKeepsParts(sweep: Id, now: int, jobs: map<Id, Job>, ledgers: map<Id, JobLedger>,
                            workers: map<Id, Worker>,
                            sweeps: map<Id, Sweep>, nextId: Id)
    requires PartsInv(jobs, ledgers, workers, sweeps, nextId)
    ensures PartsInv(jobs, ledgers, workers, sweeps[sweep := Sweep(StuckJobs(jobs, now))], nextId)
  {
    hide CopyFits;
    var copies := StuckJobs(jobs, now);
    forall j | j in copies
      ensures SelectionFits(copies[j], jobs[j])
    {
      assert Balanced(jobs[j], JobLedgerOf(ledgers, j));
    }
    var sweeps' := sweeps[sweep := Sweep(copies)];
    assert SweepsFit(sweeps', jobs);
  }

  function LedgerAfterRecovery(ledger: JobLedger, copy: Job, inOrder: bool): JobLedger {
    if !Requeues(copy) then ledger
    else if inOrder then ledger.(requeued := ledger.requeued + {copy.attempts})
    else ledger.(misfires := ledger.misfires + 1)
  }

  lemma RecoveryIsBalanced(row: Job, copy: Job, ledger: JobLedger, inOrder: bool, now: int)
    requires Balanced(row, ledger) && SelectionFits(copy, row) && (inOrder ==> row == copy)
    ensures Balanced(EndedJob(row, copy.attempts, now, RECOVERED), LedgerAfterRecovery(ledger, copy, inOrder))
  {
  }

  /** What recovery makes of one row, whether or not the row is still as it was selected. */
  lemma RecoveredRow(w: World, copies: map<Id, Job>, j: Id)
    requires Inv(w) && j in w.store.jobs
    requires j in copies ==> SelectionFits(copies[j], w.store.jobs[j])
    ensures var row, ledger := Recover(w.store.jobs, copies, w.now)[j], RecoveredLedger(w, j, copies);
      && SameRequest(row, w.store.jobs[j]) && row.attempts == w.store.jobs[j].attempts
      && Balanced(row, ledger)
  {
    hide WorkersFit, AttemptsDiffer, SweepsFit, KeysFit, Balanced;
    var row, ledger := w.store.jobs[j], JobLedgerOf(w.history.jobs, j);
    assert Balanced(row, ledger);
    hide Inv, JobLedgerOf;
    if j in copies {
      var inOrder := InGoodOrder(w, j, copies[j]);
      assert inOrder ==> row == copies[j];
      hide InGoodOrder;
      assert RecoveredLedger(w, j, copies) == LedgerAfterRecovery(ledger, copies[j], inOrder);
      hide RecoveredLedger;
      RecoveryIsBalanced(row, copies[j], ledger, inOrder, w.now);
      assert Recover(w.store.jobs, copies, w.now)[j] == EndedJob(row, copies[j].attempts, w.now, RECOVERED);
      hide Recover;
    }
  }

  lemma RecoverySparesWorkers(w: World, copies: map<Id, Job>, i: Id)
    requires Inv(w) && i in w.workers && w.workers[i].phase == Generating
    ensures w.workers[i].job in w.store.jobs
    ensures w.workers[i].copy.attempts !in RecoveredLedger(w, w.workers[i].job, copies).requeued
  {
    var j, copy := w.workers[i].job, w.workers[i].copy;
    assert CopyFits(copy, Generating, w.store.jobs[j], JobLedgerOf(w.history.jobs, j));
    assert IsAt(w.workers[i], j, copy.attempts);
  }

  lemma RecoveredParts(jobs: map<Id, Job>, jobs': map<Id, Job>, ledgers: map<Id, JobLedger>,
                       ledgers': map<Id, JobLedger>,
                       workers: map<Id, Worker>, sweeps: map<Id, Sweep>, fewer: map<Id, Sweep>, nextId: Id)
    requires PartsInv(jobs, ledgers, workers, sweeps, nextId)
    requires jobs'.Keys == jobs.Keys && ledgers'.Keys <= jobs.Keys
    requires forall j :: j in jobs ==> SameRequest(jobs'[j], jobs[j]) && jobs'[j].attempts == jobs[j].attempts
    requires forall j :: j in jobs ==> Balanced(jobs'[j], JobLedgerOf(ledgers', j))
    requires forall i :: i in workers && workers[i].phase == Generating ==>
               workers[i].copy.attempts !in JobLedgerOf(ledgers', workers[i].job).requeued
    requires forall i :: i in fewer ==> i in sweeps && fewer[i] == sweeps[i]
    ensures PartsInv(jobs', ledgers', workers, fewer, nextId)
  {
    hide Balanced, JobLedgerOf;
    forall i | i in workers
      ensures CopyFits(workers[i].copy, workers[i].phase, jobs'[workers[i].job], JobLedgerOf(ledgers', workers[i].job))
    {
      assert CopyFits(workers[i].copy, workers[i].phase, jobs[workers[i].job], JobLedgerOf(ledgers, workers[i].job));
    }
    hide CopyFits;
  }

  lemma SelectionsFit(w: World, sweep: Id)
    requires Inv(w) && sweep in w.sweeps
    ensures forall j :: j in w.sweeps[sweep].copies && j in w.store.jobs ==>
              SelectionFits(w.sweeps[sweep].copies[j], w.store.jobs[j])
  {
    hide RowsBalanced, WorkersFit, AttemptsDiffer, KeysFit;
  }

  lemma RecoveryKeepsInv(w: World, sweep: Id)
    requires Inv(w) && sweep in w.sweeps
    ensures Inv(DoCommitRecovery(w, sweep))
  {
    var w', copies := DoCommitRecovery(w, sweep), w.sweeps[sweep].copies;
    hide PartsInv, Recover, RecoveredLedger, SelectionFits;
    SelectionsFit(w, sweep);
    assert w'.store.jobs == Recover(w.store.jobs, copies, w.now) && w'.store.jobs.Keys == w.store.jobs.Keys by {
      RecoverKeepsKeys(w.store.jobs, copies, w.now);
    }
    forall j | j in w.store.jobs
      ensures SameRequest(w'.store.jobs[j], w.store.jobs[j]) && w'.store.jobs[j].attempts == w.store.jobs[j].attempts
      ensures Balanced(w'.store.jobs[j], JobLedgerOf(w'.history.jobs, j))
    {
      RecoveredRow(w, copies, j);
    }
    hide Balanced, SameRequest;
    forall i | i in w.workers && w.workers[i].phase == Generating
      ensures w.workers[i].copy.attempts !in JobLedgerOf(w'.history.jobs, w.workers[i].job).requeued
    {
      RecoverySparesWorkers(w, copies, i);
    }
    RecoveredParts(w.store.jobs, w'.store.jobs, w.history.jobs, w'.history.jobs, w.workers, w.sweeps, w'.sweeps,
                   w.store.nextId);
  }

  lemma RecoverKeepsKeys(jobs: map<Id, Job>, copies: map<Id, Job>, now: int)
    ensures Recover(jobs, copies, now).Keys == jobs.Keys
  {
    hide EndAttempt;
  }

  // ----- New jobs -----

  lemma GrowthKeepsParts(before: Store, after: Store, ledgers: map<Id, JobLedger>, workers: map<Id, Worker>,
                         sweeps: map<Id, Sweep>)
    requires PartsInv(before.jobs, ledgers, workers, sweeps, before.nextId) && Grows(before, after)
    ensures PartsInv(after.jobs, ledgers, workers, sweeps, after.nextId)
  {
    forall j | j in after.jobs
      ensures Balanced(after.jobs[j], JobLedgerOf(ledgers, j))
    {
      if j in before.jobs {
        assert Balanced(before.jobs[j], JobLedgerOf(ledgers, j));
      }
    }
  }

  // ----- Every step -----

  lemma CompletionKeepsInv(w: World, worker: Id, ds: seq<Id>)
    requires Inv(w) && worker in w.workers && w.workers[worker].job in w.store.jobs
    ensures Inv(DoCompleteAttempt(w, worker, ds))
  {
    hide RowsBalanced, WorkersFit, AttemptsDiffer, SweepsFit, KeysFit, SucceededSchedule, Enqueue;
    var w' := DoCompleteAttempt(w, worker, ds);
    SettlingKeepsParts(w.store.jobs, w'.store.jobs, w.history.jobs, w.workers, w.sweeps, w.store.nextId);
    Shrinks(w'.store.jobs, w.history.jobs, w.workers, w.sweeps, w.store.nextId, w'.workers, w.sweeps, w'.store.nextId);
  }

  lemma DeletionSettles(store: Store, ids: set<Id>)
    ensures var jobs' := DeleteReports(store, ids).jobs;
            jobs'.Keys == store.jobs.Keys && forall j :: j in store.jobs ==> Settles(store.jobs[j], jobs'[j])
  {
  }

  lemma StartKeepsInv(w: World, worker: Id, job: Id)
    requires Inv(w) && worker !in w.workers
    ensures Inv(DoStartAttempt(w, worker, job))
  {
    hide PartsInv;
    if JobClaimable(w.store.jobs, job) {
      StartKeepsParts(worker, job, w.now, w.store.jobs, w.history.jobs, w.workers, w.sweeps, w.store.nextId);
    }
  }

  lemma FailureKeepsInv(w: World, worker: Id, reason: string)
    requires Inv(w) && worker in w.workers && w.workers[worker].phase == Generating
    ensures Inv(DoFailAttempt(w, worker, reason))
  {
    hide PartsInv;
    FailureKeepsParts(worker, w.now, reason, w.store.jobs, w.history.jobs, w.workers, w.sweeps, w.store.nextId);
  }

  lemma NextIdIsUnused(w: World)
    requires Inv(w)
    ensures w.store.nextId !in w.store.jobs && w.store.nextId !in w.history.jobs
    ensures forall j :: j in w.store.jobs ==> j < w.store.nextId
  {
    assert KeysFit(w.store.jobs, w.history.jobs, w.store.nextId);
  }

  lemma SubmitKeepsInv(w: World, request: Request, key: Option<string>)
    requires Inv(w)
    ensures Inv(DoSubmit(w, request, key))
  {
    assert w.store.nextId !in w.store.jobs;
    hide RowsBalanced, WorkersFit, AttemptsDiffer, SweepsFit, KeysFit;
    GrowthKeepsParts(w.store, DoSubmit(w, request, key).store, w.history.jobs, w.workers, w.sweeps);
  }

  lemma DeletionKeepsInv(w: World, step: OtherStep)
    requires Inv(w) && CanOther(w, step) && DeletesReports(step)
    ensures Inv(DoOther(w, step))
  {
    hide PartsInv;
    DeletionSettles(w.store, DeletedReports(w, step));
    SettlingKeepsParts(w.store.jobs, DoOther(w, step).store.jobs, w.history.jobs, w.workers, w.sweeps,
                       w.store.nextId);
  }

  lemma FramedKeepsInv(w: World, w': World)
    requires Inv(w) && LeavesJobs(w, w')
    ensures Inv(w')
  {
    hide RowsBalanced, WorkersFit, AttemptsDiffer, SweepsFit;
  }

  lemma JobStepKeepsInv(w: World, step: JobStep)
    requires Inv(w) && CanJob(w, step)
    ensures Inv(DoJob(w, step))
  {
    hide RowsBalanced, WorkersFit, AttemptsDiffer, SweepsFit, KeysFit, SetCursor, DoStartAttempt, DoFailAttempt,
         DoCompleteAttempt, DoCommitRecovery, DoSubmit;
    match step
    case StartAttempt(worker, job) => StartKeepsInv(w, worker, job);
    case FailAttempt(worker, reason) => FailureKeepsInv(w, worker, reason);
    case CompleteAttempt(worker, ds) => CompletionKeepsInv(w, worker, ds);
    case BeginRecovery(sweep) => SelectionKeepsInv(w, sweep);
    case CommitRecovery(sweep) => RecoveryKeepsInv(w, sweep);
    case Submit(request, key) => SubmitKeepsInv(w, request, key);
    case _ =>
      Shrinks(w.store.jobs, w.history.jobs, w.workers, w.sweeps, w.store.nextId,
              DoJob(w, step).workers, DoJob(w, step).sweeps, w.store.nextId);
  }

  lemma StepKeepsInv(w: World, step: Step)
    requires Inv(w) && Can(w, step)
    ensures Inv(Do(w, step))
  {
    hide Inv, CanJob;
    match step
    case Jobs(js) => JobStepKeepsInv(w, js);
    case Passes(ps) =>
      if ps.ClaimPass? {
        ClaimPassKeepsInv(w, ps.pass);
      } else {
        PassStepsLeaveJobs(w, ps);
        FramedKeepsInv(w, DoPass(w, ps));
      }
    case Sends(ss) =>
      SendStepsOnlySend(w, ss);
      FramedKeepsInv(w, DoSend(w, ss));
    case Others(os) =>
      if DeletesReports(os) {
        DeletionKeepsInv(w, os);
      } else {
        OtherStepsLeaveJobs(w, os);
        FramedKeepsInv(w, DoOther(w, os));
      }
  }

  lemma SelectionKeepsInv(w: World, sweep: Id)
    requires Inv(w)
    ensures Inv(w.(sweeps := w.sweeps[sweep := Sweep(StuckJobs(w.store.jobs, w.now))]))
  {
    hide PartsInv;
    SelectionKeepsParts(sweep, w.now, w.store.jobs, w.history.jobs, w.workers, w.sweeps, w.store.nextId);
  }

  lemma ClaimPassKeepsInv(w: World, pass: Id)
    requires Inv(w) && pass in w.passes
    ensures Inv(DoClaimPass(w, pass))
  {
    hide RowsBalanced, WorkersFit, AttemptsDiffer, SweepsFit;
    var p, w' := w.passes[pass], DoClaimPass(w, pass);
    ClaimOccurrencesGrows(w.store, p.schedule, p.copy.request, BatchOf(p));
    GrowthKeepsParts(w.store, w'.store, w.history.jobs, w.workers, w.sweeps);
  }

  lemma {:induction false} RunKeepsInv(ws: seq<World>, steps: seq<Step>, i: nat)
    requires IsRun(ws, steps) && Init(ws[0]) && i < |ws|
    ensures Inv(ws[i])
  {
    if i > 0 {
      RunKeepsInv(ws, steps, i - 1);
      StepKeepsInv(ws[i - 1], steps[i - 1]);
    }
  }

  // ----- The bound -----

  /**
   * In every run, however slow the workers: a job's attempt counter equals the generation attempts begun for it,
   * and never exceeds three plus the recoveries that hit a live worker's job or a row changed since its selection.
   */
  lemma AttemptsAreBounded(ws: seq<World>, steps: seq<Step>, i: nat, j: Id)
    requires IsRun(ws, steps) && Init(ws[0]) && i < |ws| && j in ws[i].store.jobs
    ensures var job, ledger := ws[i].store.jobs[j], JobLedgerOf(ws[i].history.jobs, j);
      && job.attempts == ledger.begun
      && job.attempts <= MAX_JOB_ATTEMPTS + ledger.misfires
      && (job.status == Queued ==> job.attempts < MAX_JOB_ATTEMPTS + ledger.misfires)
      && (job.status == Running ==> 1 <= job.attempts)
  {
    RunKeepsInv(ws, steps, i);
    BalanceBounds(ws[i].store.jobs[j], JobLedgerOf(ws[i].history.jobs, j));
  }

  lemma BalanceBounds(job: Job, ledger: JobLedger)
    requires Balanced(job, ledger)
    ensures job.attempts <= MAX_JOB_ATTEMPTS + ledger.misfires
    ensures job.status == Queued ==> job.attempts < MAX_JOB_ATTEMPTS + ledger.misfires
  {
    assert ledger.requeued <= {1, 2};
    Sets.SubsetSize(ledger.requeued, {1, 2});
  }
}
