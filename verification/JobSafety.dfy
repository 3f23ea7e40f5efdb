/**
Job safety under the timing the recovery sweep relies on: a generation attempt
ends, or its worker dies, within the staleness window, and recovery sweeps do
not overlap one another.
*/
module JobSafety {
  import opened Wrappers
  import opened Models
  import opened Transactions
  import opened World
  import JobAccounting

  /** No live worker is past the staleness window. */
  ghost predicate WorkersAreTimely(workers: map<Id, Worker>, now: int) {
    forall i :: i in workers && workers[i].phase == Generating && workers[i].copy.startedAt.Some? ==>
      now - workers[i].copy.startedAt.value <= STALE_RUNNING_AFTER
  }

  ghost predicate SweepsDoNotOverlap(sweeps: map<Id, Sweep>) {
    forall i, k :: i in sweeps && k in sweeps ==> i == k
  }

  ghost predicate Premises(w: World) {
    WorkersAreTimely(w.workers, w.now) && SweepsDoNotOverlap(w.sweeps)
  }

  // ----- The invariant -----

  predicate WorksOn(worker: Worker, j: Id) {
    worker.job == j && worker.phase == Generating
  }

  predicate Started(row: Job) {
    row.status == Running && row.startedAt.Some?
  }

  /** A live worker's copy is the row itself. */
  ghost predicate OwnersMatch(workers: map<Id, Worker>, jobs: map<Id, Job>) {
    forall i :: i in workers && workers[i].phase == Generating ==>
      workers[i].job in jobs && jobs[workers[i].job] == workers[i].copy && Started(workers[i].copy)
  }

  /** The job is still as it was selected, and nobody works on it. */
  ghost predicate Abandoned(j: Id, copy: Job, jobs: map<Id, Job>, workers: map<Id, Worker>) {
    && j in jobs && jobs[j] == copy && copy.status == Running
    && (forall k :: k in workers ==> !WorksOn(workers[k], j))
  }

  ghost predicate SelectionsMatch(sweeps: map<Id, Sweep>, jobs: map<Id, Job>, workers: map<Id, Worker>) {
    forall i, j :: i in sweeps && j in sweeps[i].copies ==> Abandoned(j, sweeps[i].copies[j], jobs, workers)
  }

  ghost predicate NoMisfires(ledgers: map<Id, JobLedger>) {
    forall j :: j in ledgers ==> ledgers[j].misfires == 0
  }

  /** Only a succeeded job refers to a report. */
  ghost predicate ReportsAreOfSucceeded(jobs: map<Id, Job>) {
    forall j :: j in jobs && jobs[j].status != Succeeded ==> jobs[j].reportId == None
  }

  ghost predicate Owned(jobs: map<Id, Job>, ledgers: map<Id, JobLedger>, workers: map<Id, Worker>,
                        sweeps: map<Id, Sweep>) {
    && OwnersMatch(workers, jobs)
    && SelectionsMatch(sweeps, jobs, workers)
    && NoMisfires(ledgers)
    && ReportsAreOfSucceeded(jobs)
  }

  ghost predicate Inv(w: World) {
    && JobAccounting.Inv(w)
    && Owned(w.store.jobs, w.history.jobs, w.workers, w.sweeps)
  }

  /** At most one worker owns a job. */
  lemma OneOwner(w: World, i: Id, k: Id, j: Id)
    requires Inv(w) && i in w.workers && k in w.workers
    requires WorksOn(w.workers[i], j) && WorksOn(w.workers[k], j)
    ensures i == k
  {
    assert w.workers[i].copy == w.store.jobs[j] == w.workers[k].copy;
    assert IsAt(w.workers[k], j, w.workers[i].copy.attempts);
  }

  // ----- Steps -----

  /** Nobody works on a queued job, and no sweep has selected it. */
  lemma QueuedIsFree(j: Id, jobs: map<Id, Job>, ledgers: map<Id, JobLedger>, workers: map<Id, Worker>,
                     sweeps: map<Id, Sweep>)
    requires Owned(jobs, ledgers, workers, sweeps) && j in jobs && jobs[j].status == Queued
    ensures forall k :: k in workers ==> !WorksOn(workers[k], j)
    ensures forall i :: i in sweeps ==> j !in sweeps[i].copies
  {
    forall k | k in workers
      ensures !WorksOn(workers[k], j)
    {
      if workers[k].phase == Generating {
        assert jobs[workers[k].job] == workers[k].copy;
      }
    }
  }

  lemma WorkerStarts(worker: Id, j: Id, now: int, ledger: JobLedger, jobs: map<Id, Job>, ledgers: map<Id, JobLedger>,
                     workers: map<Id, Worker>, sweeps: map<Id, Sweep>)
    requires Owned(jobs, ledgers, workers, sweeps) && worker !in workers && JobClaimable(jobs, j)
    requires ledger.misfires == 0
    ensures var row := ClaimedJob(jobs[j], now);
            Owned(jobs[j := row], ledgers[j := ledger], workers[worker := Worker(j, row, Generating)], sweeps)
  {
    QueuedIsFree(j, jobs, ledgers, workers, sweeps);
    var row := ClaimedJob(jobs[j], now);
    var workers' := workers[worker := Worker(j, row, Generating)];
    forall i | i in workers' && workers'[i].phase == Generating
      ensures jobs[j := row][workers'[i].job] == workers'[i].copy && Started(workers'[i].copy)
    {
      assert i != worker ==> !WorksOn(workers[i], j);
    }
    forall i, l, k | i in sweeps && l in sweeps[i].copies && k in workers'
      ensures !WorksOn(workers'[k], l)
    {
      assert l != j;
      assert k != worker ==> !WorksOn(workers[k], l);
    }
  }

  lemma StartKeeps(w: World, worker: Id, j: Id)
    requires Inv(w) && worker !in w.workers
    ensures var w' := DoStartAttempt(w, worker, j); Owned(w'.store.jobs, w'.history.jobs, w'.workers, w'.sweeps)
  {
    if JobClaimable(w.store.jobs, j) {
      var ledger := JobLedgerOf(w.history.jobs, j);
      assert ledger.misfires == 0;
      hide JobAccounting.Inv, Owned;
      WorkerStarts(worker, j, w.now, ledger.(begun := ledger.begun + 1), w.store.jobs, w.history.jobs, w.workers,
                   w.sweeps);
    }
  }

  /** The owner ends its attempt: `row` is what it leaves behind. */
  lemma OwnerLeaves(w: World, worker: Id, row: Job, ledgers: map<Id, JobLedger>, workers: map<Id, Worker>)
    requires Inv(w) && worker in w.workers && w.workers[worker].phase == Generating
    requires NoMisfires(ledgers)
    requires row.status != Succeeded ==> row.reportId == None
    requires forall i :: i in workers && workers[i].phase == Generating ==>
      i != worker && i in w.workers && w.workers[i] == workers[i]
    ensures Owned(w.store.jobs[w.workers[worker].job := row], ledgers, workers, w.sweeps)
  {
    hide JobAccounting.Inv;
    var j := w.workers[worker].job;
    forall i | i in workers && workers[i].phase == Generating
      ensures workers[i].job != j
    {
      if workers[i].job == j {
        OneOwner(w, i, worker, j);
      }
    }
    assert WorksOn(w.workers[worker], j);
  }

  lemma FailureKeeps(w: World, worker: Id, reason: string)
    requires Inv(w) && worker in w.workers && w.workers[worker].phase == Generating
    ensures var w' := DoFailAttempt(w, worker, reason); Owned(w'.store.jobs, w'.history.jobs, w'.workers, w'.sweeps)
  {
    var w' := DoFailAttempt(w, worker, reason);
    var Worker(j, copy, _) := w.workers[worker];
    var row := EndedJob(w.store.jobs[j], copy.attempts, w.now, reason);
    assert row.status != Succeeded && row.reportId == None;
    OwnerLeaves(w, worker, row, w'.history.jobs, w'.workers);
    assert w'.store.jobs == w.store.jobs[j := row];
  }

  lemma CompletionKeeps(w: World, worker: Id, ds: seq<Id>)
    requires Inv(w) && worker in w.workers && w.workers[worker].phase == Generating
    requires w.workers[worker].job in w.store.jobs
    ensures var w' := DoCompleteAttempt(w, worker, ds); Owned(w'.store.jobs, w'.history.jobs, w'.workers, w'.sweeps)
  {
    var w', j := DoCompleteAttempt(w, worker, ds), w.workers[worker].job;
    OwnerLeaves(w, worker, SucceededJob(w.store.jobs[j], w.store.nextId, w.now), w.history.jobs, w'.workers);
  }

  /** Time does not run out on a live worker, so what looks stuck is abandoned. */
  lemma SelectionKeeps(w: World, sweep: Id)
    requires Inv(w) && WorkersAreTimely(w.workers, w.now) && w.sweeps == map[]
    ensures Owned(w.store.jobs, w.history.jobs, w.workers, w.sweeps[sweep := Sweep(StuckJobs(w.store.jobs, w.now))])
  {
    var copies := StuckJobs(w.store.jobs, w.now);
    forall j, k | j in copies && k in w.workers
      ensures !WorksOn(w.workers[k], j)
    {
      if w.workers[k].phase == Generating {
        assert w.store.jobs[w.workers[k].job] == w.workers[k].copy;
      }
    }
    hide JobAccounting.Inv;
  }

  /** A selection still matches at the commit, so every recovery is in good order and hits nobody's job. */
  lemma SelectionInGoodOrder(w: World, sweep: Id)
    requires Inv(w) && sweep in w.sweeps
    ensures var copies := w.sweeps[sweep].copies;
      && (forall j :: j in copies ==> InGoodOrder(w, j, copies[j]))
      && (forall i :: i in w.workers && w.workers[i].phase == Generating ==> w.workers[i].job !in copies)
  {
    hide JobAccounting.Inv;
    var copies := w.sweeps[sweep].copies;
    forall i | i in w.workers && w.workers[i].phase == Generating
      ensures w.workers[i].job !in copies
    {
      assert WorksOn(w.workers[i], w.workers[i].job);
    }
    forall j | j in copies
      ensures InGoodOrder(w, j, copies[j])
    {
      assert Abandoned(j, copies[j], w.store.jobs, w.workers);
    }
  }

  lemma RecoveryKeepsReports(w: World, sweep: Id)
    requires Inv(w) && sweep in w.sweeps
    ensures ReportsAreOfSucceeded(DoCommitRecovery(w, sweep).store.jobs)
  {
    hide JobAccounting.Inv, OwnersMatch, NoMisfires, RecoveredLedger;
    var copies, jobs' := w.sweeps[sweep].copies, DoCommitRecovery(w, sweep).store.jobs;
    forall j | j in jobs' && jobs'[j].status != Succeeded
      ensures jobs'[j].reportId == None
    {
      assert j in copies ==> Abandoned(j, copies[j], w.store.jobs, w.workers);
    }
  }

  lemma RecoveryKeeps(w: World, sweep: Id)
    requires Inv(w) && SweepsDoNotOverlap(w.sweeps) && sweep in w.sweeps
    ensures var w' := DoCommitRecovery(w, sweep); Owned(w'.store.jobs, w'.history.jobs, w'.workers, w'.sweeps)
  {
    hide JobAccounting.Inv, InGoodOrder, SelectionsMatch, ReportsAreOfSucceeded;
    SelectionInGoodOrder(w, sweep);
    RecoveryKeepsReports(w, sweep);
    NoSelections(DoCommitRecovery(w, sweep));
  }

  lemma NoSelections(w: World)
    requires w.sweeps == map[]
    ensures SelectionsMatch(w.sweeps, w.store.jobs, w.workers)
  {
  }

  lemma DeletionKeeps(w: World, step: OtherStep)
    requires Inv(w) && CanOther(w, step) && DeletesReports(step)
    ensures Owned(DoOther(w, step).store.jobs, w.history.jobs, w.workers, w.sweeps)
  {
    hide JobAccounting.Inv;
    var ids := DeletedReports(w, step);
    var jobs' := DeleteReports(w.store, ids).jobs;
    forall j | j in w.store.jobs
      ensures jobs'[j].status == w.store.jobs[j].status
      ensures w.store.jobs[j].status != Succeeded ==> jobs'[j] == w.store.jobs[j]
    {
      assert jobs'[j] == ForgetReports(w.store.jobs[j], ids);
    }
    hide DeleteReports;
    UnfinishedKeeps(w.store.jobs, jobs', w.history.jobs, w.workers, w.sweeps);
  }

  lemma UnfinishedKeeps(jobs: map<Id, Job>, jobs': map<Id, Job>, ledgers: map<Id, JobLedger>,
                        workers: map<Id, Worker>, sweeps: map<Id, Sweep>)
    requires Owned(jobs, ledgers, workers, sweeps) && jobs'.Keys == jobs.Keys
    requires forall j :: j in jobs ==> jobs'[j].status == jobs[j].status
    requires forall j :: j in jobs && jobs[j].status != Succeeded ==> jobs'[j] == jobs[j]
    ensures Owned(jobs', ledgers, workers, sweeps)
  {
    forall i, j | i in sweeps && j in sweeps[i].copies
      ensures Abandoned(j, sweeps[i].copies[j], jobs', workers)
    {
      assert Abandoned(j, sweeps[i].copies[j], jobs, workers);
    }
    forall i | i in workers && workers[i].phase == Generating
      ensures workers[i].job in jobs' && jobs'[workers[i].job] == workers[i].copy
    {
      assert jobs[workers[i].job] == workers[i].copy;
    }
  }

  lemma GrowthKeeps(before: Store, after: Store, ledgers: map<Id, JobLedger>, workers: map<Id, Worker>,
                    sweeps: map<Id, Sweep>)
    requires Owned(before.jobs, ledgers, workers, sweeps) && Grows(before, after)
    ensures Owned(after.jobs, ledgers, workers, sweeps)
  {
  }

  lemma Shrinks(jobs: map<Id, Job>, ledgers: map<Id, JobLedger>, workers: map<Id, Worker>, sweeps: map<Id, Sweep>,
                fewer: map<Id, Worker>, fewerSweeps: map<Id, Sweep>)
    requires Owned(jobs, ledgers, workers, sweeps)
    requires forall i :: i in fewer ==> i in workers && fewer[i] == workers[i]
    requires forall i :: i in fewerSweeps ==> i in sweeps && fewerSweeps[i] == sweeps[i]
    ensures Owned(jobs, ledgers, fewer, fewerSweeps)
  {
  }

  lemma JobStepKeeps(w: World, step: JobStep)
    requires Inv(w) && CanJob(w, step) && Premises(w) && Premises(DoJob(w, step))
    ensures var w' := DoJob(w, step); Owned(w'.store.jobs, w'.history.jobs, w'.workers, w'.sweeps)
  {
    hide JobAccounting.Inv, OwnersMatch, SelectionsMatch, NoMisfires, ReportsAreOfSucceeded;
    match step
    case StartAttempt(worker, job) => StartKeeps(w, worker, job);
    case FailAttempt(worker, reason) => FailureKeeps(w, worker, reason);
    case CompleteAttempt(worker, ds) => CompletionKeeps(w, worker, ds);
    case BeginRecovery(sweep) => BeginKeeps(w, sweep);
    case CommitRecovery(sweep) => RecoveryKeeps(w, sweep);
    case Submit(request, key) => SubmitKeeps(w, request, key);
    case _ =>
      hide Premises;
      Shrinks(w.store.jobs, w.history.jobs, w.workers, w.sweeps, DoJob(w, step).workers, DoJob(w, step).sweeps);
  }

  lemma BeginKeeps(w: World, sweep: Id)
    requires Inv(w) && sweep !in w.sweeps && Premises(w)
    requires Premises(w.(sweeps := w.sweeps[sweep := Sweep(StuckJobs(w.store.jobs, w.now))]))
    ensures Owned(w.store.jobs, w.history.jobs, w.workers, w.sweeps[sweep := Sweep(StuckJobs(w.store.jobs, w.now))])
  {
    hide Inv;
    var sweeps' := w.sweeps[sweep := Sweep(StuckJobs(w.store.jobs, w.now))];
    assert SweepsDoNotOverlap(sweeps') && sweep in sweeps';
    forall i
      ensures i !in w.sweeps
    {
      assert i in sweeps' <==> i == sweep;
    }
    assert w.sweeps == map[];
    SelectionKeeps(w, sweep);
  }

  lemma SubmitKeeps(w: World, request: Request, key: Option<string>)
    requires Inv(w)
    ensures Owned(DoSubmit(w, request, key).store.jobs, w.history.jobs, w.workers, w.sweeps)
  {
    JobAccounting.NextIdIsUnused(w);
    hide JobAccounting.Inv, OwnersMatch, SelectionsMatch, NoMisfires, ReportsAreOfSucceeded;
    GrowthKeeps(w.store, DoSubmit(w, request, key).store, w.history.jobs, w.workers, w.sweeps);
  }

  lemma ClaimPassKeeps(w: World, pass: Id)
    requires Inv(w) && pass in w.passes
    ensures Owned(DoClaimPass(w, pass).store.jobs, w.history.jobs, w.workers, w.sweeps)
  {
    var p := w.passes[pass];
    JobAccounting.NextIdIsUnused(w);
    ClaimOccurrencesGrows(w.store, p.schedule, p.copy.request, BatchOf(p));
    hide JobAccounting.Inv, OwnersMatch, SelectionsMatch, NoMisfires, ReportsAreOfSucceeded;
    GrowthKeeps(w.store, DoClaimPass(w, pass).store, w.history.jobs, w.workers, w.sweeps);
  }

  lemma StepKeepsInv(w: World, step: Step)
    requires Inv(w) && Can(w, step) && Premises(w) && Premises(Do(w, step))
    ensures Inv(Do(w, step))
  {
    JobAccounting.StepKeepsInv(w, step);
    hide JobAccounting.Inv, Owned, Premises, CanJob, DoJob, CanSend, DoSend, CanOther, DoOther;
    match step
    case Jobs(js) => JobStepKeeps(w, js);
    case Passes(ps) =>
      if ps.ClaimPass? {
        ClaimPassKeeps(w, ps.pass);
      } else {
        PassStepsLeaveJobs(w, ps);
      }
    case Sends(ss) => SendStepsOnlySend(w, ss);
    case Others(os) =>
      if DeletesReports(os) {
        DeletionKeeps(w, os);
        DeletionsOnlyDelete(w, os);
        hide DeleteReports;
      } else {
        OtherStepsLeaveJobs(w, os);
      }
  }

  // ----- Runs -----

  /** A run from the empty store in which the premises hold all along. */
  ghost predicate IsTimelyRun(ws: seq<World>, steps: seq<Step>) {
    && IsRun(ws, steps) && Init(ws[0])
    && (forall i :: 0 <= i < |ws| ==> Premises(ws[i]))
  }

  lemma {:induction false} RunKeepsInv(ws: seq<World>, steps: seq<Step>, i: nat)
    requires IsTimelyRun(ws, steps) && i < |ws|
    ensures Inv(ws[i])
  {
    if i > 0 {
      RunKeepsInv(ws, steps, i - 1);
      assert ws[i] == Do(ws[i - 1], steps[i - 1]);
      StepKeepsInv(ws[i - 1], steps[i - 1]);
    }
  }

  /**
   * Safety, whatever the interleaving of duplicate and reordered messages, crashes and recoveries: one owner at
   * most, whose copy is the row; attempts within the ceiling and equal to the generation attempts begun.
   */
  lemma JobsAreSafe(ws: seq<World>, steps: seq<Step>, i: nat, j: Id)
    requires IsTimelyRun(ws, steps) && i < |ws| && j in ws[i].store.jobs
    ensures var job, w := ws[i].store.jobs[j], ws[i];
      && (job.status == Queued ==> job.attempts < MAX_JOB_ATTEMPTS)
      && (job.status == Running ==> 1 <= job.attempts <= MAX_JOB_ATTEMPTS)
      && job.attempts <= MAX_JOB_ATTEMPTS
      && job.attempts == JobLedgerOf(w.history.jobs, j).begun
      && (forall k, l :: k in w.workers && l in w.workers && WorksOn(w.workers[k], j) && WorksOn(w.workers[l], j) ==>
          k == l)
      && (forall k :: k in w.workers && WorksOn(w.workers[k], j) ==> w.workers[k].copy == job && job.status == Running)
  {
    var w := ws[i];
    RunKeepsInv(ws, steps, i);
    assert JobAccounting.Balanced(w.store.jobs[j], JobLedgerOf(w.history.jobs, j));
    JobAccounting.BalanceBounds(w.store.jobs[j], JobLedgerOf(w.history.jobs, j));
    forall k, l | k in w.workers && l in w.workers && WorksOn(w.workers[k], j) && WorksOn(w.workers[l], j)
      ensures k == l
    {
      OneOwner(w, k, l, j);
    }
  }
}
