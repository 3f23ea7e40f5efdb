/**
Jobs move forward only: a measure drops on every change of a job's state, so a
finished job stays as it is, every job is finished after at most six changes,
and until then some step is always there to take it on.
*/
module JobProgress {
  import opened Models
  import opened Transactions
  import opened World
  import JobAccounting
  import opened JobSafety

  /** What a job still has ahead of it: two for each attempt left, and one for an attempt under way. */
  function Measure(job: Job): int {
    if job.Terminal() then 0
    else 2 * (MAX_JOB_ATTEMPTS - job.attempts) + (if job.status == Running then 1 else 0)
  }

  predicate SameState(before: Job, after: Job) {
    after.status == before.status && after.attempts == before.attempts
  }

  predicate Advances(before: Job, after: Job) {
    SameState(before, after) || Measure(after) < Measure(before)
  }

  lemma MeasureIsNatural(w: World, j: Id)
    requires JobSafety.Inv(w) && j in w.store.jobs
    ensures 0 <= Measure(w.store.jobs[j]) <= 6
    ensures Measure(w.store.jobs[j]) == 0 <==> w.store.jobs[j].Terminal()
  {
    assert JobAccounting.Balanced(w.store.jobs[j], JobLedgerOf(w.history.jobs, j));
    JobAccounting.BalanceBounds(w.store.jobs[j], JobLedgerOf(w.history.jobs, j));
  }

  // ----- Every step -----

  lemma EndingAdvances(w: World, j: Id, attempts: nat, now: int, reason: string)
    requires JobSafety.Inv(w) && j in w.store.jobs
    requires w.store.jobs[j].status == Running && w.store.jobs[j].attempts == attempts
    ensures Measure(EndAttempt(w.store.jobs, j, attempts, now, reason)[j]) < Measure(w.store.jobs[j])
  {
    MeasureIsNatural(w, j);
  }

  lemma FailureAdvances(w: World, worker: Id, reason: string, j: Id)
    requires JobSafety.Inv(w) && worker in w.workers && w.workers[worker].phase == Generating
    requires j in w.store.jobs
    ensures j in DoFailAttempt(w, worker, reason).store.jobs
    ensures Advances(w.store.jobs[j], DoFailAttempt(w, worker, reason).store.jobs[j])
    ensures w.workers[worker].job == j ==>
      Measure(DoFailAttempt(w, worker, reason).store.jobs[j]) < Measure(w.store.jobs[j])
  {
    hide JobAccounting.Inv, JobLedgerOf;
    assert w.store.jobs[w.workers[worker].job] == w.workers[worker].copy;
    assert DoFailAttempt(w, worker, reason).store.jobs
           == EndAttempt(w.store.jobs, w.workers[worker].job, w.workers[worker].copy.attempts, w.now, reason);
    if w.workers[worker].job == j {
      EndingAdvances(w, j, w.workers[worker].copy.attempts, w.now, reason);
    }
    hide JobSafety.Inv, DoFailAttempt;
  }

  lemma CompletionAdvances(w: World, worker: Id, ds: seq<Id>, j: Id)
    requires JobSafety.Inv(w) && worker in w.workers && w.workers[worker].phase == Generating
    requires j in w.store.jobs && w.workers[worker].job in w.store.jobs
    ensures j in DoCompleteAttempt(w, worker, ds).store.jobs
    ensures Advances(w.store.jobs[j], DoCompleteAttempt(w, worker, ds).store.jobs[j])
    ensures w.workers[worker].job == j ==>
      Measure(DoCompleteAttempt(w, worker, ds).store.jobs[j]) < Measure(w.store.jobs[j])
  {
    assert w.store.jobs[w.workers[worker].job] == w.workers[worker].copy;
    MeasureIsNatural(w, j);
  }

  lemma RecoveryEnds(w: World, sweep: Id, j: Id)
    requires sweep in w.sweeps && j in w.store.jobs
    ensures var jobs, copies := w.store.jobs, w.sweeps[sweep].copies;
      j in DoCommitRecovery(w, sweep).store.jobs
      && DoCommitRecovery(w, sweep).store.jobs[j] ==
         if j in copies then EndAttempt(jobs, j, copies[j].attempts, w.now, RECOVERED)[j] else jobs[j]
  {
    hide RecoveredLedger, EndAttempt;
  }

  lemma RecoveryAdvances(w: World, sweep: Id, j: Id)
    requires JobSafety.Inv(w) && sweep in w.sweeps && j in w.store.jobs
    ensures Advances(w.store.jobs[j], DoCommitRecovery(w, sweep).store.jobs[j])
    ensures j in w.sweeps[sweep].copies ==> Measure(DoCommitRecovery(w, sweep).store.jobs[j]) < Measure(w.store.jobs[j])
  {
    hide JobAccounting.Inv, DoCommitRecovery, Measure, EndAttempt;
    RecoveryEnds(w, sweep, j);
    if j in w.sweeps[sweep].copies {
      assert w.store.jobs[j] == w.sweeps[sweep].copies[j];
      EndingAdvances(w, j, w.store.jobs[j].attempts, w.now, RECOVERED);
    }
  }

  lemma JobStepAdvances(w: World, step: JobStep, j: Id)
    requires JobSafety.Inv(w) && CanJob(w, step) && j in w.store.jobs
    ensures j in DoJob(w, step).store.jobs && Advances(w.store.jobs[j], DoJob(w, step).store.jobs[j])
  {
    hide JobAccounting.Inv, Owned;
    JobAccounting.NextIdIsUnused(w);
    hide JobSafety.Inv, SetCursor, Advances, StuckJobs, KeyTaken, DoStartAttempt, DoFailAttempt, DoCompleteAttempt,
         DoCommitRecovery;
    match step
    case StartAttempt(worker, job) => StartAdvances(w, worker, job, j);
    case FailAttempt(worker, reason) => FailureAdvances(w, worker, reason, j);
    case CompleteAttempt(worker, ds) => CompletionAdvances(w, worker, ds, j);
    case CommitRecovery(sweep) => RecoveryAdvances(w, sweep, j);
    case _ => UnchangedAdvances(w.store.jobs[j]);
  }

  lemma UnchangedAdvances(job: Job)
    ensures Advances(job, job)
  {
  }

  lemma StartAdvances(w: World, worker: Id, job: Id, j: Id)
    requires j in w.store.jobs
    ensures j in DoStartAttempt(w, worker, job).store.jobs
    ensures Advances(w.store.jobs[j], DoStartAttempt(w, worker, job).store.jobs[j])
  {
  }

  /** No step takes a job back. */
  lemma StepAdvances(w: World, step: Step, j: Id)
    requires JobSafety.Inv(w) && Can(w, step) && j in w.store.jobs
    ensures j in Do(w, step).store.jobs && Advances(w.store.jobs[j], Do(w, step).store.jobs[j])
  {
    hide JobAccounting.Inv, Owned, CanJob, DoJob, CanSend, DoSend, CanOther, DoOther;
    JobAccounting.NextIdIsUnused(w);
    match step
    case Jobs(js) => JobStepAdvances(w, js, j);
    case Passes(ps) =>
      if ps.ClaimPass? {
        var p := w.passes[ps.pass];
        ClaimOccurrencesGrows(w.store, p.schedule, p.copy.request, BatchOf(p));
      } else {
        PassStepsLeaveJobs(w, ps);
      }
    case Sends(ss) => SendStepsOnlySend(w, ss);
    case Others(os) =>
      if DeletesReports(os) {
        DeletionsOnlyDelete(w, os);
      } else {
        OtherStepsLeaveJobs(w, os);
      }
  }

  // ----- Whole runs -----

  /** How often the state of `j` changes in the first `n` steps. */
  ghost function Changes(ws: seq<World>, j: Id, n: nat): nat
    requires n < |ws|
  {
    if n == 0 then 0
    else
      var before, after := ws[n - 1].store.jobs, ws[n].store.jobs;
      Changes(ws, j, n - 1) + (if j in before && j in after && !SameState(before[j], after[j]) then 1 else 0)
  }

  lemma {:induction false} NotThereYet(ws: seq<World>, steps: seq<Step>, j: Id, n: nat)
    requires IsTimelyRun(ws, steps) && n < |ws| && j !in ws[n].store.jobs
    ensures Changes(ws, j, n) == 0
  {
    if n > 0 {
      RunKeepsInv(ws, steps, n - 1);
      if j in ws[n - 1].store.jobs {
        assert ws[n] == Do(ws[n - 1], steps[n - 1]);
        StepAdvances(ws[n - 1], steps[n - 1], j);
      }
      NotThereYet(ws, steps, j, n - 1);
    }
  }

  /** Every change of state uses up measure: a job changes state at most six times in any run, and is finished then. */
  lemma {:induction false} AtMostSixChanges(ws: seq<World>, steps: seq<Step>, j: Id, n: nat)
    requires IsTimelyRun(ws, steps) && n < |ws| && j in ws[n].store.jobs
    ensures Changes(ws, j, n) + Measure(ws[n].store.jobs[j]) <= 6
    ensures Changes(ws, j, n) <= 6
    ensures Changes(ws, j, n) == 6 ==> ws[n].store.jobs[j].Terminal()
  {
    hide JobSafety.Inv, Can, Do, Premises, Init;
    RunKeepsInv(ws, steps, n);
    MeasureIsNatural(ws[n], j);
    if n > 0 {
      RunKeepsInv(ws, steps, n - 1);
      assert ws[n] == Do(ws[n - 1], steps[n - 1]);
      if j in ws[n - 1].store.jobs {
        AtMostSixChanges(ws, steps, j, n - 1);
        StepAdvances(ws[n - 1], steps[n - 1], j);
      } else {
        NotThereYet(ws, steps, j, n - 1);
      }
    }
  }

  /** Succeeded and failed are never left. */
  lemma {:induction false} FinishedStaysFinished(ws: seq<World>, steps: seq<Step>, i: nat, n: nat, j: Id)
    requires IsTimelyRun(ws, steps) && i <= n < |ws| && j in ws[i].store.jobs && ws[i].store.jobs[j].Terminal()
    ensures j in ws[n].store.jobs && SameState(ws[i].store.jobs[j], ws[n].store.jobs[j])
    decreases n
  {
    hide JobSafety.Inv, Can, Do, Premises, Init;
    if i < n {
      FinishedStaysFinished(ws, steps, i, n - 1, j);
      RunKeepsInv(ws, steps, n - 1);
      assert ws[n] == Do(ws[n - 1], steps[n - 1]) && Premises(ws[n]);
      FinishedByOneStep(ws[n - 1], steps[n - 1], j);
    }
  }

  lemma FinishedByOneStep(w: World, step: Step, j: Id)
    requires JobSafety.Inv(w) && Can(w, step) && Premises(w) && Premises(Do(w, step))
    requires j in w.store.jobs && w.store.jobs[j].Terminal()
    ensures j in Do(w, step).store.jobs && SameState(w.store.jobs[j], Do(w, step).store.jobs[j])
  {
    StepAdvances(w, step, j);
    JobSafety.StepKeepsInv(w, step);
    hide JobSafety.Inv, Can, Premises;
    MeasureIsNatural(Do(w, step), j);
  }

  // ----- No work is lost -----

  /** A queued job: publishing it again is possible, and the message then starts an attempt. */
  lemma QueuedJobCanStart(w: World, j: Id, worker: Id)
    requires JobSafety.Inv(w) && j in w.store.jobs && w.store.jobs[j].status == Queued && worker !in w.workers
    ensures CanJob(w, PublishJob(j))
    ensures var published := DoJob(w, PublishJob(j));
      && CanJob(published, StartAttempt(worker, j))
      && Measure(DoJob(published, StartAttempt(worker, j)).store.jobs[j]) < Measure(w.store.jobs[j])
  {
    MeasureIsNatural(w, j);
    hide JobSafety.Inv;
  }

  /** A running job with a live worker: the worker can finish, either way. */
  lemma WorkerCanFinish(w: World, j: Id, worker: Id, reason: string, ds: seq<Id>)
    requires JobSafety.Inv(w) && worker in w.workers && WorksOn(w.workers[worker], j)
    requires ListsActive(w.store.destinations, ds)
    ensures j in w.store.jobs && CanJob(w, FailAttempt(worker, reason)) && CanJob(w, CompleteAttempt(worker, ds))
    ensures Measure(DoJob(w, FailAttempt(worker, reason)).store.jobs[j]) < Measure(w.store.jobs[j])
    ensures Measure(DoJob(w, CompleteAttempt(worker, ds)).store.jobs[j]) < Measure(w.store.jobs[j])
  {
    assert w.store.jobs[j] == w.workers[worker].copy;
    FailureAdvances(w, worker, reason, j);
    CompletionAdvances(w, worker, ds, j);
  }

  /** A running job, past the staleness window: a sweep selects it and its commit takes the job on. */
  lemma StuckJobCanRecover(w: World, j: Id, sweep: Id)
    requires JobSafety.Inv(w) && Premises(w) && j in w.store.jobs && Stuck(w.store.jobs[j], w.now)
    requires w.sweeps == map[]
    ensures CanJob(w, BeginRecovery(sweep))
    ensures var selected := DoJob(w, BeginRecovery(sweep));
      && CanJob(selected, CommitRecovery(sweep))
      && Measure(DoJob(selected, CommitRecovery(sweep)).store.jobs[j]) < Measure(w.store.jobs[j])
  {
    var selected := DoJob(w, BeginRecovery(sweep));
    JobAccounting.StepKeepsInv(w, Jobs(BeginRecovery(sweep)));
    SelectionKeeps(w, sweep);
    RecoveryAdvances(selected, sweep, j);
  }

  /** Any running job gets past the staleness window by the clock alone. */
  lemma RunningJobGetsStuck(w: World, j: Id, elapsed: nat)
    requires JobSafety.Inv(w) && j in w.store.jobs && w.store.jobs[j].status == Running
    requires w.store.jobs[j].startedAt.Some? ==> w.store.jobs[j].startedAt.value + STALE_RUNNING_AFTER < w.now + elapsed
    ensures var later := DoOther(w, Tick(elapsed)); j in later.store.jobs && Stuck(later.store.jobs[j], later.now)
  {
    assert JobAccounting.Balanced(w.store.jobs[j], JobLedgerOf(w.history.jobs, j));
  }
}
