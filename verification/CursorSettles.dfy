/**
When the cursor of a schedule goes back no more, in every run and without any
premise: once the jobs of earlier occurrences are finished and held by nobody,
and no pass is left from before.
*/
module CursorSettles {
  import opened Wrappers
  import opened ScheduleTime
  import opened Models
  import opened Transactions
  import opened World
  import opened ScheduleCoverage
  import opened CursorSetback
  import opened BatchCoverage
  import JobAccounting
  import LateWrites
  import ScheduleSkips

  predicate IsOlder(job: Job, s: Id, t: int) {
    job.scheduleId == Some(s) && job.scheduledFor.Some? && job.scheduledFor.value < t
  }

  /** The pass starts at `t` or later, or has claimed its batch and will not set the cursor before `t`. */
  predicate StartsFrom(p: Pass, t: int) {
    t <= Base(p.copy) || (p.claimed && (BatchOf(p) == [] || t <= BatchOf(p)[|BatchOf(p)| - 1]))
  }

  /** Finished for good. */
  ghost predicate IsDone(w: World, j: Id)
    requires j in w.store.jobs
  {
    w.store.jobs[j].Terminal() && !LateWrites.Held(w, j)
  }

  ghost predicate OlderAreDone(w: World, s: Id, t: int) {
    forall j :: j in w.store.jobs && IsOlder(w.store.jobs[j], s, t) ==> IsDone(w, j)
  }

  ghost predicate PassesStartFrom(passes: map<Id, Pass>, s: Id, t: int) {
    forall i :: i in passes && passes[i].schedule == s ==> StartsFrom(passes[i], t)
  }

  /** Nothing is left that could take the cursor of `s` before `t`. */
  ghost predicate Settled(w: World, s: Id, t: int) {
    && CursorFrom(w.store.schedules, s, t) && OlderAreDone(w, s, t) && !HeldByWorker(w, s, t)
    && PassesStartFrom(w.passes, s, t)
  }

  // ----- The cursor -----

  lemma BatchEndsAfterBase(p: Pass)
    requires BatchOf(p) != []
    ensures Base(p.copy) < BatchOf(p)[|BatchOf(p)| - 1]
  {
    var batch := Batch(p.copy.calendar, Base(p.copy), p.now);
    DueIsSorted(p.copy.calendar, Base(p.copy), p.now, MAX_BACKFILL_OCCURRENCES);
    hide Due;
    assert batch[|batch| - 1] in Members(batch);
    var k :| p.copy.calendar(k) == batch[|batch| - 1];
    BatchHas(p.copy.calendar, Base(p.copy), p.now, k);
  }

  lemma NoPassHoldsOlder(w: World, s: Id, t: int)
    requires PassesStartFrom(w.passes, s, t)
    ensures !HeldByPass(w, s, t)
  {
    hide BatchOf;
    forall i | i in w.passes
      ensures !ClaimedOlder(w.passes[i], s, t)
    {
      if w.passes[i].schedule == s && BatchOf(w.passes[i]) != [] {
        BatchEndsAfterBase(w.passes[i]);
        assert StartsFrom(w.passes[i], t);
      }
    }
  }

  lemma CursorStays(w: World, step: Step, s: Id, t: int)
    requires Inv(w) && Can(w, step) && Settled(w, s, t)
    ensures CursorFrom(Do(w, step).store.schedules, s, t)
  {
    hide Inv, Can, Do, CursorFrom, HeldByWorker, HeldByPass, OlderAreDone, PassesStartFrom;
    NoPassHoldsOlder(w, s, t);
    if SetsBack(w, step, s, t) {
      SettingBackNeedsAHolder(w, step, s, t);
    }
  }

  // ----- The passes -----

  lemma PassStepsStartFrom(w: World, step: PassStep, s: Id, t: int)
    requires CanPass(w, step) && CursorFrom(w.store.schedules, s, t) && PassesStartFrom(w.passes, s, t)
    ensures PassesStartFrom(DoPass(w, step).passes, s, t)
  {
    hide ClaimOccurrences, SetCursor, BatchOf;
    var passes := DoPass(w, step).passes;
    forall i | i in passes && passes[i].schedule == s
      ensures StartsFrom(passes[i], t)
    {
      if i in w.passes {
        assert StartsFrom(w.passes[i], t);
      }
    }
  }

  lemma OtherStepsKeepPasses(w: World, step: OtherStep)
    requires CanOther(w, step)
    ensures DoOther(w, step).passes == w.passes
  {
    hide EligibleReports, DeleteReports, DeleteDestination;
  }

  lemma PassesStay(w: World, step: Step, s: Id, t: int)
    requires Inv(w) && Can(w, step) && Settled(w, s, t)
    ensures PassesStartFrom(Do(w, step).passes, s, t)
  {
    hide Inv, CanJob, DoJob, CanPass, DoPass, CanSend, DoSend, CanOther, DoOther, OlderAreDone, HeldByWorker;
    hide CursorFrom, PassesStartFrom;
    match step
    case Jobs(js) => JobStepSchedulesFollow(w, js);
    case Passes(ps) => PassStepsStartFrom(w, ps, s, t);
    case Sends(ss) => SendStepsOnlySend(w, ss);
    case Others(os) => OtherStepsKeepPasses(w, os);
  }

  // ----- The workers -----

  lemma StartTakesNothingOlder(w: World, worker: Id, job: Id, s: Id, t: int)
    requires OlderAreDone(w, s, t) && !HeldByWorker(w, s, t)
    ensures !HeldByWorker(DoStartAttempt(w, worker, job), s, t)
  {
    hide JobLedgerOf, LateWrites.Held;
    var w' := DoStartAttempt(w, worker, job);
    assert JobClaimable(w.store.jobs, job) ==> !IsOlder(w.store.jobs[job], s, t);
    hide OlderAreDone;
    forall i | i in w'.workers
      ensures !WorksOnOlder(w'.workers[i], s, t)
    {
      assert i in w.workers && w'.workers[i] == w.workers[i] ==> !WorksOnOlder(w.workers[i], s, t);
    }
  }

  /** Outside the start of an attempt, workers only change phase or vanish. */
  ghost predicate NoNewCopies(before: map<Id, Worker>, after: map<Id, Worker>) {
    forall i :: i in after ==> i in before && after[i].copy == before[i].copy
  }

  lemma FailureBringsNoCopies(w: World, worker: Id, reason: string)
    requires worker in w.workers
    ensures NoNewCopies(w.workers, DoFailAttempt(w, worker, reason).workers)
  {
    hide EndAttempt, JobLedgerOf;
  }

  lemma OtherJobStepsBringNoCopies(w: World, step: JobStep)
    requires CanJob(w, step) && !step.StartAttempt?
    ensures NoNewCopies(w.workers, DoJob(w, step).workers)
  {
    hide DoFailAttempt, CompleteJob, Recover, RecoveredLedger, SetCursor, StuckJobs;
    if step.FailAttempt? {
      FailureBringsNoCopies(w, step.worker, step.reason);
    }
  }

  lemma NoCopiesNoHolders(w: World, w': World, s: Id, t: int)
    requires NoNewCopies(w.workers, w'.workers) && !HeldByWorker(w, s, t)
    ensures !HeldByWorker(w', s, t)
  {
    forall i | i in w'.workers
      ensures !WorksOnOlder(w'.workers[i], s, t)
    {
      assert !WorksOnOlder(w.workers[i], s, t);
    }
  }

  lemma WorkersStay(w: World, step: Step, s: Id, t: int)
    requires Can(w, step) && Settled(w, s, t)
    ensures !HeldByWorker(Do(w, step), s, t)
  {
    hide CanJob, DoJob, CanPass, DoPass, CanSend, DoSend, CanOther, DoOther, OlderAreDone, HeldByWorker;
    hide CursorFrom, PassesStartFrom;
    match step {
      case Jobs(js) =>
        if js.StartAttempt? {
          StartTakesNothingOlder(w, js.worker, js.job, s, t);
          assert DoJob(w, js) == DoStartAttempt(w, js.worker, js.job) by { StartIsStart(w, js.worker, js.job); }
          return;
        } else {
          OtherJobStepsBringNoCopies(w, js);
        }
      case Passes(ps) => LateWrites.PassStepsKeepWorkers(w, ps);
      case Sends(ss) => SendStepsOnlySend(w, ss);
      case Others(os) => LateWrites.OtherStepsKeepWorkers(w, os);
    }
    NoCopiesNoHolders(w, Do(w, step), s, t);
  }

  lemma StartIsStart(w: World, worker: Id, job: Id)
    requires CanJob(w, StartAttempt(worker, job))
    ensures DoJob(w, StartAttempt(worker, job)) == DoStartAttempt(w, worker, job)
  {
    hide DoStartAttempt;
  }

  // ----- The jobs -----

  /** Jobs are not removed and keep their occurrence. */
  lemma RequestStays(w: World, step: Step, j: Id)
    requires JobAccounting.Inv(w) && Can(w, step) && j in w.store.jobs
    ensures j in Do(w, step).store.jobs && JobAccounting.SameRequest(w.store.jobs[j], Do(w, step).store.jobs[j])
  {
    JobAccounting.NextIdIsUnused(w);
    hide JobAccounting.Inv, CanJob, DoJob, CanPass, DoPass, CanSend, DoSend, CanOther, DoOther;
    match step
    case Jobs(js) => JobRequestStays(w, js, j);
    case Passes(ps) => PassRequestStays(w, ps, j);
    case Sends(ss) => SendStepsOnlySend(w, ss);
    case Others(os) =>
      if DeletesReports(os) {
        DeletionsOnlyDelete(w, os);
      } else {
        OtherStepsLeaveJobs(w, os);
      }
  }

  lemma PassRequestStays(w: World, step: PassStep, j: Id)
    requires CanPass(w, step) && j in w.store.jobs && forall k :: k in w.store.jobs ==> k < w.store.nextId
    ensures j in DoPass(w, step).store.jobs && DoPass(w, step).store.jobs[j] == w.store.jobs[j]
  {
    hide SetCursor, BatchOf, ClaimOccurrences;
    if step.ClaimPass? {
      var p := w.passes[step.pass];
      ClaimOccurrencesGrows(w.store, p.schedule, p.copy.request, BatchOf(p));
    }
  }

  lemma JobRequestStays(w: World, step: JobStep, j: Id)
    requires w.store.nextId !in w.store.jobs && CanJob(w, step) && j in w.store.jobs
    ensures j in DoJob(w, step).store.jobs
    ensures JobAccounting.SameRequest(w.store.jobs[j], DoJob(w, step).store.jobs[j])
  {
    if !step.Submit? {
      JobStepSameOccurrences(w, step);
      hide CanJob, DoJob;
    }
  }

  lemma BatchIsLater(p: Pass)
    ensures forall u :: u in Members(BatchOf(p)) ==> Base(p.copy) < u
  {
    var calendar := p.copy.calendar;
    assert BatchOf(p) == Batch(calendar, Base(p.copy), p.now);
    DueIsSorted(calendar, Base(p.copy), p.now, MAX_BACKFILL_OCCURRENCES);
    hide Due;
    forall u | u in Members(BatchOf(p))
      ensures Base(p.copy) < u
    {
      var k :| calendar(k) == u;
      BatchHas(calendar, Base(p.copy), p.now, k);
    }
  }

  /** No occurrence before `t` is claimed any more. */
  lemma OlderIsOld(w: World, step: Step, s: Id, t: int, u: int)
    requires Inv(w) && Can(w, step) && PassesStartFrom(w.passes, s, t)
    requires u < t && u in Claimed(Do(w, step).store.jobs, s)
    ensures u in Claimed(w.store.jobs, s)
  {
    hide Inv, Do, BatchOf, Claimed, CanJob, CanSend, CanOther;
    ScheduleSkips.OnlyPassesClaim(w, step, s);
    if step.Passes? && step.ps.ClaimPass? && w.passes[step.ps.pass].schedule == s {
      BatchIsLater(w.passes[step.ps.pass]);
      assert StartsFrom(w.passes[step.ps.pass], t);
    }
  }

  /** A job of an earlier occurrence was there before. */
  lemma OlderJobIsOld(w: World, step: Step, s: Id, t: int, j: Id)
    requires Inv(w) && Can(w, step) && PassesStartFrom(w.passes, s, t)
    requires j in Do(w, step).store.jobs && IsOlder(Do(w, step).store.jobs[j], s, t)
    ensures j in w.store.jobs && IsOlder(w.store.jobs[j], s, t)
  {
    StepKeepsInv(w, step);
    var jobs, jobs' := w.store.jobs, Do(w, step).store.jobs;
    var u := jobs'[j].scheduledFor.value;
    assert IsFor(jobs'[j], s);
    assert OneJobEach(jobs') && JobAccounting.Inv(w);
    hide Inv, Can, Do, PassesStartFrom, JobAccounting.Inv;
    OlderIsOld(w, step, s, t, u);
    var k :| k in jobs && IsFor(jobs[k], s) && jobs[k].scheduledFor.value == u;
    RequestStays(w, step, k);
    assert j == k;
  }

  lemma OlderStayDone(w: World, step: Step, s: Id, t: int)
    requires Inv(w) && Can(w, step) && Settled(w, s, t)
    ensures OlderAreDone(Do(w, step), s, t)
  {
    hide Inv, Can, Do, LateWrites.Held, PassesStartFrom, CursorFrom, HeldByWorker, JobAccounting.Inv;
    forall j | j in Do(w, step).store.jobs && IsOlder(Do(w, step).store.jobs[j], s, t)
      ensures IsDone(Do(w, step), j)
    {
      OlderJobIsOld(w, step, s, t, j);
      assert IsDone(w, j);
      InvHasAccounting(w);
      LateWrites.UnheldByOneStep(w, step, j);
    }
  }

  lemma InvHasAccounting(w: World)
    requires Inv(w)
    ensures JobAccounting.Inv(w)
  {
    hide JobAccounting.Inv;
  }

  // ----- Every run -----

  lemma StaysSettled(w: World, step: Step, s: Id, t: int)
    requires Inv(w) && Can(w, step) && Settled(w, s, t)
    ensures Settled(Do(w, step), s, t)
  {
    CursorStays(w, step, s, t);
    PassesStay(w, step, s, t);
    WorkersStay(w, step, s, t);
    OlderStayDone(w, step, s, t);
    hide Inv, Can, Do, CursorFrom, OlderAreDone, HeldByWorker, PassesStartFrom;
  }

  /** Once nothing is left that could take the cursor before `t`, it never goes before `t` again. */
  lemma {:induction false} SettledCursorStays(ws: seq<World>, steps: seq<Step>, m: nat, n: nat, s: Id, t: int)
    requires IsRun(ws, steps) && Init(ws[0]) && m <= n < |ws| && Settled(ws[m], s, t)
    ensures Settled(ws[n], s, t) && CursorFrom(ws[n].store.schedules, s, t)
    decreases n
  {
    hide Inv, Can, Do, Init, CursorFrom, OlderAreDone, HeldByWorker, PassesStartFrom;
    if m < n {
      SettledCursorStays(ws, steps, m, n - 1, s, t);
      RunKeepsInv(ws, steps, n - 1);
      assert ws[n] == Do(ws[n - 1], steps[n - 1]);
      StaysSettled(ws[n - 1], steps[n - 1], s, t);
    }
  }
}
