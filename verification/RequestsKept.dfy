/**
What a job asks for, in every run: the job of an occurrence asks for what its
schedule asks, a manual job for what was submitted, and neither ever changes.
*/
module RequestsKept {
  import opened Wrappers
  import opened Models
  import opened Transactions
  import opened World
  import opened ScheduleCoverage
  import CursorSettles
  import JobAccounting
  import JobService
  import ReportsOnce

  // ----- Schedules -----

  /** Schedules stay, and of a schedule only the flag and the two times change. */
  ghost predicate SchedulesStay(before: map<Id, Schedule>, after: map<Id, Schedule>) {
    forall s :: s in before ==>
      && s in after && after[s].request == before[s].request && after[s].calendar == before[s].calendar
      && after[s].createdAt == before[s].createdAt
  }

  lemma JobStepSchedulesStay(w: World, step: JobStep)
    requires CanJob(w, step)
    ensures SchedulesStay(w.store.schedules, DoJob(w, step).store.schedules)
  {
    hide DoStartAttempt, DoFailAttempt, DoCommitRecovery, DoSubmit, StuckJobs, KeyTaken, Enqueue, ListsActive;
    if !step.CompleteAttempt? && !step.MoveCursor? {
      JobStepsLeaveSchedules(w, step);
      hide DoJob;
    }
  }

  lemma PassStepSchedulesStay(w: World, step: PassStep)
    requires CanPass(w, step)
    ensures SchedulesStay(w.store.schedules, DoPass(w, step).store.schedules)
  {
    hide BatchOf;
    if step.ClaimPass? {
      var p := w.passes[step.pass];
      ClaimOccurrencesOnlyAdds(w.store, p.schedule, p.copy.request, BatchOf(p));
    }
  }

  lemma OtherStepSchedulesStay(w: World, step: OtherStep)
    requires CanOther(w, step) && w.store.nextId !in w.store.schedules
    ensures SchedulesStay(w.store.schedules, DoOther(w, step).store.schedules)
  {
    hide EligibleReports;
  }

  lemma StepSchedulesStay(w: World, step: Step)
    requires Can(w, step) && w.store.nextId !in w.store.schedules
    ensures SchedulesStay(w.store.schedules, Do(w, step).store.schedules)
  {
    hide CanJob, DoJob, CanPass, DoPass, CanSend, DoSend, CanOther, DoOther;
    match step
    case Jobs(js) => JobStepSchedulesStay(w, js);
    case Passes(ps) => PassStepSchedulesStay(w, ps);
    case Sends(ss) => SendStepsOnlySend(w, ss);
    case Others(os) => OtherStepSchedulesStay(w, os);
  }

  // ----- Jobs of schedules -----

  predicate AsksAs(job: Job, schedules: map<Id, Schedule>) {
    job.scheduleId.Some? ==> job.scheduleId.value in schedules && job.request == schedules[job.scheduleId.value].request
  }

  ghost predicate AllAsk(jobs: map<Id, Job>, schedules: map<Id, Schedule>) {
    forall j :: j in jobs ==> AsksAs(jobs[j], schedules)
  }

  predicate PassAsks(p: Pass, schedules: map<Id, Schedule>) {
    p.schedule in schedules && p.copy.request == schedules[p.schedule].request
  }

  ghost predicate PassesAsk(passes: map<Id, Pass>, schedules: map<Id, Schedule>) {
    forall i :: i in passes ==> PassAsks(passes[i], schedules)
  }

  ghost predicate Inv(w: World) {
    AllAsk(w.store.jobs, w.store.schedules) && PassesAsk(w.passes, w.store.schedules)
  }

  /** A job that is not of this pass was there, or belongs to no schedule. */
  lemma OtherJobs(w: World, step: Step, j: Id)
    requires ScheduleCoverage.Inv(w) && Can(w, step) && !(step.Passes? && step.ps.ClaimPass?)
    requires j in Do(w, step).store.jobs
    ensures j in w.store.jobs || Do(w, step).store.jobs[j].scheduleId == None
  {
    CursorSettles.InvHasAccounting(w);
    JobAccounting.NextIdIsUnused(w);
    hide ScheduleCoverage.Inv, JobAccounting.Inv, CanJob, DoJob, CanPass, DoPass, CanSend, DoSend, CanOther, DoOther;
    match step
    case Jobs(js) => JobsOfSteps(w, js, j);
    case Passes(ps) => JobsOfPasses(w, ps);
    case Sends(ss) => SendStepsOnlySend(w, ss);
    case Others(os) =>
      if DeletesReports(os) {
        DeletionsOnlyDelete(w, os);
      } else {
        OtherStepsLeaveJobs(w, os);
      }
  }

  lemma JobsOfPasses(w: World, step: PassStep)
    requires CanPass(w, step) && !step.ClaimPass?
    ensures DoPass(w, step).store.jobs == w.store.jobs
  {
    PassStepsLeaveJobs(w, step);
  }

  lemma JobsOfSteps(w: World, step: JobStep, j: Id)
    requires CanJob(w, step) && j in DoJob(w, step).store.jobs
    ensures j in w.store.jobs || DoJob(w, step).store.jobs[j].scheduleId == None
  {
    if !step.Submit? {
      JobStepSameOccurrences(w, step);
      hide CanJob, DoJob;
    }
  }

  lemma JobsAsk(w: World, step: Step)
    requires ScheduleCoverage.Inv(w) && Can(w, step) && Inv(w)
    requires SchedulesStay(w.store.schedules, Do(w, step).store.schedules)
    ensures AllAsk(Do(w, step).store.jobs, Do(w, step).store.schedules)
  {
    CursorSettles.InvHasAccounting(w);
    hide ScheduleCoverage.Inv, JobAccounting.Inv, Can, Do, DoPass;
    forall j | j in Do(w, step).store.jobs
      ensures AsksAs(Do(w, step).store.jobs[j], Do(w, step).store.schedules)
    {
      if j in w.store.jobs {
        CursorSettles.RequestStays(w, step, j);
        assert AsksAs(w.store.jobs[j], w.store.schedules);
      } else if step.Passes? && step.ps.ClaimPass? {
        ClaimedJobAsks(w, step, j);
      } else {
        OtherJobs(w, step, j);
      }
    }
  }

  lemma ClaimedJobAsks(w: World, step: Step, j: Id)
    requires ScheduleCoverage.Inv(w) && Inv(w) && Can(w, step) && step.Passes? && step.ps.ClaimPass?
    requires j in Do(w, step).store.jobs && j !in w.store.jobs
    ensures AsksAs(Do(w, step).store.jobs[j], w.store.schedules)
    ensures SchedulesStay(w.store.schedules, Do(w, step).store.schedules) ==>
      AsksAs(Do(w, step).store.jobs[j], Do(w, step).store.schedules)
  {
    CursorSettles.InvHasAccounting(w);
    JobAccounting.NextIdIsUnused(w);
    hide ScheduleCoverage.Inv, JobAccounting.Inv, BatchOf, ClaimOccurrences, JobService.IsClaim;
    var p := w.passes[step.ps.pass];
    JobService.ClaimOccurrencesClaims(w.store, p.schedule, p.copy.request, BatchOf(p));
    JobService.ClaimedAsk(w.store, Do(w, step).store, p.schedule, p.copy.request, BatchOf(p));
    assert PassAsks(p, w.store.schedules);
  }

  lemma PassesAskOn(w: World, step: Step)
    requires ScheduleCoverage.Inv(w) && Can(w, step) && Inv(w)
    requires SchedulesStay(w.store.schedules, Do(w, step).store.schedules)
    ensures PassesAsk(Do(w, step).passes, Do(w, step).store.schedules)
  {
    PassesComeFromSchedules(w, step);
    hide ScheduleCoverage.Inv, Can, Do;
    forall i | i in Do(w, step).passes
      ensures PassAsks(Do(w, step).passes[i], Do(w, step).store.schedules)
    {
      assert IsOfSchedule(w, Do(w, step), i);
      assert i in w.passes ==> PassAsks(w.passes[i], w.store.schedules);
    }
  }

  /** The pass was there, or has just read its schedule. */
  ghost predicate IsOfSchedule(w: World, w': World, i: Id)
    requires i in w'.passes
  {
    || (i in w.passes && w'.passes[i].schedule == w.passes[i].schedule && w'.passes[i].copy == w.passes[i].copy)
    || (w'.passes[i].schedule in w.store.schedules && w'.passes[i].copy == w.store.schedules[w'.passes[i].schedule])
  }

  lemma PassesComeFromSchedules(w: World, step: Step)
    requires ScheduleCoverage.Inv(w) && Can(w, step)
    ensures forall i :: i in Do(w, step).passes ==> IsOfSchedule(w, Do(w, step), i)
  {
    hide ScheduleCoverage.Inv, CanJob, DoJob, CanPass, DoPass, CanSend, DoSend, CanOther, DoOther;
    match step
    case Jobs(js) => JobStepSchedulesFollow(w, js);
    case Passes(ps) => PassesOfSchedules(w, ps);
    case Sends(ss) => SendStepsOnlySend(w, ss);
    case Others(os) => CursorSettles.OtherStepsKeepPasses(w, os);
  }

  lemma PassesOfSchedules(w: World, step: PassStep)
    requires CanPass(w, step)
    ensures forall i :: i in DoPass(w, step).passes ==> IsOfSchedule(w, DoPass(w, step), i)
  {
    hide BatchOf, ClaimOccurrences, SetCursor;
  }

  lemma NextIdIsNoSchedule(w: World)
    requires ScheduleCoverage.Inv(w)
    ensures w.store.nextId !in w.store.schedules
  {
  }

  lemma {:induction false} RunKeepsInv(ws: seq<World>, steps: seq<Step>, n: nat)
    requires IsRun(ws, steps) && Init(ws[0]) && n < |ws|
    ensures Inv(ws[n])
  {
    if n > 0 {
      hide Can, Do, Init, ScheduleCoverage.Inv, AllAsk, PassesAsk, SchedulesStay;
      RunKeepsInv(ws, steps, n - 1);
      ScheduleCoverage.RunKeepsInv(ws, steps, n - 1);
      NextIdIsNoSchedule(ws[n - 1]);
      StepSchedulesStay(ws[n - 1], steps[n - 1]);
      JobsAsk(ws[n - 1], steps[n - 1]);
      PassesAskOn(ws[n - 1], steps[n - 1]);
    }
  }

  /** In every run a scheduled job asks for what its schedule asks. */
  lemma ScheduledJobAsksAsItsSchedule(ws: seq<World>, steps: seq<Step>, n: nat, j: Id, s: Id)
    requires IsRun(ws, steps) && Init(ws[0]) && n < |ws|
    requires j in ws[n].store.jobs && ws[n].store.jobs[j].scheduleId == Some(s)
    ensures s in ws[n].store.schedules && ws[n].store.jobs[j].request == ws[n].store.schedules[s].request
  {
    RunKeepsInv(ws, steps, n);
    assert AsksAs(ws[n].store.jobs[j], ws[n].store.schedules);
  }

  // ----- Submitted jobs -----

  lemma SubmitIsWritten(w: World, request: Request, key: Option<string>)
    requires CanJob(w, Submit(request, key))
    ensures var w' := DoJob(w, Submit(request, key));
      && w'.store.jobs == w.store.jobs[w.store.nextId :=
           Job(status := Queued, request := request, idempotencyKey := key, scheduleId := None, scheduledFor := None,
               attempts := 0, startedAt := None, finishedAt := None, errorReason := None, reportId := None)]
  {
  }

  /** In every run the job made for a request asks for just that, under its key, ever after. */
  lemma {:induction false} SubmittedJobAsksForItsRequest(ws: seq<World>, steps: seq<Step>, k: nat, n: nat,
                                                         request: Request, key: Option<string>)
    requires IsRun(ws, steps) && Init(ws[0]) && k < n < |ws| && steps[k] == Jobs(Submit(request, key))
    ensures var j := ws[k].store.nextId;
      && j in ws[n].store.jobs && ws[n].store.jobs[j].request == request
      && ws[n].store.jobs[j].idempotencyKey == key && ws[n].store.jobs[j].scheduleId == None
    decreases n
  {
    hide Can, Do, Init, JobAccounting.Inv;
    var j := ws[k].store.nextId;
    assert ws[n] == Do(ws[n - 1], steps[n - 1]) && Can(ws[n - 1], steps[n - 1]);
    if n == k + 1 {
      SubmittedNow(ws[k], request, key);
    } else {
      SubmittedJobAsksForItsRequest(ws, steps, k, n - 1, request, key);
      JobAccounting.RunKeepsInv(ws, steps, n - 1);
      CursorSettles.RequestStays(ws[n - 1], steps[n - 1], j);
      ReportsOnce.KeyStays(ws[n - 1], steps[n - 1], j);
    }
  }

  lemma SubmittedNow(w: World, request: Request, key: Option<string>)
    requires Can(w, Jobs(Submit(request, key)))
    ensures var jobs, j := Do(w, Jobs(Submit(request, key))).store.jobs, w.store.nextId;
      j in jobs && jobs[j].request == request && jobs[j].idempotencyKey == key && jobs[j].scheduleId == None
  {
    SubmitIsWritten(w, request, key);
  }
}
