/**
What a success writes, and for how long its report is safe: in every run the
report of a job carries the time of its commit for as long as it exists, and
retention does not take it before the retention period is over.
*/
module ReportTimes {
  import opened Wrappers
  import opened Models
  import opened Transactions
  import opened World
  import Outbox

  // ----- The commit -----

  /** Step `k` commits a success, and `r` is the identifier of its report. */
  ghost predicate Commits(ws: seq<World>, steps: seq<Step>, k: nat, r: Id) {
    && IsRun(ws, steps) && k < |steps| && steps[k].Jobs? && steps[k].js.CompleteAttempt? && r == ws[k].store.nextId
  }

  /**
   * At the commit: the job has succeeded and finished now, with the report; its schedule has run now and stands at the
   * job's occurrence; the report is created now; no other job, schedule or report changes.
   */
  lemma SuccessIsWritten(ws: seq<World>, steps: seq<Step>, k: nat, r: Id)
    requires Commits(ws, steps, k, r)
    ensures steps[k].js.worker in ws[k].workers && ws[k].workers[steps[k].js.worker].job in ws[k].store.jobs
    ensures var w, w', worker := ws[k], ws[k + 1], ws[k].workers[steps[k].js.worker];
      && worker.phase == Generating
      && w'.store.jobs == w.store.jobs[worker.job := w.store.jobs[worker.job].(
           status := Succeeded, reportId := Some(r), finishedAt := Some(w.now))]
      && w'.store.reports == w.store.reports[r := Report(createdAt := w.now)]
      && w'.store.schedules.Keys == w.store.schedules.Keys
      && (forall s :: s in w.store.schedules ==>
            w'.store.schedules[s] ==
              if worker.copy.scheduleId == Some(s)
              then w.store.schedules[s].(lastRunAt := Some(w.now), lastAttemptedAt := worker.copy.scheduledFor)
              else w.store.schedules[s])
  {
    hide Enqueue, ListsActive;
    assert ws[k + 1] == Do(ws[k], steps[k]);
  }

  // ----- For as long as it exists -----

  /** Reports are only added under the next identifier, or deleted. */
  ghost predicate ReportsStay(w: World, w': World) {
    && w.store.nextId <= w'.store.nextId && w.now <= w'.now
    && (forall r :: r in w'.store.reports && r < w.store.nextId ==>
          r in w.store.reports && w'.store.reports[r] == w.store.reports[r])
  }

  lemma JobStepReportsStay(w: World, step: JobStep)
    requires CanJob(w, step)
    ensures ReportsStay(w, DoJob(w, step))
  {
    hide DoStartAttempt, DoFailAttempt, Recover, RecoveredLedger, StuckJobs, SetCursor, KeyTaken, Enqueue;
    match step
    case StartAttempt(worker, job) => StartReportsStay(w, worker, job);
    case FailAttempt(worker, reason) => FailureReportsStay(w, worker, reason);
    case _ =>
  }

  lemma StartReportsStay(w: World, worker: Id, job: Id)
    ensures ReportsStay(w, DoStartAttempt(w, worker, job))
  {
    hide ClaimedJob, JobLedgerOf, JobClaimable;
  }

  lemma FailureReportsStay(w: World, worker: Id, reason: string)
    requires worker in w.workers
    ensures ReportsStay(w, DoFailAttempt(w, worker, reason))
  {
    hide EndAttempt, JobLedgerOf;
  }

  lemma PassStepReportsStay(w: World, step: PassStep)
    requires CanPass(w, step)
    ensures ReportsStay(w, DoPass(w, step))
  {
    hide SetCursor, BatchOf;
    if step.ClaimPass? {
      var p := w.passes[step.pass];
      ClaimOccurrencesOnlyAdds(w.store, p.schedule, p.copy.request, BatchOf(p));
    }
  }

  lemma OtherStepReportsStay(w: World, step: OtherStep)
    requires CanOther(w, step)
    ensures ReportsStay(w, DoOther(w, step))
  {
    hide EligibleReports;
  }

  lemma StepReportsStay(w: World, step: Step)
    requires Can(w, step)
    ensures ReportsStay(w, Do(w, step))
  {
    hide CanJob, DoJob, CanPass, DoPass, CanSend, DoSend, CanOther, DoOther;
    match step
    case Jobs(js) => JobStepReportsStay(w, js);
    case Passes(ps) => PassStepReportsStay(w, ps);
    case Sends(ss) => SendStepsOnlySend(w, ss);
    case Others(os) => OtherStepReportsStay(w, os);
  }

  /** Step `k` creates report `r`: with the success of a job, or for a direct request. */
  ghost predicate Creates(ws: seq<World>, steps: seq<Step>, k: nat, r: Id) {
    && IsRun(ws, steps) && k < |steps| && r == ws[k].store.nextId
    && (steps[k] == Others(DirectReport) || (steps[k].Jobs? && steps[k].js.CompleteAttempt?))
  }

  /** Nothing else creates reports, and a report carries the time of its commit. */
  lemma {:induction false} ReportKeepsItsTime(ws: seq<World>, steps: seq<Step>, k: nat, n: nat, r: Id)
    requires Creates(ws, steps, k, r) && k < n < |ws|
    ensures r < ws[n].store.nextId && ws[k].now <= ws[n].now
    ensures r in ws[n].store.reports ==> ws[n].store.reports[r].createdAt == ws[k].now
    decreases n
  {
    hide Can, Do;
    if n == k + 1 {
      JustCreated(ws, steps, k, r);
    } else {
      ReportKeepsItsTime(ws, steps, k, n - 1, r);
      StepReportsStay(ws[n - 1], steps[n - 1]);
    }
  }

  lemma JustCreated(ws: seq<World>, steps: seq<Step>, k: nat, r: Id)
    requires Creates(ws, steps, k, r)
    ensures var w, w' := ws[k], ws[k + 1];
      && r < w'.store.nextId && w'.now == w.now && w'.purges == w.purges
      && r in w'.store.reports && w'.store.reports[r].createdAt == w.now
  {
    assert ws[k + 1] == Do(ws[k], steps[k]);
    if steps[k].Jobs? {
      RightAfter(ws, steps, k, r);
      JobStepsKeepPurges(ws[k], steps[k].js);
      hide CanJob, DoJob;
    }
  }

  lemma RightAfter(ws: seq<World>, steps: seq<Step>, k: nat, r: Id)
    requires Commits(ws, steps, k, r)
    ensures var w, w' := ws[k], ws[k + 1];
      && r < w'.store.nextId && w'.now == w.now
      && r in w'.store.reports && w'.store.reports[r].createdAt == w.now
      && r in w'.history.commits
      && (forall x :: x in w'.history.commits[r].active <==>
            x in w.store.destinations && w.store.destinations[x].active)
  {
    hide Enqueue, SucceededSchedule, SucceededJob;
    assert ws[k + 1] == Do(ws[k], steps[k]);
  }

  /** Every report was so created. */
  lemma {:induction false} ReportWasCreated(ws: seq<World>, steps: seq<Step>, n: nat, r: Id) returns (k: nat)
    requires IsRun(ws, steps) && Init(ws[0]) && n < |ws| && r in ws[n].store.reports
    ensures k < n && Creates(ws, steps, k, r) && ws[n].store.reports[r].createdAt == ws[k].now
  {
    hide Can, Do;
    assert n > 0;
    var w, step := ws[n - 1], steps[n - 1];
    assert ws[n] == Do(w, step);
    if r in w.store.reports {
      k := ReportWasCreated(ws, steps, n - 1, r);
    } else {
      k := n - 1;
      OnlyThisIsNew(w, step, r);
    }
    hide Init;
    ReportKeepsItsTime(ws, steps, k, n, r);
  }

  lemma OnlyThisIsNew(w: World, step: Step, r: Id)
    requires Can(w, step) && r in Do(w, step).store.reports && r !in w.store.reports
    ensures r == w.store.nextId
    ensures step == Others(DirectReport) || (step.Jobs? && step.js.CompleteAttempt?)
  {
    hide CanJob, DoJob, CanPass, DoPass, CanSend, DoSend, CanOther, DoOther;
    match step
    case Jobs(js) => JobsCreate(w, js, r);
    case Passes(ps) => PassStepsKeepReports(w, ps);
    case Sends(ss) => SendStepsOnlySend(w, ss);
    case Others(os) => OthersCreate(w, os, r);
  }

  lemma OthersCreate(w: World, step: OtherStep, r: Id)
    requires CanOther(w, step) && r in DoOther(w, step).store.reports && r !in w.store.reports
    ensures r == w.store.nextId && step == DirectReport
  {
    hide EligibleReports;
  }

  lemma JobsCreate(w: World, step: JobStep, r: Id)
    requires CanJob(w, step) && r in DoJob(w, step).store.reports && r !in w.store.reports
    ensures r == w.store.nextId && step.CompleteAttempt?
  {
    hide EndAttempt, ClaimedJob, Recover, RecoveredLedger, StuckJobs, SetCursor, JobLedgerOf, ListsActive, KeyTaken,
         Enqueue;
  }

  /** Hence no retention run whose cutoff is at or before the commit selects it. */
  lemma NoEarlierCutoffSelectsIt(ws: seq<World>, steps: seq<Step>, k: nat, n: nat, r: Id, purge: Id, cutoff: int)
    requires Creates(ws, steps, k, r) && k < n < |ws|
    requires purge !in ws[n].purges && cutoff <= ws[k].now
    ensures r !in Do(ws[n], Others(BeginPurge(purge, cutoff))).purges[purge]
  {
    ReportKeepsItsTime(ws, steps, k, n, r);
    hide IsRun;
  }

  /** The deliveries of the report are for the destinations that were active at its commit and still exist. */
  lemma DeliveriesAreOfTheCommit(ws: seq<World>, steps: seq<Step>, k: nat, n: nat, r: Id, x: Id)
    requires Commits(ws, steps, k, r) && Init(ws[0]) && k < n < |ws|
    requires r in ws[n].store.reports && x in ws[n].store.destinations
    ensures (exists d :: d in ws[n].store.deliveries && Outbox.Targets(ws[n].store.deliveries[d], x, r))
            <==> x in ws[k].store.destinations && ws[k].store.destinations[x].active
  {
    CommitStays(ws, steps, k, n, r);
    Outbox.DeliveriesFollowCommits(ws, steps, n, r);
    hide IsRun, Init;
  }

  lemma {:induction false} CommitStays(ws: seq<World>, steps: seq<Step>, k: nat, n: nat, r: Id)
    requires Commits(ws, steps, k, r) && Init(ws[0]) && k < n < |ws|
    ensures r in ws[n].history.commits && r < ws[n].store.nextId
    ensures forall x :: x in ws[n].history.commits[r].active <==>
      x in ws[k].store.destinations && ws[k].store.destinations[x].active
    decreases n
  {
    hide Can, Do, Init;
    assert Creates(ws, steps, k, r);
    ReportKeepsItsTime(ws, steps, k, n, r);
    if n > k + 1 {
      CommitStays(ws, steps, k, n - 1, r);
      CommitsAreKept(ws[n - 1], steps[n - 1], r);
    } else {
      RightAfter(ws, steps, k, r);
    }
  }

  lemma CommitsAreKept(w: World, step: Step, r: Id)
    requires Can(w, step) && r in w.history.commits && r < w.store.nextId
    ensures r in Do(w, step).history.commits && Do(w, step).history.commits[r] == w.history.commits[r]
  {
    hide CanPass, DoPass, CanSend, DoSend, CanOther, DoOther;
    match step
    case Jobs(js) => JobCommitsAreKept(w, js, r);
    case Passes(ps) => PassCommitsAreKept(w, ps);
    case Sends(ss) => SendStepsOnlySend(w, ss);
    case Others(os) => OtherCommitsAreKept(w, os);
  }

  lemma PassCommitsAreKept(w: World, step: PassStep)
    requires CanPass(w, step)
    ensures DoPass(w, step).history == w.history
  {
    hide ClaimOccurrences, SetCursor, BatchOf;
  }

  lemma OtherCommitsAreKept(w: World, step: OtherStep)
    requires CanOther(w, step)
    ensures DoOther(w, step).history == w.history
  {
    hide EligibleReports, DeleteReports, DeleteDestination;
  }

  lemma JobCommitsAreKept(w: World, step: JobStep, r: Id)
    requires CanJob(w, step) && r in w.history.commits && r < w.store.nextId
    ensures r in DoJob(w, step).history.commits && DoJob(w, step).history.commits[r] == w.history.commits[r]
  {
    hide EndAttempt, ClaimedJob, CompleteJob, Recover, RecoveredLedger, StuckJobs, SetCursor, JobLedgerOf, ListsActive,
         KeyTaken;
  }

  // ----- For as long as the period lasts -----

  /** No retention run has selected `r`. */
  ghost predicate IsUnselected(w: World, r: Id) {
    forall p :: p in w.purges ==> r !in w.purges[p]
  }

  /** What retention runs have selected were reports. */
  ghost predicate PurgesAreOld(w: World) {
    forall p, r :: p in w.purges && r in w.purges[p] ==> r < w.store.nextId
  }

  /** A step that begins no retention run only drops selections. */
  ghost predicate PurgesShrink(w: World, w': World) {
    forall p :: p in w'.purges ==> p in w.purges && w'.purges[p] == w.purges[p]
  }

  lemma JobStepsKeepPurges(w: World, step: JobStep)
    requires CanJob(w, step)
    ensures DoJob(w, step).purges == w.purges
  {
    hide EndAttempt, ClaimedJob, CompleteJob, Recover, RecoveredLedger, StuckJobs, SetCursor, JobLedgerOf, ListsActive,
         KeyTaken, InsertJob;
  }

  lemma PassStepsKeepPurges(w: World, step: PassStep)
    requires CanPass(w, step)
    ensures DoPass(w, step).purges == w.purges
  {
    hide ClaimOccurrences, SetCursor, BatchOf;
  }

  lemma SendStepsKeepPurges(w: World, step: SendStep)
    requires CanSend(w, step)
    ensures DoSend(w, step).purges == w.purges
  {
    hide ClaimedDelivery, SentDelivery, RetriedDelivery, DeliveryDue, DeliveryLedgerOf;
  }

  lemma OtherStepsShrinkPurges(w: World, step: OtherStep)
    requires CanOther(w, step) && !step.BeginPurge?
    ensures PurgesShrink(w, DoOther(w, step))
  {
    hide DeleteReports, DeleteDestination;
  }

  lemma StepsShrinkPurges(w: World, step: Step)
    requires Can(w, step) && !(step.Others? && step.os.BeginPurge?)
    ensures PurgesShrink(w, Do(w, step))
  {
    hide CanJob, DoJob, CanPass, DoPass, CanSend, DoSend, CanOther, DoOther;
    match step
    case Jobs(js) => JobStepsKeepPurges(w, js);
    case Passes(ps) => PassStepsKeepPurges(w, ps);
    case Sends(ss) => SendStepsKeepPurges(w, ss);
    case Others(os) => OtherStepsShrinkPurges(w, os);
  }

  lemma BeginSelects(w: World, purge: Id, cutoff: int)
    requires purge !in w.purges
    ensures var w' := DoOther(w, BeginPurge(purge, cutoff));
      && w'.store == w.store && w'.purges == w.purges[purge := EligibleReports(w.store, cutoff)]
  {
    hide EligibleReports;
  }

  lemma {:induction false} RunKeepsPurgesOld(ws: seq<World>, steps: seq<Step>, n: nat)
    requires IsRun(ws, steps) && Init(ws[0]) && n < |ws|
    ensures PurgesAreOld(ws[n])
  {
    if n > 0 {
      var w, step := ws[n - 1], steps[n - 1];
      RunKeepsPurgesOld(ws, steps, n - 1);
      StepReportsStay(w, step);
      Outbox.RunKeepsOutbox(ws, steps, n - 1);
      if step.Others? && step.os.BeginPurge? {
        BeginSelects(w, step.os.purge, step.os.cutoff);
      } else {
        StepsShrinkPurges(w, step);
      }
      hide Can, Do, Init;
    }
  }

  /** Up to step `n` no retention run has a cutoff less than `period` ago, and nobody removes `r` by hand. */
  ghost predicate RespectsPeriod(ws: seq<World>, steps: seq<Step>, n: nat, period: nat, r: Id)
    requires n <= |steps| && n < |ws|
  {
    forall i :: 0 <= i < n ==>
      && steps[i] != Others(RemoveReport(r))
      && (steps[i].Others? && steps[i].os.BeginPurge? ==> steps[i].os.cutoff <= ws[i].now - period)
  }

  lemma DeletionsSpare(w: World, step: Step, r: Id)
    requires Can(w, step) && r in w.store.reports && r < w.store.nextId && IsUnselected(w, r)
    requires step != Others(RemoveReport(r))
    ensures r in Do(w, step).store.reports
  {
    hide CanPass, DoPass, CanSend, DoSend, CanJob, DoJob, CanOther, DoOther;
    match step
    case Jobs(js) => JobStepsKeepReports(w, js, r);
    case Passes(ps) => PassStepsKeepReports(w, ps);
    case Sends(ss) => SendStepsOnlySend(w, ss);
    case Others(os) => OtherStepsSpare(w, os, r);
  }

  lemma OtherStepsSpare(w: World, step: OtherStep, r: Id)
    requires CanOther(w, step) && r in w.store.reports && IsUnselected(w, r) && step != RemoveReport(r)
    ensures r in DoOther(w, step).store.reports
  {
    hide EligibleReports;
  }

  lemma JobStepsKeepReports(w: World, step: JobStep, r: Id)
    requires CanJob(w, step) && r in w.store.reports
    ensures r in DoJob(w, step).store.reports
  {
    hide EndAttempt, ClaimedJob, Recover, RecoveredLedger, StuckJobs, SetCursor, JobLedgerOf, ListsActive, KeyTaken,
         Enqueue;
  }

  lemma PassStepsKeepReports(w: World, step: PassStep)
    requires CanPass(w, step)
    ensures DoPass(w, step).store.reports == w.store.reports
  {
    hide SetCursor, BatchOf;
    if step.ClaimPass? {
      var p := w.passes[step.pass];
      ClaimOccurrencesOnlyAdds(w.store, p.schedule, p.copy.request, BatchOf(p));
    }
  }

  lemma StaysUnselected(w: World, step: Step, r: Id, cutoff: int)
    requires Can(w, step) && IsUnselected(w, r)
    requires r in w.store.reports && cutoff <= w.store.reports[r].createdAt
    requires step.Others? && step.os.BeginPurge? ==> step.os.cutoff <= cutoff
    ensures IsUnselected(Do(w, step), r)
  {
    if step.Others? && step.os.BeginPurge? {
      BeginSelects(w, step.os.purge, step.os.cutoff);
      hide DoOther;
    } else {
      StepsShrinkPurges(w, step);
      hide Can, Do;
    }
  }

  /** And retention leaves it alone until the period since its commit is over. */
  lemma {:induction false} ReportIsRetained(ws: seq<World>, steps: seq<Step>, k: nat, n: nat, r: Id, period: nat)
    requires Creates(ws, steps, k, r) && Init(ws[0]) && k < n < |ws|
    requires RespectsPeriod(ws, steps, n, period, r) && ws[n].now <= ws[k].now + period
    ensures r in ws[n].store.reports && IsUnselected(ws[n], r)
    decreases n
  {
    hide Can, Do, Init, IsUnselected, PurgesAreOld;
    if n == k + 1 {
      JustCreated(ws, steps, k, r);
      RunKeepsPurgesOld(ws, steps, k);
      NotSelectedYet(ws[k], ws[k + 1]);
    } else {
      var w, step := ws[n - 1], steps[n - 1];
      assert ws[n] == Do(w, step);
      StepReportsStay(w, step);
      ReportIsRetained(ws, steps, k, n - 1, r, period);
      ReportKeepsItsTime(ws, steps, k, n - 1, r);
      DeletionsSpare(w, step, r);
      StaysUnselected(w, step, r, ws[k].now);
    }
  }

  lemma NotSelectedYet(w: World, w': World)
    requires PurgesAreOld(w) && PurgesShrink(w, w')
    ensures IsUnselected(w', w.store.nextId)
  {
  }
}
