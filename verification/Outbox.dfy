/**
The transactional outbox over whole runs: a job's report, the job's success and
one delivery for each destination active at that moment appear together or not
at all, and stay consistent while reports and destinations are deleted.
*/
module Outbox {
  import opened Wrappers
  import opened Models
  import opened Transactions
  import opened World
  import opened JobSafety
  import JobAccounting
  import JobProgress

  predicate Targets(row: Delivery, destination: Id, report: Id) {
    row.destinationId == destination && row.reportId == report
  }

  predicate Delivers(deliveries: map<Id, Delivery>, destination: Id, report: Id) {
    exists d :: d in deliveries && Targets(deliveries[d], destination, report)
  }

  // ----- Deliveries: no premises needed -----

  predicate IsWarranted(row: Delivery, store: Store, commits: map<Id, Commit>) {
    && row.reportId in store.reports && row.reportId in commits
    && row.destinationId in store.destinations && row.destinationId in commits[row.reportId].active
  }

  /** Every delivery is of an existing report, to an existing destination that was active at its commit. */
  ghost predicate Sound(store: Store, commits: map<Id, Commit>) {
    forall d :: d in store.deliveries ==> IsWarranted(store.deliveries[d], store, commits)
  }

  /** Every such pair has its delivery. */
  ghost predicate Complete(store: Store, commits: map<Id, Commit>) {
    forall r, x :: r in commits && r in store.reports && x in commits[r].active && x in store.destinations ==>
      Delivers(store.deliveries, x, r)
  }

  /** No pair has two. */
  ghost predicate Unique(deliveries: map<Id, Delivery>) {
    forall d, e :: d in deliveries && e in deliveries && d != e ==>
      !Targets(deliveries[d], deliveries[e].destinationId, deliveries[e].reportId)
  }

  ghost predicate Below(store: Store, commits: map<Id, Commit>) {
    && (forall d :: d in store.deliveries ==> d < store.nextId)
    && (forall r :: r in store.reports ==> r < store.nextId)
    && (forall x :: x in store.destinations ==> x < store.nextId)
    && (forall r :: r in commits ==> r < store.nextId)
    && (forall r, x :: r in commits && x in commits[r].active ==> x < store.nextId)
  }

  ghost predicate OutboxInv(store: Store, commits: map<Id, Commit>) {
    Sound(store, commits) && Complete(store, commits) && Unique(store.deliveries) && Below(store, commits)
  }

  /** Rows may change in every way but their target. */
  ghost predicate SameTargets(before: map<Id, Delivery>, after: map<Id, Delivery>) {
    && after.Keys == before.Keys
    && (forall d :: d in before ==> Targets(after[d], before[d].destinationId, before[d].reportId))
  }

  lemma RetargetingKeeps(before: Store, after: Store, commits: map<Id, Commit>)
    requires OutboxInv(before, commits)
    requires SameTargets(before.deliveries, after.deliveries)
    requires after.reports == before.reports && after.destinations.Keys == before.destinations.Keys
    requires before.nextId <= after.nextId
    ensures OutboxInv(after, commits)
  {
    forall r, x | r in commits && r in after.reports && x in commits[r].active && x in after.destinations
      ensures Delivers(after.deliveries, x, r)
    {
      var d :| d in before.deliveries && Targets(before.deliveries[d], x, r);
      assert Targets(after.deliveries[d], x, r);
    }
    forall d | d in after.deliveries
      ensures IsWarranted(after.deliveries[d], after, commits)
    {
      assert IsWarranted(before.deliveries[d], before, commits);
    }
  }

  /** Deleting reports or a destination takes the deliveries along, and no others. */
  lemma DeletionKeeps(before: Store, after: Store, reports: set<Id>, destinations: set<Id>, commits: map<Id, Commit>)
    requires OutboxInv(before, commits)
    requires after.reports == before.reports - reports && after.destinations == before.destinations - destinations
    requires after.nextId == before.nextId
    requires after.deliveries == map d | d in before.deliveries
               && before.deliveries[d].reportId !in reports && before.deliveries[d].destinationId !in destinations ::
                 before.deliveries[d]
    ensures OutboxInv(after, commits)
  {
    forall r, x | r in commits && r in after.reports && x in commits[r].active && x in after.destinations
      ensures Delivers(after.deliveries, x, r)
    {
      var d :| d in before.deliveries && Targets(before.deliveries[d], x, r);
      assert Targets(after.deliveries[d], x, r);
    }
    forall d | d in after.deliveries
      ensures IsWarranted(after.deliveries[d], after, commits)
    {
      assert IsWarranted(before.deliveries[d], before, commits);
    }
  }

  /** A new destination or a report without a job: no commit knows about it. */
  lemma AdditionKeeps(before: Store, after: Store, commits: map<Id, Commit>)
    requires OutboxInv(before, commits)
    requires after.deliveries == before.deliveries && after.nextId == before.nextId + 1
    requires forall r :: r in after.reports <==> r in before.reports || (r == before.nextId && r in after.reports)
    requires forall x :: x in after.destinations <==>
      x in before.destinations || (x == before.nextId && x in after.destinations)
    ensures OutboxInv(after, commits)
  {
    forall d | d in after.deliveries
      ensures IsWarranted(after.deliveries[d], after, commits)
    {
      assert IsWarranted(before.deliveries[d], before, commits);
    }
  }

  // ----- The commit -----

  /** `after` is `before` with one new delivery for each of `ds`. */
  ghost predicate Enqueued(before: map<Id, Delivery>, after: map<Id, Delivery>, first: Id, report: Id, ds: seq<Id>) {
    && (forall d :: d in after <==> d in before || first <= d < first + |ds|)
    && (forall d :: d in before ==> d < first && after[d] == before[d])
    && (forall k :: first <= k < first + |ds| ==> after[k] == NewDelivery(ds[k - first], report))
  }

  lemma EnqueuedDelivers(before: map<Id, Delivery>, after: map<Id, Delivery>, first: Id, report: Id, ds: seq<Id>, x: Id,
                         r: Id)
    requires Enqueued(before, after, first, report, ds)
    ensures Delivers(after, x, r) <==> Delivers(before, x, r) || (r == report && x in ds)
  {
    if Delivers(before, x, r) {
      var d :| d in before && Targets(before[d], x, r);
      assert Targets(after[d], x, r);
    }
    if r == report && x in ds {
      var k :| 0 <= k < |ds| && ds[k] == x;
      assert Targets(after[first + k], x, r);
    }
    if Delivers(after, x, r) {
      var d :| d in after && Targets(after[d], x, r);
      if d in before {
        assert Targets(before[d], x, r);
      }
    }
  }

  lemma EnqueuedIsUnique(before: map<Id, Delivery>, after: map<Id, Delivery>, first: Id, report: Id, ds: seq<Id>)
    requires Enqueued(before, after, first, report, ds) && Unique(before)
    requires forall d :: d in before ==> before[d].reportId != report
    requires forall i, j :: 0 <= i < j < |ds| ==> ds[i] != ds[j]
    ensures Unique(after)
  {
    forall d, e | d in after && e in after && d != e
      ensures !Targets(after[d], after[e].destinationId, after[e].reportId)
    {
      assert d !in before ==> after[d] == NewDelivery(ds[d - first], report);
      assert e !in before ==> after[e] == NewDelivery(ds[e - first], report);
    }
  }

  lemma CommitEnqueues(store: Store, job: Id, copy: Job, ds: seq<Id>, now: int)
    requires job in store.jobs && forall d :: d in store.deliveries ==> d < store.nextId
    ensures var after := CompleteJob(store, job, copy, ds, now);
      && Enqueued(store.deliveries, after.deliveries, store.nextId + 1, store.nextId, ds)
      && after.reports.Keys == store.reports.Keys + {store.nextId} && after.destinations == store.destinations
      && after.nextId == store.nextId + 1 + |ds|
  {
    hide Enqueue, SucceededSchedule, SucceededJob;
    EnqueueAdds(store.deliveries, store.nextId + 1, store.nextId, ds);
  }

  lemma CommitKeeps(store: Store, job: Id, copy: Job, ds: seq<Id>, now: int, commits: map<Id, Commit>)
    requires OutboxInv(store, commits) && job in store.jobs && ListsActive(store.destinations, ds)
    ensures OutboxInv(CompleteJob(store, job, copy, ds, now), commits[store.nextId := Commit(job, set d | d in ds)])
  {
    hide Sound, Complete, Unique, Enqueued, ListsActive, CompleteJob;
    CommitEnqueues(store, job, copy, ds, now);
    hide Below;
    EnqueuedKeeps(store, CompleteJob(store, job, copy, ds, now), store.nextId, job, ds, commits);
  }

  lemma EnqueuedIsComplete(store: Store, after: Store, report: Id, job: Id, ds: seq<Id>, commits: map<Id, Commit>)
    requires Complete(store, commits) && ListsActive(store.destinations, ds) && report !in commits
    requires Enqueued(store.deliveries, after.deliveries, report + 1, report, ds)
    requires after.reports.Keys == store.reports.Keys + {report} && after.destinations == store.destinations
    ensures Complete(after, commits[report := Commit(job, set d | d in ds)])
  {
    hide Delivers, Enqueued;
    var commits' := commits[report := Commit(job, set d | d in ds)];
    forall r, x | r in commits' && r in after.reports && x in commits'[r].active && x in after.destinations
      ensures Delivers(after.deliveries, x, r)
    {
      EnqueuedDelivers(store.deliveries, after.deliveries, report + 1, report, ds, x, r);
    }
  }

  lemma ReportIsNew(store: Store, report: Id, commits: map<Id, Commit>)
    requires OutboxInv(store, commits) && report == store.nextId
    ensures report !in commits && forall d :: d in store.deliveries ==> store.deliveries[d].reportId != report
  {
    hide Complete, Unique;
    forall d | d in store.deliveries
      ensures store.deliveries[d].reportId != report
    {
      assert IsWarranted(store.deliveries[d], store, commits);
    }
  }

  lemma EnqueuedKeeps(store: Store, after: Store, report: Id, job: Id, ds: seq<Id>, commits: map<Id, Commit>)
    requires OutboxInv(store, commits) && ListsActive(store.destinations, ds) && report == store.nextId
    requires Enqueued(store.deliveries, after.deliveries, report + 1, report, ds)
    requires after.reports.Keys == store.reports.Keys + {report} && after.destinations == store.destinations
    requires after.nextId == report + 1 + |ds|
    ensures OutboxInv(after, commits[report := Commit(job, set d | d in ds)])
  {
    hide Sound, Complete, Unique, Below;
    ReportIsNew(store, report, commits);
    EnqueuedIsUnique(store.deliveries, after.deliveries, report + 1, report, ds);
    EnqueuedIsSound(store, after, report, job, ds, commits);
    EnqueuedIsComplete(store, after, report, job, ds, commits);
    EnqueuedIsBelow(store, after, report, job, ds, commits);
  }

  lemma EnqueuedIsBelow(store: Store, after: Store, report: Id, job: Id, ds: seq<Id>, commits: map<Id, Commit>)
    requires Below(store, commits) && ListsActive(store.destinations, ds) && report == store.nextId
    requires Enqueued(store.deliveries, after.deliveries, report + 1, report, ds)
    requires after.reports.Keys == store.reports.Keys + {report} && after.destinations == store.destinations
    requires after.nextId == report + 1 + |ds|
    ensures Below(after, commits[report := Commit(job, set d | d in ds)])
  {
  }

  lemma EnqueuedIsSound(store: Store, after: Store, report: Id, job: Id, ds: seq<Id>, commits: map<Id, Commit>)
    requires Sound(store, commits) && ListsActive(store.destinations, ds) && report !in commits
    requires Enqueued(store.deliveries, after.deliveries, report + 1, report, ds)
    requires after.reports.Keys == store.reports.Keys + {report} && after.destinations == store.destinations
    ensures Sound(after, commits[report := Commit(job, set d | d in ds)])
  {
    var commits' := commits[report := Commit(job, set d | d in ds)];
    forall d | d in after.deliveries
      ensures IsWarranted(after.deliveries[d], after, commits')
    {
      if d in store.deliveries {
        assert IsWarranted(store.deliveries[d], store, commits);
      } else {
        assert after.deliveries[d] == NewDelivery(ds[d - report - 1], report);
        assert ds[d - report - 1] in ds;
      }
    }
  }

  lemma StepKeepsOutbox(w: World, step: Step)
    requires OutboxInv(w.store, w.history.commits) && Can(w, step)
    ensures OutboxInv(Do(w, step).store, Do(w, step).history.commits)
  {
    hide OutboxInv;
    match step
    case Jobs(js) =>
      if js.CompleteAttempt? {
        CommitKeeps(w.store, w.workers[js.worker].job, w.workers[js.worker].copy, js.ds, w.now, w.history.commits);
      } else {
        JobStepKeepsOutbox(w, js);
      }
    case Passes(ps) => PassStepKeepsOutbox(w, ps);
    case Sends(ss) => SendStepKeepsOutbox(w, ss);
    case Others(os) => OtherStepKeepsOutbox(w, os);
  }

  lemma JobStepKeepsOutbox(w: World, step: JobStep)
    requires OutboxInv(w.store, w.history.commits) && CanJob(w, step) && !step.CompleteAttempt?
    ensures OutboxInv(DoJob(w, step).store, DoJob(w, step).history.commits)
  {
    hide OutboxInv, EndAttempt, Recover, SetCursor, StuckJobs, RecoveredLedger, ClaimedJob;
    RetargetingKeeps(w.store, DoJob(w, step).store, w.history.commits);
  }

  lemma PassStepKeepsOutbox(w: World, step: PassStep)
    requires OutboxInv(w.store, w.history.commits) && CanPass(w, step)
    ensures OutboxInv(DoPass(w, step).store, DoPass(w, step).history.commits)
  {
    hide OutboxInv, SetCursor, BatchOf;
    if step.ClaimPass? {
      var p := w.passes[step.pass];
      ClaimOccurrencesOnlyAdds(w.store, p.schedule, p.copy.request, BatchOf(p));
    }
    RetargetingKeeps(w.store, DoPass(w, step).store, w.history.commits);
  }

  lemma RowRetargets(deliveries: map<Id, Delivery>, d: Id, row: Delivery)
    requires d in deliveries && Targets(row, deliveries[d].destinationId, deliveries[d].reportId)
    ensures SameTargets(deliveries, deliveries[d := row])
  {
  }

  lemma SentKeepsTarget(row: Delivery, attempts: nat, outcome: SendOutcome, now: int)
    ensures Targets(SentDelivery(row, attempts, outcome, now), row.destinationId, row.reportId)
  {
  }

  lemma FinishRetargets(w: World, sender: Id, outcome: SendOutcome)
    requires sender in w.senders
    ensures SameTargets(w.store.deliveries, DoFinishSend(w, sender, outcome).store.deliveries)
  {
    hide DeliveryLedgerOf, SentDelivery;
    var Sender(d, copy) := w.senders[sender];
    if d in w.store.deliveries {
      var row := SentDelivery(w.store.deliveries[d], copy.attempts, outcome, w.now);
      assert DoFinishSend(w, sender, outcome).store.deliveries == w.store.deliveries[d := row];
      hide DoFinishSend, SameTargets;
      SentKeepsTarget(w.store.deliveries[d], copy.attempts, outcome, w.now);
      RowRetargets(w.store.deliveries, d, row);
    }
  }

  lemma StartRetargets(w: World, sender: Id, d: Id)
    ensures SameTargets(w.store.deliveries, DoStartSend(w, sender, d).store.deliveries)
  {
    hide DeliveryLedgerOf, DeliveryDue;
    if d in w.store.deliveries && DeliveryDue(w.store.deliveries[d], w.now) {
      var row := ClaimedDelivery(w.store.deliveries[d], w.now);
      assert DoStartSend(w, sender, d).store.deliveries == w.store.deliveries[d := row];
      hide DoStartSend, SameTargets;
      RowRetargets(w.store.deliveries, d, row);
    } else {
      assert DoStartSend(w, sender, d).store.deliveries == w.store.deliveries;
    }
  }

  lemma SendStepRetargets(w: World, step: SendStep)
    requires CanSend(w, step)
    ensures SameTargets(w.store.deliveries, DoSend(w, step).store.deliveries)
  {
    match step
    case FinishSend(sender, outcome) =>
      hide SameTargets, DoFinishSend;
      FinishRetargets(w, sender, outcome);
    case StartSend(sender, d) =>
      hide SameTargets, DoStartSend;
      StartRetargets(w, sender, d);
    case RetryDelivery(d) =>
      hide SameTargets, DeliveryLedgerOf;
      RowRetargets(w.store.deliveries, d, RetriedDelivery(w.store.deliveries[d]));
    case _ => hide DoFinishSend, DoStartSend, DoRetryDelivery;
  }

  lemma SendStepKeepsOutbox(w: World, step: SendStep)
    requires OutboxInv(w.store, w.history.commits) && CanSend(w, step)
    ensures OutboxInv(DoSend(w, step).store, DoSend(w, step).history.commits)
  {
    SendStepRetargets(w, step);
    SendStepsOnlySend(w, step);
    hide OutboxInv, CanSend, DoSend, SameTargets;
    RetargetingKeeps(w.store, DoSend(w, step).store, w.history.commits);
  }

  lemma OtherStepKeepsOutbox(w: World, step: OtherStep)
    requires OutboxInv(w.store, w.history.commits) && CanOther(w, step)
    ensures OutboxInv(DoOther(w, step).store, DoOther(w, step).history.commits)
  {
    hide OutboxInv, EligibleReports;
    var after := DoOther(w, step).store;
    match step
    case CommitPurge(purge) => DeletionKeeps(w.store, after, w.purges[purge], {}, w.history.commits);
    case RemoveReport(id) => DeletionKeeps(w.store, after, {id}, {}, w.history.commits);
    case RemoveDestination(id) => DeletionKeeps(w.store, after, {}, {id}, w.history.commits);
    case DirectReport => AdditionKeeps(w.store, after, w.history.commits);
    case AddDestination => AdditionKeeps(w.store, after, w.history.commits);
    case SetDestinationActive(id, active) =>
      assert after.destinations.Keys == w.store.destinations.Keys;
      RetargetingKeeps(w.store, after, w.history.commits);
    case _ => RetargetingKeeps(w.store, after, w.history.commits);
  }

  lemma EmptyOutbox(w: World)
    requires Init(w)
    ensures OutboxInv(w.store, w.history.commits)
  {
  }

  lemma {:induction false} RunKeepsOutbox(ws: seq<World>, steps: seq<Step>, i: nat)
    requires IsRun(ws, steps) && Init(ws[0]) && i < |ws|
    ensures OutboxInv(ws[i].store, ws[i].history.commits)
  {
    hide OutboxInv, Can, Do, Init;
    if i == 0 {
      EmptyOutbox(ws[0]);
    } else {
      RunKeepsOutbox(ws, steps, i - 1);
      StepKeepsOutbox(ws[i - 1], steps[i - 1]);
    }
  }

  /**
   * In every run, with no premise: while a committed report exists, the destinations it is delivered to are exactly
   * the remaining ones that were active at its commit; and it is never delivered twice to the same one.
   */
  lemma DeliveriesFollowCommits(ws: seq<World>, steps: seq<Step>, i: nat, r: Id)
    requires IsRun(ws, steps) && Init(ws[0]) && i < |ws| && r in ws[i].history.commits
    ensures var w, commit := ws[i], ws[i].history.commits[r];
      && (r in w.store.reports ==> forall x :: x in w.store.destinations ==>
            (x in commit.active <==> Delivers(w.store.deliveries, x, r)))
      && (forall x, d, e | d in w.store.deliveries && e in w.store.deliveries
            && Targets(w.store.deliveries[d], x, r) && Targets(w.store.deliveries[e], x, r) :: d == e)
      && (r !in w.store.reports ==> forall d :: d in w.store.deliveries ==> w.store.deliveries[d].reportId != r)
  {
    var w := ws[i];
    RunKeepsOutbox(ws, steps, i);
    forall x | x in w.store.destinations && Delivers(w.store.deliveries, x, r)
      ensures x in w.history.commits[r].active
    {
      var d :| d in w.store.deliveries && Targets(w.store.deliveries[d], x, r);
      assert IsWarranted(w.store.deliveries[d], w.store, w.history.commits);
    }
    forall d | d in w.store.deliveries
      ensures w.store.deliveries[d].reportId in w.store.reports
    {
      assert IsWarranted(w.store.deliveries[d], w.store, w.history.commits);
    }
  }

  // ----- Jobs and their reports: under the premises of job safety -----

  predicate IsReportOf(commit: Commit, r: Id, jobs: map<Id, Job>, reports: map<Id, Report>) {
    && commit.job in jobs && jobs[commit.job].status == Succeeded
    && (r in reports ==> jobs[commit.job].reportId == Some(r))
  }

  /** A report committed by a job exists only with its job succeeded, and the job refers to it. */
  ghost predicate ReportsOfSucceeded(jobs: map<Id, Job>, reports: map<Id, Report>, commits: map<Id, Commit>) {
    forall r :: r in commits ==> IsReportOf(commits[r], r, jobs, reports)
  }

  /** One report at most for each job. */
  ghost predicate OneEach(commits: map<Id, Commit>) {
    forall r, q :: r in commits && q in commits && commits[r].job == commits[q].job ==> r == q
  }

  predicate HasCommit(commits: map<Id, Commit>, j: Id) {
    exists r :: r in commits && commits[r].job == j
  }

  ghost predicate SucceededHaveCommits(jobs: map<Id, Job>, commits: map<Id, Commit>) {
    forall j :: j in jobs && jobs[j].status == Succeeded ==> HasCommit(commits, j)
  }

  ghost predicate CommitsInv(jobs: map<Id, Job>, reports: map<Id, Report>, commits: map<Id, Commit>) {
    ReportsOfSucceeded(jobs, reports, commits) && OneEach(commits) && SucceededHaveCommits(jobs, commits)
  }

  /** Succeeded jobs stay as they are, others do not succeed, and no known report comes back. */
  ghost predicate KeepsSuccess(w: World, w': World) {
    && w'.history.commits == w.history.commits
    && (forall r :: r in w'.store.reports ==> r in w.store.reports || w.store.nextId <= r)
    && (forall j :: j in w.store.jobs && w.store.jobs[j].status == Succeeded ==>
          j in w'.store.jobs && w'.store.jobs[j].status == Succeeded)
    && (forall j, r ::
        j in w.store.jobs && j in w'.store.jobs && r in w'.store.reports && w.store.jobs[j].reportId == Some(r) ==>
          w'.store.jobs[j].reportId == Some(r))
    && (forall j :: j in w'.store.jobs && w'.store.jobs[j].status == Succeeded ==>
          j in w.store.jobs && w.store.jobs[j].status == Succeeded)
  }

  lemma KeepingSuccessKeepsCommits(w: World, w': World)
    requires CommitsInv(w.store.jobs, w.store.reports, w.history.commits) && KeepsSuccess(w, w')
    requires forall r :: r in w.history.commits ==> r < w.store.nextId
    ensures CommitsInv(w'.store.jobs, w'.store.reports, w'.history.commits)
  {
    forall r | r in w.history.commits
      ensures IsReportOf(w.history.commits[r], r, w'.store.jobs, w'.store.reports)
    {
      assert IsReportOf(w.history.commits[r], r, w.store.jobs, w.store.reports);
    }
  }

  predicate KeepsReport(before: Job, after: Job) {
    after.reportId == before.reportId && (after.status == Succeeded ==> before.status == Succeeded)
  }

  /** Every job keeps its report, and new ones have none. */
  ghost predicate KeepReports(before: map<Id, Job>, after: map<Id, Job>) {
    forall j :: j in after ==> if j in before then KeepsReport(before[j], after[j]) else IsNew(after[j])
  }

  lemma SubmitKeepsReports(w: World, request: Request, key: Option<string>)
    requires w.store.nextId !in w.store.jobs
    ensures KeepReports(w.store.jobs, DoSubmit(w, request, key).store.jobs)
  {
  }

  lemma RecoveryKeepsReports(jobs: map<Id, Job>, copies: map<Id, Job>, now: int)
    ensures KeepReports(jobs, Recover(jobs, copies, now))
  {
  }

  lemma JobStepKeepsReports(w: World, step: JobStep)
    requires w.store.nextId !in w.store.jobs && CanJob(w, step) && !step.CompleteAttempt?
    ensures DoJob(w, step).history.commits == w.history.commits && DoJob(w, step).store.reports == w.store.reports
    ensures KeepReports(w.store.jobs, DoJob(w, step).store.jobs)
  {
    hide StuckJobs, RecoveredLedger, JobLedgerOf, SetCursor, Recover, KeyTaken, EndAttempt, ClaimedJob, JobClaimable;
    match step
    case Submit(request, key) => SubmitKeepsReports(w, request, key);
    case CommitRecovery(sweep) => RecoveryKeepsReports(w.store.jobs, w.sweeps[sweep].copies, w.now);
    case StartAttempt(worker, job) => StartKeepsReports(w, worker, job);
    case FailAttempt(worker, reason) => FailureKeepsReports(w, worker, reason);
    case _ =>
  }

  lemma StartKeepsReports(w: World, worker: Id, job: Id)
    ensures var w' := DoStartAttempt(w, worker, job);
      && w'.history.commits == w.history.commits && w'.store.reports == w.store.reports
      && KeepReports(w.store.jobs, w'.store.jobs)
  {
  }

  lemma FailureKeepsReports(w: World, worker: Id, reason: string)
    requires worker in w.workers
    ensures var w' := DoFailAttempt(w, worker, reason);
      && w'.history.commits == w.history.commits && w'.store.reports == w.store.reports
      && KeepReports(w.store.jobs, w'.store.jobs)
  {
  }

  lemma SucceededStays(w: World, step: Step)
    requires JobSafety.Inv(w) && Can(w, step) && Premises(w) && Premises(Do(w, step))
    ensures forall j :: j in w.store.jobs && w.store.jobs[j].status == Succeeded ==>
              j in Do(w, step).store.jobs && Do(w, step).store.jobs[j].status == Succeeded
  {
    forall j | j in w.store.jobs && w.store.jobs[j].status == Succeeded
      ensures j in Do(w, step).store.jobs && Do(w, step).store.jobs[j].status == Succeeded
    {
      JobProgress.FinishedByOneStep(w, step, j);
    }
  }

  lemma PassStepKeepsReports(w: World, step: PassStep)
    requires CanPass(w, step) && forall j :: j in w.store.jobs ==> j < w.store.nextId
    ensures DoPass(w, step).history.commits == w.history.commits && DoPass(w, step).store.reports == w.store.reports
    ensures KeepReports(w.store.jobs, DoPass(w, step).store.jobs)
  {
    hide SetCursor, BatchOf;
    if step.ClaimPass? {
      var p := w.passes[step.pass];
      ClaimOccurrencesGrows(w.store, p.schedule, p.copy.request, BatchOf(p));
    }
  }

  /** Retention clears the reference to a report only together with the report. */
  lemma OtherStepForgetsReports(w: World, step: OtherStep)
    requires CanOther(w, step)
    ensures var w' := DoOther(w, step);
      && w'.history.commits == w.history.commits
      && (forall r :: r in w'.store.reports ==> r in w.store.reports || w.store.nextId <= r)
      && w'.store.jobs.Keys == w.store.jobs.Keys
      && (forall j :: j in w.store.jobs ==> w'.store.jobs[j].status == w.store.jobs[j].status)
      && (forall j, r :: j in w.store.jobs && r in w'.store.reports && w.store.jobs[j].reportId == Some(r) ==>
            w'.store.jobs[j].reportId == Some(r))
  {
    hide EligibleReports;
  }

  lemma OtherStepsKeepSuccess(w: World, step: Step)
    requires JobSafety.Inv(w) && Can(w, step) && Premises(w) && Premises(Do(w, step))
    requires step.Jobs? ==> !step.js.CompleteAttempt?
    ensures KeepsSuccess(w, Do(w, step))
  {
    hide Premises, CanJob, DoJob, DoPass, DoOther, DoSend, CanPass, CanOther, CanSend, JobAccounting.Inv, Owned;
    SucceededStays(w, step);
    JobAccounting.NextIdIsUnused(w);
    hide JobSafety.Inv;
    match step
    case Jobs(js) => JobStepKeepsReports(w, js);
    case Passes(ps) => PassStepKeepsReports(w, ps);
    case Sends(ss) => SendStepsOnlySend(w, ss);
    case Others(os) => OtherStepForgetsReports(w, os);
  }

  /** The owner of a running job commits the job's only report. */
  lemma CompletionKeepsCommits(w: World, worker: Id, ds: seq<Id>)
    requires JobSafety.Inv(w) && OutboxInv(w.store, w.history.commits)
    requires CommitsInv(w.store.jobs, w.store.reports, w.history.commits)
    requires worker in w.workers && w.workers[worker].phase == Generating && w.workers[worker].job in w.store.jobs
    ensures var w' := DoCompleteAttempt(w, worker, ds); CommitsInv(w'.store.jobs, w'.store.reports, w'.history.commits)
  {
    var j, r := w.workers[worker].job, w.store.nextId;
    assert w.store.jobs[j] == w.workers[worker].copy && w.store.jobs[j].status == Running;
    assert r !in w.history.commits && r !in w.store.reports;
    hide JobSafety.Inv, OutboxInv, Enqueue, SucceededSchedule;
    CommitOfRunningJob(j, r, SucceededJob(w.store.jobs[j], r, w.now), (set d | d in ds), Report(w.now),
                       w.store.jobs, w.store.reports, w.history.commits);
  }

  lemma CommitOfRunningJob(j: Id, r: Id, row: Job, active: set<Id>, report: Report,
                           jobs: map<Id, Job>, reports: map<Id, Report>, commits: map<Id, Commit>)
    requires CommitsInv(jobs, reports, commits) && r !in commits && r !in reports
    requires j in jobs && jobs[j].status == Running && row.status == Succeeded && row.reportId == Some(r)
    ensures CommitsInv(jobs[j := row], reports[r := report], commits[r := Commit(j, active)])
  {
    var jobs', commits' := jobs[j := row], commits[r := Commit(j, active)];
    forall q | q in commits
      ensures commits[q].job != j
    {
      assert IsReportOf(commits[q], q, jobs, reports);
    }
    forall k | k in jobs' && jobs'[k].status == Succeeded
      ensures HasCommit(commits', k)
    {
      if k == j {
        assert commits'[r].job == j;
      } else {
        var q :| q in commits && commits[q].job == k;
        assert commits'[q].job == k;
      }
    }
  }

  // ----- Runs -----

  ghost predicate Inv(w: World) {
    && OutboxInv(w.store, w.history.commits)
    && CommitsInv(w.store.jobs, w.store.reports, w.history.commits)
  }

  lemma StepKeepsInv(w: World, step: Step)
    requires JobSafety.Inv(w) && Inv(w) && Can(w, step) && Premises(w) && Premises(Do(w, step))
    ensures Inv(Do(w, step))
  {
    StepKeepsOutbox(w, step);
    if step.Jobs? && step.js.CompleteAttempt? {
      CompletionKeepsCommits(w, step.js.worker, step.js.ds);
    } else {
      OtherStepsKeepSuccess(w, step);
      assert forall r :: r in w.history.commits ==> r < w.store.nextId;
      hide JobSafety.Inv, OutboxInv, CommitsInv, Can, Do, Premises, KeepsSuccess;
      KeepingSuccessKeepsCommits(w, Do(w, step));
    }
  }

  lemma InitHolds(w: World)
    requires Init(w)
    ensures Inv(w)
  {
  }

  lemma {:induction false} RunKeepsInv(ws: seq<World>, steps: seq<Step>, i: nat)
    requires IsTimelyRun(ws, steps) && i < |ws|
    ensures Inv(ws[i])
  {
    hide Inv, JobSafety.Inv, Can, Do, Premises, Init;
    if i == 0 {
      InitHolds(ws[0]);
    } else {
      RunKeepsInv(ws, steps, i - 1);
      JobSafety.RunKeepsInv(ws, steps, i - 1);
      assert ws[i] == Do(ws[i - 1], steps[i - 1]);
      StepKeepsInv(ws[i - 1], steps[i - 1]);
    }
  }

  /**
   * In every committed state: the job of a committed report has succeeded, refers to it while it exists, and
   * committed no other; and its deliveries are exactly one for each remaining destination that was active then.
   */
  lemma ReportsAreAtomic(ws: seq<World>, steps: seq<Step>, i: nat, r: Id)
    requires IsTimelyRun(ws, steps) && i < |ws| && r in ws[i].history.commits
    ensures var w, commit := ws[i], ws[i].history.commits[r];
      && commit.job in w.store.jobs && w.store.jobs[commit.job].status == Succeeded
      && (r in w.store.reports ==> w.store.jobs[commit.job].reportId == Some(r))
      && (forall q :: q in w.history.commits && w.history.commits[q].job == commit.job ==> q == r)
      && (r in w.store.reports ==> forall x :: x in w.store.destinations ==>
            (x in commit.active <==> Delivers(w.store.deliveries, x, r)))
      && (forall x, d, e | d in w.store.deliveries && e in w.store.deliveries
            && Targets(w.store.deliveries[d], x, r) && Targets(w.store.deliveries[e], x, r) :: d == e)
  {
    var w := ws[i];
    RunKeepsInv(ws, steps, i);
    assert IsReportOf(w.history.commits[r], r, w.store.jobs, w.store.reports);
    DeliveriesFollowCommits(ws, steps, i, r);
  }

  /** And a succeeded job has committed a report: success never comes without one. */
  lemma SuccessHasItsReport(ws: seq<World>, steps: seq<Step>, i: nat, j: Id)
    requires IsTimelyRun(ws, steps) && i < |ws| && j in ws[i].store.jobs
    ensures ws[i].store.jobs[j].status == Succeeded <==> HasCommit(ws[i].history.commits, j)
  {
    RunKeepsInv(ws, steps, i);
    if HasCommit(ws[i].history.commits, j) {
      var r :| r in ws[i].history.commits && ws[i].history.commits[r].job == j;
      assert IsReportOf(ws[i].history.commits[r], r, ws[i].store.jobs, ws[i].store.reports);
    }
  }
}
