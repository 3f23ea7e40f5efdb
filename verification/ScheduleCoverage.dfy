/**
Schedule coverage over whole runs: passes overlap and crash between committing
their claims and moving the cursor, and finishing jobs set the cursor back, yet
every occurrence has at most one job and none is lost silently.
*/
module ScheduleCoverage {
  import opened Wrappers
  import opened ScheduleTime
  import opened Models
  import opened Transactions
  import opened World
  import opened BatchCoverage
  import JobAccounting

  predicate IsFor(job: Job, s: Id) {
    job.scheduleId == Some(s) && job.scheduledFor.Some?
  }

  /** The occurrences of schedule `s` that have a job. */
  function Claimed(jobs: map<Id, Job>, s: Id): set<int> {
    set j | j in jobs && IsFor(jobs[j], s) :: jobs[j].scheduledFor.value
  }

  lemma ClaimedHas(jobs: map<Id, Job>, s: Id, t: int)
    ensures t in Claimed(jobs, s) <==> OccurrenceTaken(jobs, s, t)
  {
    if OccurrenceTaken(jobs, s, t) {
      var j :| j in jobs && jobs[j].scheduleId == Some(s) && jobs[j].scheduledFor == Some(t);
      assert IsFor(jobs[j], s);
    }
  }

  /** No occurrence has two jobs. */
  ghost predicate OneJobEach(jobs: map<Id, Job>) {
    forall j, k ::
      j in jobs && k in jobs && j != k && jobs[j].scheduleId.Some? && jobs[j].scheduleId == jobs[k].scheduleId ==>
      jobs[j].scheduledFor != jobs[k].scheduledFor
  }

  /** Jobs of a schedule know their occurrence, and schedules exist before their jobs. */
  ghost predicate JobsFit(jobs: map<Id, Job>, nextId: Id) {
    forall j :: j in jobs && jobs[j].scheduleId.Some? ==>
      jobs[j].scheduledFor.Some? && jobs[j].scheduleId.value < nextId
  }

  // ----- Claims -----

  /** A claim adds exactly the occurrences that were not there, and touches no other schedule. */
  lemma {:induction false} ClaimsAdd(store: Store, s: Id, request: Request, ts: seq<int>)
    requires OneJobEach(store.jobs) && JobsFit(store.jobs, store.nextId) && s < store.nextId
    requires forall j :: j in store.jobs ==> j < store.nextId
    ensures var after := ClaimOccurrences(store, s, request, ts);
      && Grows(store, after)
      && OneJobEach(after.jobs) && JobsFit(after.jobs, after.nextId)
      && Claimed(after.jobs, s) == Claimed(store.jobs, s) + Members(ts)
      && (forall u :: u != s ==> Claimed(after.jobs, u) == Claimed(store.jobs, u))
    decreases |ts|
  {
    hide OneJobEach, JobsFit, Claimed, OccurrenceTaken;
    if ts != [] {
      var last := |ts| - 1;
      ClaimsAdd(store, s, request, ts[..last]);
      ClaimOccurrencesGrows(store, s, request, ts[..last]);
      var before := ClaimOccurrences(store, s, request, ts[..last]);
      assert Members(ts) == Members(ts[..last]) + {ts[last]};
      ClaimedHas(before.jobs, s, ts[last]);
      if !OccurrenceTaken(before.jobs, s, ts[last]) {
        hide ClaimOccurrences, Grows;
        OneClaimAdds(before, s, request, ts[last]);
      }
      ClaimOccurrencesGrows(store, s, request, ts);
    }
  }

  lemma OneClaimAdds(store: Store, s: Id, request: Request, t: int)
    requires OneJobEach(store.jobs) && JobsFit(store.jobs, store.nextId) && s < store.nextId
    requires store.nextId !in store.jobs && !OccurrenceTaken(store.jobs, s, t)
    ensures var after := InsertJob(store, NewJob(request, None, Some(s), Some(t)));
      && OneJobEach(after.jobs) && JobsFit(after.jobs, after.nextId)
      && Claimed(after.jobs, s) == Claimed(store.jobs, s) + {t}
      && (forall u :: u != s ==> Claimed(after.jobs, u) == Claimed(store.jobs, u))
  {
    var job := NewJob(request, None, Some(s), Some(t));
    var after := InsertJob(store, job);
    assert forall j :: j in after.jobs <==> j in store.jobs || j == store.nextId;
    assert after.jobs[store.nextId] == job && IsFor(job, s);
    forall u
      ensures Claimed(after.jobs, u) == Claimed(store.jobs, u) + (if u == s then {t} else {})
    {
      forall v
        ensures v in Claimed(after.jobs, u) <==> v in Claimed(store.jobs, u) || (u == s && v == t)
      {
        ClaimedHas(store.jobs, u, v);
        ClaimedHas(after.jobs, u, v);
        if OccurrenceTaken(store.jobs, u, v) {
          var j :| j in store.jobs && store.jobs[j].scheduleId == Some(u) && store.jobs[j].scheduledFor == Some(v);
          assert after.jobs[j] == store.jobs[j];
        }
      }
    }
  }

  // ----- The invariant -----

  /** A cursor points at an occurrence that has a job, and coverage holds. */
  ghost predicate RowCovered(row: Schedule, claimed: set<int>, now: int) {
    && (row.lastAttemptedAt.Some? ==> row.lastAttemptedAt.value in claimed)
    && Covered(row.calendar, row.createdAt, claimed)
    && Genuine(row.calendar, row.createdAt, now, claimed)
  }

  /** A pass may hold an old cursor, but one that pointed at an occurrence with a job. */
  ghost predicate PassFits(p: Pass, row: Schedule, claimed: set<int>, now: int) {
    && p.copy.calendar == row.calendar && p.copy.createdAt == row.createdAt && p.now <= now
    && (p.copy.lastAttemptedAt.Some? ==> p.copy.lastAttemptedAt.value in claimed)
    && (p.claimed ==> Members(BatchOf(p)) <= claimed)
  }

  ghost predicate RowsCovered(schedules: map<Id, Schedule>, jobs: map<Id, Job>, now: int, nextId: Id) {
    forall s :: s in schedules ==> s < nextId && RowCovered(schedules[s], Claimed(jobs, s), now)
  }

  ghost predicate PassesFit(passes: map<Id, Pass>, schedules: map<Id, Schedule>, jobs: map<Id, Job>, now: int) {
    forall i :: i in passes ==>
      passes[i].schedule in schedules
        && PassFits(passes[i], schedules[passes[i].schedule], Claimed(jobs, passes[i].schedule), now)
  }

  ghost predicate ViewInv(jobs: map<Id, Job>, schedules: map<Id, Schedule>, passes: map<Id, Pass>, now: int,
                          nextId: Id) {
    && OneJobEach(jobs) && JobsFit(jobs, nextId)
    && RowsCovered(schedules, jobs, now, nextId)
    && PassesFit(passes, schedules, jobs, now)
  }

  ghost predicate Inv(w: World) {
    && JobAccounting.Inv(w)
    && ViewInv(w.store.jobs, w.store.schedules, w.passes, w.now, w.store.nextId)
  }

  // ----- Steps that claim nothing -----

  /** A schedule row keeps its calendar, and its cursor stays or moves, either way, to an occurrence with a job. */
  ghost predicate RowFollows(before: Schedule, after: Schedule, claimed: set<int>) {
    && after.calendar == before.calendar && after.createdAt == before.createdAt
    && (after.lastAttemptedAt == before.lastAttemptedAt
        || (after.lastAttemptedAt.Some? && after.lastAttemptedAt.value in claimed))
  }

  ghost predicate SchedulesFollow(before: map<Id, Schedule>, after: map<Id, Schedule>, jobs: map<Id, Job>) {
    && after.Keys == before.Keys
    && (forall s :: s in before ==> RowFollows(before[s], after[s], Claimed(jobs, s)))
  }

  ghost predicate SameClaims(before: map<Id, Job>, after: map<Id, Job>) {
    && (OneJobEach(before) ==> OneJobEach(after))
    && (forall s :: Claimed(after, s) == Claimed(before, s))
  }

  lemma ViewFollows(jobs: map<Id, Job>, schedules: map<Id, Schedule>, passes: map<Id, Pass>, now: int, nextId: Id,
                    jobs': map<Id, Job>, schedules': map<Id, Schedule>, passes': map<Id, Pass>, now': int, nextId': Id)
    requires ViewInv(jobs, schedules, passes, now, nextId) && now <= now' && nextId <= nextId'
    requires SameClaims(jobs, jobs') && JobsFit(jobs', nextId') && SchedulesFollow(schedules, schedules', jobs)
    requires forall i :: i in passes' ==> i in passes && passes'[i] == passes[i]
    ensures ViewInv(jobs', schedules', passes', now', nextId')
  {
    forall s | s in schedules'
      ensures s < nextId' && RowCovered(schedules'[s], Claimed(jobs', s), now')
    {
      assert RowCovered(schedules[s], Claimed(jobs, s), now)
        && RowFollows(schedules[s], schedules'[s], Claimed(jobs, s));
    }
    forall i | i in passes'
      ensures passes'[i].schedule in schedules'
      ensures PassFits(passes'[i], schedules'[passes'[i].schedule], Claimed(jobs', passes'[i].schedule), now')
    {
      var s := passes[i].schedule;
      assert PassFits(passes[i], schedules[s], Claimed(jobs, s), now)
        && RowFollows(schedules[s], schedules'[s], Claimed(jobs, s));
    }
  }

  ghost predicate SameOccurrences(before: map<Id, Job>, after: map<Id, Job>) {
    after.Keys == before.Keys && forall j :: j in before ==> JobAccounting.SameRequest(before[j], after[j])
  }

  lemma SameOccurrencesSameClaims(before: map<Id, Job>, after: map<Id, Job>, nextId: Id)
    requires SameOccurrences(before, after)
    ensures SameClaims(before, after) && (JobsFit(before, nextId) ==> JobsFit(after, nextId))
  {
    forall s
      ensures Claimed(after, s) == Claimed(before, s)
    {
      forall t
        ensures t in Claimed(after, s) <==> t in Claimed(before, s)
      {
        ClaimedHas(before, s, t);
        ClaimedHas(after, s, t);
        SameOccurrencesSameTaken(before, after, s, t);
        SameOccurrencesSameTaken(after, before, s, t);
      }
    }
  }

  lemma SameOccurrencesSameTaken(before: map<Id, Job>, after: map<Id, Job>, s: Id, t: int)
    requires SameOccurrences(before, after)
    ensures OccurrenceTaken(before, s, t) ==> OccurrenceTaken(after, s, t)
  {
    if OccurrenceTaken(before, s, t) {
      var j :| j in before && before[j].scheduleId == Some(s) && before[j].scheduledFor == Some(t);
      assert JobAccounting.SameRequest(before[j], after[j]);
    }
  }

  lemma UnscheduledJobSameClaims(jobs: map<Id, Job>, id: Id, job: Job)
    requires id !in jobs && job.scheduleId == None
    ensures SameClaims(jobs, jobs[id := job])
  {
    forall s
      ensures Claimed(jobs[id := job], s) == Claimed(jobs, s)
    {
      assert forall j :: j in jobs ==> jobs[id := job][j] == jobs[j];
      forall t | t in Claimed(jobs, s)
        ensures t in Claimed(jobs[id := job], s)
      {
        var j :| j in jobs && IsFor(jobs[j], s) && jobs[j].scheduledFor.value == t;
        assert jobs[id := job][j] == jobs[j];
      }
    }
  }

  // ----- Job steps -----

  lemma CopyIsClaimed(w: World, worker: Id)
    requires Inv(w) && worker in w.workers
    ensures var copy := w.workers[worker].copy; copy.scheduleId.Some? ==>
              copy.scheduledFor.Some? && copy.scheduledFor.value in Claimed(w.store.jobs, copy.scheduleId.value)
  {
    var j, copy := w.workers[worker].job, w.workers[worker].copy;
    assert j in w.store.jobs && JobAccounting.SameRequest(copy, w.store.jobs[j]);
    if copy.scheduleId.Some? {
      assert IsFor(w.store.jobs[j], copy.scheduleId.value);
    }
  }

  /** A finishing job sets the cursor to its own occurrence, which may lie before where it stands. */
  lemma CursorFollows(schedules: map<Id, Schedule>, s: Id, t: Option<int>, lastRun: Option<int>, jobs: map<Id, Job>)
    requires t.Some? && t.value in Claimed(jobs, s)
    ensures SchedulesFollow(schedules, SetCursor(schedules, s, t), jobs)
    ensures s in schedules ==>
      SchedulesFollow(schedules, schedules[s := schedules[s].(lastRunAt := lastRun, lastAttemptedAt := t)], jobs)
  {
  }

  lemma SchedulesStay(schedules: map<Id, Schedule>, jobs: map<Id, Job>)
    ensures SchedulesFollow(schedules, schedules, jobs)
  {
  }

  lemma CompletionFollows(w: World, worker: Id, ds: seq<Id>)
    requires Inv(w) && worker in w.workers && w.workers[worker].job in w.store.jobs
    ensures SchedulesFollow(w.store.schedules, DoCompleteAttempt(w, worker, ds).store.schedules, w.store.jobs)
  {
    var copy := w.workers[worker].copy;
    CopyIsClaimed(w, worker);
    SchedulesStay(w.store.schedules, w.store.jobs);
    if copy.scheduleId.Some? {
      CursorFollows(w.store.schedules, copy.scheduleId.value, copy.scheduledFor, Some(w.now), w.store.jobs);
    }
  }

  lemma MoveFollows(w: World, worker: Id)
    requires Inv(w) && worker in w.workers
    ensures SchedulesFollow(w.store.schedules, DoMoveCursor(w, worker).store.schedules, w.store.jobs)
  {
    var copy := w.workers[worker].copy;
    CopyIsClaimed(w, worker);
    SchedulesStay(w.store.schedules, w.store.jobs);
    if copy.scheduleId.Some? {
      CursorFollows(w.store.schedules, copy.scheduleId.value, copy.scheduledFor, None, w.store.jobs);
    }
  }

  lemma JobStepSchedulesFollow(w: World, step: JobStep)
    requires Inv(w) && CanJob(w, step)
    ensures SchedulesFollow(w.store.schedules, DoJob(w, step).store.schedules, w.store.jobs)
    ensures DoJob(w, step).passes == w.passes && DoJob(w, step).now == w.now
    ensures w.store.nextId <= DoJob(w, step).store.nextId
  {
    hide Inv, SchedulesFollow, DoStartAttempt, DoFailAttempt, DoCommitRecovery, DoSubmit, Enqueue, SetCursor,
         SucceededSchedule;
    SchedulesStay(w.store.schedules, w.store.jobs);
    match step
    case CompleteAttempt(worker, ds) => CompletionFollows(w, worker, ds);
    case MoveCursor(worker) => MoveFollows(w, worker);
    case _ => JobStepsLeaveSchedules(w, step);
  }

  lemma JobStepSameOccurrences(w: World, step: JobStep)
    requires CanJob(w, step) && !step.Submit?
    ensures SameOccurrences(w.store.jobs, DoJob(w, step).store.jobs)
  {
    hide RecoveredLedger, StuckJobs, JobLedgerOf, Enqueue, SetCursor, SucceededSchedule;
    match step
    case StartAttempt(worker, job) => StartSameOccurrences(w, worker, job);
    case FailAttempt(worker, reason) => FailureSameOccurrences(w, worker, reason);
    case _ =>
  }

  lemma StartSameOccurrences(w: World, worker: Id, job: Id)
    ensures SameOccurrences(w.store.jobs, DoStartAttempt(w, worker, job).store.jobs)
  {
    hide JobLedgerOf;
    var jobs := w.store.jobs;
    assert DoStartAttempt(w, worker, job).store.jobs ==
           if JobClaimable(jobs, job) then jobs[job := ClaimedJob(jobs[job], w.now)] else jobs;
    hide DoStartAttempt;
  }

  lemma FailureSameOccurrences(w: World, worker: Id, reason: string)
    requires worker in w.workers
    ensures SameOccurrences(w.store.jobs, DoFailAttempt(w, worker, reason).store.jobs)
  {
    hide JobLedgerOf;
  }

  lemma SubmitKeepsClaims(w: World, request: Request, key: Option<string>)
    requires Inv(w)
    ensures var after := DoSubmit(w, request, key).store;
            SameClaims(w.store.jobs, after.jobs) && JobsFit(after.jobs, after.nextId)
  {
    JobAccounting.NextIdIsUnused(w);
    UnscheduledJobSameClaims(w.store.jobs, w.store.nextId, NewJob(request, key, None, None));
    hide JobAccounting.Inv, RowsCovered, PassesFit, OneJobEach, SameClaims;
  }

  lemma JobStepKeepsClaims(w: World, step: JobStep)
    requires Inv(w) && CanJob(w, step)
    ensures var after := DoJob(w, step).store;
            SameClaims(w.store.jobs, after.jobs) && JobsFit(after.jobs, after.nextId)
  {
    hide JobAccounting.Inv, RowsCovered, PassesFit, OneJobEach, SameClaims, SchedulesFollow, SameOccurrences, DoSubmit;
    if step.Submit? {
      SubmitKeepsClaims(w, step.request, step.key);
    } else {
      JobStepSameOccurrences(w, step);
      JobStepSchedulesFollow(w, step);
      hide CanJob, DoJob;
      SameOccurrencesSameClaims(w.store.jobs, DoJob(w, step).store.jobs, w.store.nextId);
    }
  }

  lemma JobStepKeepsView(w: World, step: JobStep)
    requires Inv(w) && CanJob(w, step)
    ensures var w' := DoJob(w, step); ViewInv(w'.store.jobs, w'.store.schedules, w'.passes, w'.now, w'.store.nextId)
  {
    var w' := DoJob(w, step);
    JobStepSchedulesFollow(w, step);
    JobStepKeepsClaims(w, step);
    hide JobAccounting.Inv, RowsCovered, PassesFit, OneJobEach, SameClaims, SchedulesFollow, JobsFit, CanJob, DoJob;
    ViewFollows(w.store.jobs, w.store.schedules, w.passes, w.now, w.store.nextId,
                w'.store.jobs, w'.store.schedules, w'.passes, w'.now, w'.store.nextId);
  }

  // ----- Pass steps -----

  lemma BeginKeepsView(w: World, pass: Id, s: Id)
    requires Inv(w) && s in w.store.schedules
    ensures ViewInv(w.store.jobs, w.store.schedules, w.passes[pass := Pass(s, w.store.schedules[s], w.now, false)],
                    w.now, w.store.nextId)
  {
    var p := Pass(s, w.store.schedules[s], w.now, false);
    assert RowCovered(w.store.schedules[s], Claimed(w.store.jobs, s), w.now);
    assert PassFits(p, w.store.schedules[s], Claimed(w.store.jobs, s), w.now);
    hide RowCovered, PassFits, JobAccounting.Inv, OneJobEach, JobsFit;
  }

  /** The claims of a pass, from wherever it started, keep coverage. */
  lemma ClaimsKeepRow(p: Pass, row: Schedule, claimed: set<int>, now: int)
    requires RowCovered(row, claimed, now) && PassFits(p, row, claimed, now)
    ensures RowCovered(row, claimed + Members(BatchOf(p)), now)
    ensures PassFits(p.(claimed := true), row, claimed + Members(BatchOf(p)), now)
  {
    var base := Base(p.copy);
    assert BatchOf(p) == Batch(row.calendar, base, p.now) == BatchOf(p.(claimed := true));
    BatchKeepsCoverage(row.calendar, row.createdAt, base, p.now, claimed, claimed + Members(BatchOf(p)));
    BatchIsGenuine(row.calendar, row.createdAt, base, p.now, now, claimed);
  }

  lemma MoreClaimsFit(p: Pass, row: Schedule, claimed: set<int>, more: set<int>, now: int)
    requires PassFits(p, row, claimed, now) && claimed <= more
    ensures PassFits(p, row, more, now)
  {
  }

  lemma MoreClaimsKeepRows(schedules: map<Id, Schedule>, before: map<Id, Job>, after: map<Id, Job>, s: Id, now: int,
                           nextId: Id, nextId': Id)
    requires RowsCovered(schedules, before, now, nextId) && nextId <= nextId'
    requires s in schedules ==> RowCovered(schedules[s], Claimed(after, s), now)
    requires forall u :: u != s ==> Claimed(after, u) == Claimed(before, u)
    ensures RowsCovered(schedules, after, now, nextId')
  {
  }

  lemma MoreClaimsKeepPasses(pass: Id, passes: map<Id, Pass>, passes': map<Id, Pass>, schedules: map<Id, Schedule>,
                             before: map<Id, Job>, after: map<Id, Job>, now: int)
    requires PassesFit(passes, schedules, before, now)
    requires forall u :: Claimed(before, u) <= Claimed(after, u)
    requires forall i :: i in passes' && i != pass ==> i in passes && passes'[i] == passes[i]
    requires pass in passes' ==>
               var p := passes'[pass];
                 p.schedule in schedules && PassFits(p, schedules[p.schedule], Claimed(after, p.schedule), now)
    ensures PassesFit(passes', schedules, after, now)
  {
    hide Claimed;
    forall i | i in passes' && i != pass
      ensures var p := passes'[i];
        p.schedule in schedules && PassFits(p, schedules[p.schedule], Claimed(after, p.schedule), now)
    {
      var p := passes[i];
      MoreClaimsFit(p, schedules[p.schedule], Claimed(before, p.schedule), Claimed(after, p.schedule), now);
    }
  }

  lemma ClaimKeepsView(w: World, pass: Id)
    requires Inv(w) && pass in w.passes
    ensures var w' := DoClaimPass(w, pass);
      ViewInv(w'.store.jobs, w'.store.schedules, w'.passes, w'.now, w'.store.nextId)
  {
    var w', p := DoClaimPass(w, pass), w.passes[pass];
    var s, jobs := p.schedule, w.store.jobs;
    JobAccounting.NextIdIsUnused(w);
    assert s in w.store.schedules && s < w.store.nextId;
    ClaimsAdd(w.store, s, p.copy.request, BatchOf(p));
    ClaimOccurrencesOnlyAdds(w.store, s, p.copy.request, BatchOf(p));
    ClaimsKeepRow(p, w.store.schedules[s], Claimed(jobs, s), w.now);
    hide JobAccounting.Inv, OneJobEach, JobsFit, RowCovered, PassFits, BatchOf, ClaimOccurrences, Claimed, PassesFit,
      RowsCovered;
    MoreClaimsKeepRows(w.store.schedules, jobs, w'.store.jobs, s, w.now, w.store.nextId, w'.store.nextId);
    MoreClaimsKeepPasses(pass, w.passes, w'.passes, w.store.schedules, jobs, w'.store.jobs, w.now);
  }

  /** The cursor moves to the end of a batch that has been claimed. */
  lemma AdvanceKeepsView(w: World, pass: Id)
    requires Inv(w) && pass in w.passes && w.passes[pass].claimed
    ensures var w' := DoAdvanceCursor(w, pass);
      ViewInv(w'.store.jobs, w'.store.schedules, w'.passes, w'.now, w'.store.nextId)
  {
    var w', p := DoAdvanceCursor(w, pass), w.passes[pass];
    var s, batch := p.schedule, BatchOf(p);
    assert PassFits(p, w.store.schedules[s], Claimed(w.store.jobs, s), w.now);
    SchedulesStay(w.store.schedules, w.store.jobs);
    if batch != [] {
      assert batch[|batch| - 1] in Members(batch);
      CursorFollows(w.store.schedules, s, Some(batch[|batch| - 1]), None, w.store.jobs);
    }
    hide JobAccounting.Inv, OneJobEach, RowsCovered, PassesFit, SchedulesFollow, SetCursor, BatchOf;
    ViewFollows(w.store.jobs, w.store.schedules, w.passes, w.now, w.store.nextId,
                w'.store.jobs, w'.store.schedules, w'.passes, w'.now, w'.store.nextId);
  }

  // ----- Every step -----

  lemma OtherStepFollows(w: World, step: OtherStep)
    requires CanOther(w, step) && !step.AddSchedule?
    ensures var w' := DoOther(w, step);
      && SchedulesFollow(w.store.schedules, w'.store.schedules, w.store.jobs)
      && SameOccurrences(w.store.jobs, w'.store.jobs)
      && w'.passes == w.passes && w.now <= w'.now && w.store.nextId <= w'.store.nextId
  {
    hide EligibleReports, Claimed;
    if DeletesReports(step) {
      JobAccounting.DeletionSettles(w.store, DeletedReports(w, step));
    }
  }

  lemma OtherStepKeepsView(w: World, step: OtherStep)
    requires Inv(w) && CanOther(w, step)
    ensures var w' := DoOther(w, step); ViewInv(w'.store.jobs, w'.store.schedules, w'.passes, w'.now, w'.store.nextId)
  {
    hide JobAccounting.Inv, OneJobEach, JobsFit, RowsCovered, PassesFit, EligibleReports, SameClaims, SameOccurrences;
    var w' := DoOther(w, step);
    if step.AddSchedule? {
      NewScheduleKeepsView(w, step.row);
    } else {
      OtherStepFollows(w, step);
      hide DoOther, CanOther, SchedulesFollow;
      SameOccurrencesSameClaims(w.store.jobs, w'.store.jobs, w.store.nextId);
      SameOccurrencesSameClaims(w.store.jobs, w'.store.jobs, w'.store.nextId);
      ViewFollows(w.store.jobs, w.store.schedules, w.passes, w.now, w.store.nextId,
                  w'.store.jobs, w'.store.schedules, w'.passes, w'.now, w'.store.nextId);
    }
  }

  lemma NewScheduleKeepsView(w: World, row: Schedule)
    requires Inv(w) && row.lastAttemptedAt.None?
    ensures var s := w.store.nextId; ViewInv(w.store.jobs, w.store.schedules[s := row], w.passes, w.now, s + 1)
  {
    var s := w.store.nextId;
    assert Claimed(w.store.jobs, s) == {};
    hide JobAccounting.Inv, Claimed;
  }

  lemma StepKeepsInv(w: World, step: Step)
    requires Inv(w) && Can(w, step)
    ensures Inv(Do(w, step))
  {
    JobAccounting.StepKeepsInv(w, step);
    hide JobAccounting.Inv, ViewInv, CanJob, DoJob, CanOther, DoOther, DoSend, CanSend;
    match step
    case Jobs(js) => JobStepKeepsView(w, js);
    case Sends(ss) => SendStepsOnlySend(w, ss);
    case Others(os) => OtherStepKeepsView(w, os);
    case Passes(ps) => PassStepKeepsView(w, ps);
  }

  lemma PassStepKeepsView(w: World, step: PassStep)
    requires Inv(w) && CanPass(w, step)
    ensures var w' := DoPass(w, step); ViewInv(w'.store.jobs, w'.store.schedules, w'.passes, w'.now, w'.store.nextId)
  {
    match step
    case BeginPass(pass, schedule) => BeginKeepsView(w, pass, schedule);
    case ClaimPass(pass) => ClaimKeepsView(w, pass);
    case AdvanceCursor(pass) => AdvanceKeepsView(w, pass);
    case PassDies(pass) => hide RowCovered, PassFits, JobAccounting.Inv, OneJobEach, JobsFit;
  }

  lemma InitHolds(w: World)
    requires Init(w)
    ensures Inv(w)
  {
  }

  lemma {:induction false} RunKeepsInv(ws: seq<World>, steps: seq<Step>, i: nat)
    requires IsRun(ws, steps) && Init(ws[0]) && i < |ws|
    ensures Inv(ws[i])
  {
    hide Inv, Can, Do, Init;
    if i == 0 {
      InitHolds(ws[0]);
    } else {
      RunKeepsInv(ws, steps, i - 1);
      StepKeepsInv(ws[i - 1], steps[i - 1]);
    }
  }

  /**
   * Coverage, in every run: an occurrence has at most one job, no job is early, and an occurrence between the
   * creation of the schedule and any claimed one has its job unless at least five later ones have theirs.
   */
  lemma OccurrencesAreCovered(ws: seq<World>, steps: seq<Step>, n: nat, s: Id, i: int, t: int)
    requires IsRun(ws, steps) && Init(ws[0]) && n < |ws| && s in ws[n].store.schedules
    requires OccurrenceTaken(ws[n].store.jobs, s, t)
    ensures var w, row := ws[n], ws[n].store.schedules[s];
      && row.createdAt < t <= w.now
      && (row.createdAt < row.calendar(i) <= t ==>
            || OccurrenceTaken(w.store.jobs, s, row.calendar(i))
            || MAX_BACKFILL_OCCURRENCES <= |Later(Claimed(w.store.jobs, s), row.calendar(i))|)
      && OneJobEach(w.store.jobs)
  {
    var w, row := ws[n], ws[n].store.schedules[s];
    RunKeepsInv(ws, steps, n);
    assert RowCovered(row, Claimed(w.store.jobs, s), w.now);
    ClaimedHas(w.store.jobs, s, t);
    ClaimedHas(w.store.jobs, s, row.calendar(i));
  }
}
