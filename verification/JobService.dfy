/**
app/core/job_service.py against the transactions it must compute. What other
sessions have committed between two transactions of one call is a parameter.
*/
module JobService {
  import opened Wrappers
  import opened Models
  import opened Transactions
  import opened Storage
  import WebhookService

  /** Neither missing nor empty. */
  predicate IsGiven(key: Option<string>) {
    key.Some? && key.value != ""
  }

  /** Rows are not deleted, and their key never changes. */
  ghost predicate KeysStay(before: map<Id, Job>, after: map<Id, Job>) {
    forall id :: id in before ==> id in after && after[id].idempotencyKey == before[id].idempotencyKey
  }

  /**
   * Look up, insert among what `others` have committed, and on a lost race look up again among what has been
   * committed by then. An empty key is not looked up first, but is unique too.
   */
  method CreateReportJob(db: Database, request: Request, key: Option<string>, others: Store, again: Store)
    returns (job: Id, created: bool)
    requires KeysStay(db.jobs, others.jobs) && KeysStay(others.jobs, again.jobs)
    modifies db
    ensures job in db.jobs && db.jobs[job].idempotencyKey == key
    ensures created ==>
      db.jobs[job] == Job(status := Queued, request := request, idempotencyKey := key, scheduleId := None,
                          scheduledFor := None, attempts := 0, startedAt := None, finishedAt := None,
                          errorReason := None, reportId := None)
    ensures created <==>
      && !(key.Some? && key.value != "" && exists j :: j in old(db.jobs) && old(db.jobs)[j].idempotencyKey == key)
      && !(key.Some? && exists j :: j in others.jobs && others.jobs[j].idempotencyKey == key)
    ensures var before := old(db.Rows());
      if key.Some? && key.value != "" && KeyTaken(before.jobs, key) then !created && db.Rows() == before
      else if KeyTaken(others.jobs, key) then !created && db.Rows() == again
      else created && job == others.nextId && db.Rows() == InsertJob(others, NewJob(request, key, None, None))
  {
    if IsGiven(key) {
      var found := db.FindByKey(key);
      if found.Some? {
        return found.value, false;
      }
    }
    db.Meanwhile(others);
    var inserted := db.InsertManualJob(NewJob(request, key, None, None));
    if inserted.None? {
      db.Meanwhile(again);
      var found := db.FindByKey(key);
      return found.value, false;
    }
    return inserted.value, true;
  }

  /** A job that has just been created for occurrence `t` of the schedule: it asks for what the schedule asks. */
  predicate IsNewJobFor(job: Job, schedule: Id, request: Request, t: int) {
    job == Job(status := Queued, request := request, idempotencyKey := None, scheduleId := Some(schedule),
               scheduledFor := Some(t), attempts := 0, startedAt := None, finishedAt := None, errorReason := None,
               reportId := None)
  }

  predicate IsJobFor(job: Job, schedule: Id, t: int) {
    job.scheduleId == Some(schedule) && job.scheduledFor == Some(t)
  }

  /** The new job is of one of the occurrences, and of one that no other job is for. */
  ghost predicate IsClaimed(before: map<Id, Job>, after: map<Id, Job>, j: Id, schedule: Id, request: Request,
                            occurrences: seq<int>)
    requires j in after
  {
    && after[j].scheduledFor.Some? && after[j].scheduledFor.value in occurrences
    && IsNewJobFor(after[j], schedule, request, after[j].scheduledFor.value)
    && (forall k :: k in after && k != j ==> !IsJobFor(after[k], schedule, after[j].scheduledFor.value))
  }

  /** New jobs are only added, each for one of the occurrences, and afterwards every occurrence has a job. */
  ghost predicate IsClaim(before: Store, after: Store, schedule: Id, request: Request, occurrences: seq<int>) {
    && after == before.(jobs := after.jobs, nextId := after.nextId)
    && (forall j :: j in before.jobs ==> j in after.jobs && after.jobs[j] == before.jobs[j])
    && (forall j :: j in after.jobs && j !in before.jobs ==>
          IsClaimed(before.jobs, after.jobs, j, schedule, request, occurrences))
    && (forall t :: t in occurrences ==> exists j :: j in after.jobs && IsJobFor(after.jobs[j], schedule, t))
  }

  lemma {:induction false} ClaimOccurrencesClaims(store: Store, schedule: Id, request: Request, ts: seq<int>)
    requires forall j :: j in store.jobs ==> j < store.nextId
    ensures IsClaim(store, ClaimOccurrences(store, schedule, request, ts), schedule, request, ts)
    decreases |ts|
  {
    if ts != [] {
      var front, t := ts[..|ts| - 1], ts[|ts| - 1];
      assert ts == front + [t];
      ClaimOccurrencesClaims(store, schedule, request, front);
      ClaimOccurrencesGrows(store, schedule, request, front);
      OneMoreClaims(store, ClaimOccurrences(store, schedule, request, front), schedule, request, front, t);
    }
  }

  lemma OneMoreClaims(store: Store, before: Store, schedule: Id, request: Request, front: seq<int>, t: int)
    requires IsClaim(store, before, schedule, request, front) && before.nextId !in before.jobs
    requires store.nextId <= before.nextId && forall j :: j in store.jobs ==> j < store.nextId
    ensures var after := if OccurrenceTaken(before.jobs, schedule, t) then before
                         else InsertJob(before, NewJob(request, None, Some(schedule), Some(t)));
            IsClaim(store, after, schedule, request, front + [t])
  {
    var after := if OccurrenceTaken(before.jobs, schedule, t) then before
                 else InsertJob(before, NewJob(request, None, Some(schedule), Some(t)));
    forall j | j in after.jobs && j !in store.jobs
      ensures IsClaimed(store.jobs, after.jobs, j, schedule, request, front + [t])
    {
      assert j in before.jobs ==> IsClaimed(store.jobs, before.jobs, j, schedule, request, front);
    }
    forall u | u in front + [t]
      ensures exists j :: j in after.jobs && IsJobFor(after.jobs[j], schedule, u)
    {
      if u in front {
        var j :| j in before.jobs && IsJobFor(before.jobs[j], schedule, u);
        assert IsJobFor(after.jobs[j], schedule, u);
      } else if OccurrenceTaken(before.jobs, schedule, t) {
        var j :| j in before.jobs && before.jobs[j].scheduleId == Some(schedule)
          && before.jobs[j].scheduledFor == Some(t);
        assert IsJobFor(after.jobs[j], schedule, t);
      } else {
        assert IsJobFor(after.jobs[before.nextId], schedule, t);
      }
    }
  }

  /** One INSERT each, a lost race undoing only its own; then one commit. */
  method ClaimScheduleOccurrences(db: Database, schedule: Id, request: Request, occurrences: seq<int>)
    returns (claimed: seq<Id>)
    requires forall j :: j in db.jobs ==> j < db.nextId
    modifies db`jobs, db`nextId
    ensures db.Rows() == ClaimOccurrences(old(db.Rows()), schedule, request, occurrences)
    ensures IsClaim(old(db.Rows()), db.Rows(), schedule, request, occurrences)
    ensures forall j :: j in claimed ==>
      && j in db.jobs && db.jobs[j].request == request && db.jobs[j].scheduleId == Some(schedule)
      && db.jobs[j].scheduledFor.Some? && db.jobs[j].scheduledFor.value in occurrences
    ensures forall j :: j in claimed <==> j in db.jobs && j !in old(db.jobs)
    ensures forall i, j :: 0 <= i < j < |claimed| ==> claimed[i] != claimed[j]
    ensures forall j :: j in db.jobs ==> j < db.nextId
  {
    hide IsClaim, IsClaimed;
    claimed := [];
    ghost var before := db.Rows();
    for i := 0 to |occurrences|
      invariant db.Rows() == ClaimOccurrences(before, schedule, request, occurrences[..i])
      invariant Grows(before, db.Rows())
      invariant forall j :: j in claimed <==> j in db.jobs && j !in before.jobs
      invariant forall i, j :: 0 <= i < j < |claimed| ==> claimed[i] != claimed[j]
      invariant forall j :: j in db.jobs ==> j < db.nextId
    {
      assert occurrences[..i + 1][..i] == occurrences[..i];
      ClaimOccurrencesGrows(before, schedule, request, occurrences[..i + 1]);
      assert forall k :: 0 <= k < |claimed| ==> claimed[k] in claimed && claimed[k] < db.nextId;
      var inserted := db.InsertScheduledJob(NewJob(request, None, Some(schedule), Some(occurrences[i])));
      if inserted.Some? {
        claimed := claimed + [inserted.value];
      }
    }
    assert occurrences[..|occurrences|] == occurrences;
    ClaimOccurrencesClaims(before, schedule, request, occurrences);
    ClaimedAsk(before, db.Rows(), schedule, request, occurrences);
  }

  lemma ClaimedAsk(before: Store, after: Store, schedule: Id, request: Request, occurrences: seq<int>)
    requires IsClaim(before, after, schedule, request, occurrences)
    ensures forall j :: j in after.jobs && j !in before.jobs ==>
      && after.jobs[j].request == request && after.jobs[j].scheduleId == Some(schedule)
      && after.jobs[j].scheduledFor.Some? && after.jobs[j].scheduledFor.value in occurrences
  {
    forall j | j in after.jobs && j !in before.jobs
      ensures after.jobs[j].request == request && after.jobs[j].scheduleId == Some(schedule)
      ensures after.jobs[j].scheduledFor.Some? && after.jobs[j].scheduledFor.value in occurrences
    {
      assert IsClaimed(before.jobs, after.jobs, j, schedule, request, occurrences);
    }
  }

  /** How generating the report ends. When the outbox insert fails the transaction is rolled back. */
  datatype Generation = Generated | GenerationFailed(reason: string) | OutboxFailed

  /** How an attempt returns, with the status read back at its end; nothing is returned when the outbox fails. */
  datatype Attempt = NotOwned(status: JobStatus) | Lost | Ended(status: JobStatus)

  /** What other sessions have committed, between one transaction of an attempt and the next. */
  datatype Between = Between(
    /** When the report is generated or has failed. */
    generated: Store,
    /** When the row is read back. */
    refreshed: Store,
    /** When the cursor of the schedule is written. */
    cursor: Store)

  /** Only the cursor of schedule `s` changes, and only if the schedule is there. */
  ghost predicate IsCursorSet(before: Store, after: Store, s: Id, t: Option<int>) {
    && after == before.(schedules := after.schedules) && after.schedules.Keys == before.schedules.Keys
    && (forall u :: u in before.schedules ==>
          after.schedules[u] ==
            if u == s then before.schedules[u].(lastAttemptedAt := t) else before.schedules[u])
  }

  lemma SettingSets(store: Store, s: Id, t: Option<int>)
    ensures IsCursorSet(store, store.(schedules := SetCursor(store.schedules, s, t)), s, t)
  {
  }

  /**
   * A success, in one commit: the report is created now, the job has succeeded with it now, the schedule has run now
   * and stands at the job's occurrence, and every listed destination gets a delivery.
   */
  ghost predicate IsCommit(before: Store, after: Store, id: Id, copy: Job, ds: seq<Id>, now: int)
    requires id in before.jobs
  {
    var report := before.nextId;
    && after.jobs == before.jobs[id := before.jobs[id].(
         status := Succeeded, reportId := Some(report), finishedAt := Some(now))]
    && after.reports == before.reports[report := Report(createdAt := now)]
    && after.destinations == before.destinations && after.nextId == report + 1 + |ds|
    && after.schedules.Keys == before.schedules.Keys
    && (forall s :: s in before.schedules ==>
          after.schedules[s] ==
            if copy.scheduleId == Some(s)
            then before.schedules[s].(lastRunAt := Some(now), lastAttemptedAt := copy.scheduledFor)
            else before.schedules[s])
    && WebhookService.IsEnqueued(before.deliveries, after.deliveries, report + 1, report, ds)
  }

  /** From `before`, by way of the commit `written`, to `after`; only the winner of the claim writes. */
  ghost predicate IsAttempt(before: Store, written: Store, after: Store, id: Id, now: int, generation: Generation,
                            others: Between, later: int, attempt: Attempt, ds: seq<Id>)
    requires id in others.generated.jobs && id in others.refreshed.jobs
  {
    var status := others.refreshed.jobs[id].status;
    if id !in before.jobs || before.jobs[id].status != Queued then
      attempt == NotOwned(status) && written == before && after == others.refreshed
    else
      var row := before.jobs[id];
      var copy := row.(status := Running, attempts := row.attempts + 1, startedAt := Some(now), finishedAt := None);
      match generation
      case GenerationFailed(reason) =>
        && attempt == Ended(status)
        && written == others.generated.(jobs := others.generated.jobs[id := others.generated.jobs[id].(
             status := if copy.attempts < 3 then Queued else JobStatus.Failed, finishedAt := Some(later),
             errorReason := Some(reason))])
        && (if copy.scheduleId.Some? && status == JobStatus.Failed
            then IsCursorSet(others.cursor, after, copy.scheduleId.value, copy.scheduledFor)
            else after == others.refreshed)
      case OutboxFailed => attempt == Lost && written == after == others.generated
      case Generated =>
        && attempt == Ended(status)
        && (forall d :: d in ds <==> d in others.generated.destinations && others.generated.destinations[d].active)
        && (forall i, j :: 0 <= i < j < |ds| ==> ds[i] != ds[j])
        && IsCommit(others.generated, written, id, copy, ds, later) && after == others.refreshed
  }

  /** One attempt. `ds` witnesses the destinations active at the commit, `written` what the final write left. */
  method RunJob(db: Database, id: Id, now: int, generation: Generation, others: Between, later: int)
    returns (attempt: Attempt, ghost ds: seq<Id>, ghost written: Store)
    requires id in others.generated.jobs && id in others.refreshed.jobs
    modifies db
    ensures IsAttempt(old(db.Rows()), written, db.Rows(), id, now, generation, others, later, attempt, ds)
  {
    hide IsCommit, CompleteJob, IsCursorSet;
    ds, written := [], db.Rows();
    var claimed := db.ClaimJob(id, now);
    if claimed.None? {
      db.Meanwhile(others.refreshed);
      return NotOwned(db.jobs[id].status), ds, written;
    }
    var copy := claimed.value;
    db.Meanwhile(others.generated);
    match generation
    case GenerationFailed(reason) =>
      var status := if copy.attempts < MAX_JOB_ATTEMPTS then Queued else JobStatus.Failed;
      db.jobs := db.jobs[id := db.jobs[id].(finishedAt := Some(later), errorReason := Some(reason), status := status)];
      written := db.Rows();
      db.Meanwhile(others.refreshed);
      attempt := Ended(db.jobs[id].status);
      if copy.scheduleId.Some? && attempt.status == JobStatus.Failed {
        db.Meanwhile(others.cursor);
        SettingSets(others.cursor, copy.scheduleId.value, copy.scheduledFor);
        db.schedules := SetCursor(db.schedules, copy.scheduleId.value, copy.scheduledFor);
      }
    case OutboxFailed =>
      written := db.Rows();
      attempt := Lost;
    case Generated =>
      ds := CompleteTransaction(db, id, copy, later);
      written := db.Rows();
      db.Meanwhile(others.refreshed);
      attempt := Ended(db.jobs[id].status);
  }

  /** Report, job, schedule and outbox rows, collected and then committed together. */
  method CompleteTransaction(db: Database, id: Id, copy: Job, now: int) returns (destinations: seq<Id>)
    requires id in db.jobs
    modifies db
    ensures forall d :: d in destinations <==> d in old(db.destinations) && old(db.destinations)[d].active
    ensures forall i, j :: 0 <= i < j < |destinations| ==> destinations[i] != destinations[j]
    ensures db.Rows() == CompleteJob(old(db.Rows()), id, copy, destinations, now)
    ensures IsCommit(old(db.Rows()), db.Rows(), id, copy, destinations, now)
  {
    var report := db.nextId;
    var jobs := db.jobs[id := db.jobs[id].(status := Succeeded, reportId := Some(report), finishedAt := Some(now))];
    var schedules := db.schedules;
    if copy.scheduleId.Some? && copy.scheduleId.value in schedules {
      var s := copy.scheduleId.value;
      schedules := schedules[s := schedules[s].(lastRunAt := Some(now), lastAttemptedAt := copy.scheduledFor)];
    }
    destinations := db.ActiveDestinations();
    var deliveries := WebhookService.EnqueueDeliveriesForReport(db.deliveries, report + 1, report, destinations);
    db.jobs, db.schedules, db.deliveries := jobs, schedules, deliveries;
    db.reports, db.nextId := db.reports[report := Report(now)], report + 1 + |destinations|;
  }

  /** What the sweep has written after the first `n` jobs. */
  ghost function RecoveredFirst(jobs: map<Id, Job>, copies: map<Id, Job>, ids: seq<Id>, n: nat, now: int): map<Id, Job>
    requires n <= |ids|
  {
    map j | j in jobs ::
      if j in copies && IsAmong(ids, n, j) then EndAttempt(jobs, j, copies[j].attempts, now, RECOVERED)[j] else jobs[j]
  }

  predicate IsAmong(ids: seq<Id>, n: nat, j: Id)
    requires n <= |ids|
  {
    exists i :: 0 <= i < n && ids[i] == j
  }

  lemma NoneRecovered(jobs: map<Id, Job>, copies: map<Id, Job>, ids: seq<Id>, now: int)
    ensures RecoveredFirst(jobs, copies, ids, 0, now) == jobs
  {
  }

  lemma OneMoreRecovered(jobs: map<Id, Job>, copies: map<Id, Job>, ids: seq<Id>, n: nat, now: int)
    requires n < |ids| && ids[n] in copies && forall i, j :: 0 <= i < j < |ids| ==> ids[i] != ids[j]
    ensures var j, before, after := ids[n], RecoveredFirst(jobs, copies, ids, n, now),
      RecoveredFirst(jobs, copies, ids, n + 1, now);
      && after.Keys == before.Keys
      && if j in jobs then
           before[j] == jobs[j] && after == before[j := jobs[j].(
             errorReason := Some(RECOVERED), finishedAt := Some(now), status := StatusAfterFailure(copies[j].attempts))]
         else after == before
  {
    forall k
      ensures IsAmong(ids, n + 1, k) <==> IsAmong(ids, n, k) || k == ids[n]
    {
      if IsAmong(ids, n, k) {
        var i :| 0 <= i < n && ids[i] == k;
        assert 0 <= i < n + 1 && ids[i] == k;
      }
      assert 0 <= n < n + 1 && ids[n] == ids[n];
    }
    assert !IsAmong(ids, n, ids[n]);
    hide IsAmong;
  }

  lemma AllRecovered(jobs: map<Id, Job>, copies: map<Id, Job>, ids: seq<Id>, now: int)
    requires forall j :: j in ids <==> j in copies
    ensures RecoveredFirst(jobs, copies, ids, |ids|, now) == Recover(jobs, copies, now)
  {
    hide EndAttempt;
    forall j
      ensures IsAmong(ids, |ids|, j) <==> j in copies
    {
      if j in ids {
        var i :| 0 <= i < |ids| && ids[i] == j;
      }
    }
    hide IsAmong;
  }

  /** The loop over the selected jobs, within one transaction. */
  method WriteRecovered(jobs: map<Id, Job>, copies: map<Id, Job>, stuck: seq<Id>, now: int)
    returns (pending: map<Id, Job>)
    requires forall j :: j in stuck <==> j in copies
    requires forall i, j :: 0 <= i < j < |stuck| ==> stuck[i] != stuck[j]
    ensures pending == Recover(jobs, copies, now)
  {
    pending := jobs;
    NoneRecovered(jobs, copies, stuck, now);
    hide RecoveredFirst, Recover;
    for i := 0 to |stuck|
      invariant pending == RecoveredFirst(jobs, copies, stuck, i, now) && pending.Keys == jobs.Keys
    {
      var j := stuck[i];
      OneMoreRecovered(jobs, copies, stuck, i, now);
      if j in pending {
        var status := if copies[j].attempts < MAX_JOB_ATTEMPTS then Queued else JobStatus.Failed;
        pending := pending[j := pending[j].(errorReason := Some(RECOVERED), finishedAt := Some(now), status := status)];
      }
    }
    AllRecovered(jobs, copies, stuck, now);
  }

  /** The sweep selects at `now`, others commit, it writes what it selected at `later`, and reads it back. */
  method RecoverStuckJobs(db: Database, now: int, others: Store, later: int, refreshed: Store)
    returns (recovered: seq<Id>, ghost written: Store)
    modifies db
    ensures forall j :: j in recovered ==> j in old(db.jobs)
    ensures forall j :: j in old(db.jobs) ==>
      var row := old(db.jobs)[j];
      j in recovered <==> row.status == Running && row.startedAt.Some? && row.startedAt.value < now - 600_000_000
    ensures forall i, j :: 0 <= i < j < |recovered| ==> recovered[i] != recovered[j]
    ensures written == others.(jobs := Recover(others.jobs, StuckJobs(old(db.jobs), now), later))
    ensures written == others.(jobs := written.jobs) && written.jobs.Keys == others.jobs.Keys
    ensures forall j :: j in others.jobs ==>
      written.jobs[j] ==
        if j in recovered
        then others.jobs[j].(status := if old(db.jobs)[j].attempts < 3 then Queued else JobStatus.Failed,
                             finishedAt := Some(later),
                             errorReason := Some("Worker did not report completion in time; recovered"))
        else others.jobs[j]
    ensures db.Rows() == if recovered == [] then written else refreshed
  {
    recovered := db.SelectJobs(job => Stuck(job, now));
    var copies := StuckJobs(db.jobs, now);
    db.Meanwhile(others);
    db.jobs := WriteRecovered(db.jobs, copies, recovered, later);
    written := db.Rows();
    if recovered != [] {
      db.Meanwhile(refreshed);
    }
  }
}
