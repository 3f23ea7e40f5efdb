/**
What each database transaction of the services makes of the committed rows.
The methods of the `Database` class are proved to compute these functions, and
the steps of the protocol are built from them.
*/
module Transactions {
  import opened Wrappers
  import opened ScheduleTime
  import opened Models

  // ----- Creating jobs -----

  function NewJob(request: Request, key: Option<string>, schedule: Option<Id>, scheduledFor: Option<int>): Job {
    Job(Queued, request, key, schedule, scheduledFor, 0, None, None, None, None)
  }

  function InsertJob(store: Store, job: Job): Store {
    store.(jobs := store.jobs[store.nextId := job], nextId := store.nextId + 1)
  }

  /** The unique constraint on the idempotency key; NULL never conflicts. */
  predicate KeyTaken(jobs: map<Id, Job>, key: Option<string>) {
    key.Some? && exists id :: id in jobs && jobs[id].idempotencyKey == key
  }

  /** The unique constraint on (schedule, occurrence). */
  predicate OccurrenceTaken(jobs: map<Id, Job>, schedule: Id, t: int) {
    exists id :: id in jobs && jobs[id].scheduleId == Some(schedule) && jobs[id].scheduledFor == Some(t)
  }

  /** Insert one job for every occurrence that has none yet. */
  function ClaimOccurrences(store: Store, schedule: Id, request: Request, ts: seq<int>): Store {
    if ts == [] then store
    else
      var last := |ts| - 1;
      var before := ClaimOccurrences(store, schedule, request, ts[..last]);
      if OccurrenceTaken(before.jobs, schedule, ts[last]) then before
      else InsertJob(before, NewJob(request, None, Some(schedule), Some(ts[last])))
  }

  predicate IsNew(job: Job) {
    job.status == Queued && job.attempts == 0 && job.reportId == None && job.startedAt == None
  }

  /** Only new jobs are added. */
  ghost predicate Grows(before: Store, after: Store) {
    && before.nextId <= after.nextId
    && after == before.(jobs := after.jobs, nextId := after.nextId)
    && (forall j :: j in before.jobs ==> j in after.jobs && after.jobs[j] == before.jobs[j])
    && (forall j :: j in after.jobs && j !in before.jobs ==> before.nextId <= j < after.nextId && IsNew(after.jobs[j]))
  }

  lemma {:induction false} ClaimOccurrencesGrows(store: Store, schedule: Id, request: Request, ts: seq<int>)
    requires forall j :: j in store.jobs ==> j < store.nextId
    ensures Grows(store, ClaimOccurrences(store, schedule, request, ts))
    decreases |ts|
  {
    if ts != [] {
      ClaimOccurrencesGrows(store, schedule, request, ts[..|ts| - 1]);
    }
  }

  lemma {:induction false} ClaimOccurrencesOnlyAdds(store: Store, schedule: Id, request: Request, ts: seq<int>)
    ensures var after := ClaimOccurrences(store, schedule, request, ts);
            store.nextId <= after.nextId && after == store.(jobs := after.jobs, nextId := after.nextId)
    decreases |ts|
  {
    if ts != [] {
      ClaimOccurrencesOnlyAdds(store, schedule, request, ts[..|ts| - 1]);
    }
  }

  /** Where a dispatch pass starts looking. */
  function Base(schedule: Schedule): int {
    match schedule.lastAttemptedAt
    case Some(t) => t
    case None => schedule.createdAt
  }

  function DueBatch(schedule: Schedule, now: int): seq<int> {
    Due(schedule.calendar, Base(schedule), now, MAX_BACKFILL_OCCURRENCES)
  }

  function SetCursor(schedules: map<Id, Schedule>, id: Id, t: Option<int>): map<Id, Schedule> {
    if id in schedules then schedules[id := schedules[id].(lastAttemptedAt := t)] else schedules
  }

  // ----- Running jobs -----

  predicate JobClaimable(jobs: map<Id, Job>, id: Id) {
    id in jobs && jobs[id].status == Queued
  }

  function ClaimedJob(job: Job, now: int): Job {
    job.(status := Running, startedAt := Some(now), finishedAt := None, attempts := job.attempts + 1)
  }

  function StatusAfterFailure(attempts: nat): JobStatus {
    if attempts < MAX_JOB_ATTEMPTS then Queued else JobStatus.Failed
  }

  /** A failed or recovered attempt. The status is computed from the writer's own copy of `attempts`. */
  function EndedJob(row: Job, attempts: nat, now: int, reason: string): Job {
    row.(status := StatusAfterFailure(attempts), finishedAt := Some(now), errorReason := Some(reason))
  }

  function EndAttempt(jobs: map<Id, Job>, id: Id, attempts: nat, now: int, reason: string): map<Id, Job> {
    if id in jobs then jobs[id := EndedJob(jobs[id], attempts, now, reason)] else jobs
  }

  const RECOVERED := "Worker did not report completion in time; recovered"

  predicate Stuck(job: Job, now: int) {
    job.status == Running && job.startedAt.Some? && job.startedAt.value < now - STALE_RUNNING_AFTER
  }

  function StuckJobs(jobs: map<Id, Job>, now: int): map<Id, Job> {
    map id | id in jobs && Stuck(jobs[id], now) :: jobs[id]
  }

  /** The recovery sweep writes every job it selected, from the copies it selected. */
  function Recover(jobs: map<Id, Job>, copies: map<Id, Job>, now: int): map<Id, Job> {
    map id | id in jobs ::
      if id in copies then EndAttempt(jobs, id, copies[id].attempts, now, RECOVERED)[id] else jobs[id]
  }

  // ----- Completing a job -----

  function NewDelivery(destination: Id, report: Id): Delivery {
    Delivery(destination, report, Pending, 0, None, None, None)
  }

  /** `ds` lists every active destination once. */
  ghost predicate ListsActive(destinations: map<Id, Destination>, ds: seq<Id>) {
    && (forall d :: d in ds <==> d in destinations && destinations[d].active)
    && (forall i, j :: 0 <= i < j < |ds| ==> ds[i] != ds[j])
  }

  /** One pending delivery for each listed destination. */
  function Enqueue(deliveries: map<Id, Delivery>, first: Id, report: Id, ds: seq<Id>): map<Id, Delivery> {
    if ds == [] then deliveries
    else
      var last := |ds| - 1;
      Enqueue(deliveries, first, report, ds[..last])[first + last := NewDelivery(ds[last], report)]
  }

  /** Enqueueing adds the listed deliveries under consecutive fresh identifiers and nothing else. */
  lemma {:induction false} EnqueueAdds(deliveries: map<Id, Delivery>, first: Id, report: Id, ds: seq<Id>)
    requires forall d :: d in deliveries ==> d < first
    ensures var after := Enqueue(deliveries, first, report, ds);
      && (forall d :: d in after <==> d in deliveries || first <= d < first + |ds|)
      && (forall d :: d in deliveries ==> after[d] == deliveries[d])
      && (forall k :: first <= k < first + |ds| ==> after[k] == NewDelivery(ds[k - first], report))
    decreases |ds|
  {
    if ds != [] {
      EnqueueAdds(deliveries, first, report, ds[..|ds| - 1]);
    }
  }

  function SucceededJob(job: Job, report: Id, now: int): Job {
    job.(status := Succeeded, reportId := Some(report), finishedAt := Some(now))
  }

  function SucceededSchedule(schedules: map<Id, Schedule>, job: Job, now: int): map<Id, Schedule> {
    if job.scheduleId.Some? && job.scheduleId.value in schedules then
      var id := job.scheduleId.value;
      schedules[id := schedules[id].(lastRunAt := Some(now), lastAttemptedAt := job.scheduledFor)]
    else schedules
  }

  /** Report, job, schedule and outbox rows in one commit. `copy` is the worker's copy of the job. */
  function CompleteJob(store: Store, id: Id, copy: Job, ds: seq<Id>, now: int): Store
    requires id in store.jobs
  {
    var report := store.nextId;
    Store(
      store.jobs[id := SucceededJob(store.jobs[id], report, now)],
      SucceededSchedule(store.schedules, copy, now),
      store.reports[report := Report(now)],
      store.destinations,
      Enqueue(store.deliveries, report + 1, report, ds),
      report + 1 + |ds|)
  }

  // ----- Deliveries -----

  predicate DeliveryDue(delivery: Delivery, now: int) {
    || (delivery.status == Pending && (delivery.nextAttemptAt.None? || delivery.nextAttemptAt.value <= now))
    || (delivery.status == Sending && delivery.nextAttemptAt.Some? && delivery.nextAttemptAt.value <= now)
  }

  function ClaimedDelivery(delivery: Delivery, now: int): Delivery {
    delivery.(status := Sending, attempts := delivery.attempts + 1, nextAttemptAt := Some(now + DELIVERY_LEASE))
  }

  /** How an attempt to send went: the destination was gone, it answered 2xx, or anything else happened. */
  datatype SendOutcome = NoDestination | Accepted | Rejected

  /** `attempts` is the sender's own copy. */
  function SentDelivery(delivery: Delivery, attempts: nat, outcome: SendOutcome, now: int): Delivery {
    match outcome
    case NoDestination =>
      delivery.(status := DeliveryStatus.Failed, nextAttemptAt := None,
                lastError := Some("Destination was deleted or deactivated"))
    case Accepted =>
      delivery.(status := Delivered, deliveredAt := Some(now), lastError := None, nextAttemptAt := None)
    case Rejected =>
      if attempts < MAX_DELIVERY_ATTEMPTS then
        delivery.(status := Pending, nextAttemptAt := Some(now + RETRY_DELAY),
                  lastError := Some("Delivery request failed"))
      else
        delivery.(status := DeliveryStatus.Failed, nextAttemptAt := None, lastError := Some("Delivery request failed"))
  }

  function RetriedDelivery(delivery: Delivery): Delivery {
    delivery.(status := Pending, lastError := None, nextAttemptAt := None)
  }

  // ----- Deleting -----

  predicate HasPendingDelivery(deliveries: map<Id, Delivery>, report: Id) {
    exists d :: d in deliveries && deliveries[d].reportId == report && deliveries[d].status == Pending
  }

  function EligibleReports(store: Store, cutoff: int): set<Id> {
    set r | r in store.reports && store.reports[r].createdAt < cutoff && !HasPendingDelivery(store.deliveries, r)
  }

  /** Deleting reports cascades to their deliveries and clears the jobs' references. */
  function DeleteReports(store: Store, ids: set<Id>): Store {
    store.(
      reports := store.reports - ids,
      deliveries := map d | d in store.deliveries && store.deliveries[d].reportId !in ids :: store.deliveries[d],
      jobs := map j | j in store.jobs :: ForgetReports(store.jobs[j], ids))
  }

  function ForgetReports(job: Job, ids: set<Id>): Job {
    if job.reportId.Some? && job.reportId.value in ids then job.(reportId := None) else job
  }

  function DeleteDestination(store: Store, id: Id): Store {
    store.(
      destinations := store.destinations - {id},
      deliveries := map d | d in store.deliveries && store.deliveries[d].destinationId != id :: store.deliveries[d])
  }
}
