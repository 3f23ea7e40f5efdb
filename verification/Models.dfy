/** The rows of app/db/models.py that the durable protocol reads and writes. Times are microseconds. */
module Models {
  import opened Wrappers
  import opened ScheduleTime

  type Id = nat

  const SECOND := 1_000_000

  const MAX_JOB_ATTEMPTS := 3
  const STALE_RUNNING_AFTER := 600 * SECOND
  const MAX_BACKFILL_OCCURRENCES: nat := 5
  const MAX_DELIVERY_ATTEMPTS := 5
  const DELIVERY_LEASE := 600 * SECOND
  const RETRY_DELAY := 30 * SECOND

  /** What to report on. A schedule hands its own to every job it creates. */
  datatype Request = Request(
    connector: string,
    boardId: Option<string>,
    sprintId: Option<string>,
    outputFormat: string,
    assignedMeansInProgress: bool,
    periodStart: Option<int>,
    periodEnd: Option<int>)

  datatype JobStatus = Queued | Running | Succeeded | Failed

  datatype Job = Job(
    status: JobStatus,
    request: Request,
    idempotencyKey: Option<string>,
    scheduleId: Option<Id>,
    scheduledFor: Option<int>,
    attempts: nat,
    startedAt: Option<int>,
    finishedAt: Option<int>,
    errorReason: Option<string>,
    reportId: Option<Id>)
  {
    predicate Terminal() {
      status == Succeeded || status == JobStatus.Failed
    }
  }

  /** `calendar` stands for the cron expression and the zone. */
  datatype Schedule = Schedule(
    request: Request,
    calendar: Calendar,
    active: bool,
    createdAt: int,
    lastRunAt: Option<int>,
    lastAttemptedAt: Option<int>)

  datatype Report = Report(createdAt: int)

  datatype Destination = Destination(active: bool)

  datatype DeliveryStatus = Pending | Sending | Delivered | Failed

  datatype Delivery = Delivery(
    destinationId: Id,
    reportId: Id,
    status: DeliveryStatus,
    attempts: nat,
    nextAttemptAt: Option<int>,
    deliveredAt: Option<int>,
    lastError: Option<string>)

  /** The committed rows. No identifier at or above `nextId` was ever used, as UUIDs never repeat. */
  datatype Store = Store(
    jobs: map<Id, Job>,
    schedules: map<Id, Schedule>,
    reports: map<Id, Report>,
    destinations: map<Id, Destination>,
    deliveries: map<Id, Delivery>,
    nextId: Id)
}
