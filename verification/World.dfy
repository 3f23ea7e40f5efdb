/**
The durable protocol as a step relation: committed rows, workers that hold
copies of rows, sweeps, at-least-once messages and a clock. Every step is one
database transaction, one message event, one crash or the passing of time, so
a run interleaves them arbitrarily.
*/
module World {
  import opened Wrappers
  import opened Models
  import opened Transactions

  datatype Phase = Generating | CursorPending

  /** A worker that won the claim of a job, with its copy of the row. */
  datatype Worker = Worker(job: Id, copy: Job, phase: Phase)

  /** A recovery sweep between its SELECT and its commit. */
  datatype Sweep = Sweep(copies: map<Id, Job>)

  /** A dispatch pass over one schedule: what it read, and whether it has committed its claims. */
  datatype Pass = Pass(schedule: Id, copy: Schedule, now: int, claimed: bool)

  /** A worker that won the claim of a delivery, with its copy of the row. */
  datatype Sender = Sender(delivery: Id, copy: Delivery)

  /**
   * What happened to a job: the generation attempts begun, the attempts whose end requeued the job in good
   * order, and the recoveries that hit a live worker's job or a row changed since it was selected.
   */
  datatype JobLedger = JobLedger(begun: nat, requeued: set<nat>, misfires: nat)

  /**
   * What happened to a delivery: the claim times, the attempts whose end made it pending again, the claims of
   * an expired lease, those among them that found the last allowed attempt already made, and the manual retries.
   */
  datatype DeliveryLedger = DeliveryLedger(sent: seq<int>, resent: set<nat>, reclaims: nat, overruns: nat, retries: nat)

  /** What happened so far. Nothing reads it; the theorems are stated about it. */
  datatype History = History(
    jobs: map<Id, JobLedger>,
    deliveries: map<Id, DeliveryLedger>,
    commits: map<Id, Commit>)

  datatype Commit = Commit(job: Id, active: set<Id>)

  datatype World = World(
    store: Store,
    now: int,
    workers: map<Id, Worker>,
    sweeps: map<Id, Sweep>,
    passes: map<Id, Pass>,
    senders: map<Id, Sender>,
    purges: map<Id, set<Id>>,
    jobMessages: multiset<Id>,
    deliveryMessages: multiset<Id>,
    history: History)

  function JobLedgerOf(ledgers: map<Id, JobLedger>, job: Id): JobLedger {
    if job in ledgers then ledgers[job] else JobLedger(0, {}, 0)
  }

  function DeliveryLedgerOf(ledgers: map<Id, DeliveryLedger>, delivery: Id): DeliveryLedger {
    if delivery in ledgers then ledgers[delivery] else DeliveryLedger([], {}, 0, 0, 0)
  }

  datatype JobStep =
    | Submit(request: Request, key: Option<string>)
    | StartAttempt(worker: Id, job: Id)
    | FailAttempt(worker: Id, reason: string)
    | MoveCursor(worker: Id)
    | CompleteAttempt(worker: Id, ds: seq<Id>)
    | WorkerDies(worker: Id)
    | BeginRecovery(sweep: Id)
    | CommitRecovery(sweep: Id)
    | SweepDies(sweep: Id)
    | PublishJob(job: Id)
    | LoseJobMessage(job: Id)

  datatype PassStep =
    | BeginPass(pass: Id, schedule: Id)
    | ClaimPass(pass: Id)
    | AdvanceCursor(pass: Id)
    | PassDies(pass: Id)

  datatype SendStep =
    | StartSend(sender: Id, delivery: Id)
    | FinishSend(sender: Id, outcome: SendOutcome)
    | SenderDies(sender: Id)
    | RetryDelivery(delivery: Id)
    | PublishDelivery(delivery: Id)
    | LoseDeliveryMessage(delivery: Id)

  /** Retention, the operator's deletions, configuration and the clock. */
  datatype OtherStep =
    | BeginPurge(purge: Id, cutoff: int)
    | CommitPurge(purge: Id)
    | PurgeDies(purge: Id)
    | RemoveReport(id: Id)
    | DirectReport
    | AddSchedule(row: Schedule)
    | SetScheduleActive(id: Id, active: bool)
    | AddDestination
    | SetDestinationActive(id: Id, active: bool)
    | RemoveDestination(id: Id)
    | Tick(elapsed: nat)

  datatype Step = Jobs(js: JobStep) | Passes(ps: PassStep) | Sends(ss: SendStep) | Others(os: OtherStep)

  // ----- When a step can happen -----

  ghost predicate CanJob(w: World, step: JobStep) {
    match step
    case Submit(_, key) => !KeyTaken(w.store.jobs, key)
    case StartAttempt(worker, job) => worker !in w.workers && job in w.jobMessages
    case FailAttempt(worker, _) => worker in w.workers && w.workers[worker].phase == Generating
    case MoveCursor(worker) => worker in w.workers && w.workers[worker].phase == CursorPending
    case CompleteAttempt(worker, ds) =>
      && worker in w.workers && w.workers[worker].phase == Generating
      && w.workers[worker].job in w.store.jobs
      && ListsActive(w.store.destinations, ds)
    case WorkerDies(worker) => worker in w.workers
    case BeginRecovery(sweep) => sweep !in w.sweeps
    case CommitRecovery(sweep) => sweep in w.sweeps
    case SweepDies(sweep) => sweep in w.sweeps
    case PublishJob(job) => job in w.store.jobs
    case LoseJobMessage(job) => job in w.jobMessages
  }

  predicate CanPass(w: World, step: PassStep) {
    match step
    case BeginPass(pass, schedule) =>
      pass !in w.passes && schedule in w.store.schedules && w.store.schedules[schedule].active
    case ClaimPass(pass) => pass in w.passes && !w.passes[pass].claimed
    case AdvanceCursor(pass) => pass in w.passes && w.passes[pass].claimed
    case PassDies(pass) => pass in w.passes
  }

  predicate CanSend(w: World, step: SendStep) {
    match step
    case StartSend(sender, delivery) => sender !in w.senders && delivery in w.deliveryMessages
    case FinishSend(sender, _) => sender in w.senders
    case SenderDies(sender) => sender in w.senders
    case RetryDelivery(delivery) => delivery in w.store.deliveries
    case PublishDelivery(delivery) => delivery in w.store.deliveries && DeliveryDue(w.store.deliveries[delivery], w.now)
    case LoseDeliveryMessage(delivery) => delivery in w.deliveryMessages
  }

  predicate CanOther(w: World, step: OtherStep) {
    match step
    case BeginPurge(purge, _) => purge !in w.purges
    case CommitPurge(purge) => purge in w.purges
    case PurgeDies(purge) => purge in w.purges
    case RemoveReport(id) => id in w.store.reports
    case AddSchedule(row) => row.createdAt == w.now && row.lastRunAt.None? && row.lastAttemptedAt.None?
    case SetScheduleActive(id, _) => id in w.store.schedules
    case SetDestinationActive(id, _) => id in w.store.destinations
    case RemoveDestination(id) => id in w.store.destinations
    case _ => true
  }

  ghost predicate Can(w: World, step: Step) {
    match step
    case Jobs(js) => CanJob(w, js)
    case Passes(ps) => CanPass(w, ps)
    case Sends(ss) => CanSend(w, ss)
    case Others(os) => CanOther(w, os)
  }

  // ----- What it does -----

  function DoSubmit(w: World, request: Request, key: Option<string>): World {
    w.(store := InsertJob(w.store, NewJob(request, key, None, None)))
  }

  /** A message is consumed; only the one that finds the job queued starts an attempt. */
  function DoStartAttempt(w: World, worker: Id, job: Id): World {
    var w := w.(jobMessages := w.jobMessages - multiset{job});
    if !JobClaimable(w.store.jobs, job) then w
    else
      var row, ledger := ClaimedJob(w.store.jobs[job], w.now), JobLedgerOf(w.history.jobs, job);
      w.(store := w.store.(jobs := w.store.jobs[job := row]),
         workers := w.workers[worker := Worker(job, row, Generating)],
         history := w.history.(jobs := w.history.jobs[job := ledger.(begun := ledger.begun + 1)]))
  }

  /** What the worker of a scheduled job finds when it reads the row again is open, so it may move the cursor or not. */
  function DoFailAttempt(w: World, worker: Id, reason: string): World
    requires worker in w.workers
  {
    var Worker(job, copy, _) := w.workers[worker];
    var status, ledger := StatusAfterFailure(copy.attempts), JobLedgerOf(w.history.jobs, job);
    var requeued := if status == Queued then {copy.attempts} else {};
    w.(store := w.store.(jobs := EndAttempt(w.store.jobs, job, copy.attempts, w.now, reason)),
       workers :=
         if copy.scheduleId.Some? then w.workers[worker := Worker(job, copy, CursorPending)] else w.workers - {worker},
       jobMessages := if status == Queued then w.jobMessages + multiset{job} else w.jobMessages,
       history := w.history.(jobs := w.history.jobs[job := ledger.(requeued := ledger.requeued + requeued)]))
  }

  function DoMoveCursor(w: World, worker: Id): World
    requires worker in w.workers
  {
    var copy := w.workers[worker].copy;
    w.(store := w.store.(schedules :=
         if copy.scheduleId.Some? then SetCursor(w.store.schedules, copy.scheduleId.value, copy.scheduledFor)
         else w.store.schedules),
       workers := w.workers - {worker})
  }

  function DoCompleteAttempt(w: World, worker: Id, ds: seq<Id>): World
    requires worker in w.workers && w.workers[worker].job in w.store.jobs
  {
    var Worker(job, copy, _) := w.workers[worker];
    w.(store := CompleteJob(w.store, job, copy, ds, w.now),
       workers := w.workers - {worker},
       history := w.history.(commits := w.history.commits[w.store.nextId := Commit(job, set d | d in ds)]))
  }

  /** Whether the recovery of `job` finds the row as it was selected and no worker still at that attempt. */
  predicate InGoodOrder(w: World, job: Id, copy: Job) {
    && job in w.store.jobs && w.store.jobs[job] == copy
    && !exists i :: i in w.workers && IsAt(w.workers[i], job, copy.attempts)
  }

  predicate IsAt(worker: Worker, job: Id, attempt: nat) {
    worker.job == job && worker.phase == Generating && worker.copy.attempts == attempt
  }

  predicate Requeues(copy: Job) {
    copy.attempts < MAX_JOB_ATTEMPTS
  }

  function RecoveredLedger(w: World, job: Id, copies: map<Id, Job>): JobLedger {
    var ledger := JobLedgerOf(w.history.jobs, job);
    if job !in copies || !Requeues(copies[job]) then ledger
    else if InGoodOrder(w, job, copies[job]) then ledger.(requeued := ledger.requeued + {copies[job].attempts})
    else ledger.(misfires := ledger.misfires + 1)
  }

  function DoCommitRecovery(w: World, sweep: Id): World
    requires sweep in w.sweeps
  {
    var copies := w.sweeps[sweep].copies;
    w.(store := w.store.(jobs := Recover(w.store.jobs, copies, w.now)),
       sweeps := w.sweeps - {sweep},
       history := w.history.(jobs := map j | j in w.store.jobs :: RecoveredLedger(w, j, copies)))
  }

  function BatchOf(pass: Pass): seq<int> {
    DueBatch(pass.copy, pass.now)
  }

  function DoClaimPass(w: World, pass: Id): World
    requires pass in w.passes
  {
    var p := w.passes[pass];
    w.(store := ClaimOccurrences(w.store, p.schedule, p.copy.request, BatchOf(p)),
       passes := if BatchOf(p) == [] then w.passes - {pass} else w.passes[pass := p.(claimed := true)])
  }

  function DoAdvanceCursor(w: World, pass: Id): World
    requires pass in w.passes
  {
    var p := w.passes[pass];
    var batch := BatchOf(p);
    w.(store := w.store.(schedules :=
         if batch == [] then w.store.schedules
         else SetCursor(w.store.schedules, p.schedule, Some(batch[|batch| - 1]))),
       passes := w.passes - {pass})
  }

  function DoStartSend(w: World, sender: Id, delivery: Id): World {
    var w := w.(deliveryMessages := w.deliveryMessages - multiset{delivery});
    if delivery !in w.store.deliveries || !DeliveryDue(w.store.deliveries[delivery], w.now) then w
    else
      var before := w.store.deliveries[delivery];
      var row := ClaimedDelivery(before, w.now);
      var ledger := DeliveryLedgerOf(w.history.deliveries, delivery);
      var reclaimed := if before.status == Sending then 1 else 0;
      var overrun := if before.status == Sending && before.attempts >= MAX_DELIVERY_ATTEMPTS then 1 else 0;
      w.(store := w.store.(deliveries := w.store.deliveries[delivery := row]),
         senders := w.senders[sender := Sender(delivery, row)],
         history := w.history.(
           deliveries := w.history.deliveries[delivery :=
             ledger.(sent := ledger.sent + [w.now], reclaims := ledger.reclaims + reclaimed,
                     overruns := ledger.overruns + overrun)]))
  }

  function DoFinishSend(w: World, sender: Id, outcome: SendOutcome): World
    requires sender in w.senders
  {
    var Sender(delivery, copy) := w.senders[sender];
    var w := w.(senders := w.senders - {sender});
    if delivery !in w.store.deliveries then w
    else
      var row := SentDelivery(w.store.deliveries[delivery], copy.attempts, outcome, w.now);
      var ledger := DeliveryLedgerOf(w.history.deliveries, delivery);
      var resent := if row.status == Pending then {copy.attempts} else {};
      w.(store := w.store.(deliveries := w.store.deliveries[delivery := row]),
         history := w.history.(
           deliveries := w.history.deliveries[delivery := ledger.(resent := ledger.resent + resent)]))
  }

  function DoRetryDelivery(w: World, delivery: Id): World
    requires delivery in w.store.deliveries
  {
    var ledger := DeliveryLedgerOf(w.history.deliveries, delivery);
    w.(store := w.store.(deliveries := w.store.deliveries[delivery := RetriedDelivery(w.store.deliveries[delivery])]),
       history := w.history.(
         deliveries := w.history.deliveries[delivery := ledger.(retries := ledger.retries + 1)]))
  }

  function DoJob(w: World, step: JobStep): World
    requires CanJob(w, step)
  {
    match step
    case Submit(request, key) => DoSubmit(w, request, key)
    case StartAttempt(worker, job) => DoStartAttempt(w, worker, job)
    case FailAttempt(worker, reason) => DoFailAttempt(w, worker, reason)
    case MoveCursor(worker) => DoMoveCursor(w, worker)
    case CompleteAttempt(worker, ds) => DoCompleteAttempt(w, worker, ds)
    case WorkerDies(worker) => w.(workers := w.workers - {worker})
    case BeginRecovery(sweep) => w.(sweeps := w.sweeps[sweep := Sweep(StuckJobs(w.store.jobs, w.now))])
    case CommitRecovery(sweep) => DoCommitRecovery(w, sweep)
    case SweepDies(sweep) => w.(sweeps := w.sweeps - {sweep})
    case PublishJob(job) => w.(jobMessages := w.jobMessages + multiset{job})
    case LoseJobMessage(job) => w.(jobMessages := w.jobMessages - multiset{job})
  }

  function DoPass(w: World, step: PassStep): World
    requires CanPass(w, step)
  {
    match step
    case BeginPass(pass, schedule) =>
      w.(passes := w.passes[pass := Pass(schedule, w.store.schedules[schedule], w.now, false)])
    case ClaimPass(pass) => DoClaimPass(w, pass)
    case AdvanceCursor(pass) => DoAdvanceCursor(w, pass)
    case PassDies(pass) => w.(passes := w.passes - {pass})
  }

  function DoSend(w: World, step: SendStep): World
    requires CanSend(w, step)
  {
    match step
    case StartSend(sender, delivery) => DoStartSend(w, sender, delivery)
    case FinishSend(sender, outcome) => DoFinishSend(w, sender, outcome)
    case SenderDies(sender) => w.(senders := w.senders - {sender})
    case RetryDelivery(delivery) => DoRetryDelivery(w, delivery)
    case PublishDelivery(delivery) => w.(deliveryMessages := w.deliveryMessages + multiset{delivery})
    case LoseDeliveryMessage(delivery) => w.(deliveryMessages := w.deliveryMessages - multiset{delivery})
  }

  predicate DeletesReports(step: OtherStep) {
    step.CommitPurge? || step.RemoveReport?
  }

  /** The reports that a step deletes: what retention has selected, or the one that an operator names. */
  function DeletedReports(w: World, step: OtherStep): set<Id>
    requires CanOther(w, step) && DeletesReports(step)
  {
    if step.CommitPurge? then w.purges[step.purge] else {step.id}
  }

  function DoOther(w: World, step: OtherStep): World
    requires CanOther(w, step)
  {
    var s := w.store;
    match step
    case BeginPurge(purge, cutoff) => w.(purges := w.purges[purge := EligibleReports(s, cutoff)])
    case CommitPurge(purge) =>
      w.(store := DeleteReports(s, DeletedReports(w, step)), purges := w.purges - {purge})
    case PurgeDies(purge) => w.(purges := w.purges - {purge})
    case RemoveReport(id) => w.(store := DeleteReports(s, DeletedReports(w, step)))
    case DirectReport => w.(store := s.(reports := s.reports[s.nextId := Report(w.now)], nextId := s.nextId + 1))
    case AddSchedule(row) => w.(store := s.(schedules := s.schedules[s.nextId := row], nextId := s.nextId + 1))
    case SetScheduleActive(id, active) =>
      w.(store := s.(schedules := s.schedules[id := s.schedules[id].(active := active)]))
    case AddDestination =>
      w.(store := s.(destinations := s.destinations[s.nextId := Destination(true)], nextId := s.nextId + 1))
    case SetDestinationActive(id, active) =>
      w.(store := s.(destinations := s.destinations[id := Destination(active)]))
    case RemoveDestination(id) => w.(store := DeleteDestination(s, id))
    case Tick(elapsed) => w.(now := w.now + elapsed)
  }

  function Do(w: World, step: Step): World
    requires Can(w, step)
  {
    match step
    case Jobs(js) => DoJob(w, js)
    case Passes(ps) => DoPass(w, ps)
    case Sends(ss) => DoSend(w, ss)
    case Others(os) => DoOther(w, os)
  }

  // ----- What a step leaves alone -----

  ghost predicate LeavesJobs(w: World, w': World) {
    && w'.store.jobs == w.store.jobs && w'.history.jobs == w.history.jobs && w.store.nextId <= w'.store.nextId
    && w'.workers == w.workers && w'.sweeps == w.sweeps && w.now <= w'.now
  }

  lemma PassStepsLeaveJobs(w: World, step: PassStep)
    requires CanPass(w, step) && !step.ClaimPass?
    ensures LeavesJobs(w, DoPass(w, step)) && DoPass(w, step).now == w.now
  {
  }

  /** Only deliveries, their messages, senders and ledgers may change. */
  ghost predicate OnlySends(w: World, w': World) {
    && w'.store.jobs == w.store.jobs && w'.store.schedules == w.store.schedules && w'.store.reports == w.store.reports
    && w'.store.destinations == w.store.destinations && w'.store.nextId == w.store.nextId && w'.now == w.now
    && w'.workers == w.workers && w'.sweeps == w.sweeps && w'.passes == w.passes
    && w'.history.jobs == w.history.jobs && w'.history.commits == w.history.commits
  }

  lemma StartOnlySends(w: World, sender: Id, delivery: Id)
    ensures OnlySends(w, DoStartSend(w, sender, delivery))
  {
    hide ClaimedDelivery, DeliveryDue, DeliveryLedgerOf;
  }

  lemma FinishOnlySends(w: World, sender: Id, outcome: SendOutcome)
    requires sender in w.senders
    ensures OnlySends(w, DoFinishSend(w, sender, outcome))
  {
    hide SentDelivery, DeliveryLedgerOf;
  }

  lemma SendStepsOnlySend(w: World, step: SendStep)
    requires CanSend(w, step)
    ensures OnlySends(w, DoSend(w, step))
  {
    hide DoStartSend, DoFinishSend, DeliveryLedgerOf, RetriedDelivery;
    match step
    case StartSend(sender, delivery) => StartOnlySends(w, sender, delivery);
    case FinishSend(sender, outcome) => FinishOnlySends(w, sender, outcome);
    case _ =>
  }

  lemma OtherStepsLeaveJobs(w: World, step: OtherStep)
    requires CanOther(w, step) && !DeletesReports(step)
    ensures LeavesJobs(w, DoOther(w, step))
  {
    hide EligibleReports;
  }

  ghost predicate LeavesSchedules(w: World, w': World) {
    && w'.store.schedules == w.store.schedules && w'.passes == w.passes && w'.now == w.now
    && w.store.nextId <= w'.store.nextId
  }

  lemma StartLeavesSchedules(w: World, worker: Id, job: Id)
    ensures LeavesSchedules(w, DoStartAttempt(w, worker, job))
  {
    hide ClaimedJob, JobLedgerOf, JobClaimable;
  }

  lemma FailureLeavesSchedules(w: World, worker: Id, reason: string)
    requires worker in w.workers
    ensures LeavesSchedules(w, DoFailAttempt(w, worker, reason))
  {
    hide EndAttempt, JobLedgerOf;
  }

  /** Only the end of a scheduled job's attempt writes a schedule. */
  lemma JobStepsLeaveSchedules(w: World, step: JobStep)
    requires CanJob(w, step) && !step.CompleteAttempt? && !step.MoveCursor?
    ensures LeavesSchedules(w, DoJob(w, step))
  {
    hide DoStartAttempt, DoFailAttempt, DoCompleteAttempt, DoMoveCursor, Recover, RecoveredLedger, StuckJobs, KeyTaken;
    match step
    case StartAttempt(worker, job) => StartLeavesSchedules(w, worker, job);
    case FailAttempt(worker, reason) => FailureLeavesSchedules(w, worker, reason);
    case _ =>
  }

  /** Deleting reports takes their deliveries and clears the references of jobs. */
  lemma DeletionsOnlyDelete(w: World, step: OtherStep)
    requires CanOther(w, step) && DeletesReports(step)
    ensures var w' := DoOther(w, step);
      && w'.store == DeleteReports(w.store, DeletedReports(w, step)) && w'.now == w.now && w'.history == w.history
      && w'.workers == w.workers && w'.sweeps == w.sweeps && w'.passes == w.passes && w'.senders == w.senders
  {
    hide DeleteReports;
  }

  ghost predicate LeavesDeliveries(w: World, w': World) {
    && w'.store.deliveries == w.store.deliveries && w'.history.deliveries == w.history.deliveries
    && w.store.nextId <= w'.store.nextId && w'.senders == w.senders && w.now <= w'.now
  }

  lemma JobStepsLeaveDeliveries(w: World, step: JobStep)
    requires CanJob(w, step) && !step.CompleteAttempt?
    ensures LeavesDeliveries(w, DoJob(w, step))
  {
    hide DoStartAttempt, DoFailAttempt, DoCompleteAttempt, Recover, RecoveredLedger, StuckJobs, SetCursor, KeyTaken;
    match step
    case StartAttempt(worker, job) => StartLeavesDeliveries(w, worker, job);
    case FailAttempt(worker, reason) => FailureLeavesDeliveries(w, worker, reason);
    case _ =>
  }

  lemma StartLeavesDeliveries(w: World, worker: Id, job: Id)
    ensures LeavesDeliveries(w, DoStartAttempt(w, worker, job))
  {
    hide ClaimedJob, JobLedgerOf, JobClaimable;
  }

  lemma FailureLeavesDeliveries(w: World, worker: Id, reason: string)
    requires worker in w.workers
    ensures LeavesDeliveries(w, DoFailAttempt(w, worker, reason))
  {
    hide EndAttempt, JobLedgerOf;
  }

  lemma PassStepsLeaveDeliveries(w: World, step: PassStep)
    requires CanPass(w, step)
    ensures LeavesDeliveries(w, DoPass(w, step))
  {
    hide SetCursor, BatchOf;
    if step.ClaimPass? {
      var p := w.passes[step.pass];
      ClaimOccurrencesOnlyAdds(w.store, p.schedule, p.copy.request, BatchOf(p));
    }
  }

  lemma OtherStepsLeaveDeliveries(w: World, step: OtherStep)
    requires CanOther(w, step) && !DeletesReports(step) && !step.RemoveDestination?
    ensures LeavesDeliveries(w, DoOther(w, step))
  {
    hide EligibleReports;
  }

  // ----- Runs -----

  predicate Init(w: World) {
    && w.store == Store(map[], map[], map[], map[], map[], 0)
    && w.workers == map[] && w.sweeps == map[] && w.passes == map[] && w.senders == map[]
    && w.purges == map[] && w.jobMessages == multiset{} && w.deliveryMessages == multiset{}
    && w.history == History(map[], map[], map[])
  }

  /** A run visits `ws[0]`, `ws[1]` and so on, taking `steps[0]`, `steps[1]` and so on between them. */
  ghost predicate IsRun(ws: seq<World>, steps: seq<Step>) {
    && |ws| == |steps| + 1
    && (forall i :: 0 <= i < |steps| ==> Can(ws[i], steps[i]) && ws[i + 1] == Do(ws[i], steps[i]))
  }

  function Last(ws: seq<World>): World
    requires ws != []
  {
    ws[|ws| - 1]
  }

  lemma Extend(ws: seq<World>, steps: seq<Step>, step: Step)
    requires ws != [] && IsRun(ws, steps) && Can(Last(ws), step)
    ensures IsRun(ws + [Do(Last(ws), step)], steps + [step])
  {
    hide Can, Do;
    var ws', steps' := ws + [Do(Last(ws), step)], steps + [step];
    forall i | 0 <= i < |steps'|
      ensures Can(ws'[i], steps'[i]) && ws'[i + 1] == Do(ws'[i], steps'[i])
    {
      assert i < |steps| ==> ws'[i] == ws[i] && ws'[i + 1] == ws[i + 1];
    }
  }

  lemma {:induction false} UnusedId(ids: set<Id>) returns (x: Id)
    ensures x !in ids && forall y :: y in ids ==> y < x
    decreases |ids|
  {
    if ids == {} {
      x := 0;
    } else {
      var y :| y in ids;
      var above := UnusedId(ids - {y});
      x := if above <= y then y + 1 else above;
      assert forall z :: z in ids ==> z == y || z in ids - {y};
    }
  }
}
