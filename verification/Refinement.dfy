/**
What the methods of the services promise are steps of the protocol: whenever a
method may write, the step is enabled, and the rows it commits are those of the
step. Each world is the one at the transaction in question, whatever happened
since the one before.
*/
module Refinement {
  import opened Wrappers
  import opened Models
  import opened Transactions
  import opened World
  import opened JobService
  import opened Tasks
  import WebhookService

  // ----- Jobs -----

  /** The insert of `CreateReportJob`. */
  lemma SubmitRefines(w: World, request: Request, key: Option<string>)
    requires !KeyTaken(w.store.jobs, key)
    ensures Can(w, Jobs(Submit(request, key)))
    ensures Do(w, Jobs(Submit(request, key))).store == InsertJob(w.store, NewJob(request, key, None, None))
  {
  }

  /** The worker that `RunJob` becomes when it wins the claim. */
  predicate Won(w: World, worker: Id, job: Id, later: World) {
    && JobClaimable(w.store.jobs, job) && job in later.store.jobs
    && worker in later.workers && later.workers[worker] == Worker(job, ClaimedJob(w.store.jobs[job], w.now), Generating)
  }

  lemma ClaimRefines(w: World, worker: Id, job: Id)
    requires worker !in w.workers && job in w.jobMessages && JobClaimable(w.store.jobs, job)
    ensures Can(w, Jobs(StartAttempt(worker, job)))
    ensures var w' := Do(w, Jobs(StartAttempt(worker, job)));
      && w'.store == w.store.(jobs := w.store.jobs[job := ClaimedJob(w.store.jobs[job], w.now)])
      && Won(w, worker, job, w')
  {
  }

  /** The step that an attempt's final write is. */
  function EndingStep(worker: Id, generation: Generation, ds: seq<Id>): Step {
    match generation
    case Generated => Jobs(CompleteAttempt(worker, ds))
    case GenerationFailed(reason) => Jobs(FailAttempt(worker, reason))
    case OutboxFailed => Jobs(WorkerDies(worker))
  }

  /** Whatever `RunJob` writes after a won claim is a step, and so is the cursor it writes last. */
  lemma AttemptRefines(w: World, worker: Id, id: Id, later: World, last: World, after: Store, generation: Generation,
                       others: Between, attempt: Attempt, ds: seq<Id>, written: Store)
    requires Won(w, worker, id, later) && others.generated == later.store && id in others.refreshed.jobs
    requires IsAttempt(w.store, written, after, id, w.now, generation, others, later.now, attempt, ds)
    requires last.store == others.cursor
    requires worker in last.workers
             && last.workers[worker] == Worker(id, ClaimedJob(w.store.jobs[id], w.now), CursorPending)
    ensures Can(later, EndingStep(worker, generation, ds))
    ensures Do(later, EndingStep(worker, generation, ds)).store == written
    ensures
      if generation.GenerationFailed? && w.store.jobs[id].scheduleId.Some?
         && others.refreshed.jobs[id].status == JobStatus.Failed
      then Can(last, Jobs(MoveCursor(worker))) && Do(last, Jobs(MoveCursor(worker))).store == after
      else after == if generation.OutboxFailed? then written else others.refreshed
  {
    hide IsCommit, IsCursorSet, Can, Do;
    match generation
    case Generated =>
      SuccessIsStep(w, worker, id, later, ds, written);
    case GenerationFailed(reason) =>
      FailureIsStep(w, worker, id, later, reason);
      if w.store.jobs[id].scheduleId.Some? && others.refreshed.jobs[id].status == JobStatus.Failed {
        CursorIsStep(w, worker, id, last, after);
      }
    case OutboxFailed =>
      DeathIsStep(w, worker, id, later);
  }

  lemma DeathIsStep(w: World, worker: Id, id: Id, later: World)
    requires Won(w, worker, id, later)
    ensures Can(later, Jobs(WorkerDies(worker))) && Do(later, Jobs(WorkerDies(worker))).store == later.store
  {
  }

  lemma SuccessIsStep(w: World, worker: Id, id: Id, later: World, ds: seq<Id>, written: Store)
    requires Won(w, worker, id, later)
    requires IsCommit(later.store, written, id, ClaimedJob(w.store.jobs[id], w.now), ds, later.now)
    requires forall d :: d in ds <==> d in later.store.destinations && later.store.destinations[d].active
    requires forall i, j :: 0 <= i < j < |ds| ==> ds[i] != ds[j]
    ensures Can(later, Jobs(CompleteAttempt(worker, ds)))
    ensures Do(later, Jobs(CompleteAttempt(worker, ds))).store == written
  {
    hide CompleteJob, IsCommit, ClaimedJob;
    CommitIsComplete(later.store, written, id, ClaimedJob(w.store.jobs[id], w.now), ds, later.now);
  }

  lemma FailureIsStep(w: World, worker: Id, id: Id, later: World, reason: string)
    requires Won(w, worker, id, later)
    ensures Can(later, Jobs(FailAttempt(worker, reason)))
    ensures Do(later, Jobs(FailAttempt(worker, reason))).store ==
      later.store.(jobs := later.store.jobs[id := later.store.jobs[id].(
        status := if w.store.jobs[id].attempts + 1 < 3 then Queued else JobStatus.Failed,
        finishedAt := Some(later.now), errorReason := Some(reason))])
  {
    hide JobLedgerOf;
  }

  lemma CursorIsStep(w: World, worker: Id, id: Id, last: World, after: Store)
    requires id in w.store.jobs && w.store.jobs[id].scheduleId.Some?
    requires worker in last.workers
             && last.workers[worker] == Worker(id, ClaimedJob(w.store.jobs[id], w.now), CursorPending)
    requires IsCursorSet(last.store, after, w.store.jobs[id].scheduleId.value, w.store.jobs[id].scheduledFor)
    ensures Can(last, Jobs(MoveCursor(worker))) && Do(last, Jobs(MoveCursor(worker))).store == after
  {
    hide SetCursor, IsCursorSet;
    CursorIsSet(last.store, after, w.store.jobs[id].scheduleId.value, w.store.jobs[id].scheduledFor);
  }

  lemma CursorIsSet(before: Store, after: Store, s: Id, t: Option<int>)
    requires IsCursorSet(before, after, s, t)
    ensures after == before.(schedules := SetCursor(before.schedules, s, t))
  {
    SettingSets(before, s, t);
    assert after.schedules == SetCursor(before.schedules, s, t);
  }

  lemma CommitIsComplete(before: Store, after: Store, id: Id, copy: Job, ds: seq<Id>, now: int)
    requires id in before.jobs && IsCommit(before, after, id, copy, ds, now)
    ensures after == CompleteJob(before, id, copy, ds, now)
  {
    hide Enqueue, WebhookService.IsEnqueued;
    var report := before.nextId;
    assert after.schedules == SucceededSchedule(before.schedules, copy, now);
    WebhookService.EnqueueEnqueues(before.deliveries, report + 1, report, ds);
    EnqueuedAgree(before.deliveries, after.deliveries, Enqueue(before.deliveries, report + 1, report, ds), report + 1,
                  report, ds);
  }

  lemma EnqueuedAgree(before: map<Id, Delivery>, a: map<Id, Delivery>, b: map<Id, Delivery>, first: Id, report: Id,
                      ds: seq<Id>)
    requires WebhookService.IsEnqueued(before, a, first, report, ds)
    requires WebhookService.IsEnqueued(before, b, first, report, ds)
    ensures a == b
  {
  }

  /** A failed attempt of a scheduled job leaves a worker that may write the cursor. */
  lemma FailureRefines(w: World, worker: Id, job: Id, later: World, reason: string)
    requires Won(w, worker, job, later)
    ensures Can(later, Jobs(FailAttempt(worker, reason)))
    ensures var after, copy := Do(later, Jobs(FailAttempt(worker, reason))), ClaimedJob(w.store.jobs[job], w.now);
      && (copy.scheduleId.Some? ==>
          worker in after.workers && after.workers[worker] == Worker(job, copy, CursorPending))
      && (StatusAfterFailure(copy.attempts) == Queued ==> after.jobMessages == later.jobMessages + multiset{job})
  {
    hide JobLedgerOf;
  }

  lemma RecoveryRefines(w: World, sweep: Id, later: World)
    requires sweep !in w.sweeps
    requires sweep in later.sweeps && later.sweeps[sweep] == Sweep(StuckJobs(w.store.jobs, w.now))
    ensures Can(w, Jobs(BeginRecovery(sweep))) && Can(later, Jobs(CommitRecovery(sweep)))
    ensures Do(w, Jobs(BeginRecovery(sweep))).store == w.store
    ensures Do(w, Jobs(BeginRecovery(sweep))).sweeps[sweep] == later.sweeps[sweep]
    ensures Do(later, Jobs(CommitRecovery(sweep))).store
            == later.store.(jobs := Recover(later.store.jobs, StuckJobs(w.store.jobs, w.now), later.now))
  {
    hide StuckJobs, Recover, RecoveredLedger;
  }

  // ----- Passes -----

  /** One schedule's turn is a claim step and, if anything was due, a cursor step of the pass over it. */
  lemma TurnRefines(turn: Turn, s: Id, copy: Schedule, now: int, pass: Id, w: World, later: World)
    requires IsTurn(turn, s, copy, now) && w.store == turn.before && later.store == turn.between
    requires pass in w.passes && w.passes[pass] == Pass(s, copy, now, false)
    requires pass in later.passes && later.passes[pass] == Pass(s, copy, now, true)
    ensures Can(w, Passes(ClaimPass(pass))) && Do(w, Passes(ClaimPass(pass))).store == turn.claimed
    ensures DueBatch(copy, now) != [] ==>
      && pass in Do(w, Passes(ClaimPass(pass))).passes
        && Do(w, Passes(ClaimPass(pass))).passes[pass] == later.passes[pass]
      && Can(later, Passes(AdvanceCursor(pass))) && Do(later, Passes(AdvanceCursor(pass))).store == turn.after
  {
    hide DueBatch, SetCursor, ClaimOccurrences;
    assert BatchOf(w.passes[pass]) == DueBatch(copy, now) == BatchOf(later.passes[pass]);
    assert ClaimOccurrences(turn.before, s, copy.request, []) == turn.before by {
      NothingClaimed(turn.before, s, copy.request);
    }
    hide BatchOf;
  }

  lemma NothingClaimed(store: Store, s: Id, request: Request)
    ensures ClaimOccurrences(store, s, request, []) == store
  {
  }

  function BegunPass(w: World, s: Id): Pass
    requires s in w.store.schedules
  {
    Pass(s, w.store.schedules[s], w.now, false)
  }

  ghost predicate Begins(w: World, pass: Id, s: Id) {
    && s in w.store.schedules && Can(w, Passes(BeginPass(pass, s)))
    && Do(w, Passes(BeginPass(pass, s))).passes == w.passes[pass := BegunPass(w, s)]
  }

  /** The turn's first commit is a claim from `w`, and its second, if there is one, moves the cursor from `later`. */
  ghost predicate IsPassOf(turn: Turn, pass: Id, w: World, later: World) {
    && Can(w, Passes(ClaimPass(pass))) && Do(w, Passes(ClaimPass(pass))).store == turn.claimed
    && (turn.after == turn.claimed
        || (Can(later, Passes(AdvanceCursor(pass))) && Do(later, Passes(AdvanceCursor(pass))).store == turn.after))
  }

  /** `w` and `later` are the worlds in which the pass over `s`, begun in `begun`, makes its two commits. */
  ghost predicate Makes(turn: Turn, pass: Id, s: Id, begun: World, w: World, later: World) {
    && s in begun.store.schedules && begun.store.schedules[s].active
    && w.store == turn.before && later.store == turn.between
    && pass in w.passes && w.passes[pass] == BegunPass(begun, s)
    && pass in later.passes && later.passes[pass] == BegunPass(begun, s).(claimed := true)
  }

  lemma OneOfPassRefines(turn: Turn, pass: Id, s: Id, begun: World, w: World, later: World)
    requires Makes(turn, pass, s, begun, w, later) && IsTurn(turn, s, begun.store.schedules[s], begun.now)
    ensures IsPassOf(turn, pass, w, later)
    ensures pass !in begun.passes ==> Begins(begun, pass, s)
  {
    var copy := begun.store.schedules[s];
    TurnRefines(turn, s, copy, begun.now, pass, w, later);
    EmptyTurn(turn, s, copy, begun.now);
    hide IsTurn, DoClaimPass, DoAdvanceCursor;
  }

  /** A pass over several schedules is as many passes of the protocol, all begun when the schedules are read. */
  lemma PassRefines(begun: World, ids: seq<Id>, passes: seq<Id>, turns: seq<Turn>, others: nat -> Meanwhile,
                    ws: seq<World>, laters: seq<World>)
    requires |turns| == |ids| == |passes| == |ws| == |laters|
    requires AreTurns(turns, ids, begun.store.schedules, begun.now, others)
    requires forall i :: 0 <= i < |ids| ==> Makes(turns[i], passes[i], ids[i], begun, ws[i], laters[i])
    ensures forall i :: 0 <= i < |ids| ==> IsPassOf(turns[i], passes[i], ws[i], laters[i])
    ensures forall i :: 0 <= i < |ids| && passes[i] !in begun.passes ==> Begins(begun, passes[i], ids[i])
  {
    hide IsTurn, IsPassOf, Begins, DueBatch;
    forall i | 0 <= i < |ids|
      ensures IsPassOf(turns[i], passes[i], ws[i], laters[i])
      ensures passes[i] !in begun.passes ==> Begins(begun, passes[i], ids[i])
    {
      assert IsTurnAmong(turns[i], ids[i], begun.store.schedules, begun.now, others(i));
      OneOfPassRefines(turns[i], passes[i], ids[i], begun, ws[i], laters[i]);
    }
  }

  lemma EmptyTurn(turn: Turn, s: Id, copy: Schedule, now: int)
    requires IsTurn(turn, s, copy, now)
    ensures DueBatch(copy, now) == [] ==> turn.after == turn.claimed
  {
  }

  // ----- Deliveries -----

  /** The claim of a delivery and the end of the attempt. */
  lemma SendRefines(w: World, sender: Id, d: Id, later: World, outcome: SendOutcome)
    requires sender !in w.senders && d in w.deliveryMessages
    requires d in w.store.deliveries && DeliveryDue(w.store.deliveries[d], w.now)
    requires sender in later.senders
    requires later.senders[sender] == Sender(d, ClaimedDelivery(w.store.deliveries[d], w.now))
    ensures Can(w, Sends(StartSend(sender, d)))
    ensures var w' := Do(w, Sends(StartSend(sender, d)));
      && w'.store == w.store.(deliveries := w.store.deliveries[d := ClaimedDelivery(w.store.deliveries[d], w.now)])
      && w'.senders[sender] == later.senders[sender]
    ensures Can(later, Sends(FinishSend(sender, outcome)))
    ensures Do(later, Sends(FinishSend(sender, outcome))).store
            == WebhookService.Sent(later.store, d, later.senders[sender].copy.attempts, outcome, later.now)
    ensures WebhookService.IsSent(later.store, Do(later, Sends(FinishSend(sender, outcome))).store, d,
                                  w.store.deliveries[d].attempts + 1, outcome, later.now)
  {
    hide DeliveryDue, SentDelivery, DeliveryLedgerOf, WebhookService.IsSent;
    SentIsSent(later.store, d, w.store.deliveries[d].attempts + 1, outcome, later.now);
  }

  lemma SentIsSent(store: Store, d: Id, attempts: nat, outcome: SendOutcome, now: int)
    ensures WebhookService.IsSent(store, WebhookService.Sent(store, d, attempts, outcome, now), d, attempts, outcome,
                                  now)
  {
  }

  lemma RetryRefines(w: World, d: Id)
    requires d in w.store.deliveries
    ensures Can(w, Sends(RetryDelivery(d)))
    ensures Do(w, Sends(RetryDelivery(d))).store
            == w.store.(deliveries := w.store.deliveries[d := RetriedDelivery(w.store.deliveries[d])])
  {
    hide DeliveryLedgerOf;
  }

  // ----- Retention -----

  lemma RetentionRefines(w: World, purge: Id, retentionDays: int, later: World)
    requires purge !in w.purges && purge in later.purges
    requires later.purges[purge] == EligibleReports(w.store, w.now - retentionDays * 86_400_000_000)
    ensures var cutoff := w.now - retentionDays * 86_400_000_000;
      && Can(w, Others(BeginPurge(purge, cutoff))) && Can(later, Others(CommitPurge(purge)))
      && Do(w, Others(BeginPurge(purge, cutoff))).store == w.store
      && purge in Do(w, Others(BeginPurge(purge, cutoff))).purges
      && Do(w, Others(BeginPurge(purge, cutoff))).purges[purge] == later.purges[purge]
      && Do(later, Others(CommitPurge(purge))).store == DeleteReports(later.store, EligibleReports(w.store, cutoff))
  {
    hide EligibleReports;
  }

  lemma DeletionRefines(w: World, id: Id)
    requires id in w.store.reports
    ensures Can(w, Others(RemoveReport(id)))
    ensures Do(w, Others(RemoveReport(id))).store == DeleteReports(w.store, {id})
  {
    hide DeleteReports;
  }
}
