/**
The cursor of a schedule is not the last occurrence claimed: it goes back when
an older pass commits after a newer one, and when a job of an older occurrence
ends. This says exactly when that can happen, shows a run for each, and proves
what a cursor does promise in every run.
*/
module CursorSetback {
  import opened Wrappers
  import opened Models
  import opened Transactions
  import opened World
  import opened ScheduleCoverage
  import LateWrites

  // ----- Who can set a cursor back -----

  /** The worker will write an occurrence of `s` before `t`: with its success, or after its failure. */
  predicate WorksOnOlder(worker: Worker, s: Id, t: int) {
    && worker.copy.scheduleId == Some(s)
    && worker.copy.scheduledFor.Some? && worker.copy.scheduledFor.value < t
  }

  /** The pass has claimed a batch that ends before `t` and has yet to write its end. */
  predicate ClaimedOlder(p: Pass, s: Id, t: int) {
    p.schedule == s && p.claimed && BatchOf(p) != [] && BatchOf(p)[|BatchOf(p)| - 1] < t
  }

  ghost predicate HeldByWorker(w: World, s: Id, t: int) {
    exists i :: i in w.workers && WorksOnOlder(w.workers[i], s, t)
  }

  ghost predicate HeldByPass(w: World, s: Id, t: int) {
    exists i :: i in w.passes && ClaimedOlder(w.passes[i], s, t)
  }

  /** The cursor of `s` is set to `t` or to a later instant. */
  predicate CursorFrom(schedules: map<Id, Schedule>, s: Id, t: int) {
    s in schedules && schedules[s].lastAttemptedAt.Some? && t <= schedules[s].lastAttemptedAt.value
  }

  /** The step can happen now and leaves the cursor of `s` before `t`, or without a value. */
  ghost predicate SetsBack(w: World, step: Step, s: Id, t: int) {
    Can(w, step) && !CursorFrom(Do(w, step).store.schedules, s, t)
  }

  // ----- Only they do -----

  lemma SetCursorHas(schedules: map<Id, Schedule>, u: Id, at: Option<int>, s: Id, t: int)
    requires CursorFrom(schedules, s, t)
    ensures CursorFrom(SetCursor(schedules, u, at), s, t) <==> u != s || (at.Some? && t <= at.value)
  {
  }

  lemma CompletionHas(w: World, worker: Id, ds: seq<Id>, s: Id, t: int)
    requires CursorFrom(w.store.schedules, s, t)
    requires worker in w.workers && w.workers[worker].job in w.store.jobs
    ensures var copy, after := w.workers[worker].copy, DoCompleteAttempt(w, worker, ds).store.schedules;
      CursorFrom(after, s, t)
      <==> copy.scheduleId != Some(s) || (copy.scheduledFor.Some? && t <= copy.scheduledFor.value)
  {
    hide Enqueue, SucceededJob;
  }

  lemma MoveHas(w: World, worker: Id, s: Id, t: int)
    requires CursorFrom(w.store.schedules, s, t) && worker in w.workers
    ensures var copy, after := w.workers[worker].copy, DoMoveCursor(w, worker).store.schedules;
      CursorFrom(after, s, t)
      <==> copy.scheduleId != Some(s) || (copy.scheduledFor.Some? && t <= copy.scheduledFor.value)
  {
    hide SetCursor, CursorFrom;
    var copy := w.workers[worker].copy;
    if copy.scheduleId.Some? {
      SetCursorHas(w.store.schedules, copy.scheduleId.value, copy.scheduledFor, s, t);
    }
  }

  lemma EndingNeedsAHolder(w: World, worker: Id, s: Id, t: int)
    requires Inv(w) && worker in w.workers && w.workers[worker].copy.scheduleId == Some(s)
    requires var at := w.workers[worker].copy.scheduledFor; at.Some? ==> at.value < t
    ensures HeldByWorker(w, s, t)
  {
    CopyIsClaimed(w, worker);
    hide Inv;
    assert WorksOnOlder(w.workers[worker], s, t);
  }

  lemma JobStepHas(w: World, step: JobStep, s: Id, t: int)
    requires Inv(w) && CanJob(w, step) && CursorFrom(w.store.schedules, s, t)
    ensures CursorFrom(DoJob(w, step).store.schedules, s, t) || HeldByWorker(w, s, t)
  {
    hide Inv, HeldByWorker, DoCompleteAttempt, DoMoveCursor, DoSubmit, DoStartAttempt, DoFailAttempt, DoCommitRecovery;
    match step
    case CompleteAttempt(worker, ds) =>
      CompletionHas(w, worker, ds, s, t);
      if !CursorFrom(DoJob(w, step).store.schedules, s, t) {
        EndingNeedsAHolder(w, worker, s, t);
      }
    case MoveCursor(worker) =>
      MoveHas(w, worker, s, t);
      if !CursorFrom(DoJob(w, step).store.schedules, s, t) {
        EndingNeedsAHolder(w, worker, s, t);
      }
    case _ => JobStepsLeaveSchedules(w, step);
  }

  lemma PassStepHas(w: World, step: PassStep, s: Id, t: int)
    requires CanPass(w, step) && CursorFrom(w.store.schedules, s, t)
    ensures CursorFrom(DoPass(w, step).store.schedules, s, t) || HeldByPass(w, s, t)
  {
    hide BatchOf, SetCursor;
    match step
    case AdvanceCursor(pass) =>
      var p := w.passes[pass];
      if BatchOf(p) != [] {
        SetCursorHas(w.store.schedules, p.schedule, Some(BatchOf(p)[|BatchOf(p)| - 1]), s, t);
        assert CursorFrom(DoPass(w, step).store.schedules, s, t) || ClaimedOlder(p, s, t);
      }
    case ClaimPass(pass) =>
      var p := w.passes[pass];
      ClaimOccurrencesOnlyAdds(w.store, p.schedule, p.copy.request, BatchOf(p));
    case _ =>
  }

  lemma OtherStepHas(w: World, step: OtherStep, s: Id, t: int)
    requires CanOther(w, step) && w.store.nextId != s && CursorFrom(w.store.schedules, s, t)
    ensures CursorFrom(DoOther(w, step).store.schedules, s, t)
  {
    hide EligibleReports;
  }

  lemma SettingBackNeedsAHolder(w: World, step: Step, s: Id, t: int)
    requires Inv(w) && CursorFrom(w.store.schedules, s, t) && SetsBack(w, step, s, t)
    ensures HeldByWorker(w, s, t) || HeldByPass(w, s, t)
  {
    assert s < w.store.nextId;
    hide Inv, CanJob, DoJob, CanPass, DoPass, CanSend, DoSend, CanOther, DoOther, HeldByWorker, HeldByPass;
    match step
    case Jobs(js) => JobStepHas(w, js, s, t);
    case Passes(ps) => PassStepHas(w, ps, s, t);
    case Sends(ss) => SendStepsOnlySend(w, ss);
    case Others(os) => OtherStepHas(w, os, s, t);
  }

  // ----- And they can -----

  lemma JobExists(w: World, worker: Id)
    requires Inv(w) && worker in w.workers
    ensures w.workers[worker].job in w.store.jobs
  {
  }

  lemma CompletionCanSetBack(w: World, worker: Id, ds: seq<Id>, s: Id, t: int)
    requires CursorFrom(w.store.schedules, s, t) && CanJob(w, CompleteAttempt(worker, ds))
    requires WorksOnOlder(w.workers[worker], s, t)
    ensures SetsBack(w, Jobs(CompleteAttempt(worker, ds)), s, t)
  {
    hide CursorFrom, DoCompleteAttempt, ListsActive;
    CompletionHas(w, worker, ds, s, t);
  }

  lemma MoveCanSetBack(w: World, worker: Id, s: Id, t: int)
    requires CursorFrom(w.store.schedules, s, t) && CanJob(w, MoveCursor(worker))
    requires WorksOnOlder(w.workers[worker], s, t)
    ensures SetsBack(w, Jobs(MoveCursor(worker)), s, t)
  {
    hide CursorFrom, DoMoveCursor;
    MoveHas(w, worker, s, t);
  }

  lemma WorkerCanSetBack(w: World, worker: Id, s: Id, t: int) returns (step: Step)
    requires Inv(w) && CursorFrom(w.store.schedules, s, t)
    requires worker in w.workers && WorksOnOlder(w.workers[worker], s, t)
    ensures SetsBack(w, step, s, t)
  {
    hide Inv, SetsBack, CursorFrom, WorksOnOlder;
    JobExists(w, worker);
    if w.workers[worker].phase == Generating {
      var ds := LateWrites.ActiveCanBeListed(w.store.destinations, w.store.destinations.Keys);
      step := Jobs(CompleteAttempt(worker, ds));
      CompletionCanSetBack(w, worker, ds, s, t);
    } else {
      step := Jobs(MoveCursor(worker));
      MoveCanSetBack(w, worker, s, t);
    }
  }

  lemma PassCanSetBack(w: World, pass: Id, s: Id, t: int) returns (step: Step)
    requires CursorFrom(w.store.schedules, s, t) && pass in w.passes && ClaimedOlder(w.passes[pass], s, t)
    ensures SetsBack(w, step, s, t)
  {
    hide BatchOf, SetCursor;
    var batch := BatchOf(w.passes[pass]);
    step := Passes(AdvanceCursor(pass));
    SetCursorHas(w.store.schedules, s, Some(batch[|batch| - 1]), s, t);
  }

  /**
   * With no premise at all: some step that can happen now sets the cursor of `s`, which stands at `t` or later, before
   * `t`, exactly when a worker still has to end a job of an occurrence before `t`, or a pass that has claimed a batch
   * ending before `t` still has to write its cursor.
   */
  lemma CursorGoesBackExactlyWhen(w: World, s: Id, t: int)
    requires Inv(w) && CursorFrom(w.store.schedules, s, t)
    ensures (exists step :: SetsBack(w, step, s, t)) <==> HeldByWorker(w, s, t) || HeldByPass(w, s, t)
  {
    hide SetsBack, Inv, BatchOf;
    if step :| SetsBack(w, step, s, t) {
      SettingBackNeedsAHolder(w, step, s, t);
    }
    if worker :| worker in w.workers && WorksOnOlder(w.workers[worker], s, t) {
      var step := WorkerCanSetBack(w, worker, s, t);
    }
    if pass :| pass in w.passes && ClaimedOlder(w.passes[pass], s, t) {
      var step := PassCanSetBack(w, pass, s, t);
    }
  }

  // ----- What a cursor promises -----

  /** In every run: a set cursor points at an occurrence after the schedule's creation that has come and has its job. */
  lemma CursorHasItsJob(ws: seq<World>, steps: seq<Step>, n: nat, s: Id)
    requires IsRun(ws, steps) && Init(ws[0]) && n < |ws| && s in ws[n].store.schedules
    ensures var w, row := ws[n], ws[n].store.schedules[s];
      row.lastAttemptedAt.Some? ==>
        var t := row.lastAttemptedAt.value;
        OccurrenceTaken(w.store.jobs, s, t) && row.createdAt < t <= w.now && exists i :: row.calendar(i) == t
  {
    RunKeepsInv(ws, steps, n);
    var w, row := ws[n], ws[n].store.schedules[s];
    assert RowCovered(row, Claimed(w.store.jobs, s), w.now);
    if row.lastAttemptedAt.Some? {
      ClaimedHas(w.store.jobs, s, row.lastAttemptedAt.value);
    }
    hide Init, Inv, IsRun;
  }
}
