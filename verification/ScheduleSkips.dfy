/**
Skipped means skipped, and only overdue passes skip: what a pass leaves behind
five newer due occurrences is never claimed later, although finishing jobs set
the cursor back below it; and when no pass has more than five due, every
occurrence gets its job.
*/
module ScheduleSkips {
  import opened Wrappers
  import opened ScheduleTime
  import opened Models
  import opened Transactions
  import opened World
  import opened BatchCoverage
  import opened ScheduleCoverage
  import JobAccounting

  /** The claimed occurrences after a step: only a pass on this very schedule adds any. */
  function ClaimedAfter(w: World, step: Step, s: Id): set<int>
    requires Can(w, step)
  {
    if step.Passes? && step.ps.ClaimPass? && w.passes[step.ps.pass].schedule == s
    then Claimed(w.store.jobs, s) + Members(BatchOf(w.passes[step.ps.pass]))
    else Claimed(w.store.jobs, s)
  }

  lemma JobStepClaimsNothing(w: World, step: JobStep, s: Id)
    requires CanJob(w, step) && w.store.nextId !in w.store.jobs
    ensures Claimed(DoJob(w, step).store.jobs, s) == Claimed(w.store.jobs, s)
  {
    if step.Submit? {
      UnscheduledJobSameClaims(w.store.jobs, w.store.nextId, NewJob(step.request, step.key, None, None));
    } else {
      JobStepSameOccurrences(w, step);
      SameOccurrencesSameClaims(w.store.jobs, DoJob(w, step).store.jobs, w.store.nextId);
    }
  }

  lemma OtherStepClaimsNothing(w: World, step: OtherStep, s: Id)
    requires CanOther(w, step)
    ensures Claimed(DoOther(w, step).store.jobs, s) == Claimed(w.store.jobs, s)
  {
    hide Claimed, EligibleReports;
    if DeletesReports(step) {
      JobAccounting.DeletionSettles(w.store, DeletedReports(w, step));
      SameOccurrencesSameClaims(w.store.jobs, DoOther(w, step).store.jobs, w.store.nextId);
    }
  }

  lemma PassClaims(w: World, pass: Id, s: Id)
    requires ScheduleCoverage.Inv(w) && pass in w.passes
    ensures var p := w.passes[pass];
            Claimed(DoClaimPass(w, pass).store.jobs, s) ==
            Claimed(w.store.jobs, s) + (if p.schedule == s then Members(BatchOf(p)) else {})
  {
    var p := w.passes[pass];
    JobAccounting.NextIdIsUnused(w);
    assert p.schedule in w.store.schedules && p.schedule < w.store.nextId;
    ClaimsAdd(w.store, p.schedule, p.copy.request, BatchOf(p));
  }

  lemma OnlyPassesClaim(w: World, step: Step, s: Id)
    requires ScheduleCoverage.Inv(w) && Can(w, step)
    ensures Claimed(Do(w, step).store.jobs, s) == ClaimedAfter(w, step, s)
  {
    hide Claimed, BatchOf, CanSend, DoSend, CanJob, DoJob, CanOther, DoOther, DoClaimPass, SetCursor, JobAccounting.Inv;
    JobAccounting.NextIdIsUnused(w);
    hide ScheduleCoverage.Inv;
    match step
    case Jobs(js) => JobStepClaimsNothing(w, js, s);
    case Sends(ss) => SendStepsOnlySend(w, ss);
    case Others(os) => OtherStepClaimsNothing(w, os, s);
    case Passes(ps) =>
      if ps.ClaimPass? {
        PassClaims(w, ps.pass, s);
      }
  }

  /** Schedules are not removed, keep their calendar, and appear under fresh identifiers. */
  ghost predicate SameSchedule(w: World, w': World, s: Id) {
    if s in w.store.schedules then
      && s in w'.store.schedules
      && w'.store.schedules[s].calendar == w.store.schedules[s].calendar
      && w'.store.schedules[s].createdAt == w.store.schedules[s].createdAt
    else s in w'.store.schedules ==> s == w.store.nextId
  }

  /** An unclaimed pass in flight after a step was in flight before it, or has just begun. */
  ghost predicate PassesContinue(w: World, w': World) {
    && w.now <= w'.now
    && (forall i :: i in w'.passes && !w'.passes[i].claimed ==>
          (i in w.passes && w'.passes[i] == w.passes[i]) || w'.passes[i].now == w.now)
  }

  lemma JobStepContinues(w: World, step: JobStep, s: Id)
    requires ScheduleCoverage.Inv(w) && CanJob(w, step)
    ensures SameSchedule(w, DoJob(w, step), s) && PassesContinue(w, DoJob(w, step))
  {
    JobStepSchedulesFollow(w, step);
    hide ScheduleCoverage.Inv, CanJob, DoJob, Claimed;
  }

  lemma OtherStepContinues(w: World, step: OtherStep, s: Id)
    requires CanOther(w, step) && w.store.nextId !in w.store.schedules
    ensures SameSchedule(w, DoOther(w, step), s) && PassesContinue(w, DoOther(w, step))
  {
    hide EligibleReports;
  }

  lemma PassStepContinues(w: World, step: PassStep, s: Id)
    requires CanPass(w, step)
    ensures SameSchedule(w, DoPass(w, step), s) && PassesContinue(w, DoPass(w, step))
  {
    hide BatchOf;
    if step.ClaimPass? {
      var p := w.passes[step.pass];
      ClaimOccurrencesOnlyAdds(w.store, p.schedule, p.copy.request, BatchOf(p));
    }
  }

  lemma StepContinues(w: World, step: Step, s: Id)
    requires ScheduleCoverage.Inv(w) && Can(w, step)
    ensures SameSchedule(w, Do(w, step), s) && PassesContinue(w, Do(w, step))
  {
    assert w.store.nextId !in w.store.schedules;
    hide ScheduleCoverage.Inv, CanSend, DoSend, CanJob, DoJob, CanOther, DoOther, CanPass, DoPass;
    match step
    case Jobs(js) => JobStepContinues(w, js, s);
    case Sends(ss) => SendStepsOnlySend(w, ss);
    case Others(os) => OtherStepContinues(w, os, s);
    case Passes(ps) => PassStepContinues(w, ps, s);
  }

  // ----- Skipped means skipped -----

  /** The occurrence has no job, five newer ones were due at `t`, and no unclaimed pass is from before `t`. */
  ghost predicate Skipped(w: World, s: Id, i: int, t: int) {
    && s in w.store.schedules
    && w.store.schedules[s].calendar(i + MAX_BACKFILL_OCCURRENCES) <= t <= w.now
    && w.store.schedules[s].calendar(i) !in Claimed(w.store.jobs, s)
    && (forall k :: k in w.passes && w.passes[k].schedule == s && !w.passes[k].claimed ==> t <= w.passes[k].now)
  }

  lemma PassSkips(w: World, pass: Id, s: Id, i: int, t: int)
    requires ScheduleCoverage.Inv(w) && Skipped(w, s, i, t)
    requires pass in w.passes && w.passes[pass].schedule == s && !w.passes[pass].claimed
    ensures w.store.schedules[s].calendar(i) !in Members(BatchOf(w.passes[pass]))
  {
    var p := w.passes[pass];
    assert PassFits(p, w.store.schedules[s], Claimed(w.store.jobs, s), w.now);
    assert BatchOf(p) == Batch(p.copy.calendar, Base(p.copy), p.now);
    SkippedStaysOut(p.copy.calendar, Base(p.copy), t, p.now, i);
  }

  lemma SkippedByOneStep(w: World, step: Step, s: Id, i: int, t: int)
    requires ScheduleCoverage.Inv(w) && Can(w, step) && Skipped(w, s, i, t)
    ensures Skipped(Do(w, step), s, i, t)
  {
    OnlyPassesClaim(w, step, s);
    StepContinues(w, step, s);
    if step.Passes? && step.ps.ClaimPass? && w.passes[step.ps.pass].schedule == s {
      PassSkips(w, step.ps.pass, s, i, t);
    }
    hide ScheduleCoverage.Inv, Can, Do, Claimed, BatchOf;
  }

  /**
   * An occurrence without a job that had five newer ones due at `t`, as when a pass at `t` has left it out, never gets
   * a job, provided no pass that has not claimed yet is from before `t`.
   */
  lemma {:induction false} SkippedStaysSkipped(ws: seq<World>, steps: seq<Step>, m: nat, n: nat, s: Id, i: int, t: int)
    requires IsRun(ws, steps) && Init(ws[0]) && m <= n < |ws| && s in ws[m].store.schedules
    requires ws[m].store.schedules[s].calendar(i + MAX_BACKFILL_OCCURRENCES) <= t <= ws[m].now
    requires !OccurrenceTaken(ws[m].store.jobs, s, ws[m].store.schedules[s].calendar(i))
    requires forall k :: k in ws[m].passes && ws[m].passes[k].schedule == s && !ws[m].passes[k].claimed ==>
               t <= ws[m].passes[k].now
    ensures Skipped(ws[n], s, i, t) && s in ws[n].store.schedules
    ensures !OccurrenceTaken(ws[n].store.jobs, s, ws[n].store.schedules[s].calendar(i))
    decreases n
  {
    hide Can, Do, Init, Skipped, Claimed, OccurrenceTaken, ScheduleCoverage.Inv;
    if n > m {
      SkippedStaysSkipped(ws, steps, m, n - 1, s, i, t);
      RunKeepsInv(ws, steps, n - 1);
      SkippedByOneStep(ws[n - 1], steps[n - 1], s, i, t);
    } else {
      SkippedHere(ws[m], s, i, t);
    }
    SkippedMeans(ws[n], s, i, t);
  }

  lemma SkippedHere(w: World, s: Id, i: int, t: int)
    requires s in w.store.schedules && !OccurrenceTaken(w.store.jobs, s, w.store.schedules[s].calendar(i))
    requires w.store.schedules[s].calendar(i + MAX_BACKFILL_OCCURRENCES) <= t <= w.now
    requires forall k :: k in w.passes && w.passes[k].schedule == s && !w.passes[k].claimed ==> t <= w.passes[k].now
    ensures Skipped(w, s, i, t)
  {
    ClaimedHas(w.store.jobs, s, w.store.schedules[s].calendar(i));
  }

  lemma SkippedMeans(w: World, s: Id, i: int, t: int)
    requires Skipped(w, s, i, t)
    ensures s in w.store.schedules && !OccurrenceTaken(w.store.jobs, s, w.store.schedules[s].calendar(i))
  {
    ClaimedHas(w.store.jobs, s, w.store.schedules[s].calendar(i));
  }

  // ----- Nothing is skipped without need -----

  /** A pass that finds at most five occurrences due. */
  predicate IsPunctual(p: Pass) {
    Latest(p.copy.calendar, p.now) - Latest(p.copy.calendar, Base(p.copy)) <= MAX_BACKFILL_OCCURRENCES
  }

  ghost predicate PassesArePunctual(w: World, s: Id) {
    forall k :: k in w.passes && w.passes[k].schedule == s ==> IsPunctual(w.passes[k])
  }

  ghost predicate NoneMissing(w: World, s: Id) {
    s in w.store.schedules ==>
      NoGaps(w.store.schedules[s].calendar, w.store.schedules[s].createdAt, Claimed(w.store.jobs, s))
  }

  lemma NoGapsByOneStep(w: World, step: Step, s: Id)
    requires ScheduleCoverage.Inv(w) && Can(w, step) && PassesArePunctual(w, s) && NoneMissing(w, s)
    requires s in w.store.schedules
    ensures NoGaps(w.store.schedules[s].calendar, w.store.schedules[s].createdAt, ClaimedAfter(w, step, s))
  {
    var row := w.store.schedules[s];
    if step.Passes? && step.ps.ClaimPass? && w.passes[step.ps.pass].schedule == s {
      var p := w.passes[step.ps.pass];
      assert PassFits(p, row, Claimed(w.store.jobs, s), w.now) && IsPunctual(p);
      assert BatchOf(p) == Batch(row.calendar, Base(p.copy), p.now);
      SmallBatchLeavesNoGaps(row.calendar, row.createdAt, Base(p.copy), p.now, Claimed(w.store.jobs, s),
                             ClaimedAfter(w, step, s));
    }
  }

  lemma UnknownScheduleHasNoJobs(w: World)
    requires ScheduleCoverage.Inv(w)
    ensures Claimed(w.store.jobs, w.store.nextId) == {}
    ensures forall k :: k in w.passes ==> w.passes[k].schedule != w.store.nextId
  {
    assert JobsFit(w.store.jobs, w.store.nextId);
    forall k | k in w.passes
      ensures w.passes[k].schedule != w.store.nextId
    {
      assert w.passes[k].schedule in w.store.schedules;
    }
  }

  lemma NoneMissingByOneStep(w: World, step: Step, s: Id)
    requires ScheduleCoverage.Inv(w) && Can(w, step) && PassesArePunctual(w, s) && NoneMissing(w, s)
    ensures NoneMissing(Do(w, step), s)
  {
    hide ScheduleCoverage.Inv, CanJob, CanSend, CanOther, Do, PassesArePunctual, Claimed;
    OnlyPassesClaim(w, step, s);
    StepContinues(w, step, s);
    if s in w.store.schedules {
      NoGapsByOneStep(w, step, s);
    } else if s in Do(w, step).store.schedules {
      UnknownScheduleHasNoJobs(w);
      assert ClaimedAfter(w, step, s) == {};
    }
  }

  /** When no pass over `s` ever has more than five due, every occurrence up to any claimed one has its job. */
  lemma PunctualPassesMissNothing(ws: seq<World>, steps: seq<Step>, n: nat, s: Id, i: int, t: int)
    requires IsRun(ws, steps) && Init(ws[0]) && n < |ws|
    requires forall k :: 0 <= k < n ==> PassesArePunctual(ws[k], s)
    requires s in ws[n].store.schedules && OccurrenceTaken(ws[n].store.jobs, s, t)
    requires ws[n].store.schedules[s].createdAt < ws[n].store.schedules[s].calendar(i) <= t
    ensures OccurrenceTaken(ws[n].store.jobs, s, ws[n].store.schedules[s].calendar(i))
  {
    PunctualRunKeeps(ws, steps, n, s);
    ClaimedHas(ws[n].store.jobs, s, t);
    ClaimedHas(ws[n].store.jobs, s, ws[n].store.schedules[s].calendar(i));
  }

  lemma {:induction false} PunctualRunKeeps(ws: seq<World>, steps: seq<Step>, n: nat, s: Id)
    requires IsRun(ws, steps) && Init(ws[0]) && n < |ws|
    requires forall k :: 0 <= k < n ==> PassesArePunctual(ws[k], s)
    ensures NoneMissing(ws[n], s)
  {
    if n > 0 {
      hide Can, Do, Init, PassesArePunctual, NoneMissing;
      PunctualRunKeeps(ws, steps, n - 1, s);
      RunKeepsInv(ws, steps, n - 1);
      NoneMissingByOneStep(ws[n - 1], steps[n - 1], s);
    }
  }
}
