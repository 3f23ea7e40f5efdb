/**
From the trigger to the report: an occurrence of a schedule, or a request that
carries an idempotency key, is reported once at most, however often passes,
messages and recoveries repeat.
*/
module ReportsOnce {
  import opened Wrappers
  import opened Models
  import opened Transactions
  import opened World
  import opened JobSafety
  import opened ScheduleCoverage
  import JobAccounting
  import Outbox

  // ----- No key has two jobs -----

  /** Two jobs never carry the same key. */
  ghost predicate KeysDiffer(jobs: map<Id, Job>) {
    forall j, k :: j in jobs && k in jobs && j != k && jobs[j].idempotencyKey.Some? ==>
      jobs[j].idempotencyKey != jobs[k].idempotencyKey
  }

  /** Every job was there with its key, or has none. */
  ghost predicate NoNewKeys(before: map<Id, Job>, after: map<Id, Job>) {
    forall j :: j in after ==>
      if j in before then after[j].idempotencyKey == before[j].idempotencyKey else after[j].idempotencyKey.None?
  }

  lemma NoNewKeysDiffer(before: map<Id, Job>, after: map<Id, Job>)
    requires KeysDiffer(before) && NoNewKeys(before, after)
    ensures KeysDiffer(after)
  {
  }

  lemma {:induction false} ClaimsHaveNoKeys(store: Store, s: Id, request: Request, ts: seq<int>)
    requires forall j :: j in store.jobs ==> j < store.nextId
    ensures NoNewKeys(store.jobs, ClaimOccurrences(store, s, request, ts).jobs)
    decreases |ts|
  {
    if ts != [] {
      ClaimsHaveNoKeys(store, s, request, ts[..|ts| - 1]);
      ClaimOccurrencesGrows(store, s, request, ts[..|ts| - 1]);
    }
  }

  lemma SubmitHasItsKey(w: World, request: Request, key: Option<string>)
    requires KeysDiffer(w.store.jobs) && !KeyTaken(w.store.jobs, key)
    ensures KeysDiffer(DoSubmit(w, request, key).store.jobs)
  {
  }

  lemma StartKeepsKeys(w: World, worker: Id, job: Id)
    ensures NoNewKeys(w.store.jobs, DoStartAttempt(w, worker, job).store.jobs)
  {
    hide JobLedgerOf;
  }

  lemma FailureKeepsKeys(w: World, worker: Id, reason: string)
    requires worker in w.workers
    ensures NoNewKeys(w.store.jobs, DoFailAttempt(w, worker, reason).store.jobs)
  {
    hide JobLedgerOf;
  }

  lemma JobStepKeepsKeys(w: World, step: JobStep)
    requires CanJob(w, step) && !step.Submit?
    ensures NoNewKeys(w.store.jobs, DoJob(w, step).store.jobs)
  {
    hide DoStartAttempt, DoFailAttempt, RecoveredLedger, StuckJobs, Enqueue, SetCursor, SucceededSchedule;
    match step
    case StartAttempt(worker, job) => StartKeepsKeys(w, worker, job);
    case FailAttempt(worker, reason) => FailureKeepsKeys(w, worker, reason);
    case _ =>
  }

  lemma PassStepKeepsKeys(w: World, step: PassStep)
    requires CanPass(w, step) && forall j :: j in w.store.jobs ==> j < w.store.nextId
    ensures NoNewKeys(w.store.jobs, DoPass(w, step).store.jobs)
  {
    hide SetCursor, BatchOf;
    if step.ClaimPass? {
      var p := w.passes[step.pass];
      ClaimsHaveNoKeys(w.store, p.schedule, p.copy.request, BatchOf(p));
    }
  }

  lemma OtherStepKeepsKeys(w: World, step: OtherStep)
    requires CanOther(w, step)
    ensures NoNewKeys(w.store.jobs, DoOther(w, step).store.jobs)
  {
    hide EligibleReports;
  }

  /** A job keeps its key. */
  lemma KeyStays(w: World, step: Step, j: Id)
    requires JobAccounting.Inv(w) && Can(w, step) && j in w.store.jobs && j in Do(w, step).store.jobs
    ensures Do(w, step).store.jobs[j].idempotencyKey == w.store.jobs[j].idempotencyKey
  {
    JobAccounting.NextIdIsUnused(w);
    hide JobAccounting.Inv, DoJob, CanPass, DoPass, CanSend, DoSend, CanOther, DoOther;
    match step
    case Jobs(js) =>
      if js.Submit? {
        SubmitSparesOthers(w, js, j);
      } else {
        JobStepKeepsKeys(w, js);
      }
    case Passes(ps) => PassStepKeepsKeys(w, ps);
    case Sends(ss) => SendStepsOnlySend(w, ss);
    case Others(os) => OtherStepKeepsKeys(w, os);
  }

  lemma SubmitSparesOthers(w: World, step: JobStep, j: Id)
    requires CanJob(w, step) && step.Submit? && w.store.nextId !in w.store.jobs && j in w.store.jobs
    ensures j in DoJob(w, step).store.jobs && DoJob(w, step).store.jobs[j] == w.store.jobs[j]
  {
  }

  lemma StepKeepsKeys(w: World, step: Step)
    requires JobAccounting.Inv(w) && Can(w, step) && KeysDiffer(w.store.jobs)
    ensures KeysDiffer(Do(w, step).store.jobs)
  {
    JobAccounting.NextIdIsUnused(w);
    hide JobAccounting.Inv, KeysDiffer, DoJob, CanPass, DoPass, CanSend, DoSend, CanOther, DoOther;
    if step.Jobs? && step.js.Submit? {
      SubmitStep(w, step.js);
    } else {
      match step {
        case Jobs(js) => JobStepKeepsKeys(w, js);
        case Passes(ps) => PassStepKeepsKeys(w, ps);
        case Sends(ss) => SendStepsOnlySend(w, ss);
        case Others(os) => OtherStepKeepsKeys(w, os);
      }
      NoNewKeysDiffer(w.store.jobs, Do(w, step).store.jobs);
    }
  }

  lemma SubmitStep(w: World, step: JobStep)
    requires CanJob(w, step) && step.Submit? && KeysDiffer(w.store.jobs)
    ensures KeysDiffer(DoJob(w, step).store.jobs)
  {
    hide KeysDiffer, DoSubmit;
    SubmitHasItsKey(w, step.request, step.key);
  }

  lemma {:induction false} RunKeepsKeys(ws: seq<World>, steps: seq<Step>, n: nat)
    requires IsRun(ws, steps) && Init(ws[0]) && n < |ws|
    ensures KeysDiffer(ws[n].store.jobs)
  {
    if n > 0 {
      hide Can, Do, Init, KeysDiffer, JobAccounting.Inv;
      RunKeepsKeys(ws, steps, n - 1);
      JobAccounting.RunKeepsInv(ws, steps, n - 1);
      StepKeepsKeys(ws[n - 1], steps[n - 1]);
    }
  }

  // ----- One report -----

  predicate IsOf(job: Job, s: Id, t: int) {
    job.scheduleId == Some(s) && job.scheduledFor == Some(t)
  }

  predicate IsReportOfOccurrence(w: World, r: Id, s: Id, t: int) {
    && r in w.history.commits && w.history.commits[r].job in w.store.jobs
    && IsOf(w.store.jobs[w.history.commits[r].job], s, t)
  }

  predicate IsReportOfRequest(w: World, r: Id, key: string) {
    && r in w.history.commits && w.history.commits[r].job in w.store.jobs
    && w.store.jobs[w.history.commits[r].job].idempotencyKey == Some(key)
  }

  lemma OneReportForEachJob(ws: seq<World>, steps: seq<Step>, n: nat, r: Id, q: Id)
    requires IsTimelyRun(ws, steps) && n < |ws| && r in ws[n].history.commits && q in ws[n].history.commits
    requires ws[n].history.commits[r].job == ws[n].history.commits[q].job
    ensures r == q
  {
    Outbox.ReportsAreAtomic(ws, steps, n, r);
  }

  /** Under the premises of job safety: an occurrence is reported once at most, and exactly when its job succeeds. */
  lemma OccurrenceIsReportedOnce(ws: seq<World>, steps: seq<Step>, n: nat, s: Id, t: int)
    requires IsTimelyRun(ws, steps) && n < |ws|
    ensures forall r, q | IsReportOfOccurrence(ws[n], r, s, t) && IsReportOfOccurrence(ws[n], q, s, t) :: r == q
    ensures forall j :: j in ws[n].store.jobs && IsOf(ws[n].store.jobs[j], s, t) ==>
              (ws[n].store.jobs[j].status == Succeeded <==> exists r :: IsReportOfOccurrence(ws[n], r, s, t))
  {
    var w := ws[n];
    OneJobForEachOccurrence(ws, steps, n);
    hide IsTimelyRun;
    forall r, q | IsReportOfOccurrence(w, r, s, t) && IsReportOfOccurrence(w, q, s, t)
      ensures r == q
    {
      OneReportForEachJob(ws, steps, n, r, q);
    }
    forall j | j in w.store.jobs && IsOf(w.store.jobs[j], s, t)
      ensures w.store.jobs[j].status == Succeeded <==> exists r :: IsReportOfOccurrence(w, r, s, t)
    {
      Outbox.SuccessHasItsReport(ws, steps, n, j);
      if w.store.jobs[j].status == Succeeded {
        var r :| r in w.history.commits && w.history.commits[r].job == j;
        assert IsReportOfOccurrence(w, r, s, t);
      }
      if r :| IsReportOfOccurrence(w, r, s, t) {
        assert w.history.commits[r].job == j;
      }
    }
  }

  lemma OneJobForEachOccurrence(ws: seq<World>, steps: seq<Step>, n: nat)
    requires IsTimelyRun(ws, steps) && n < |ws|
    ensures OneJobEach(ws[n].store.jobs)
  {
    ScheduleCoverage.RunKeepsInv(ws, steps, n);
    hide IsRun, Init;
  }

  /** And so is a request with an idempotency key. */
  lemma RequestIsReportedOnce(ws: seq<World>, steps: seq<Step>, n: nat, key: string)
    requires IsTimelyRun(ws, steps) && n < |ws|
    ensures forall r, q | IsReportOfRequest(ws[n], r, key) && IsReportOfRequest(ws[n], q, key) :: r == q
    ensures forall j :: j in ws[n].store.jobs && ws[n].store.jobs[j].idempotencyKey == Some(key) ==>
              (ws[n].store.jobs[j].status == Succeeded <==> exists r :: IsReportOfRequest(ws[n], r, key))
  {
    var w := ws[n];
    RunKeepsKeys(ws, steps, n);
    hide IsTimelyRun;
    forall r, q | IsReportOfRequest(w, r, key) && IsReportOfRequest(w, q, key)
      ensures r == q
    {
      OneReportForEachJob(ws, steps, n, r, q);
    }
    forall j | j in w.store.jobs && w.store.jobs[j].idempotencyKey == Some(key)
      ensures w.store.jobs[j].status == Succeeded <==> exists r :: IsReportOfRequest(w, r, key)
    {
      Outbox.SuccessHasItsReport(ws, steps, n, j);
      if w.store.jobs[j].status == Succeeded {
        var r :| r in w.history.commits && w.history.commits[r].job == j;
        assert IsReportOfRequest(w, r, key);
      }
      if r :| IsReportOfRequest(w, r, key) {
        assert w.history.commits[r].job == j;
      }
    }
  }
}
