/**
Why job safety needs its premises. The final writes of an attempt and of a
recovery carry no ownership check. This says, with no premise at all, exactly
when a finished job can still be left: while somebody holds it. And it shows a
run in which that happens although every worker is timely: two recovery sweeps
overlap.
*/
module LateWrites {
  import opened Wrappers
  import opened Models
  import opened Transactions
  import opened World
  import JobAccounting
  import opened JobSafety

  // ----- Who holds a finished job -----

  ghost predicate WorkedOn(w: World, j: Id) {
    exists i :: i in w.workers && WorksOn(w.workers[i], j)
  }

  /** The sweep has selected the job, and would not just fail a failed job again. */
  predicate Threatens(sweep: Sweep, j: Id, status: JobStatus) {
    j in sweep.copies && (status == JobStatus.Failed ==> sweep.copies[j].attempts < MAX_JOB_ATTEMPTS)
  }

  ghost predicate SweptUp(w: World, j: Id)
    requires j in w.store.jobs
  {
    exists s :: s in w.sweeps && Threatens(w.sweeps[s], j, w.store.jobs[j].status)
  }

  ghost predicate Held(w: World, j: Id)
    requires j in w.store.jobs
  {
    WorkedOn(w, j) || SweptUp(w, j)
  }

  /** The step can happen, and changes the status of `j`. */
  ghost predicate Leaves(w: World, step: Step, j: Id)
    requires j in w.store.jobs
  {
    Can(w, step) && (j in Do(w, step).store.jobs ==> Do(w, step).store.jobs[j].status != w.store.jobs[j].status)
  }

  // ----- One step -----

  /** What a step writes to the status of `j`, if it is the end of an attempt or of a recovery. */
  predicate WritesOther(w: World, step: Step, j: Id)
    requires j in w.store.jobs
  {
    match step
    case Jobs(FailAttempt(worker, _)) =>
      worker in w.workers && w.workers[worker].job == j
      && StatusAfterFailure(w.workers[worker].copy.attempts) != w.store.jobs[j].status
    case Jobs(CompleteAttempt(worker, _)) =>
      worker in w.workers && w.workers[worker].job == j && w.store.jobs[j].status == JobStatus.Failed
    case Jobs(CommitRecovery(sweep)) =>
      sweep in w.sweeps && j in w.sweeps[sweep].copies
      && StatusAfterFailure(w.sweeps[sweep].copies[j].attempts) != w.store.jobs[j].status
    case _ => false
  }

  lemma FinishedByOneStep(w: World, step: Step, j: Id)
    requires JobAccounting.Inv(w) && Can(w, step)
    requires j in w.store.jobs && w.store.jobs[j].Terminal()
    ensures j in Do(w, step).store.jobs
    ensures Do(w, step).store.jobs[j].status != w.store.jobs[j].status <==> WritesOther(w, step, j)
  {
    JobAccounting.NextIdIsUnused(w);
    hide JobAccounting.Inv, SetCursor, CanJob, DoJob, CanSend, DoSend, CanOther, DoOther;
    match step
    case Jobs(js) => JobStepChanges(w, js, j);
    case Passes(ps) =>
      if ps.ClaimPass? {
        var p := w.passes[ps.pass];
        ClaimOccurrencesGrows(w.store, p.schedule, p.copy.request, BatchOf(p));
      } else {
        PassStepsLeaveJobs(w, ps);
      }
    case Sends(ss) => SendStepsOnlySend(w, ss);
    case Others(os) =>
      if DeletesReports(os) {
        DeletionsOnlyDelete(w, os);
      } else {
        OtherStepsLeaveJobs(w, os);
      }
  }

  lemma JobStepChanges(w: World, step: JobStep, j: Id)
    requires w.store.nextId !in w.store.jobs && CanJob(w, step)
    requires j in w.store.jobs && w.store.jobs[j].Terminal()
    ensures j in DoJob(w, step).store.jobs
    ensures DoJob(w, step).store.jobs[j].status != w.store.jobs[j].status <==> WritesOther(w, Jobs(step), j)
  {
    hide SetCursor;
  }

  // ----- At risk exactly while held -----

  lemma LeavingNeedsAHolder(w: World, step: Step, j: Id)
    requires JobAccounting.Inv(w) && j in w.store.jobs && w.store.jobs[j].Terminal() && Leaves(w, step, j)
    ensures Held(w, j)
  {
    FinishedByOneStep(w, step, j);
    hide JobAccounting.Inv, Do;
    match step
    case Jobs(FailAttempt(worker, _)) => assert WorksOn(w.workers[worker], j);
    case Jobs(CompleteAttempt(worker, _)) => assert WorksOn(w.workers[worker], j);
    case Jobs(CommitRecovery(sweep)) => assert Threatens(w.sweeps[sweep], j, w.store.jobs[j].status);
    case _ =>
  }

  lemma {:induction false} ActiveCanBeListed(destinations: map<Id, Destination>, ids: set<Id>) returns (ds: seq<Id>)
    requires ids <= destinations.Keys
    ensures forall d :: d in ds <==> d in ids && destinations[d].active
    ensures forall i, j :: 0 <= i < j < |ds| ==> ds[i] != ds[j]
    decreases |ids|
  {
    if ids == {} {
      ds := [];
    } else {
      var x :| x in ids;
      ds := ActiveCanBeListed(destinations, ids - {x});
      if destinations[x].active {
        ds := ds + [x];
      }
    }
  }

  /** A worker fails a succeeded job, or completes a failed one. */
  lemma WorkerCanLeave(w: World, worker: Id, j: Id) returns (step: Step)
    requires JobAccounting.Inv(w) && j in w.store.jobs && w.store.jobs[j].Terminal()
    requires worker in w.workers && WorksOn(w.workers[worker], j)
    ensures Leaves(w, step, j)
  {
    if w.store.jobs[j].status == Succeeded {
      step := Jobs(FailAttempt(worker, ""));
    } else {
      var ds := ActiveCanBeListed(w.store.destinations, w.store.destinations.Keys);
      assert ListsActive(w.store.destinations, ds);
      step := Jobs(CompleteAttempt(worker, ds));
    }
    FinishedByOneStep(w, step, j);
    hide JobAccounting.Inv, Do;
  }

  lemma SweepCanLeave(w: World, sweep: Id, j: Id) returns (step: Step)
    requires JobAccounting.Inv(w) && j in w.store.jobs && w.store.jobs[j].Terminal()
    requires sweep in w.sweeps && Threatens(w.sweeps[sweep], j, w.store.jobs[j].status)
    ensures Leaves(w, step, j)
  {
    step := Jobs(CommitRecovery(sweep));
    FinishedByOneStep(w, step, j);
    hide JobAccounting.Inv, Do;
  }

  /**
   * With no premise at all: some step that can happen now takes a finished job to another status exactly when a
   * worker still generates for it or a sweep still has it selected.
   */
  lemma FinishedIsAtRiskExactlyWhenHeld(w: World, j: Id)
    requires JobAccounting.Inv(w) && j in w.store.jobs && w.store.jobs[j].Terminal()
    ensures (exists step :: Leaves(w, step, j)) <==> Held(w, j)
  {
    hide Leaves, JobAccounting.Inv;
    if step :| Leaves(w, step, j) {
      LeavingNeedsAHolder(w, step, j);
    }
    if WorkedOn(w, j) {
      var worker :| worker in w.workers && WorksOn(w.workers[worker], j);
      var step := WorkerCanLeave(w, worker, j);
    } else if SweptUp(w, j) {
      var sweep :| sweep in w.sweeps && Threatens(w.sweeps[sweep], j, w.store.jobs[j].status);
      var step := SweepCanLeave(w, sweep, j);
    }
  }

  // ----- Nobody takes hold of a finished job -----

  /** Whoever holds `j` afterwards held it before. */
  ghost predicate NoNewHolders(w: World, w': World, j: Id) {
    && (forall i :: i in w'.workers && WorksOn(w'.workers[i], j) ==> i in w.workers && WorksOn(w.workers[i], j))
    && (forall s :: s in w'.sweeps && j in w'.sweeps[s].copies ==> s in w.sweeps && w.sweeps[s] == w'.sweeps[s])
  }

  lemma StartBringsNoHolders(w: World, worker: Id, job: Id, j: Id)
    requires j in w.store.jobs && w.store.jobs[j].Terminal()
    ensures NoNewHolders(w, DoStartAttempt(w, worker, job), j)
  {
    hide ClaimedJob, JobLedgerOf;
    var w' := DoStartAttempt(w, worker, job);
    assert w'.sweeps == w.sweeps;
    assert w'.workers == if JobClaimable(w.store.jobs, job) then
                           w.workers[worker := Worker(job, ClaimedJob(w.store.jobs[job], w.now),
                                                      Generating)] else w.workers;
    hide DoStartAttempt;
  }

  lemma FailureBringsNoHolders(w: World, worker: Id, reason: string, j: Id)
    requires worker in w.workers
    ensures NoNewHolders(w, DoFailAttempt(w, worker, reason), j)
  {
    hide EndAttempt, JobLedgerOf;
    var w' := DoFailAttempt(w, worker, reason);
    assert w'.sweeps == w.sweeps;
    assert forall i :: i in w'.workers && w'.workers[i].phase == Generating ==>
      i in w.workers && w'.workers[i] == w.workers[i];
    hide DoFailAttempt;
  }

  lemma JobStepsBringNoHolders(w: World, step: JobStep, j: Id)
    requires CanJob(w, step) && j in w.store.jobs && w.store.jobs[j].Terminal()
    ensures NoNewHolders(w, DoJob(w, step), j)
  {
    hide DoStartAttempt, DoFailAttempt, DoSubmit, Recover, RecoveredLedger, SetCursor, CompleteJob;
    match step
    case StartAttempt(worker, job) => StartBringsNoHolders(w, worker, job, j);
    case FailAttempt(worker, reason) => FailureBringsNoHolders(w, worker, reason, j);
    case Submit(request, key) => SubmitKeepsWorkers(w, request, key);
    case _ =>
  }

  lemma SubmitKeepsWorkers(w: World, request: Request, key: Option<string>)
    ensures DoSubmit(w, request, key).workers == w.workers && DoSubmit(w, request, key).sweeps == w.sweeps
  {
  }

  lemma PassStepsKeepWorkers(w: World, step: PassStep)
    requires CanPass(w, step)
    ensures DoPass(w, step).workers == w.workers && DoPass(w, step).sweeps == w.sweeps
  {
    hide ClaimOccurrences, SetCursor, BatchOf;
  }

  lemma OtherStepsKeepWorkers(w: World, step: OtherStep)
    requires CanOther(w, step)
    ensures DoOther(w, step).workers == w.workers && DoOther(w, step).sweeps == w.sweeps
  {
    hide EligibleReports, DeleteReports, DeleteDestination;
  }

  lemma StepsBringNoHolders(w: World, step: Step, j: Id)
    requires Can(w, step) && j in w.store.jobs && w.store.jobs[j].Terminal()
    ensures NoNewHolders(w, Do(w, step), j)
  {
    hide WorksOn, CanJob, DoJob, CanSend, DoSend, CanPass, DoPass, CanOther, DoOther;
    match step
    case Jobs(js) => JobStepsBringNoHolders(w, js, j);
    case Sends(ss) => SendStepsOnlySend(w, ss);
    case Passes(ps) => PassStepsKeepWorkers(w, ps);
    case Others(os) => OtherStepsKeepWorkers(w, os);
  }

  lemma StatusStays(w: World, step: Step, j: Id)
    requires JobAccounting.Inv(w) && Can(w, step)
    requires j in w.store.jobs && w.store.jobs[j].Terminal() && !Held(w, j)
    ensures j in Do(w, step).store.jobs && Do(w, step).store.jobs[j].status == w.store.jobs[j].status
  {
    FinishedByOneStep(w, step, j);
    hide JobAccounting.Inv, Held, Can, Do;
    if Leaves(w, step, j) {
      LeavingNeedsAHolder(w, step, j);
    }
  }

  lemma StaysUnheld(w: World, w': World, j: Id)
    requires j in w.store.jobs && !Held(w, j) && NoNewHolders(w, w', j)
    requires j in w'.store.jobs && w'.store.jobs[j].status == w.store.jobs[j].status
    ensures !Held(w', j)
  {
  }

  lemma UnheldByOneStep(w: World, step: Step, j: Id)
    requires JobAccounting.Inv(w) && Can(w, step)
    requires j in w.store.jobs && w.store.jobs[j].Terminal() && !Held(w, j)
    ensures j in Do(w, step).store.jobs && Do(w, step).store.jobs[j].status == w.store.jobs[j].status
    ensures !Held(Do(w, step), j)
  {
    hide JobAccounting.Inv, Held, Can, Do, NoNewHolders;
    StatusStays(w, step, j);
    StepsBringNoHolders(w, step, j);
    StaysUnheld(w, Do(w, step), j);
  }

  /** In every run: a finished job that nobody holds stays finished for good, with no premise at all. */
  lemma {:induction false} UnheldStaysFinished(ws: seq<World>, steps: seq<Step>, i: nat, n: nat, j: Id)
    requires IsRun(ws, steps) && Init(ws[0]) && i <= n < |ws|
    requires j in ws[i].store.jobs && ws[i].store.jobs[j].Terminal() && !Held(ws[i], j)
    ensures j in ws[n].store.jobs && ws[n].store.jobs[j].status == ws[i].store.jobs[j].status && !Held(ws[n], j)
    decreases n
  {
    hide Can, Do, Init, Held, JobAccounting.Inv;
    if i < n {
      UnheldStaysFinished(ws, steps, i, n - 1, j);
      JobAccounting.RunKeepsInv(ws, steps, n - 1);
      assert ws[n] == Do(ws[n - 1], steps[n - 1]);
      UnheldByOneStep(ws[n - 1], steps[n - 1], j);
    }
  }

  // ----- A run that reopens a succeeded job -----

  /** A run whose workers are timely throughout; nothing is said of its sweeps. */
  ghost predicate IsHonestRun(ws: seq<World>, steps: seq<Step>) {
    && IsRun(ws, steps) && Init(ws[0])
    && (forall i :: 0 <= i < |ws| ==> WorkersAreTimely(ws[i].workers, ws[i].now))
  }

  lemma TakeHonestly(ws: seq<World>, steps: seq<Step>, step: Step) returns (ws': seq<World>, steps': seq<Step>)
    requires ws != [] && IsHonestRun(ws, steps) && Can(Last(ws), step)
    requires WorkersAreTimely(Do(Last(ws), step).workers, Do(Last(ws), step).now)
    ensures IsHonestRun(ws', steps') && |ws'| == |ws| + 1
    ensures Last(ws') == Do(Last(ws), step) && ws'[|ws| - 1] == Last(ws)
  {
    hide Can, Do, WorkersAreTimely;
    Extend(ws, steps, step);
    ws', steps' := ws + [Do(Last(ws), step)], steps + [step];
  }

  /** One job in the store, in the given state, and nothing else of interest. */
  predicate OneJob(w: World, status: JobStatus, attempts: nat, workers: map<Id, Worker>, sweeps: map<Id, Sweep>) {
    && w.store.jobs.Keys == {0} && w.store.jobs[0].status == status && w.store.jobs[0].attempts == attempts
    && w.store.destinations == map[] && w.workers == workers && w.sweeps == sweeps
  }

  lemma SubmitOneJob(request: Request) returns (ws: seq<World>, steps: seq<Step>)
    ensures ws != [] && IsHonestRun(ws, steps) && OneJob(Last(ws), Queued, 0, map[], map[])
  {
    var w := World(Store(map[], map[], map[], map[], map[], 0), 0, map[], map[], map[], map[], map[], multiset{},
                   multiset{},
                   History(map[], map[], map[]));
    ws, steps := [w], [];
    assert IsHonestRun(ws, steps);
    hide IsHonestRun;
    ws, steps := TakeHonestly(ws, steps, Jobs(Submit(request, None)));
  }

  /** A message arrives and a worker begins the next attempt. */
  lemma StartTheJob(ws: seq<World>, steps: seq<Step>, attempts: nat, sweeps: map<Id, Sweep>)
    returns (ws': seq<World>, steps': seq<Step>)
    requires ws != [] && IsHonestRun(ws, steps) && OneJob(Last(ws), Queued, attempts, map[], sweeps)
    ensures ws' != [] && IsHonestRun(ws', steps') && 0 in Last(ws').store.jobs
    ensures OneJob(Last(ws'), Running, attempts + 1, map[0 := Worker(0, Last(ws').store.jobs[0], Generating)], sweeps)
    ensures Last(ws').store.jobs[0].startedAt == Some(Last(ws').now)
  {
    hide IsHonestRun;
    ws', steps' := TakeHonestly(ws, steps, Jobs(PublishJob(0)));
    ws', steps' := TakeHonestly(ws', steps', Jobs(StartAttempt(0, 0)));
  }

  /** The worker dies, its job gets stale, and two sweeps select it. */
  lemma SelectTwice(ws: seq<World>, steps: seq<Step>) returns (ws': seq<World>, steps': seq<Step>, copies: map<Id, Job>)
    requires ws != [] && IsHonestRun(ws, steps)
    requires 0 in Last(ws).store.jobs && Last(ws).store.jobs[0].startedAt == Some(Last(ws).now)
    requires OneJob(Last(ws), Running, 1, map[0 := Worker(0, Last(ws).store.jobs[0], Generating)], map[])
    ensures ws' != [] && IsHonestRun(ws', steps')
    ensures 0 in copies && copies[0].attempts == 1
    ensures OneJob(Last(ws'), Running, 1, map[], map[0 := Sweep(copies), 1 := Sweep(copies)])
  {
    hide IsHonestRun;
    copies := Last(ws).store.jobs;
    ws', steps' := TakeHonestly(ws, steps, Jobs(WorkerDies(0)));
    ws', steps' := TakeHonestly(ws', steps', Others(Tick(STALE_RUNNING_AFTER + 1)));
    assert StuckJobs(copies, Last(ws').now) == copies;
    ws', steps' := TakeHonestly(ws', steps', Jobs(BeginRecovery(0)));
    ws', steps' := TakeHonestly(ws', steps', Jobs(BeginRecovery(1)));
  }

  lemma CommitOne(ws: seq<World>, steps: seq<Step>, copies: map<Id, Job>, status: JobStatus, attempts: nat,
                  sweeps: map<Id, Sweep>, s: Id)
    returns (ws': seq<World>, steps': seq<Step>)
    requires ws != [] && IsHonestRun(ws, steps) && s in sweeps && sweeps[s] == Sweep(copies)
    requires 0 in copies && copies[0].attempts == 1 && OneJob(Last(ws), status, attempts, map[], sweeps)
    ensures |ws'| == |ws| + 1 && IsHonestRun(ws', steps') && ws'[|ws| - 1] == Last(ws)
    ensures OneJob(Last(ws'), Queued, attempts, map[], sweeps - {s})
  {
    hide IsHonestRun;
    ws', steps' := TakeHonestly(ws, steps, Jobs(CommitRecovery(s)));
  }

  /** The first sweep requeues the job, it runs again and succeeds; then the second sweep commits. */
  lemma OverlappingSweepsReopenASucceededJob(request: Request) returns (ws: seq<World>, steps: seq<Step>, n: nat)
    ensures IsHonestRun(ws, steps) && |ws| == n + 2
    ensures 0 in ws[n].store.jobs && ws[n].store.jobs[0].status == Succeeded
    ensures 0 in ws[n + 1].store.jobs && ws[n + 1].store.jobs[0].status == Queued
  {
    hide IsHonestRun;
    var copies;
    ws, steps := SubmitOneJob(request);
    ws, steps := StartTheJob(ws, steps, 0, map[]);
    ws, steps, copies := SelectTwice(ws, steps);
    var both := map[0 := Sweep(copies), 1 := Sweep(copies)];
    ws, steps := CommitOne(ws, steps, copies, Running, 1, both, 0);
    ws, steps := StartTheJob(ws, steps, 1, both - {0});
    ws, steps := TakeHonestly(ws, steps, Jobs(CompleteAttempt(0, [])));
    n := |ws| - 1;
    ws, steps := CommitOne(ws, steps, copies, Succeeded, 2, both - {0}, 1);
  }
}
