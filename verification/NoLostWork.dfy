/**
No accepted work is lost: from every state that a timely run reaches, an
unfinished job can be taken on, and in the end be finished, without breaking
the premises on the way and without any crash.
*/
module NoLostWork {
  import opened Models
  import opened Transactions
  import opened World
  import opened JobSafety
  import opened JobProgress

  predicate IsCrash(step: Step) {
    match step
    case Jobs(WorkerDies(_)) => true
    case Jobs(SweepDies(_)) => true
    case Passes(PassDies(_)) => true
    case Sends(SenderDies(_)) => true
    case Others(PurgeDies(_)) => true
    case _ => false
  }

  /** The timely run goes on without a crash, and `j` does not go back. */
  ghost predicate GoesOn(ws: seq<World>, steps: seq<Step>, ws': seq<World>, steps': seq<Step>, j: Id) {
    && ws != [] && ws' != [] && ws <= ws' && steps <= steps' && IsTimelyRun(ws', steps')
    && j in Last(ws).store.jobs && j in Last(ws').store.jobs
    && Advances(Last(ws).store.jobs[j], Last(ws').store.jobs[j])
    && (forall k :: |steps| <= k < |steps'| ==> !IsCrash(steps'[k]))
  }

  lemma NoStep(ws: seq<World>, steps: seq<Step>, j: Id)
    requires ws != [] && IsTimelyRun(ws, steps) && j in Last(ws).store.jobs
    ensures GoesOn(ws, steps, ws, steps, j)
  {
    hide IsTimelyRun;
  }

  lemma ThenGoesOn(a: seq<World>, s: seq<Step>, b: seq<World>, t: seq<Step>, c: seq<World>, u: seq<Step>, j: Id)
    requires GoesOn(a, s, b, t, j) && GoesOn(b, t, c, u, j)
    ensures GoesOn(a, s, c, u, j)
  {
    hide IsTimelyRun;
  }

  lemma LastKeepsInv(ws: seq<World>, steps: seq<Step>)
    requires ws != [] && IsTimelyRun(ws, steps)
    ensures JobSafety.Inv(Last(ws)) && Premises(Last(ws))
  {
    JobSafety.RunKeepsInv(ws, steps, |ws| - 1);
    hide JobSafety.Inv, IsRun, Init;
  }

  lemma OneStep(ws: seq<World>, steps: seq<Step>, step: Step, j: Id) returns (ws': seq<World>, steps': seq<Step>)
    requires ws != [] && IsTimelyRun(ws, steps) && j in Last(ws).store.jobs
    requires Can(Last(ws), step) && Premises(Do(Last(ws), step)) && !IsCrash(step)
    ensures GoesOn(ws, steps, ws', steps', j) && Last(ws') == Do(Last(ws), step)
  {
    hide Can, Do, Premises, Init, JobSafety.Inv;
    LastKeepsInv(ws, steps);
    StepAdvances(Last(ws), step, j);
    Extend(ws, steps, step);
    ws', steps' := ws + [Do(Last(ws), step)], steps + [step];
  }

  // ----- A queued job -----

  lemma StartIsTimely(w: World, worker: Id, j: Id)
    requires Premises(w) && worker !in w.workers && JobClaimable(w.store.jobs, j)
    ensures Premises(DoStartAttempt(w, worker, j))
  {
    hide JobLedgerOf;
    var w' := DoStartAttempt(w, worker, j);
    assert w'.workers == w.workers[worker := Worker(j, ClaimedJob(w.store.jobs[j], w.now), Generating)];
    assert w'.sweeps == w.sweeps && w'.now == w.now;
    hide DoStartAttempt;
  }

  lemma QueuedJobProgresses(ws: seq<World>, steps: seq<Step>, j: Id) returns (ws': seq<World>, steps': seq<Step>)
    requires ws != [] && IsTimelyRun(ws, steps) && JobClaimable(Last(ws).store.jobs, j)
    ensures GoesOn(ws, steps, ws', steps', j)
    ensures Measure(Last(ws').store.jobs[j]) < Measure(Last(ws).store.jobs[j])
  {
    var w := Last(ws);
    var worker := UnusedId(w.workers.Keys);
    LastKeepsInv(ws, steps);
    QueuedJobCanStart(w, j, worker);
    hide JobSafety.Inv, IsTimelyRun, Measure, Advances;
    var ws1, steps1 := OneStep(ws, steps, Jobs(PublishJob(j)), j);
    StartIsTimely(Last(ws1), worker, j);
    hide DoStartAttempt, Premises;
    ws', steps' := OneStep(ws1, steps1, Jobs(StartAttempt(worker, j)), j);
    hide Can, Do;
    ThenGoesOn(ws, steps, ws1, steps1, ws', steps', j);
  }

  // ----- A running job: everybody else comes to an end first -----

  function Generators(workers: map<Id, Worker>): set<Id> {
    set i | i in workers && workers[i].phase == Generating
  }

  lemma FailureIsTimely(w: World, worker: Id)
    requires Premises(w) && worker in w.workers && w.workers[worker].phase == Generating
    ensures var w' := DoFailAttempt(w, worker, "");
      Premises(w') && Generators(w'.workers) == Generators(w.workers) - {worker} && w'.sweeps == w.sweeps
  {
    hide JobLedgerOf, EndAttempt;
    var w' := DoFailAttempt(w, worker, "");
    var Worker(j, copy, _) := w.workers[worker];
    assert w'.workers == w.workers - {worker} || w'.workers == w.workers[worker := Worker(j, copy, CursorPending)];
    assert w'.sweeps == w.sweeps && w'.now == w.now;
    hide DoFailAttempt;
  }

  lemma {:induction false} WorkersEnd(ws: seq<World>, steps: seq<Step>, j: Id)
    returns (ws': seq<World>, steps': seq<Step>)
    requires ws != [] && IsTimelyRun(ws, steps) && j in Last(ws).store.jobs
    ensures GoesOn(ws, steps, ws', steps', j) && Generators(Last(ws').workers) == {}
    decreases |Generators(Last(ws).workers)|
  {
    hide IsTimelyRun, Advances, JobSafety.Inv;
    var w := Last(ws);
    if Generators(w.workers) == {} {
      ws', steps' := ws, steps;
      NoStep(ws, steps, j);
    } else {
      var worker :| worker in Generators(w.workers);
      LastKeepsInv(ws, steps);
      FailureIsTimely(w, worker);
      hide DoFailAttempt, Premises;
      var ws1, steps1 := OneStep(ws, steps, Jobs(FailAttempt(worker, "")), j);
      assert |Generators(Last(ws1).workers)| < |Generators(w.workers)|;
      ws', steps' := WorkersEnd(ws1, steps1, j);
      hide Can, Do, Generators;
      ThenGoesOn(ws, steps, ws1, steps1, ws', steps', j);
    }
  }

  lemma RecoveryIsTimely(w: World, sweep: Id)
    requires Premises(w) && sweep in w.sweeps
    ensures var w' := DoCommitRecovery(w, sweep); Premises(w') && w'.workers == w.workers && w'.sweeps == map[]
  {
    hide Recover, RecoveredLedger;
    var w' := DoCommitRecovery(w, sweep);
    assert w'.workers == w.workers && w'.now == w.now && w'.sweeps == w.sweeps - {sweep};
    hide DoCommitRecovery, WorkersAreTimely;
    assert w'.sweeps == map[];
  }

  lemma SweepsEnd(ws: seq<World>, steps: seq<Step>, j: Id) returns (ws': seq<World>, steps': seq<Step>)
    requires ws != [] && IsTimelyRun(ws, steps) && j in Last(ws).store.jobs
    ensures GoesOn(ws, steps, ws', steps', j)
    ensures Last(ws').workers == Last(ws).workers && Last(ws').sweeps == map[]
  {
    hide IsTimelyRun, Advances, JobSafety.Inv;
    var w := Last(ws);
    if w.sweeps == map[] {
      ws', steps' := ws, steps;
      NoStep(ws, steps, j);
    } else {
      var sweep :| sweep in w.sweeps;
      LastKeepsInv(ws, steps);
      RecoveryIsTimely(w, sweep);
      hide DoCommitRecovery, Premises;
      ws', steps' := OneStep(ws, steps, Jobs(CommitRecovery(sweep)), j);
    }
  }

  /** With nobody at work, time may pass until the job is stuck. */
  lemma TimePasses(ws: seq<World>, steps: seq<Step>, j: Id) returns (ws': seq<World>, steps': seq<Step>)
    requires ws != [] && IsTimelyRun(ws, steps) && j in Last(ws).store.jobs && Last(ws).store.jobs[j].status == Running
    requires Generators(Last(ws).workers) == {} && Last(ws).sweeps == map[]
    ensures GoesOn(ws, steps, ws', steps', j) && Last(ws').sweeps == map[]
    ensures Last(ws').store.jobs == Last(ws).store.jobs && Stuck(Last(ws').store.jobs[j], Last(ws').now)
  {
    var w := Last(ws);
    LastKeepsInv(ws, steps);
    var started := if w.store.jobs[j].startedAt.Some? then w.store.jobs[j].startedAt.value else 0;
    var due := started + STALE_RUNNING_AFTER + 1;
    var elapsed: nat := if due > w.now then due - w.now else 0;
    RunningJobGetsStuck(w, j, elapsed);
    hide JobSafety.Inv, IsTimelyRun, Advances;
    assert Premises(DoOther(w, Tick(elapsed))) by {
      assert forall i :: i in w.workers && w.workers[i].phase == Generating ==> i in Generators(w.workers);
    }
    hide Premises, Stuck, Generators;
    ws', steps' := OneStep(ws, steps, Others(Tick(elapsed)), j);
  }

  lemma SelectionIsTimely(w: World, sweep: Id)
    requires Premises(w) && w.sweeps == map[]
    ensures var w' := DoJob(w, BeginRecovery(sweep)); Premises(w') && sweep in w'.sweeps
  {
    hide StuckJobs, WorkersAreTimely;
  }

  lemma StuckJobProgresses(ws: seq<World>, steps: seq<Step>, j: Id) returns (ws': seq<World>, steps': seq<Step>)
    requires ws != [] && IsTimelyRun(ws, steps) && j in Last(ws).store.jobs
    requires Last(ws).sweeps == map[] && Stuck(Last(ws).store.jobs[j], Last(ws).now)
    ensures GoesOn(ws, steps, ws', steps', j)
    ensures Measure(Last(ws').store.jobs[j]) < Measure(Last(ws).store.jobs[j])
  {
    var w := Last(ws);
    LastKeepsInv(ws, steps);
    StuckJobCanRecover(w, j, 0);
    SelectionIsTimely(w, 0);
    RecoveryIsTimely(DoJob(w, BeginRecovery(0)), 0);
    hide JobSafety.Inv, IsTimelyRun, Measure, Advances, Premises, DoCommitRecovery;
    var ws1, steps1 := OneStep(ws, steps, Jobs(BeginRecovery(0)), j);
    ws', steps' := OneStep(ws1, steps1, Jobs(CommitRecovery(0)), j);
    hide Can, Do;
    ThenGoesOn(ws, steps, ws1, steps1, ws', steps', j);
  }

  lemma RunningJobProgresses(ws: seq<World>, steps: seq<Step>, j: Id) returns (ws': seq<World>, steps': seq<Step>)
    requires ws != [] && IsTimelyRun(ws, steps) && j in Last(ws).store.jobs && Last(ws).store.jobs[j].status == Running
    ensures GoesOn(ws, steps, ws', steps', j)
    ensures Measure(Last(ws').store.jobs[j]) < Measure(Last(ws).store.jobs[j])
  {
    hide IsTimelyRun, JobSafety.Inv, Generators, Stuck;
    var ws1, steps1 := WorkersEnd(ws, steps, j);
    ws', steps' := SweepsEnd(ws1, steps1, j);
    ThenGoesOn(ws, steps, ws1, steps1, ws', steps', j);
    if SameState(Last(ws).store.jobs[j], Last(ws').store.jobs[j]) {
      var ws2, steps2 := TimePasses(ws', steps', j);
      ThenGoesOn(ws, steps, ws', steps', ws2, steps2, j);
      ws', steps' := StuckJobProgresses(ws2, steps2, j);
      ThenGoesOn(ws, steps, ws2, steps2, ws', steps', j);
    }
  }

  // ----- No work is lost -----

  /** From every reachable state an unfinished job can get on: the timely run can go on to where its measure is less. */
  lemma EveryJobCanProgress(ws: seq<World>, steps: seq<Step>, j: Id) returns (ws': seq<World>, steps': seq<Step>)
    requires ws != [] && IsTimelyRun(ws, steps) && j in Last(ws).store.jobs && !Last(ws).store.jobs[j].Terminal()
    ensures GoesOn(ws, steps, ws', steps', j)
    ensures Measure(Last(ws').store.jobs[j]) < Measure(Last(ws).store.jobs[j])
  {
    hide IsTimelyRun, GoesOn, Measure;
    if Last(ws).store.jobs[j].status == Queued {
      ws', steps' := QueuedJobProgresses(ws, steps, j);
    } else {
      ws', steps' := RunningJobProgresses(ws, steps, j);
    }
  }

  /** And hence to where the job has succeeded or failed. */
  lemma {:induction false} EveryJobCanFinish(ws: seq<World>, steps: seq<Step>, j: Id)
    returns (ws': seq<World>, steps': seq<Step>)
    requires ws != [] && IsTimelyRun(ws, steps) && j in Last(ws).store.jobs
    ensures GoesOn(ws, steps, ws', steps', j) && Last(ws').store.jobs[j].Terminal()
    decreases Measure(Last(ws).store.jobs[j])
  {
    LastKeepsInv(ws, steps);
    MeasureIsNatural(Last(ws), j);
    hide IsTimelyRun, JobSafety.Inv, Measure, Premises;
    if Last(ws).store.jobs[j].Terminal() {
      ws', steps' := ws, steps;
      NoStep(ws, steps, j);
    } else {
      var ws1, steps1 := EveryJobCanProgress(ws, steps, j);
      ws', steps' := EveryJobCanFinish(ws1, steps1, j);
      ThenGoesOn(ws, steps, ws1, steps1, ws', steps', j);
    }
  }
}
