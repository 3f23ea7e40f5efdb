/** Two runs from the empty store, for any calendar, in which the cursor of a schedule goes back. */
module CursorRuns {
  import opened Wrappers
  import opened ScheduleTime
  import opened Models
  import opened Transactions
  import opened World
  import opened JobSafety
  import Coverage = ScheduleCoverage
  import LateWrites

  lemma Take(ws: seq<World>, steps: seq<Step>, step: Step) returns (ws': seq<World>, steps': seq<Step>)
    requires ws != [] && IsTimelyRun(ws, steps) && Can(Last(ws), step) && Premises(Do(Last(ws), step))
    ensures IsTimelyRun(ws', steps') && |ws'| == |ws| + 1
    ensures Last(ws') == Do(Last(ws), step) && ws'[|ws| - 1] == Last(ws) && steps'[|ws| - 1] == step
  {
    hide Can, Do, Premises, Init;
    Extend(ws, steps, step);
    ws', steps' := ws + [Do(Last(ws), step)], steps + [step];
  }

  /** One schedule, passes over it, and nobody who works on its jobs yet. */
  ghost predicate Stage(w: World, row: Schedule, passes: map<Id, Pass>, now: int) {
    && w.store.schedules == map[0 := row] && w.passes == passes && w.now == now
    && w.workers == map[] && w.sweeps == map[]
    && (forall j :: j in w.store.jobs ==> w.store.jobs[j].status == Queued && j < w.store.nextId)
  }

  lemma OneSchedule(request: Request, calendar: Calendar) returns (ws: seq<World>, steps: seq<Step>, row: Schedule)
    ensures ws != [] && IsTimelyRun(ws, steps) && Stage(Last(ws), row, map[], calendar(0))
    ensures row == Schedule(request, calendar, true, calendar(0), None, None)
  {
    var w := World(Store(map[], map[], map[], map[], map[], 0), calendar(0), map[], map[], map[], map[], map[],
                   multiset{}, multiset{}, History(map[], map[], map[]));
    row := Schedule(request, calendar, true, calendar(0), None, None);
    ws, steps := [w], [];
    assert IsTimelyRun(ws, steps);
    hide IsTimelyRun;
    ws, steps := Take(ws, steps, Others(AddSchedule(row)));
  }

  lemma Wait(ws: seq<World>, steps: seq<Step>, row: Schedule, passes: map<Id, Pass>, now: int, later: int)
    returns (ws': seq<World>, steps': seq<Step>)
    requires ws != [] && IsTimelyRun(ws, steps) && Stage(Last(ws), row, passes, now) && now <= later
    ensures ws' != [] && IsTimelyRun(ws', steps') && Stage(Last(ws'), row, passes, later)
  {
    hide IsTimelyRun;
    ws', steps' := Take(ws, steps, Others(Tick(later - now)));
  }

  lemma Begin(ws: seq<World>, steps: seq<Step>, row: Schedule, passes: map<Id, Pass>, now: int, pass: Id)
    returns (ws': seq<World>, steps': seq<Step>)
    requires ws != [] && IsTimelyRun(ws, steps) && Stage(Last(ws), row, passes, now)
    requires pass !in passes && row.active
    ensures ws' != [] && IsTimelyRun(ws', steps')
    ensures Stage(Last(ws'), row, passes[pass := Pass(0, row, now, false)], now)
  {
    hide IsTimelyRun;
    ws', steps' := Take(ws, steps, Passes(BeginPass(pass, 0)));
  }

  lemma Claim(ws: seq<World>, steps: seq<Step>, row: Schedule, passes: map<Id, Pass>, now: int, pass: Id)
    returns (ws': seq<World>, steps': seq<Step>)
    requires ws != [] && IsTimelyRun(ws, steps) && Stage(Last(ws), row, passes, now)
    requires pass in passes && !passes[pass].claimed && BatchOf(passes[pass]) != []
    ensures ws' != [] && IsTimelyRun(ws', steps')
    ensures Stage(Last(ws'), row, passes[pass := passes[pass].(claimed := true)], now)
  {
    hide IsTimelyRun, BatchOf;
    var w, p := Last(ws), passes[pass];
    ClaimOccurrencesGrows(w.store, p.schedule, p.copy.request, BatchOf(p));
    hide ClaimOccurrences;
    ws', steps' := Take(ws, steps, Passes(ClaimPass(pass)));
  }

  /** A pass is begun and claims its batch, from the cursor that it reads up to now. */
  lemma BeginAndClaim(ws: seq<World>, steps: seq<Step>, row: Schedule, passes: map<Id, Pass>, now: int, pass: Id)
    returns (ws': seq<World>, steps': seq<Step>)
    requires ws != [] && IsTimelyRun(ws, steps) && Stage(Last(ws), row, passes, now)
    requires pass !in passes && row.active && DueBatch(row, now) != []
    ensures ws' != [] && IsTimelyRun(ws', steps')
    ensures Stage(Last(ws'), row, passes[pass := Pass(0, row, now, true)], now)
  {
    hide IsTimelyRun, Stage, DueBatch;
    ws', steps' := Begin(ws, steps, row, passes, now, pass);
    ws', steps' := Claim(ws', steps', row, passes[pass := Pass(0, row, now, false)], now, pass);
    assert passes[pass := Pass(0, row, now, false)][pass := Pass(0, row, now, true)]
        == passes[pass := Pass(0, row, now, true)];
  }

  lemma Advance(ws: seq<World>, steps: seq<Step>, row: Schedule, passes: map<Id, Pass>, now: int, pass: Id)
    returns (ws': seq<World>, steps': seq<Step>)
    requires ws != [] && IsTimelyRun(ws, steps) && Stage(Last(ws), row, passes, now)
    requires pass in passes && passes[pass].claimed && passes[pass].schedule == 0 && BatchOf(passes[pass]) != []
    ensures IsTimelyRun(ws', steps') && |ws'| == |ws| + 1 && ws'[|ws| - 1] == Last(ws)
    ensures var batch := BatchOf(passes[pass]);
      Stage(Last(ws'), row.(lastAttemptedAt := Some(batch[|batch| - 1])), passes - {pass}, now)
    ensures steps'[|ws| - 1] == Passes(AdvanceCursor(pass)) && Last(ws').store.jobs == Last(ws).store.jobs
  {
    hide IsTimelyRun, BatchOf;
    ws', steps' := Take(ws, steps, Passes(AdvanceCursor(pass)));
  }

  /** From the creation up to the k-th occurrence after it. */
  lemma FirstBatch(row: Schedule, k: nat)
    requires row.lastAttemptedAt.None? && row.createdAt == row.calendar(0) && 1 <= k <= MAX_BACKFILL_OCCURRENCES
    ensures DueBatch(row, row.calendar(k)) == Occurrences(row.calendar, 1, k)
  {
    LatestOfOccurrence(row.calendar, 0);
    LatestOfOccurrence(row.calendar, k);
    hide Latest;
  }

  /** In the step after `n` the cursor of the first schedule goes back. */
  predicate GoesBackAt(ws: seq<World>, n: nat)
    requires n + 1 < |ws|
  {
    var before, after := Cursor(ws[n]), Cursor(ws[n + 1]);
    before.Some? && after.Some? && after.value < before.value
  }

  function Cursor(w: World): Option<int> {
    if 0 in w.store.schedules then w.store.schedules[0].lastAttemptedAt else None
  }

  /** A pass claims the first occurrence; a second one claims both that are due and finishes; then the first does. */
  lemma OlderPassSetsCursorBack(request: Request, calendar: Calendar)
    returns (ws: seq<World>, steps: seq<Step>, n: nat)
    ensures IsTimelyRun(ws, steps) && |ws| == n + 2 && steps[n].Passes? && GoesBackAt(ws, n)
  {
    hide IsTimelyRun, Stage, DueBatch;
    var row;
    ws, steps, row := OneSchedule(request, calendar);
    FirstBatch(row, 1);
    FirstBatch(row, 2);
    var first, second := Pass(0, row, calendar(1), true), Pass(0, row, calendar(2), true);
    ws, steps := Wait(ws, steps, row, map[], calendar(0), calendar(1));
    ws, steps := BeginAndClaim(ws, steps, row, map[], calendar(1), 0);
    ws, steps := Wait(ws, steps, row, map[0 := first], calendar(1), calendar(2));
    ws, steps := BeginAndClaim(ws, steps, row, map[0 := first], calendar(2), 1);
    ws, steps := Advance(ws, steps, row, map[0 := first, 1 := second], calendar(2), 1);
    var moved := row.(lastAttemptedAt := Some(calendar(2)));
    assert map[0 := first, 1 := second] - {1} == map[0 := first];
    n := |ws| - 1;
    CursorStands(Last(ws), moved, map[0 := first], calendar(2));
    ws, steps := Advance(ws, steps, moved, map[0 := first], calendar(2), 0);
    CursorStands(Last(ws), row.(lastAttemptedAt := Some(calendar(1))), map[0 := first] - {0}, calendar(2));
  }

  lemma CursorStands(w: World, row: Schedule, passes: map<Id, Pass>, now: int)
    requires Stage(w, row, passes, now)
    ensures Cursor(w) == row.lastAttemptedAt
  {
  }

  // ----- By a finishing job -----

  lemma FirstHasItsJob(ws: seq<World>, steps: seq<Step>, row: Schedule, passes: map<Id, Pass>, now: int)
    returns (j: Id)
    requires ws != [] && IsTimelyRun(ws, steps) && Stage(Last(ws), row, passes, now)
    requires 0 in passes && passes[0] == Pass(0, passes[0].copy, now, true)
    requires row.calendar(1) in BatchOf(passes[0])
    ensures JobClaimable(Last(ws).store.jobs, j)
    ensures Last(ws).store.jobs[j].scheduleId == Some(0) && Last(ws).store.jobs[j].scheduledFor == Some(row.calendar(1))
  {
    var w := Last(ws);
    Coverage.RunKeepsInv(ws, steps, |ws| - 1);
    hide IsTimelyRun;
    assert Coverage.PassFits(w.passes[0], w.store.schedules[0], Coverage.Claimed(w.store.jobs, 0), w.now);
    hide BatchOf;
    Coverage.ClaimedHas(w.store.jobs, 0, row.calendar(1));
    j :| j in w.store.jobs && w.store.jobs[j].scheduleId == Some(0)
      && w.store.jobs[j].scheduledFor == Some(row.calendar(1));
  }

  lemma Start(ws: seq<World>, steps: seq<Step>, row: Schedule, passes: map<Id, Pass>, now: int, j: Id)
    returns (ws': seq<World>, steps': seq<Step>)
    requires ws != [] && IsTimelyRun(ws, steps) && Stage(Last(ws), row, passes, now)
    requires JobClaimable(Last(ws).store.jobs, j)
    ensures ws' != [] && IsTimelyRun(ws', steps')
    ensures Last(ws').store.schedules == map[0 := row] && j in Last(ws').store.jobs && Last(ws').now == now
    ensures Last(ws').workers == map[0 := Worker(j, ClaimedJob(Last(ws).store.jobs[j], now), Generating)]
    ensures Last(ws').sweeps == map[]
  {
    hide IsTimelyRun;
    ws', steps' := Take(ws, steps, Jobs(PublishJob(j)));
    ws', steps' := Take(ws', steps', Jobs(StartAttempt(0, j)));
  }

  lemma CompletionIsTimely(w: World, ds: seq<Id>)
    requires w.workers.Keys == {0} && w.sweeps == map[] && w.workers[0].job in w.store.jobs
    ensures Premises(DoCompleteAttempt(w, 0, ds))
  {
    hide CompleteJob;
    assert (w.workers - {0}).Keys == {};
  }

  lemma Complete(ws: seq<World>, steps: seq<Step>, row: Schedule, j: Id)
    returns (ws': seq<World>, steps': seq<Step>)
    requires ws != [] && IsTimelyRun(ws, steps) && Last(ws).store.schedules == map[0 := row]
    requires j in Last(ws).store.jobs && Last(ws).workers.Keys == {0} && Last(ws).sweeps == map[]
    requires Last(ws).workers[0] == Worker(j, Last(ws).workers[0].copy, Generating)
    requires Last(ws).workers[0].copy.scheduleId == Some(0)
    ensures IsTimelyRun(ws', steps') && |ws'| == |ws| + 1 && ws'[|ws| - 1] == Last(ws)
    ensures 0 in Last(ws').store.schedules
      && Last(ws').store.schedules[0].lastAttemptedAt == Last(ws).workers[0].copy.scheduledFor
    ensures steps'[|ws| - 1].Jobs? && steps'[|ws| - 1].js.CompleteAttempt?
  {
    hide IsTimelyRun, Premises, Enqueue, SucceededJob;
    var w := Last(ws);
    var ds := LateWrites.ActiveCanBeListed(w.store.destinations, w.store.destinations.Keys);
    CompletionIsTimely(w, ds);
    ws', steps' := Take(ws, steps, Jobs(CompleteAttempt(0, ds)));
  }

  /** One pass claims two occurrences and moves the cursor to the second; then the job of the first succeeds. */
  lemma FinishingJobSetsCursorBack(request: Request, calendar: Calendar)
    returns (ws: seq<World>, steps: seq<Step>, n: nat)
    ensures IsTimelyRun(ws, steps) && |ws| == n + 2 && GoesBackAt(ws, n)
    ensures steps[n].Jobs? && steps[n].js.CompleteAttempt?
  {
    hide IsTimelyRun, Stage, DueBatch;
    var row;
    ws, steps, row := OneSchedule(request, calendar);
    FirstBatch(row, 2);
    var pass := Pass(0, row, calendar(2), true);
    assert BatchOf(pass)[0] == calendar(1);
    ws, steps := Wait(ws, steps, row, map[], calendar(0), calendar(2));
    ws, steps := BeginAndClaim(ws, steps, row, map[], calendar(2), 0);
    var j := FirstHasItsJob(ws, steps, row, map[0 := pass], calendar(2));
    ws, steps := Advance(ws, steps, row, map[0 := pass], calendar(2), 0);
    var moved := row.(lastAttemptedAt := Some(calendar(2)));
    ws, steps := Start(ws, steps, moved, map[0 := pass] - {0}, calendar(2), j);
    n := |ws| - 1;
    ws, steps := Complete(ws, steps, moved, j);
  }
}
