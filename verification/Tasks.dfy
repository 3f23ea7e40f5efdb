/** The sweeps and tasks of app/worker/tasks.py. */
module Tasks {
  import opened Wrappers
  import opened ScheduleTime
  import opened Models
  import opened Transactions
  import opened Storage
  import JobService

  // ----- Dispatching schedules -----

  /** One schedule's turn in a pass: the claims are committed, others commit, and the cursor is committed. */
  datatype Turn = Turn(before: Store, claimed: Store, between: Store, after: Store)

  /** From the copy the pass read: its batch is claimed, and then the cursor moves to the end of the batch. */
  ghost predicate IsTurn(turn: Turn, id: Id, copy: Schedule, now: int) {
    var batch := DueBatch(copy, now);
    if batch == [] then turn.before == turn.claimed == turn.between == turn.after
    else
      && turn.claimed == ClaimOccurrences(turn.before, id, copy.request, batch)
      && turn.after == turn.between.(schedules := SetCursor(turn.between.schedules, id, Some(batch[|batch| - 1])))
  }

  /** One of the five newest occurrences that have come since the schedule's cursor, or since it was created. */
  ghost predicate IsDue(copy: Schedule, now: int, t: int) {
    && (match copy.lastAttemptedAt case Some(cursor) => cursor < t case None => copy.createdAt < t)
    && t <= now && exists i :: copy.calendar(i) == t && now < copy.calendar(i + 5)
  }

  /** A turn claims what is due, and moves the cursor to the newest of it; when nothing is due it does nothing. */
  lemma TurnClaimsWhatIsDue(turn: Turn, id: Id, copy: Schedule, now: int)
    requires IsTurn(turn, id, copy, now) && forall j :: j in turn.before.jobs ==> j < turn.before.nextId
    ensures var batch := DueBatch(copy, now);
      && (forall t :: t in batch <==> IsDue(copy, now, t))
      && (forall k, l :: 0 <= k < l < |batch| ==> batch[k] < batch[l])
      && (batch == [] ==> turn.after == turn.before)
      && (batch != [] ==>
            && JobService.IsClaim(turn.before, turn.claimed, id, copy.request, batch)
            && JobService.IsCursorSet(turn.between, turn.after, id, Some(batch[|batch| - 1])))
  {
    hide Latest, Due;
    var batch := DueBatch(copy, now);
    DueIsSorted(copy.calendar, Base(copy), now, 5);
    forall t
      ensures t in batch <==> IsDue(copy, now, t)
    {
      if t in batch || IsDue(copy, now, t) {
        var i :| copy.calendar(i) == t;
        DueIsTheNewest(copy.calendar, Base(copy), now, 5, i);
        forall k | copy.calendar(k) == t
          ensures k == i
        {
          assert !(k < i) && !(i < k);
        }
      }
    }
    hide DueBatch, IsDue;
    JobService.ClaimOccurrencesClaims(turn.before, id, copy.request, batch);
    if batch != [] {
      JobService.SettingSets(turn.between, id, Some(batch[|batch| - 1]));
    }
  }

  function NewJobs(turn: Turn): set<Id> {
    turn.claimed.jobs.Keys - turn.before.jobs.Keys
  }

  function AllNewJobs(turns: seq<Turn>): multiset<Id> {
    if turns == [] then multiset{} else AllNewJobs(turns[..|turns| - 1]) + multiset(NewJobs(turns[|turns| - 1]))
  }

  method DueOccurrencesOf(schedule: Schedule, now: int, maxCount: nat) returns (occurrences: seq<int>)
    ensures occurrences == Due(schedule.calendar, Base(schedule), now, maxCount)
  {
    var base := Base(schedule);
    occurrences := DueOccurrences(schedule.calendar, base, now, maxCount);
  }

  method PublishJobs(broker: Broker, ids: seq<Id>)
    modifies broker`jobMessages
    ensures broker.jobMessages == old(broker.jobMessages) + multiset(ids)
  {
    for i := 0 to |ids|
      invariant broker.jobMessages == old(broker.jobMessages) + multiset(ids[..i])
    {
      assert ids[..i + 1] == ids[..i] + [ids[i]];
      broker.PublishJob(ids[i]);
    }
    assert ids[..|ids|] == ids;
  }

  method DispatchSchedule(db: Database, broker: Broker, id: Id, schedule: Schedule, now: int, between: Store)
    returns (dispatched: nat, ghost turn: Turn)
    requires forall j :: j in db.jobs ==> j < db.nextId
    modifies db, broker`jobMessages
    ensures turn.before == old(db.Rows()) && IsTurn(turn, id, schedule, now) && turn.after == db.Rows()
    ensures DueBatch(schedule, now) != [] ==> turn.between == between
    ensures dispatched == |NewJobs(turn)| && broker.jobMessages == old(broker.jobMessages) + multiset(NewJobs(turn))
  {
    hide Increasing, Due, Base;
    ghost var before := db.Rows();
    turn := Turn(before, before, before, before);
    var occurrences := DueOccurrencesOf(schedule, now, MAX_BACKFILL_OCCURRENCES);
    if occurrences == [] {
      return 0, turn;
    }
    var claimed := JobService.ClaimScheduleOccurrences(db, id, schedule.request, occurrences);
    ghost var after := db.Rows();
    EachOnce(claimed, after.jobs.Keys - before.jobs.Keys);
    db.Meanwhile(between);
    db.schedules := SetCursor(db.schedules, id, Some(occurrences[|occurrences| - 1]));
    turn := Turn(before, after, between, db.Rows());
    PublishJobs(broker, claimed);
    dispatched := |claimed|;
  }

  /** What others commit before the turn of a schedule, and between its two commits. */
  datatype Meanwhile = Meanwhile(before: Store, between: Store)

  /** The turn is what it should be, and starts from what others left. */
  ghost predicate IsTurnAmong(turn: Turn, id: Id, copies: map<Id, Schedule>, now: int, others: Meanwhile) {
    && id in copies && IsTurn(turn, id, copies[id], now) && turn.before == others.before
    && (DueBatch(copies[id], now) != [] ==> turn.between == others.between)
  }

  ghost predicate AreTurns(turns: seq<Turn>, ids: seq<Id>, copies: map<Id, Schedule>, now: int,
                           others: nat -> Meanwhile) {
    && |turns| <= |ids|
    && (forall i :: 0 <= i < |turns| ==> IsTurnAmong(turns[i], ids[i], copies, now, others(i)))
  }

  ghost function LastAfter(turns: seq<Turn>, start: Store): Store {
    if turns == [] then start else turns[|turns| - 1].after
  }

  lemma OneMoreTurn(turns: seq<Turn>, turn: Turn, ids: seq<Id>, copies: map<Id, Schedule>, now: int,
                    others: nat -> Meanwhile)
    requires AreTurns(turns, ids, copies, now, others) && |turns| < |ids|
    requires IsTurnAmong(turn, ids[|turns|], copies, now, others(|turns|))
    ensures AreTurns(turns + [turn], ids, copies, now, others)
    ensures AllNewJobs(turns + [turn]) == AllNewJobs(turns) + multiset(NewJobs(turn))
    ensures forall start :: LastAfter(turns + [turn], start) == turn.after
  {
    hide IsTurnAmong, NewJobs;
    assert (turns + [turn])[..|turns|] == turns;
  }

  /** `ids` witnesses the active schedules in the order in which they were read, `turns` what was committed. */
  method DispatchDueSchedules(db: Database, broker: Broker, now: int, others: nat -> Meanwhile)
    returns (dispatched: nat, ghost ids: seq<Id>, ghost turns: seq<Turn>)
    requires forall i, j :: j in others(i).before.jobs ==> j < others(i).before.nextId
    modifies db, broker`jobMessages
    ensures forall s :: s in ids <==> s in old(db.schedules) && old(db.schedules)[s].active
    ensures |turns| == |ids| && AreTurns(turns, ids, old(db.schedules), now, others)
    ensures db.Rows() == LastAfter(turns, old(db.Rows()))
    ensures dispatched == |AllNewJobs(turns)| && broker.jobMessages == old(broker.jobMessages) + AllNewJobs(turns)
  {
    hide IsTurn, NewJobs, DueBatch;
    var active := db.SelectActiveSchedules();
    var schedules := db.schedules;
    ids, turns, dispatched := active, [], 0;
    ghost var start := db.Rows();
    for i := 0 to |active|
      invariant |turns| == i && AreTurns(turns, active, schedules, now, others)
      invariant db.Rows() == LastAfter(turns, start)
      invariant dispatched == |AllNewJobs(turns)| && broker.jobMessages == old(broker.jobMessages) + AllNewJobs(turns)
    {
      hide AreTurns, AllNewJobs, LastAfter;
      db.Meanwhile(others(i).before);
      ghost var turn;
      var more;
      more, turn := DispatchSchedule(db, broker, active[i], schedules[active[i]], now, others(i).between);
      OneMoreTurn(turns, turn, active, schedules, now, others);
      dispatched, turns := dispatched + more, turns + [turn];
    }
  }

  lemma {:induction false} EachOnce(ids: seq<Id>, members: set<Id>)
    requires forall i, j :: 0 <= i < j < |ids| ==> ids[i] != ids[j]
    requires forall j :: j in ids <==> j in members
    ensures multiset(ids) == multiset(members) && |ids| == |members|
    decreases |ids|
  {
    if ids == [] {
      assert members == {};
    } else {
      var front, last := ids[..|ids| - 1], ids[|ids| - 1];
      assert ids == front + [last];
      forall j
        ensures j in front <==> j in members - {last}
      {
        if j in front {
          var i :| 0 <= i < |front| && front[i] == j;
        }
      }
      EachOnce(front, members - {last});
      assert members == (members - {last}) + {last};
    }
  }

  // ----- Recovery and republishing -----

  function Where(ids: seq<Id>, wanted: Id -> bool): seq<Id> {
    if ids == [] then []
    else
      var before, id := Where(ids[..|ids| - 1], wanted), ids[|ids| - 1];
      if wanted(id) then before + [id] else before
  }

  lemma {:induction false} WhereKeeps(ids: seq<Id>, wanted: Id -> bool)
    requires forall i, j :: 0 <= i < j < |ids| ==> ids[i] != ids[j]
    ensures var kept := Where(ids, wanted);
      && (forall id :: id in kept <==> id in ids && wanted(id))
      && (forall i, j :: 0 <= i < j < |kept| ==> kept[i] != kept[j])
    decreases |ids|
  {
    if ids != [] {
      var front, last := ids[..|ids| - 1], ids[|ids| - 1];
      WhereKeeps(front, wanted);
      assert ids == front + [last];
      assert last !in front;
      forall i | 0 <= i < |Where(front, wanted)|
        ensures Where(front, wanted)[i] != last
      {
        assert Where(front, wanted)[i] in Where(front, wanted);
      }
    }
  }

  method PublishWhere(broker: Broker, ids: seq<Id>, wanted: Id -> bool) returns (published: nat)
    modifies broker`jobMessages
    ensures broker.jobMessages == old(broker.jobMessages) + multiset(Where(ids, wanted))
    ensures published == |Where(ids, wanted)|
  {
    published := 0;
    for i := 0 to |ids|
      invariant broker.jobMessages == old(broker.jobMessages) + multiset(Where(ids[..i], wanted))
      invariant published == |Where(ids[..i], wanted)|
    {
      assert ids[..i + 1][..i] == ids[..i];
      if wanted(ids[i]) {
        broker.PublishJob(ids[i]);
        published := published + 1;
      }
    }
    assert ids[..|ids|] == ids;
  }

  /** Published are the recovered jobs that are queued when they are read back. */
  method RecoverStuckReportJobs(db: Database, broker: Broker, now: int, others: Store, later: int, refreshed: Store)
    returns (count: nat, ghost written: Store)
    requires StuckJobs(db.jobs, now).Keys <= refreshed.jobs.Keys
    modifies db, broker`jobMessages
    ensures var stuck := StuckJobs(old(db.jobs), now);
      && count == |stuck.Keys| && written == others.(jobs := Recover(others.jobs, stuck, later))
      && db.Rows() == (if stuck == map[] then written else refreshed)
      && broker.jobMessages == old(broker.jobMessages)
           + multiset(set j | j in stuck && refreshed.jobs[j].status == Queued)
    ensures forall j :: j in old(db.jobs) ==>
      var row := old(db.jobs)[j];
      broker.jobMessages[j] == old(broker.jobMessages)[j] +
        if row.status == Running && row.startedAt.Some? && row.startedAt.value < now - 600_000_000
           && refreshed.jobs[j].status == Queued
        then 1 else 0
  {
    ghost var stuck := StuckJobs(db.jobs, now);
    var recovered;
    recovered, written := JobService.RecoverStuckJobs(db, now, others, later, refreshed);
    hide Recover, StuckJobs;
    assert recovered == [] <==> stuck == map[] by {
      if recovered != [] {
        assert recovered[0] in stuck;
      }
    }
    EachOnce(recovered, stuck.Keys);
    var isQueued := (j: Id) => j in refreshed.jobs && refreshed.jobs[j].status == Queued;
    var _ := PublishWhere(broker, recovered, isQueued);
    WhereKeeps(recovered, isQueued);
    EachOnce(Where(recovered, isQueued), set j | j in stuck && refreshed.jobs[j].status == Queued);
    count := |recovered|;
  }

  /** Publishing may fail for some; those wait for the next sweep. */
  method DispatchQueuedReportJobs(db: Database, broker: Broker, unreachable: set<Id>) returns (published: nat)
    modifies broker`jobMessages
    ensures var sent := set j | j in db.jobs && db.jobs[j].status == Queued && j !in unreachable;
      published == |sent| && broker.jobMessages == old(broker.jobMessages) + multiset(sent)
  {
    var ids := db.SelectJobs((job: Job) => job.status == Queued);
    var isReachable := (j: Id) => j !in unreachable;
    published := PublishWhere(broker, ids, isReachable);
    WhereKeeps(ids, isReachable);
    EachOnce(Where(ids, isReachable), set j | j in db.jobs && db.jobs[j].status == Queued && j !in unreachable);
  }

  method DispatchPendingWebhookDeliveries(db: Database, broker: Broker, now: int) returns (count: nat)
    modifies broker`deliveryMessages
    ensures forall d :: d in db.deliveries ==>
      var row := db.deliveries[d];
      broker.deliveryMessages[d] == old(broker.deliveryMessages)[d] +
        if (row.status == Pending && (row.nextAttemptAt.None? || row.nextAttemptAt.value <= now))
           || (row.status == Sending && row.nextAttemptAt.Some? && row.nextAttemptAt.value <= now)
        then 1 else 0
    ensures var due := set d | d in db.deliveries && DeliveryDue(db.deliveries[d], now);
      count == |due| && broker.deliveryMessages == old(broker.deliveryMessages) + multiset(due)
  {
    var ids := db.SelectDueDeliveries(now);
    EachOnce(ids, set d | d in db.deliveries && DeliveryDue(db.deliveries[d], now));
    for i := 0 to |ids|
      invariant broker.deliveryMessages == old(broker.deliveryMessages) + multiset(ids[..i])
    {
      assert ids[..i + 1] == ids[..i] + [ids[i]];
      broker.PublishDelivery(ids[i]);
    }
    assert ids[..|ids|] == ids;
    count := |ids|;
  }

  // ----- Messages -----

  datatype TaskResult = Missing | Ran(attempt: JobService.Attempt)

  predicate ReadsQueued(result: TaskResult) {
    result.Ran? && !result.attempt.Lost? && result.attempt.status == Queued
  }

  /** A message for a job: whoever reads it back as queued publishes it again, having owned the attempt or not. */
  method ExecuteReportJob(db: Database, broker: Broker, id: Id, now: int, generation: JobService.Generation,
                          others: JobService.Between, later: int)
    returns (result: TaskResult, ghost ds: seq<Id>, ghost written: Store)
    requires id in db.jobs ==> id in others.generated.jobs && id in others.refreshed.jobs
    modifies db, broker`jobMessages
    ensures id !in old(db.jobs) ==> result == Missing && db.Rows() == old(db.Rows())
    ensures id in old(db.jobs) ==>
      && result.Ran?
      && JobService.IsAttempt(old(db.Rows()), written, db.Rows(), id, now, generation, others, later,
                              result.attempt, ds)
    ensures broker.jobMessages ==
      if id in old(db.jobs)
         && (result.attempt == JobService.Ended(Queued) || result.attempt == JobService.NotOwned(Queued))
      then old(broker.jobMessages) + multiset{id} else old(broker.jobMessages)
  {
    if id !in db.jobs {
      return Missing, [], db.Rows();
    }
    var attempt;
    attempt, ds, written := JobService.RunJob(db, id, now, generation, others, later);
    result := Ran(attempt);
    if ReadsQueued(result) {
      broker.PublishJob(id);
    }
  }
}
