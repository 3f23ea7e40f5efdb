/** A dispatch pass that nothing interrupts claims everything due, and repeating it changes nothing. */
module DispatchPass {
  import opened Wrappers
  import opened ScheduleTime
  import opened Models
  import opened Transactions
  import opened Tasks

  /** What a pass that nothing interrupts does for one schedule. */
  function Dispatched(store: Store, id: Id, copy: Schedule, now: int): Store {
    var batch := DueBatch(copy, now);
    if batch == [] then store
    else
      var claimed := ClaimOccurrences(store, id, copy.request, batch);
      claimed.(schedules := SetCursor(claimed.schedules, id, Some(batch[|batch| - 1])))
  }

  /** What it has done after the first `n` schedules. */
  function DispatchedFirst(store: Store, ids: seq<Id>, n: nat, copies: map<Id, Schedule>, now: int): Store
    requires n <= |ids| && forall s :: s in ids ==> s in copies
  {
    if n == 0 then store
    else Dispatched(DispatchedFirst(store, ids, n - 1, copies, now), ids[n - 1], copies[ids[n - 1]], now)
  }

  /** Nobody else commits during the turns. */
  ghost predicate Uninterrupted(turns: seq<Turn>, store: Store) {
    forall i :: 0 <= i < |turns| ==> Continues(turns, store, i)
  }

  ghost predicate Continues(turns: seq<Turn>, store: Store, i: nat)
    requires i < |turns|
  {
    && turns[i].between == turns[i].claimed
    && turns[i].before == (if i == 0 then store else turns[i - 1].after)
  }

  lemma {:induction false} TurnsDispatch(turns: seq<Turn>, store: Store, ids: seq<Id>, n: nat,
                                         copies: map<Id, Schedule>, now: int,
                                         others: nat -> Meanwhile)
    requires forall s :: s in ids ==> s in copies
    requires AreTurns(turns, ids, copies, now, others) && Uninterrupted(turns, store) && n <= |turns|
    ensures DispatchedFirst(store, ids, n, copies, now) == if n == 0 then store else turns[n - 1].after
  {
    hide Dispatched, IsTurn, DueBatch;
    if n > 0 {
      TurnsDispatch(turns, store, ids, n - 1, copies, now, others);
      assert IsTurnAmong(turns[n - 1], ids[n - 1], copies, now, others(n - 1));
      assert Continues(turns, store, n - 1);
      TurnDispatches(turns[n - 1], ids[n - 1], copies[ids[n - 1]], now);
    }
  }

  lemma TurnDispatches(turn: Turn, id: Id, copy: Schedule, now: int)
    requires IsTurn(turn, id, copy, now) && turn.between == turn.claimed
    ensures turn.after == Dispatched(turn.before, id, copy, now)
  {
  }

  lemma {:induction false} ClaimTakes(store: Store, s: Id, request: Request, ts: seq<int>, t: int)
    requires forall j :: j in store.jobs ==> j < store.nextId
    ensures var after := ClaimOccurrences(store, s, request, ts);
            t in ts || OccurrenceTaken(store.jobs, s, t) ==> OccurrenceTaken(after.jobs, s, t)
    decreases |ts|
  {
    if ts != [] {
      var last := |ts| - 1;
      var before := ClaimOccurrences(store, s, request, ts[..last]);
      ClaimTakes(store, s, request, ts[..last], t);
      ClaimOccurrencesGrows(store, s, request, ts[..last]);
      assert ts == ts[..last] + [ts[last]];
      GrowthTakes(before, ClaimOccurrences(store, s, request, ts), s, t);
      if !OccurrenceTaken(before.jobs, s, ts[last]) {
        assert InsertJob(before, NewJob(request, None, Some(s), Some(ts[last]))).jobs[before.nextId].scheduledFor
          == Some(ts[last]);
      }
    }
  }

  lemma GrowthTakes(before: Store, after: Store, s: Id, t: int)
    requires forall j :: j in before.jobs ==> j in after.jobs && after.jobs[j] == before.jobs[j]
    ensures OccurrenceTaken(before.jobs, s, t) ==> OccurrenceTaken(after.jobs, s, t)
  {
    if OccurrenceTaken(before.jobs, s, t) {
      var j :| j in before.jobs && before.jobs[j].scheduleId == Some(s) && before.jobs[j].scheduledFor == Some(t);
      assert after.jobs[j].scheduledFor == Some(t);
    }
  }

  predicate Exhausted(row: Schedule, now: int) {
    DueBatch(row, now) == []
  }

  function AtEndOfBatch(row: Schedule, now: int): Schedule
    requires DueBatch(row, now) != []
  {
    row.(lastAttemptedAt := Some(DueBatch(row, now)[|DueBatch(row, now)| - 1]))
  }

  /** With the cursor at the end of its batch, nothing is due any more. */
  lemma NothingLeft(row: Schedule, now: int)
    requires DueBatch(row, now) != []
    ensures Exhausted(AtEndOfBatch(row, now), now)
  {
    hide Increasing, Latest;
    var batch := DueBatch(row, now);
    assert batch[|batch| - 1] == row.calendar(Latest(row.calendar, now));
    LatestOfOccurrence(row.calendar, Latest(row.calendar, now));
  }

  ghost predicate Fits(store: Store) {
    forall j :: j in store.jobs ==> j < store.nextId
  }

  /** Everything in the batch of `row` has its job. */
  predicate BatchTaken(jobs: map<Id, Job>, s: Id, row: Schedule, now: int) {
    forall t :: t in DueBatch(row, now) ==> OccurrenceTaken(jobs, s, t)
  }

  ghost predicate OnlyAdds(before: Store, after: Store) {
    && Fits(after) && after.schedules.Keys == before.schedules.Keys
    && (forall j :: j in before.jobs ==> j in after.jobs && after.jobs[j] == before.jobs[j])
  }

  lemma StillTaken(before: Store, after: Store, s: Id, row: Schedule, now: int)
    requires OnlyAdds(before, after) && BatchTaken(before.jobs, s, row, now)
    ensures BatchTaken(after.jobs, s, row, now)
  {
    hide DueBatch;
    forall t | t in DueBatch(row, now)
      ensures OccurrenceTaken(after.jobs, s, t)
    {
      GrowthTakes(before, after, s, t);
    }
  }

  /** From `before` to `after` schedule `s` is dispatched. */
  ghost predicate Dispatches(before: Store, after: Store, s: Id, now: int) {
    && s in before.schedules && OnlyAdds(before, after)
    && (forall u :: u in before.schedules && u != s ==> after.schedules[u] == before.schedules[u])
    && Exhausted(after.schedules[s], now) && BatchTaken(after.jobs, s, before.schedules[s], now)
  }

  /** One schedule: the other rows stay, jobs are only added, and its own batch is settled. */
  lemma OneSettles(store: Store, s: Id, now: int)
    requires Fits(store) && s in store.schedules
    ensures Dispatches(store, Dispatched(store, s, store.schedules[s], now), s, now)
  {
    var copy := store.schedules[s];
    if DueBatch(copy, now) != [] {
      BatchSettles(store, s, now);
    }
  }

  lemma BatchSettles(store: Store, s: Id, now: int)
    requires Fits(store) && s in store.schedules && DueBatch(store.schedules[s], now) != []
    ensures Dispatches(store, Dispatched(store, s, store.schedules[s], now), s, now)
  {
    hide Increasing, ClaimOccurrences, OccurrenceTaken, BatchTaken, Base, DueBatch, Exhausted, Dispatched;
    var copy := store.schedules[s];
    DispatchedBatch(store, s, now);
    ClaimTakesBatch(store, s, copy, now);
    ClaimOccurrencesGrows(store, s, copy.request, DueBatch(copy, now));
    NothingLeft(copy, now);
  }

  lemma DispatchedBatch(store: Store, s: Id, now: int)
    requires s in store.schedules && DueBatch(store.schedules[s], now) != []
    ensures var copy := store.schedules[s];
      Dispatched(store, s, copy, now) == ClaimOccurrences(store, s, copy.request, DueBatch(copy, now)).(
        schedules := store.schedules[s := AtEndOfBatch(copy, now)])
  {
    hide Increasing, DueBatch, ClaimOccurrences;
    ClaimOccurrencesOnlyAdds(store, s, store.schedules[s].request, DueBatch(store.schedules[s], now));
  }

  lemma ClaimTakesBatch(store: Store, s: Id, row: Schedule, now: int)
    requires Fits(store)
    ensures BatchTaken(ClaimOccurrences(store, s, row.request, DueBatch(row, now)).jobs, s, row, now)
  {
    hide DueBatch;
    forall t | t in DueBatch(row, now)
      ensures OccurrenceTaken(ClaimOccurrences(store, s, row.request, DueBatch(row, now)).jobs, s, t)
    {
      ClaimTakes(store, s, row.request, DueBatch(row, now), t);
    }
  }

  ghost predicate AllDistinct(ids: seq<Id>) {
    forall i, k :: 0 <= i < k < |ids| ==> ids[i] != ids[k]
  }

  /** After `n` schedules: what was due of those has jobs and nothing more is due; the others are as they were. */
  ghost predicate Settled(before: Store, after: Store, ids: seq<Id>, n: nat, now: int) {
    && OnlyAdds(before, after)
    && (forall k :: 0 <= k < |ids| ==> ids[k] in before.schedules)
    && (forall k :: n <= k < |ids| ==> after.schedules[ids[k]] == before.schedules[ids[k]])
    && (forall k :: 0 <= k < n && k < |ids| ==>
          Exhausted(after.schedules[ids[k]], now) && BatchTaken(after.jobs, ids[k], before.schedules[ids[k]], now))
  }

  lemma OneMoreSettles(before: Store, between: Store, after: Store, ids: seq<Id>, n: nat, now: int)
    requires n < |ids| && AllDistinct(ids) && Settled(before, between, ids, n, now)
    requires Dispatches(between, after, ids[n], now)
    ensures Settled(before, after, ids, n + 1, now)
  {
    hide Exhausted, BatchTaken, Fits;
    forall k | 0 <= k < n
      ensures BatchTaken(after.jobs, ids[k], before.schedules[ids[k]], now)
    {
      StillTaken(between, after, ids[k], before.schedules[ids[k]], now);
    }
  }

  lemma {:induction false} PassSettles(store: Store, ids: seq<Id>, n: nat, now: int)
    requires Fits(store) && n <= |ids| && AllDistinct(ids) && forall s :: s in ids ==> s in store.schedules
    ensures Settled(store, DispatchedFirst(store, ids, n, store.schedules, now), ids, n, now)
  {
    hide Exhausted, BatchTaken, Dispatched;
    if n > 0 {
      var between := DispatchedFirst(store, ids, n - 1, store.schedules, now);
      PassSettles(store, ids, n - 1, now);
      OneSettles(between, ids[n - 1], now);
      hide Settled;
      OneMoreSettles(store, between, DispatchedFirst(store, ids, n, store.schedules, now), ids, n - 1, now);
    }
  }

  lemma NothingDispatched(store: Store, s: Id, row: Schedule, now: int)
    requires Exhausted(row, now)
    ensures Dispatched(store, s, row, now) == store
  {
  }

  lemma {:induction false} NothingDueNothingDone(store: Store, ids: seq<Id>, n: nat, now: int)
    requires n <= |ids| && forall s :: s in ids ==> s in store.schedules && Exhausted(store.schedules[s], now)
    ensures DispatchedFirst(store, ids, n, store.schedules, now) == store
  {
    hide Exhausted, Dispatched;
    if n > 0 {
      NothingDueNothingDone(store, ids, n - 1, now);
      NothingDispatched(store, ids[n - 1], store.schedules[ids[n - 1]], now);
    }
  }

  /** A pass claims every occurrence of its batches, and a second one at the same instant does nothing. */
  lemma PassClaimsWhatIsDue(store: Store, ids: seq<Id>, now: int)
    requires Fits(store) && AllDistinct(ids) && forall s :: s in ids ==> s in store.schedules
    ensures var after := DispatchedFirst(store, ids, |ids|, store.schedules, now);
      && after.schedules.Keys == store.schedules.Keys
      && (forall s :: s in ids ==> BatchTaken(after.jobs, s, store.schedules[s], now))
      && DispatchedFirst(after, ids, |ids|, after.schedules, now) == after
  {
    hide Exhausted, BatchTaken, Dispatched;
    var after := DispatchedFirst(store, ids, |ids|, store.schedules, now);
    PassSettles(store, ids, |ids|, now);
    hide DispatchedFirst;
    NothingDueNothingDone(after, ids, |ids|, now);
  }
}
