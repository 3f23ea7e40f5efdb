/**
Cron occurrences (app/core/schedule_time.py). A cron expression read in a zone
is a strictly increasing enumeration of instants, here integer microseconds,
without a first or a last one.
*/
module ScheduleTime {

  ghost predicate Increasing(instants: int -> int) {
    forall i, j :: i < j ==> instants(i) < instants(j)
  }

  type Calendar = instants: int -> int | Increasing(instants) witness (i: int) => i

  /** The index of the newest occurrence not after `t`. */
  function Latest(calendar: Calendar, t: int): (i: int)
    ensures calendar(i) <= t < calendar(i + 1)
  {
    if calendar(0) <= t then SearchUp(calendar, t, 0) else SearchDown(calendar, t, 0)
  }

  function SearchUp(calendar: Calendar, t: int, from: int): (i: int)
    requires calendar(from) <= t
    ensures calendar(i) <= t < calendar(i + 1)
    decreases t - calendar(from)
  {
    if calendar(from + 1) <= t then SearchUp(calendar, t, from + 1) else from
  }

  function SearchDown(calendar: Calendar, t: int, from: int): (i: int)
    requires t < calendar(from)
    ensures calendar(i) <= t < calendar(i + 1)
    decreases calendar(from) - t
  {
    if calendar(from - 1) <= t then from - 1 else SearchDown(calendar, t, from - 1)
  }

  /** Comparing an occurrence with an instant is comparing its index with the latest one. */
  lemma LatestSplits(calendar: Calendar, t: int, i: int)
    ensures calendar(i) <= t <==> i <= Latest(calendar, t)
  {
    var n := Latest(calendar, t);
    assert n < i ==> calendar(n + 1) <= calendar(i);
  }

  lemma LatestOfOccurrence(calendar: Calendar, i: int)
    ensures Latest(calendar, calendar(i)) == i
  {
    LatestSplits(calendar, calendar(i), i);
    LatestSplits(calendar, calendar(i), i + 1);
  }

  /** The iterator the library hands out: both directions are strict. */
  class CronIterator {
    const calendar: Calendar
    var current: int

    constructor (calendar: Calendar, start: int)
      ensures this.calendar == calendar && current == start
    {
      this.calendar := calendar;
      this.current := start;
    }

    method GetPrev() returns (t: int)
      modifies this
      ensures t == current == calendar(Latest(calendar, old(current) - 1))
    {
      current := calendar(Latest(calendar, current - 1));
      t := current;
    }

    method GetNext() returns (t: int)
      modifies this
      ensures t == current == calendar(Latest(calendar, old(current)) + 1)
    {
      current := calendar(Latest(calendar, current) + 1);
      t := current;
    }
  }

  /** `count` consecutive occurrences from index `first` on. */
  function Occurrences(calendar: Calendar, first: int, count: nat): (ts: seq<int>) {
    seq(count, i => calendar(first + i))
  }

  /** The forward preview: the first `count` occurrences strictly after `after`. */
  function Upcoming(calendar: Calendar, after: int, count: nat): seq<int>
  {
    Occurrences(calendar, Latest(calendar, after) + 1, count)
  }

  /** How many occurrences a pass takes: those after `after`, at most `maxCount`. */
  function DueCount(calendar: Calendar, after: int, now: int, maxCount: nat): nat
  {
    var due := Latest(calendar, now) - Latest(calendar, after);
    if due <= 0 then 0 else if due < maxCount then due else maxCount
  }

  /** The newest `maxCount` occurrences in (after, now], in ascending order. */
  function Due(calendar: Calendar, after: int, now: int, maxCount: nat): seq<int>
  {
    var count := DueCount(calendar, after, now, maxCount);
    Occurrences(calendar, Latest(calendar, now) - count + 1, count)
  }

  /** `next_occurrences_utc`. */
  method NextOccurrences(calendar: Calendar, after: int, count: nat) returns (ts: seq<int>)
    ensures ts == Upcoming(calendar, after, count)
    ensures |ts| == count
    ensures forall k :: 0 <= k < count ==>
      ts[k] > after && exists i :: calendar(i) == ts[k] && calendar(i - k - 1) <= after
  {
    hide Increasing, Latest;
    var cron := new CronIterator(calendar, after);
    ts := [];
    ghost var first := Latest(calendar, after);
    for i := 0 to count
      invariant cron.calendar == calendar
      invariant Latest(calendar, cron.current) == first + i
      invariant ts == Occurrences(calendar, first + 1, i)
    {
      var t := cron.GetNext();
      LatestOfOccurrence(calendar, first + i + 1);
      ts := ts + [t];
    }
    UpcomingIsNext(calendar, after, count);
  }

  /** The k-th previewed run is the occurrence after `after` with k others before it. */
  lemma UpcomingIsNext(calendar: Calendar, after: int, count: nat)
    ensures var ts := Upcoming(calendar, after, count);
      && |ts| == count
      && (forall k :: 0 <= k < count ==>
            ts[k] > after && exists i :: calendar(i) == ts[k] && calendar(i - k - 1) <= after)
  {
    hide Latest;
    var ts := Upcoming(calendar, after, count);
    forall k | 0 <= k < count
      ensures ts[k] > after && exists i :: calendar(i) == ts[k] && calendar(i - k - 1) <= after
    {
      var i := Latest(calendar, after) + 1 + k;
      assert calendar(i) == ts[k] && calendar(i - k - 1) <= after;
      LatestSplits(calendar, after, i);
    }
  }

  function Reversed(ts: seq<int>): seq<int> {
    seq(|ts|, i requires 0 <= i < |ts| => ts[|ts| - 1 - i])
  }

  /** `due_occurrences_utc`: backwards from one microsecond past `now`, then reversed. */
  method DueOccurrences(calendar: Calendar, after: int, now: int, maxCount: nat) returns (ts: seq<int>)
    ensures ts == Due(calendar, after, now, maxCount)
    ensures forall k, l :: 0 <= k < l < |ts| ==> ts[k] < ts[l]
    ensures forall t :: t in ts ==> exists i :: calendar(i) == t
    ensures forall i :: calendar(i) in ts <==> after < calendar(i) <= now && now < calendar(i + maxCount)
  {
    hide Increasing, Latest, Due;
    var cron := new CronIterator(calendar, now + 1);
    var found: seq<int> := [];
    ghost var newest := Latest(calendar, now);
    while |found| < maxCount
      invariant cron.calendar == calendar
      invariant |found| <= maxCount
      invariant |found| == 0 || |found| <= newest - Latest(calendar, after)
      invariant Latest(calendar, cron.current - 1) == newest - |found|
      invariant forall i :: 0 <= i < |found| ==> found[i] == calendar(newest - i)
    {
      var previous := cron.GetPrev();
      LatestSplits(calendar, after, newest - |found|);
      if previous <= after {
        break;
      }
      LatestJustBefore(calendar, newest - |found|);
      found := found + [previous];
    }
    ts := Reversed(found);
    ReversedIsDue(calendar, after, now, maxCount, found);
    DueMembers(calendar, after, now, maxCount);
  }

  lemma DueMembers(calendar: Calendar, after: int, now: int, maxCount: nat)
    ensures var ts := Due(calendar, after, now, maxCount);
      && (forall k, l :: 0 <= k < l < |ts| ==> ts[k] < ts[l])
      && (forall t :: t in ts ==> exists i :: calendar(i) == t)
      && (forall i :: calendar(i) in ts <==> after < calendar(i) <= now && now < calendar(i + maxCount))
  {
    hide Increasing, Due;
    DueIsSorted(calendar, after, now, maxCount);
    forall i
      ensures calendar(i) in Due(calendar, after, now, maxCount)
              <==> after < calendar(i) <= now && now < calendar(i + maxCount)
    {
      DueIsTheNewest(calendar, after, now, maxCount, i);
    }
  }

  lemma ReversedIsDue(calendar: Calendar, after: int, now: int, maxCount: nat, found: seq<int>)
    requires |found| == DueCount(calendar, after, now, maxCount)
    requires forall i :: 0 <= i < |found| ==> found[i] == calendar(Latest(calendar, now) - i)
    ensures Reversed(found) == Due(calendar, after, now, maxCount)
  {
    hide Increasing, Latest;
  }

  lemma LatestJustBefore(calendar: Calendar, i: int)
    ensures Latest(calendar, calendar(i) - 1) == i - 1
  {
    LatestSplits(calendar, calendar(i) - 1, i);
    LatestSplits(calendar, calendar(i) - 1, i - 1);
  }

  // ----- What the backward search returns -----

  /** An occurrence is returned exactly when it is in (after, now] and fewer than `maxCount` newer ones are due. */
  lemma DueIsTheNewest(calendar: Calendar, after: int, now: int, maxCount: nat, i: int)
    ensures calendar(i) in Due(calendar, after, now, maxCount)
            <==> after < calendar(i) <= now && now < calendar(i + maxCount)
  {
    var count := DueCount(calendar, after, now, maxCount);
    var first := Latest(calendar, now) - count + 1;
    LatestSplits(calendar, after, i);
    LatestSplits(calendar, now, i);
    LatestSplits(calendar, now, i + maxCount);
    OccurrencesMembers(calendar, first, count, i);
  }

  lemma OccurrencesMembers(calendar: Calendar, first: int, count: nat, i: int)
    ensures calendar(i) in Occurrences(calendar, first, count) <==> first <= i < first + count
  {
    var ts := Occurrences(calendar, first, count);
    if first <= i < first + count {
      assert ts[i - first] == calendar(i);
    }
    if calendar(i) in ts {
      var k :| 0 <= k < count && ts[k] == calendar(i);
      assert !(i < first + k) && !(first + k < i);
    }
  }

  /** Ascending, and nothing but occurrences. */
  lemma DueIsSorted(calendar: Calendar, after: int, now: int, maxCount: nat)
    ensures var ts := Due(calendar, after, now, maxCount);
      && (forall k, l :: 0 <= k < l < |ts| ==> ts[k] < ts[l])
      && (forall t :: t in ts ==> exists i :: calendar(i) == t)
  {
    hide Latest;
    var ts := Due(calendar, after, now, maxCount);
    var first := Latest(calendar, now) - |ts| + 1;
    forall t | t in ts
      ensures exists i :: calendar(i) == t
    {
      var k :| 0 <= k < |ts| && ts[k] == t;
      assert calendar(first + k) == t;
    }
  }

  /** Searching back from the k-th previewed run finds exactly the first k previewed runs. */
  lemma BackwardAgreesWithForward(calendar: Calendar, t: int, n: nat, k: nat)
    requires 0 < k <= n
    ensures var runs := Upcoming(calendar, t, n);
            Due(calendar, t, runs[k - 1], k) == runs[..k]
  {
    hide Increasing, Latest;
    LatestOfOccurrence(calendar, Latest(calendar, t) + k);
  }
}
