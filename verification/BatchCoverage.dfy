/**
What a dispatch pass does to the set of claimed occurrences of one schedule: it
may skip occurrences, but only when five newer ones are claimed, and it never
returns to them.
*/
module BatchCoverage {
  import opened ScheduleTime
  import opened Models
  import Sets

  function Later(claimed: set<int>, t: int): set<int> {
    set u | u in claimed && t < u
  }

  /** An occurrence that is older than a claimed one is claimed itself, or at least five later ones are. */
  ghost predicate Covered(calendar: Calendar, created: int, claimed: set<int>) {
    forall i, t :: t in claimed && created < calendar(i) <= t && calendar(i) !in claimed ==>
      MAX_BACKFILL_OCCURRENCES <= |Later(claimed, calendar(i))|
  }

  /** No occurrence between the creation and a claimed one is missing. */
  ghost predicate NoGaps(calendar: Calendar, created: int, claimed: set<int>) {
    forall i, t :: t in claimed && created < calendar(i) <= t ==> calendar(i) in claimed
  }

  /** Claimed instants are occurrences, after the creation and not in the future. */
  ghost predicate Genuine(calendar: Calendar, created: int, now: int, claimed: set<int>) {
    forall t :: t in claimed ==> created < t <= now && exists i :: calendar(i) == t
  }

  function Batch(calendar: Calendar, base: int, now: int): seq<int> {
    Due(calendar, base, now, MAX_BACKFILL_OCCURRENCES)
  }

  function Members(ts: seq<int>): set<int> {
    set t | t in ts
  }

  lemma BatchHas(calendar: Calendar, base: int, now: int, i: int)
    ensures calendar(i) in Members(Batch(calendar, base, now))
            <==> base < calendar(i) <= now && now < calendar(i + MAX_BACKFILL_OCCURRENCES)
  {
    DueIsTheNewest(calendar, base, now, MAX_BACKFILL_OCCURRENCES, i);
  }

  /** If a batch leaves out a due occurrence after its base, it holds five newer ones. */
  lemma FiveNewer(calendar: Calendar, base: int, now: int, i: int, claimed: set<int>)
    requires base < calendar(i) && calendar(i + MAX_BACKFILL_OCCURRENCES) <= now
    requires Members(Batch(calendar, base, now)) <= claimed
    ensures MAX_BACKFILL_OCCURRENCES <= |Later(claimed, calendar(i))|
  {
    hide Latest, Due;
    var n := Latest(calendar, now);
    LatestSplits(calendar, now, i + MAX_BACKFILL_OCCURRENCES);
    var five := {calendar(n - 4), calendar(n - 3), calendar(n - 2), calendar(n - 1), calendar(n)};
    forall k | n - 4 <= k <= n
      ensures calendar(k) in Later(claimed, calendar(i))
    {
      LatestSplits(calendar, now, k);
      LatestSplits(calendar, now, k + MAX_BACKFILL_OCCURRENCES);
      BatchHas(calendar, base, now, k);
      assert calendar(i) < calendar(k);
    }
    assert calendar(n - 4) < calendar(n - 3) < calendar(n - 2) < calendar(n - 1) < calendar(n);
    FiveDistinct(calendar(n - 4), calendar(n - 3), calendar(n - 2), calendar(n - 1), calendar(n));
    Sets.SubsetSize(five, Later(claimed, calendar(i)));
  }

  lemma FiveDistinct(a: int, b: int, c: int, d: int, e: int)
    requires a < b < c < d < e
    ensures |{a, b, c, d, e}| == 5
  {
  }

  lemma LaterGrows(claimed: set<int>, more: set<int>, t: int)
    requires claimed <= more
    ensures |Later(claimed, t)| <= |Later(more, t)|
  {
    Sets.SubsetSize(Later(claimed, t), Later(more, t));
  }

  /** Wherever a pass starts, as long as that is the creation or a claimed occurrence, coverage survives its claims. */
  lemma BatchKeepsCoverage(calendar: Calendar, created: int, base: int, now: int, claimed: set<int>, more: set<int>)
    requires Covered(calendar, created, claimed) && (base == created || base in claimed)
    requires more == claimed + Members(Batch(calendar, base, now))
    ensures Covered(calendar, created, more)
  {
    forall i, t | t in more && created < calendar(i) <= t && calendar(i) !in more
      ensures MAX_BACKFILL_OCCURRENCES <= |Later(more, calendar(i))|
    {
      LaterGrows(claimed, more, calendar(i));
      if t !in claimed {
        BatchHas(calendar, base, now, i);
        DueIsSorted(calendar, base, now, MAX_BACKFILL_OCCURRENCES);
        var k :| calendar(k) == t;
        BatchHas(calendar, base, now, k);
        if base < calendar(i) {
          FiveNewer(calendar, base, now, i, more);
        }
      }
    }
  }

  /** When a pass never has more than five due, nothing is skipped. */
  lemma SmallBatchLeavesNoGaps(calendar: Calendar, created: int, base: int, now: int, claimed: set<int>, more: set<int>)
    requires NoGaps(calendar, created, claimed) && (base == created || base in claimed)
    requires Latest(calendar, now) - Latest(calendar, base) <= MAX_BACKFILL_OCCURRENCES
    requires more == claimed + Members(Batch(calendar, base, now))
    ensures NoGaps(calendar, created, more)
  {
    forall i, t | t in more && created < calendar(i) <= t
      ensures calendar(i) in more
    {
      if t !in claimed {
        DueIsSorted(calendar, base, now, MAX_BACKFILL_OCCURRENCES);
        var k :| calendar(k) == t;
        BatchHas(calendar, base, now, k);
        BatchHas(calendar, base, now, i);
        LatestSplits(calendar, base, i);
        LatestSplits(calendar, now, i + MAX_BACKFILL_OCCURRENCES);
      }
    }
  }

  lemma BatchIsGenuine(calendar: Calendar, created: int, base: int, passNow: int, now: int, claimed: set<int>)
    requires Genuine(calendar, created, now, claimed) && (base == created || base in claimed) && passNow <= now
    ensures Genuine(calendar, created, now, claimed + Members(Batch(calendar, base, passNow)))
  {
    DueIsSorted(calendar, base, passNow, MAX_BACKFILL_OCCURRENCES);
    forall t | t in Batch(calendar, base, passNow)
      ensures base < t <= passNow
    {
      var k :| calendar(k) == t;
      BatchHas(calendar, base, passNow, k);
    }
  }

  /** Once five newer occurrences were due at `t`, no pass at `t` or later takes the old one, wherever it starts. */
  lemma SkippedStaysOut(calendar: Calendar, base: int, t: int, now: int, i: int)
    requires calendar(i + MAX_BACKFILL_OCCURRENCES) <= t <= now
    ensures calendar(i) !in Members(Batch(calendar, base, now))
  {
    BatchHas(calendar, base, now, i);
  }
}
