/**
Collapsing the records of one ticket, and the reporting period
(app/core/report_service.py). A Python dictionary keeps the order in which
its keys were first inserted.
*/
module Dedupe {
  import opened Wrappers
  import opened Tickets

  // ----- What is to be kept -----

  predicate Has(ts: seq<Ticket>, id: string) {
    exists i :: 0 <= i < |ts| && ts[i].id == id
  }

  /** The distinct identifiers in order of first sight. */
  function FirstSeen(ts: seq<Ticket>): seq<string> {
    if ts == [] then []
    else
      var before, id := FirstSeen(ts[..|ts| - 1]), ts[|ts| - 1].id;
      if id in before then before else before + [id]
  }

  ghost predicate Distinct(ids: seq<string>) {
    forall i, j :: 0 <= i < j < |ids| ==> ids[i] != ids[j]
  }

  /** `ts[i]` is the newest record of its identifier, and the earliest of those as new. */
  ghost predicate IsNewest(ts: seq<Ticket>, i: nat)
    requires i < |ts|
  {
    && (forall j :: 0 <= j < |ts| && ts[j].id == ts[i].id ==> ts[j].updatedAt <= ts[i].updatedAt)
    && (forall j :: 0 <= j < i && ts[j].id == ts[i].id ==> ts[j].updatedAt < ts[i].updatedAt)
  }

  /** Where the record to keep for `id` stands. */
  function Newest(ts: seq<Ticket>, id: string): (i: nat)
    requires Has(ts, id)
    ensures i < |ts| && ts[i].id == id && IsNewest(ts, i)
  {
    var last := |ts| - 1;
    var before := ts[..last];
    if !Has(before, id) then
      OnlyLast(ts, id);
      last
    else
      var i := Newest(before, id);
      assert forall j :: 0 <= j < last ==> before[j] == ts[j];
      if ts[last].id == id && ts[last].updatedAt > ts[i].updatedAt then last else i
  }

  lemma OnlyLast(ts: seq<Ticket>, id: string)
    requires Has(ts, id) && !Has(ts[..|ts| - 1], id)
    ensures ts[|ts| - 1].id == id && forall j :: 0 <= j < |ts| - 1 ==> ts[j].id != id
  {
    forall j | 0 <= j < |ts| - 1
      ensures ts[j].id != id
    {
      assert ts[..|ts| - 1][j] == ts[j];
    }
  }

  lemma NewestIsUnique(ts: seq<Ticket>, i: nat, k: nat)
    requires i < |ts| && k < |ts| && ts[i].id == ts[k].id && IsNewest(ts, i) && IsNewest(ts, k)
    ensures i == k
  {
  }

  lemma {:induction false} FirstSeenIsDistinct(ts: seq<Ticket>)
    ensures Distinct(FirstSeen(ts))
    ensures forall id :: id in FirstSeen(ts) <==> Has(ts, id)
    decreases |ts|
  {
    if ts != [] {
      var last := |ts| - 1;
      FirstSeenIsDistinct(ts[..last]);
      var before, ids := FirstSeen(ts[..last]), FirstSeen(ts);
      forall i, j | 0 <= i < j < |ids|
        ensures ids[i] != ids[j]
      {
        assert ids[i] == before[i] && before[i] in before;
      }
      forall id
        ensures id in FirstSeen(ts) <==> Has(ts, id)
      {
        HasLast(ts, id);
        assert id in before + [ts[last].id] <==> id in before || id == ts[last].id;
      }
    }
  }

  lemma HasLast(ts: seq<Ticket>, id: string)
    requires ts != []
    ensures Has(ts, id) <==> Has(ts[..|ts| - 1], id) || id == ts[|ts| - 1].id
  {
    var before := ts[..|ts| - 1];
    if Has(before, id) {
      var i :| 0 <= i < |before| && before[i].id == id;
      assert ts[i].id == id;
    }
    if Has(ts, id) && id != ts[|ts| - 1].id {
      var i :| 0 <= i < |ts| && ts[i].id == id;
      assert before[i].id == id;
    }
  }

  /** One record for each identifier, in order of first sight. */
  function Deduped(ts: seq<Ticket>): (kept: seq<Ticket>)
    ensures |kept| == |FirstSeen(ts)|
  {
    FirstSeenIsDistinct(ts);
    var ids := FirstSeen(ts);
    seq(|ids|, i requires 0 <= i < |ids| => assert ids[i] in ids; ts[Newest(ts, ids[i])])
  }

  // ----- The loop -----

  /** `deduped` and its insertion order `keys` are what the records read so far leave. */
  ghost predicate Holds(ts: seq<Ticket>, keys: seq<string>, deduped: map<string, Ticket>) {
    && keys == FirstSeen(ts)
    && (forall id :: id in deduped <==> Has(ts, id))
    && (forall id :: id in deduped ==> deduped[id] == ts[Newest(ts, id)])
  }

  lemma OneMore(ts: seq<Ticket>, keys: seq<string>, deduped: map<string, Ticket>)
    requires ts != []
    requires Holds(ts[..|ts| - 1], keys, deduped)
    ensures var t := ts[|ts| - 1];
            if t.id !in deduped then Holds(ts, keys + [t.id], deduped[t.id := t])
            else if t.updatedAt > deduped[t.id].updatedAt then Holds(ts, keys, deduped[t.id := t])
            else Holds(ts, keys, deduped)
  {
    hide IsNewest, Distinct;
    var last := |ts| - 1;
    FirstSeenIsDistinct(ts[..last]);
    forall id
      ensures Has(ts, id) <==> Has(ts[..last], id) || id == ts[last].id
    {
      HasLast(ts, id);
    }
    hide Has;
  }

  method DedupeTickets(tickets: seq<Ticket>) returns (result: seq<Ticket>)
    ensures result == Deduped(tickets)
  {
    var keys: seq<string>, deduped: map<string, Ticket> := [], map[];
    for i := 0 to |tickets|
      invariant Holds(tickets[..i], keys, deduped)
    {
      assert tickets[..i + 1][..i] == tickets[..i];
      OneMore(tickets[..i + 1], keys, deduped);
      var ticket := tickets[i];
      if ticket.id !in deduped {
        keys, deduped := keys + [ticket.id], deduped[ticket.id := ticket];
      } else if ticket.updatedAt > deduped[ticket.id].updatedAt {
        deduped := deduped[ticket.id := ticket];
      }
    }
    assert tickets[..|tickets|] == tickets;
    FirstSeenIsDistinct(tickets);
    result := seq(|keys|, i requires 0 <= i < |keys| && keys[i] in deduped => deduped[keys[i]]);
  }

  // ----- Page boundaries do not matter -----

  lemma {:induction false} FirstSeenOfBoth(a: seq<Ticket>, b: seq<Ticket>)
    ensures FirstSeen(a + b) == FirstSeen(a) + Unseen(FirstSeen(b), FirstSeen(a))
    decreases |b|
  {
    if b == [] {
      assert a + b == a;
    } else {
      var last := |b| - 1;
      assert (a + b)[..|a| + last] == a + b[..last];
      FirstSeenOfBoth(a, b[..last]);
      UnseenHas(FirstSeen(b[..last]), FirstSeen(a), b[last].id);
      var ids := FirstSeen(b[..last]);
      assert (ids + [b[last].id])[..|ids|] == ids;
    }
  }

  function Unseen(ids: seq<string>, seen: seq<string>): seq<string> {
    if ids == [] then []
    else
      var before, id := Unseen(ids[..|ids| - 1], seen), ids[|ids| - 1];
      if id in seen then before else before + [id]
  }

  lemma {:induction false} UnseenHas(ids: seq<string>, seen: seq<string>, id: string)
    ensures id in Unseen(ids, seen) <==> id in ids && id !in seen
    decreases |ids|
  {
    if ids != [] {
      UnseenHas(ids[..|ids| - 1], seen, id);
      assert ids == ids[..|ids| - 1] + [ids[|ids| - 1]];
    }
  }

  /** A list without repetition is in its own order of first sight. */
  lemma {:induction false} DistinctSeenInOrder(ts: seq<Ticket>, ids: seq<string>)
    requires |ts| == |ids| && forall i :: 0 <= i < |ts| ==> ts[i].id == ids[i]
    requires Distinct(ids)
    ensures FirstSeen(ts) == ids
    decreases |ts|
  {
    if ts != [] {
      var last := |ts| - 1;
      DistinctSeenInOrder(ts[..last], ids[..last]);
      assert ids == ids[..last] + [ids[last]];
    }
  }

  /** The kept records are in the order in which their identifiers were first seen. */
  lemma DedupedKeepsOrder(ts: seq<Ticket>)
    ensures FirstSeen(Deduped(ts)) == FirstSeen(ts)
    ensures forall i :: 0 <= i < |Deduped(ts)| ==> Deduped(ts)[i].id == FirstSeen(ts)[i]
  {
    FirstSeenIsDistinct(ts);
    forall i | 0 <= i < |Deduped(ts)|
      ensures Deduped(ts)[i].id == FirstSeen(ts)[i]
    {
      assert FirstSeen(ts)[i] in FirstSeen(ts);
    }
    DistinctSeenInOrder(Deduped(ts), FirstSeen(ts));
  }

  /** Some record of `a` comes before every record of `b`. */
  predicate SeenBefore(ts: seq<Ticket>, a: string, b: string) {
    exists p :: 0 <= p < |ts| && ts[p].id == a && NotYetSeen(ts, p, b)
  }

  predicate NotYetSeen(ts: seq<Ticket>, p: nat, id: string)
    requires p < |ts|
  {
    forall q :: 0 <= q <= p ==> ts[q].id != id
  }

  lemma {:induction false} FirstSeenInOrder(ts: seq<Ticket>)
    ensures forall i, j :: 0 <= i < j < |FirstSeen(ts)| ==> SeenBefore(ts, FirstSeen(ts)[i], FirstSeen(ts)[j])
    decreases |ts|
  {
    if ts != [] {
      var last := |ts| - 1;
      var front := ts[..last];
      var before, ids := FirstSeen(front), FirstSeen(ts);
      FirstSeenInOrder(front);
      FirstSeenIsDistinct(front);
      forall i, j | 0 <= i < j < |ids|
        ensures SeenBefore(ts, ids[i], ids[j])
      {
        assert ids[i] == before[i] && before[i] in before;
        if j < |before| {
          var p :| 0 <= p < last && front[p].id == ids[i] && NotYetSeen(front, p, ids[j]);
          assert forall q :: 0 <= q <= p ==> ts[q] == front[q];
          assert NotYetSeen(ts, p, ids[j]);
        } else {
          var p :| 0 <= p < last && front[p].id == ids[i];
          UnseenIsNotYetSeen(ts, p, ids[j]);
          assert ts[p].id == ids[i];
        }
      }
    }
  }

  lemma UnseenIsNotYetSeen(ts: seq<Ticket>, p: nat, id: string)
    requires p < |ts| - 1 && !Has(ts[..|ts| - 1], id)
    ensures NotYetSeen(ts, p, id)
  {
    forall q | 0 <= q <= p
      ensures ts[q].id != id
    {
      assert ts[..|ts| - 1][q] == ts[q];
    }
  }

  /** The record kept for `id`, or nothing when there is none. */
  function Kept(ts: seq<Ticket>, id: string): Option<Ticket> {
    if Has(ts, id) then Some(ts[Newest(ts, id)]) else None
  }

  /** Of two records the later one wins only when it is strictly newer. */
  function Newer(a: Option<Ticket>, b: Option<Ticket>): Option<Ticket> {
    if a.None? || (b.Some? && b.value.updatedAt > a.value.updatedAt) then b else a
  }

  lemma KeptOfBoth(a: seq<Ticket>, b: seq<Ticket>, id: string)
    ensures Kept(a + b, id) == Newer(Kept(a, id), Kept(b, id))
  {
    var ts := a + b;
    if Has(a, id) {
      var i := Newest(a, id);
      assert ts[i] == a[i];
    }
    if Has(b, id) {
      var i := Newest(b, id);
      assert ts[|a| + i] == b[i];
    }
    if Has(ts, id) {
      var i := Newest(ts, id);
      NewestOfParts(a, b, id, i);
    }
  }

  lemma NewestOfParts(a: seq<Ticket>, b: seq<Ticket>, id: string, i: nat)
    requires i < |a + b| && (a + b)[i].id == id && IsNewest(a + b, i)
    ensures Newer(Kept(a, id), Kept(b, id)) == Some((a + b)[i])
  {
    var ts := a + b;
    assert forall j :: 0 <= j < |a| ==> ts[j] == a[j];
    assert forall j :: 0 <= j < |b| ==> ts[|a| + j] == b[j];
    if i < |a| {
      assert Has(a, id) && IsNewest(a, i);
      NewestIsUnique(a, i, Newest(a, id));
      if Has(b, id) {
        assert ts[|a| + Newest(b, id)].updatedAt <= ts[i].updatedAt;
      }
    } else {
      assert Has(b, id) by { assert b[i - |a|].id == id; }
      assert IsNewest(b, i - |a|);
      NewestIsUnique(b, i - |a|, Newest(b, id));
      if Has(a, id) {
        assert ts[Newest(a, id)].updatedAt < ts[i].updatedAt;
      }
    }
  }

  lemma KeptOfDeduped(ts: seq<Ticket>, id: string)
    ensures Kept(Deduped(ts), id) == Kept(ts, id)
  {
    var kept, ids := Deduped(ts), FirstSeen(ts);
    FirstSeenIsDistinct(ts);
    FirstSeenIsDistinct(kept);
    DedupedKeepsOrder(ts);
    assert Has(kept, id) <==> Has(ts, id);
    if Has(ts, id) {
      var i := Newest(kept, id);
      assert ids[i] == id && kept[i] == ts[Newest(ts, id)];
    }
  }

  lemma SameKeptSameDeduped(a: seq<Ticket>, b: seq<Ticket>)
    requires FirstSeen(a) == FirstSeen(b)
    requires forall id :: Kept(a, id) == Kept(b, id)
    ensures Deduped(a) == Deduped(b)
  {
    FirstSeenIsDistinct(a);
    FirstSeenIsDistinct(b);
    forall i | 0 <= i < |FirstSeen(a)|
      ensures Deduped(a)[i] == Deduped(b)[i]
    {
      var id := FirstSeen(a)[i];
      assert id in FirstSeen(a) && Kept(a, id) == Kept(b, id);
    }
  }

  /** It does not matter where one page ends and the next begins. */
  lemma DedupeByPages(a: seq<Ticket>, b: seq<Ticket>)
    ensures Deduped(a + b) == Deduped(Deduped(a) + Deduped(b))
  {
    var a', b' := Deduped(a), Deduped(b);
    FirstSeenOfBoth(a, b);
    FirstSeenOfBoth(a', b');
    DedupedKeepsOrder(a);
    DedupedKeepsOrder(b);
    forall id
      ensures Kept(a + b, id) == Kept(a' + b', id)
    {
      KeptOfBoth(a, b, id);
      KeptOfBoth(a', b', id);
      KeptOfDeduped(a, id);
      KeptOfDeduped(b, id);
    }
    SameKeptSameDeduped(a + b, a' + b');
  }

  ghost predicate UniqueIds(ts: seq<Ticket>) {
    forall i, j :: 0 <= i < j < |ts| ==> ts[i].id != ts[j].id
  }

  /** What is kept are the newest records, all of them, each once. */
  lemma DedupedIsNewest(ts: seq<Ticket>)
    ensures UniqueIds(Deduped(ts))
    ensures forall i :: 0 <= i < |ts| && IsNewest(ts, i) ==> ts[i] in Deduped(ts)
    ensures forall t :: t in Deduped(ts) ==> exists i :: 0 <= i < |ts| && ts[i] == t && IsNewest(ts, i)
  {
    var all, ids := Deduped(ts), FirstSeen(ts);
    FirstSeenIsDistinct(ts);
    DedupedKeepsOrder(ts);
    forall i | 0 <= i < |ts| && IsNewest(ts, i)
      ensures ts[i] in all
    {
      assert Has(ts, ts[i].id);
      var k :| 0 <= k < |ids| && ids[k] == ts[i].id;
      NewestIsUnique(ts, i, Newest(ts, ids[k]));
      assert all[k] == ts[i];
    }
    forall t | t in all
      ensures exists i :: 0 <= i < |ts| && ts[i] == t && IsNewest(ts, i)
    {
      var k :| 0 <= k < |all| && all[k] == t;
      assert ids[k] in ids && ts[Newest(ts, ids[k])] == t;
    }
  }

  // ----- The reporting period -----

  predicate InPeriod(t: Ticket, start: Option<int>, end: Option<int>) {
    (start.None? || t.updatedAt >= start.value) && (end.None? || t.updatedAt <= end.value)
  }

  ghost predicate InOrderOfFirstSight(ts: seq<Ticket>, kept: seq<Ticket>) {
    forall i, j :: 0 <= i < j < |kept| ==> SeenBefore(ts, kept[i].id, kept[j].id)
  }

  lemma {:induction false} WithinKeepsOrder(source: seq<Ticket>, ts: seq<Ticket>, start: Option<int>, end: Option<int>)
    requires InOrderOfFirstSight(source, ts)
    ensures InOrderOfFirstSight(source, Within(ts, start, end))
    decreases |ts|
  {
    if ts != [] {
      var last := |ts| - 1;
      var front, kept := Within(ts[..last], start, end), Within(ts, start, end);
      WithinKeepsOrder(source, ts[..last], start, end);
      WithinKeeps(ts[..last], start, end);
      forall i, j | 0 <= i < j < |kept|
        ensures SeenBefore(source, kept[i].id, kept[j].id)
      {
        assert kept[i] == front[i];
        if j == |front| {
          assert front[i] in front;
          var k :| 0 <= k < last && ts[..last][k] == front[i];
          assert ts[k] == front[i];
        }
      }
    }
  }

  function FilterByPeriod(ts: seq<Ticket>, start: Option<int>, end: Option<int>): seq<Ticket> {
    if start.None? && end.None? then ts else Within(ts, start, end)
  }

  function Within(ts: seq<Ticket>, start: Option<int>, end: Option<int>): seq<Ticket> {
    if ts == [] then []
    else
      var before, t := Within(ts[..|ts| - 1], start, end), ts[|ts| - 1];
      if InPeriod(t, start, end) then before + [t] else before
  }

  lemma {:induction false} WithinKeeps(ts: seq<Ticket>, start: Option<int>, end: Option<int>)
    ensures var kept := Within(ts, start, end);
      && (forall t :: t in kept <==> t in ts && InPeriod(t, start, end))
      && (UniqueIds(ts) ==> UniqueIds(kept))
    decreases |ts|
  {
    if ts != [] {
      var last := |ts| - 1;
      WithinKeeps(ts[..last], start, end);
      assert ts == ts[..last] + [ts[last]];
      assert UniqueIds(ts) ==> UniqueIds(ts[..last]);
      if UniqueIds(ts) {
        forall t | t in Within(ts[..last], start, end)
          ensures t.id != ts[last].id
        {
          var i :| 0 <= i < last && ts[..last][i] == t;
        }
      }
    }
  }

  /**
   * What reaches the prompt: of every identifier the source delivered, the newest record, the earliest of those
   * as new, exactly when that record lies in the period, both ends included. No identifier comes twice, and they come
   * in the order in which the source first showed them.
   */
  lemma SurvivorsAreNewestInPeriod(ts: seq<Ticket>, start: Option<int>, end: Option<int>)
    ensures var kept := FilterByPeriod(Deduped(ts), start, end);
      && UniqueIds(kept)
      && (forall i :: 0 <= i < |ts| && IsNewest(ts, i) ==>
            (ts[i] in kept <==>
              && (start.Some? ==> start.value <= ts[i].updatedAt) && (end.Some? ==> ts[i].updatedAt <= end.value)))
      && (forall t :: t in kept ==> exists i :: 0 <= i < |ts| && ts[i] == t && IsNewest(ts, i))
      && InOrderOfFirstSight(ts, kept)
  {
    DedupedIsNewest(ts);
    DedupedInOrder(ts);
    hide Deduped, IsNewest, UniqueIds, InOrderOfFirstSight;
    WithinKeeps(Deduped(ts), start, end);
    WithinKeepsOrder(ts, Deduped(ts), start, end);
  }

  lemma DedupedInOrder(ts: seq<Ticket>)
    ensures InOrderOfFirstSight(ts, Deduped(ts))
  {
    FirstSeenInOrder(ts);
    DedupedKeepsOrder(ts);
    hide Deduped, FirstSeen, SeenBefore;
  }
}
