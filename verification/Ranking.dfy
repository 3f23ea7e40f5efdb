/** The order in which tickets survive a cut of the prompt (app/core/prompt_builder.py), and sorting by it. */
module Ranking {

  /** What the prompt holds of one ticket: its line in the listing, and whether it is flagged as a risk. */
  datatype Entry = Entry(id: string, blocked: bool, risky: bool, line: string)

  // ----- Strings compare by code points -----

  predicate StringLess(a: string, b: string) {
    b != [] && (a == [] || a[0] < b[0] || (a[0] == b[0] && StringLess(a[1..], b[1..])))
  }

  lemma {:induction false} StringLessIsStrict(a: string, b: string)
    ensures StringLess(a, b) ==> !StringLess(b, a) && a != b
    decreases |a|
  {
    if a != [] && b != [] {
      StringLessIsStrict(a[1..], b[1..]);
    }
  }

  lemma {:induction false} StringLessIsTotal(a: string, b: string)
    ensures a == b || StringLess(a, b) || StringLess(b, a)
    decreases |a|
  {
    if a != [] && b != [] {
      StringLessIsTotal(a[1..], b[1..]);
      if a[0] == b[0] && a[1..] == b[1..] {
        assert a == [a[0]] + a[1..] && b == [b[0]] + b[1..];
      }
    }
  }

  lemma {:induction false} StringLessIsTransitive(a: string, b: string, c: string)
    requires StringLess(a, b) && StringLess(b, c)
    ensures StringLess(a, c)
    decreases |a|
  {
    if a != [] && a[0] == b[0] == c[0] {
      StringLessIsTransitive(a[1..], b[1..], c[1..]);
    }
  }

  predicate DifferAt(a: string, b: string, k: nat) {
    k <= |a| && k < |b| && a[..k] == b[..k] && (k == |a| || a[k] < b[k])
  }

  lemma SamePrefix(a: string, b: string, k: nat)
    requires 0 < k <= |a| && k <= |b| && a[..k] == b[..k]
    ensures a[0] == b[0]
  {
    assert a[..k][0] == a[0] && b[..k][0] == b[0];
  }

  /** One string is less than another when it is where they first differ, or is a proper prefix. */
  lemma {:induction false} StringLessMeans(a: string, b: string)
    ensures StringLess(a, b) <==> exists k: nat :: DifferAt(a, b, k)
    decreases |a|
  {
    if a == [] || b == [] || a[0] != b[0] {
      if StringLess(a, b) {
        assert DifferAt(a, b, 0);
      }
      if k: nat :| DifferAt(a, b, k) {
        if k > 0 {
          SamePrefix(a, b, k);
          assert false;
        }
      }
    } else {
      StringLessMeans(a[1..], b[1..]);
      if k: nat :| DifferAt(a[1..], b[1..], k) {
        assert a[..k + 1] == [a[0]] + a[1..][..k] && b[..k + 1] == [b[0]] + b[1..][..k];
        assert DifferAt(a, b, k + 1);
      }
      if k: nat :| DifferAt(a, b, k) {
        assert a[1..][..k - 1] == a[..k][1..] && b[1..][..k - 1] == b[..k][1..];
        assert DifferAt(a[1..], b[1..], k - 1);
      }
    }
  }

  // ----- The rank of an entry -----

  /** `risks` are the identifiers flagged as a risk. */
  function Tier(e: Entry, risks: set<string>): nat {
    if e.blocked then 0 else if e.id in risks then 1 else 2
  }

  predicate Before(a: Entry, b: Entry, risks: set<string>) {
    Tier(a, risks) < Tier(b, risks) || (Tier(a, risks) == Tier(b, risks) && StringLess(a.id, b.id))
  }

  lemma BeforeIsStrict(a: Entry, b: Entry, risks: set<string>)
    ensures Before(a, b, risks) ==> !Before(b, a, risks)
  {
    StringLessIsStrict(a.id, b.id);
  }

  lemma BeforeIsTotal(a: Entry, b: Entry, risks: set<string>)
    requires a.id != b.id
    ensures Before(a, b, risks) || Before(b, a, risks)
  {
    StringLessIsTotal(a.id, b.id);
  }

  /** Not after: what sorting establishes. */
  lemma NotAfterIsTransitive(a: Entry, b: Entry, c: Entry, risks: set<string>)
    requires !Before(b, a, risks) && !Before(c, b, risks)
    ensures !Before(c, a, risks)
  {
    if Before(c, a, risks) {
      StringLessIsTotal(a.id, b.id);
      StringLessIsTotal(b.id, c.id);
      if StringLess(c.id, a.id) && StringLess(a.id, b.id) {
        StringLessIsTransitive(c.id, a.id, b.id);
      }
    }
  }

  // ----- Sorting -----

  ghost predicate Sorted(es: seq<Entry>, risks: set<string>) {
    forall i, j :: 0 <= i < j < |es| ==> !Before(es[j], es[i], risks)
  }

  function Insert(es: seq<Entry>, e: Entry, risks: set<string>): seq<Entry> {
    if es == [] || !Before(e, es[|es| - 1], risks) then es + [e]
    else Insert(es[..|es| - 1], e, risks) + [es[|es| - 1]]
  }

  /** The stable sort by rank. */
  function Ranked(es: seq<Entry>, risks: set<string>): seq<Entry> {
    if es == [] then [] else Insert(Ranked(es[..|es| - 1], risks), es[|es| - 1], risks)
  }

  lemma {:induction false} InsertKeeps(es: seq<Entry>, e: Entry, risks: set<string>)
    ensures multiset(Insert(es, e, risks)) == multiset(es) + multiset{e}
    decreases |es|
  {
    if es != [] && Before(e, es[|es| - 1], risks) {
      InsertKeeps(es[..|es| - 1], e, risks);
      assert es == es[..|es| - 1] + [es[|es| - 1]];
    }
  }

  lemma {:induction false} InsertSorts(es: seq<Entry>, e: Entry, risks: set<string>)
    requires Sorted(es, risks)
    ensures Sorted(Insert(es, e, risks), risks)
    decreases |es|
  {
    if es == [] || !Before(e, es[|es| - 1], risks) {
      forall i | 0 <= i < |es|
        ensures !Before(e, es[i], risks)
      {
        if i < |es| - 1 {
          NotAfterIsTransitive(es[i], es[|es| - 1], e, risks);
        }
      }
    } else {
      var last := |es| - 1;
      var front := Insert(es[..last], e, risks);
      InsertSorts(es[..last], e, risks);
      InsertKeeps(es[..last], e, risks);
      forall i | 0 <= i < |front|
        ensures !Before(es[last], front[i], risks)
      {
        assert front[i] in multiset(front);
        if front[i] in es[..last] {
          var k :| 0 <= k < last && es[k] == front[i];
        } else {
          BeforeIsStrict(e, es[last], risks);
        }
      }
    }
  }

  lemma {:induction false} RankedSorts(es: seq<Entry>, risks: set<string>)
    ensures Sorted(Ranked(es, risks), risks) && multiset(Ranked(es, risks)) == multiset(es)
    ensures |Ranked(es, risks)| == |es|
    decreases |es|
  {
    if es != [] {
      var front, e := es[..|es| - 1], es[|es| - 1];
      RankedSorts(front, risks);
      InsertSorts(Ranked(front, risks), e, risks);
      InsertKeeps(Ranked(front, risks), e, risks);
      assert es == front + [e];
    }
    assert |multiset(Ranked(es, risks))| == |multiset(es)|;
  }

  // ----- One order only -----

  ghost predicate UniqueIds(es: seq<Entry>) {
    forall i, j :: 0 <= i < j < |es| ==> es[i].id != es[j].id
  }

  lemma SameIdSameEntry(es: seq<Entry>, a: Entry, b: Entry)
    requires UniqueIds(es) && a in es && b in es && a.id == b.id
    ensures a == b
  {
  }

  /** Uniqueness of identifiers does not depend on the order. */
  lemma {:induction false} UniqueIdsOfPermutation(a: seq<Entry>, b: seq<Entry>)
    requires UniqueIds(a) && multiset(a) == multiset(b)
    ensures UniqueIds(b)
  {
    forall i, j | 0 <= i < j < |b|
      ensures b[i].id != b[j].id
    {
      assert b[i] in multiset(a) && b[j] in multiset(a);
      if b[i].id == b[j].id {
        SameIdSameEntry(a, b[i], b[j]);
        TwiceInMultiset(b, i, j);
        OnceInMultiset(a, b[i]);
      }
    }
  }

  lemma TwiceInMultiset(es: seq<Entry>, i: nat, j: nat)
    requires i < j < |es| && es[i] == es[j]
    ensures multiset(es)[es[i]] >= 2
  {
    assert es == es[..j] + [es[j]] + es[j + 1..];
    assert es[..j][i] in multiset(es[..j]);
  }

  lemma OnceInMultiset(es: seq<Entry>, e: Entry)
    requires UniqueIds(es) && e in es
    ensures multiset(es)[e] == 1
  {
    var k :| 0 <= k < |es| && es[k] == e;
    assert es == es[..k] + [e] + es[k + 1..];
    assert e !in es[..k] && e !in es[k + 1..];
  }

  lemma SameLength(a: seq<Entry>, b: seq<Entry>)
    requires multiset(a) == multiset(b)
    ensures |a| == |b|
  {
    assert |multiset(a)| == |multiset(b)|;
  }

  lemma SameLast(a: seq<Entry>, b: seq<Entry>, risks: set<string>)
    requires Sorted(a, risks) && Sorted(b, risks) && UniqueIds(a) && multiset(a) == multiset(b) && a != [] && b != []
    ensures a[|a| - 1] == b[|b| - 1]
  {
    var x, y := a[|a| - 1], b[|b| - 1];
    assert x in multiset(b) && y in multiset(a);
    var i :| 0 <= i < |a| && a[i] == y;
    var k :| 0 <= k < |b| && b[k] == x;
    if x.id == y.id {
      SameIdSameEntry(a, x, y);
    } else {
      BeforeIsTotal(x, y, risks);
    }
  }

  /** Sorted lists of the same entries, each with its own identifier, are equal. */
  lemma {:induction false} SortedIsUnique(a: seq<Entry>, b: seq<Entry>, risks: set<string>)
    requires Sorted(a, risks) && Sorted(b, risks) && UniqueIds(a) && multiset(a) == multiset(b)
    ensures a == b
    decreases |a|
  {
    SameLength(a, b);
    if a != [] {
      var last := |a| - 1;
      SameLast(a, b, risks);
      FrontsMatch(a, b);
      hide Before;
      SortedIsUnique(a[..last], b[..last], risks);
      assert a == a[..last] + [a[last]] && b == b[..last] + [b[last]];
    }
  }

  lemma FrontsMatch(a: seq<Entry>, b: seq<Entry>)
    requires |a| == |b| > 0 && a[|a| - 1] == b[|b| - 1] && multiset(a) == multiset(b)
    ensures multiset(a[..|a| - 1]) == multiset(b[..|b| - 1])
  {
    var front, front', e := a[..|a| - 1], b[..|b| - 1], a[|a| - 1];
    assert a == front + [e] && b == front' + [e];
    assert multiset(front) == multiset(a) - multiset{e} && multiset(front') == multiset(b) - multiset{e};
  }

  /** The ranking does not depend on the order in which the tickets came. */
  lemma RankedIgnoresOrder(a: seq<Entry>, b: seq<Entry>, risks: set<string>)
    requires UniqueIds(a) && multiset(a) == multiset(b)
    ensures Ranked(a, risks) == Ranked(b, risks)
  {
    RankedSorts(a, risks);
    RankedSorts(b, risks);
    UniqueIdsOfPermutation(a, Ranked(a, risks));
    SortedIsUnique(Ranked(a, risks), Ranked(b, risks), risks);
  }
}
