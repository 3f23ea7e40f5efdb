/**
Which tickets the prompt lists when the input budget does not hold them all
(app/core/prompt_builder.py). Headers, counts and sections are not modelled:
only their reserved share of the budget is.
*/
module PromptBudget {
  import opened Ranking

  const CHARS_PER_TOKEN := 4
  const RESERVED_TOKENS := 500

  function EstimateTokens(text: string): nat {
    var n := |text| / CHARS_PER_TOKEN;
    if n > 1 then n else 1
  }

  function Budget(header: string, maxInputTokens: int): nat {
    var left := maxInputTokens - (EstimateTokens(header) + RESERVED_TOKENS);
    if left > 0 then left else 0
  }

  // ----- The dictionaries of the first loop -----

  function Risks(es: seq<Entry>): set<string> {
    set e | e in es && e.risky :: e.id
  }

  /** The line of an identifier is that of its last record. */
  function Lines(es: seq<Entry>): map<string, string> {
    if es == [] then map[] else Lines(es[..|es| - 1])[es[|es| - 1].id := es[|es| - 1].line]
  }

  lemma {:induction false} LinesHave(es: seq<Entry>, i: nat)
    requires UniqueIds(es) && i < |es|
    ensures es[i].id in Lines(es) && Lines(es)[es[i].id] == es[i].line
    decreases |es|
  {
    if i < |es| - 1 {
      var front := es[..|es| - 1];
      assert UniqueIds(front) && front[i] == es[i];
      LinesHave(front, i);
    }
  }

  lemma LinesHaveAll(es: seq<Entry>)
    requires UniqueIds(es)
    ensures forall e :: e in es ==> e.id in Lines(es) && Lines(es)[e.id] == e.line
  {
    forall e | e in es
      ensures e.id in Lines(es) && Lines(es)[e.id] == e.line
    {
      var i :| 0 <= i < |es| && es[i] == e;
      LinesHave(es, i);
    }
  }

  function CostOf(lines: map<string, string>, e: Entry): (cost: nat)
    ensures cost >= 2
  {
    EstimateTokens(if e.id in lines then lines[e.id] else "") + 1
  }

  /** What the first `k` tickets of a ranking cost. */
  function Total(ranked: seq<Entry>, lines: map<string, string>, k: nat): nat
    requires k <= |ranked|
  {
    if k == 0 then 0 else Total(ranked, lines, k - 1) + CostOf(lines, ranked[k - 1])
  }

  // ----- The cut -----

  /** `k` tickets fit, or it is the first alone that does not; and one more would not fit. */
  ghost predicate IsCut(ranked: seq<Entry>, lines: map<string, string>, budget: nat, k: nat) {
    && k <= |ranked|
    && (k == 0 <==> ranked == [])
    && (k > 1 ==> Total(ranked, lines, k) <= budget)
    && (0 < k < |ranked| ==> Total(ranked, lines, k + 1) > budget)
  }

  lemma {:induction false} TotalGrows(ranked: seq<Entry>, lines: map<string, string>, i: nat, k: nat)
    requires i < k <= |ranked|
    ensures Total(ranked, lines, i) < Total(ranked, lines, k)
  {
    if i < k - 1 {
      TotalGrows(ranked, lines, i, k - 1);
    }
  }

  /** The cut is the longest prefix of the ranking that fits, or the first ticket. */
  lemma CutIsLongest(ranked: seq<Entry>, lines: map<string, string>, budget: nat, k: nat, m: nat)
    requires IsCut(ranked, lines, budget, k) && m <= |ranked|
    ensures Total(ranked, lines, m) <= budget ==> m <= k
    ensures k > 1 || (ranked != [] && Total(ranked, lines, 1) <= budget) ==>
      (Total(ranked, lines, m) <= budget <==> m <= k)
  {
    if m > k + 1 {
      TotalGrows(ranked, lines, k + 1, m);
    } else if m < k {
      TotalGrows(ranked, lines, m, k);
    }
  }

  lemma CutIsUnique(ranked: seq<Entry>, lines: map<string, string>, budget: nat, k: nat, m: nat)
    requires IsCut(ranked, lines, budget, k) && IsCut(ranked, lines, budget, m)
    ensures k == m
  {
    if k < m {
      CutIsLongest(ranked, lines, budget, k, m);
    } else if m < k {
      CutIsLongest(ranked, lines, budget, m, k);
    }
  }

  /** The cut exists: try longer and longer prefixes. */
  ghost function CutFrom(ranked: seq<Entry>, lines: map<string, string>, budget: nat, k: nat): (cut: nat)
    requires 1 <= k <= |ranked| && (k > 1 ==> Total(ranked, lines, k) <= budget)
    ensures IsCut(ranked, lines, budget, cut)
    decreases |ranked| - k
  {
    if k < |ranked| && Total(ranked, lines, k + 1) <= budget then CutFrom(ranked, lines, budget, k + 1) else k
  }

  ghost function Cut(ranked: seq<Entry>, lines: map<string, string>, budget: nat): (cut: nat)
    ensures IsCut(ranked, lines, budget, cut)
  {
    if ranked == [] then 0 else CutFrom(ranked, lines, budget, 1)
  }

  // ----- The selection -----

  function RankedEntries(es: seq<Entry>): seq<Entry> {
    Ranked(es, Risks(es))
  }

  function IdsOf(es: seq<Entry>, k: nat): set<string>
    requires k <= |es|
  {
    set i | 0 <= i < k :: es[i].id
  }

  lemma RankedEntriesKeep(es: seq<Entry>)
    ensures multiset(RankedEntries(es)) == multiset(es) && |RankedEntries(es)| == |es|
    ensures forall e :: e in RankedEntries(es) <==> e in es
    ensures UniqueIds(es) ==> UniqueIds(RankedEntries(es))
  {
    var ranked := RankedEntries(es);
    RankedSorts(es, Risks(es));
    forall e
      ensures e in ranked <==> e in es
    {
      assert e in multiset(ranked) <==> e in multiset(es);
    }
    if UniqueIds(es) {
      UniqueIdsOfPermutation(es, ranked);
    }
  }

  /** How many tickets survive. */
  ghost function CutOf(es: seq<Entry>, budget: nat): (k: nat)
    ensures k <= |es| && IsCut(RankedEntries(es), Lines(es), budget, k)
  {
    RankedEntriesKeep(es);
    Cut(RankedEntries(es), Lines(es), budget)
  }

  /** The identifiers that survive. */
  ghost function Selected(es: seq<Entry>, budget: nat): set<string> {
    IdsOf(RankedEntries(es), CutOf(es, budget))
  }

  /** The lines of the selected tickets, in the order in which the tickets came. */
  function Listing(es: seq<Entry>, lines: map<string, string>, ids: set<string>): seq<string> {
    if es == [] then []
    else
      var before, e := Listing(es[..|es| - 1], lines, ids), es[|es| - 1];
      if e.id in ids && e.id in lines then before + [lines[e.id]] else before
  }

  method CollectLines(es: seq<Entry>) returns (lines: map<string, string>, risks: set<string>)
    ensures lines == Lines(es) && risks == Risks(es)
  {
    lines, risks := map[], {};
    for n := 0 to |es|
      invariant lines == Lines(es[..n]) && risks == Risks(es[..n])
    {
      assert es[..n + 1][..n] == es[..n];
      lines := lines[es[n].id := es[n].line];
      if es[n].risky {
        risks := risks + {es[n].id};
      }
    }
    assert es[..|es|] == es;
  }

  /** The greedy loop. */
  method KeepWithinBudget(ranked: seq<Entry>, lines: map<string, string>, budget: nat)
    returns (included: set<string>)
    ensures included == IdsOf(ranked, Cut(ranked, lines, budget))
  {
    hide Cut, CostOf;
    var i, used := 0, 0;
    included := {};
    while i < |ranked|
      invariant i <= |ranked| && used == Total(ranked, lines, i) && included == IdsOf(ranked, i)
      invariant i > 0 ==> used < budget
    {
      var cost := CostOf(lines, ranked[i]);
      assert i > 0 ==> ranked[0].id in included;
      if used + cost > budget && included != {} {
        break;
      }
      used, included, i := used + cost, included + {ranked[i].id}, i + 1;
      if used >= budget {
        break;
      }
    }
    CutIsUnique(ranked, lines, budget, i, Cut(ranked, lines, budget));
  }

  method RenderListing(es: seq<Entry>, lines: map<string, string>, included: set<string>) returns (listing: seq<string>)
    ensures listing == Listing(es, lines, included)
  {
    listing := [];
    for n := 0 to |es|
      invariant listing == Listing(es[..n], lines, included)
    {
      assert es[..n + 1][..n] == es[..n];
      if es[n].id in included && es[n].id in lines {
        listing := listing + [lines[es[n].id]];
      }
    }
    assert es[..|es|] == es;
  }

  // ----- Sums over the selected entries -----

  /** The weights of the entries with the given identifiers. */
  function SumOf(es: seq<Entry>, ids: set<string>, weight: Entry -> nat): nat {
    if es == [] then 0
    else SumOf(es[..|es| - 1], ids, weight) + (if es[|es| - 1].id in ids then weight(es[|es| - 1]) else 0)
  }

  lemma {:induction false} SumOfParts(a: seq<Entry>, b: seq<Entry>, ids: set<string>, weight: Entry -> nat)
    ensures SumOf(a + b, ids, weight) == SumOf(a, ids, weight) + SumOf(b, ids, weight)
    decreases |b|
  {
    if b == [] {
      assert a + b == a;
    } else {
      var last := |b| - 1;
      assert (a + b)[..|a| + last] == a + b[..last];
      SumOfParts(a, b[..last], ids, weight);
    }
  }

  lemma SumWithout(es: seq<Entry>, k: nat, ids: set<string>, weight: Entry -> nat)
    requires k < |es|
    ensures SumOf(es, ids, weight) == SumOf(es[..k] + es[k + 1..], ids, weight) + SumOf([es[k]], ids, weight)
  {
    assert es == es[..k] + ([es[k]] + es[k + 1..]);
    SumOfParts(es[..k], [es[k]] + es[k + 1..], ids, weight);
    SumOfParts([es[k]], es[k + 1..], ids, weight);
    SumOfParts(es[..k], es[k + 1..], ids, weight);
  }

  lemma TakenOut(es: seq<Entry>, k: nat)
    requires k < |es|
    ensures multiset(es[..k] + es[k + 1..]) == multiset(es) - multiset{es[k]}
  {
    assert es == es[..k] + [es[k]] + es[k + 1..];
  }

  lemma RestMatches(a: seq<Entry>, b: seq<Entry>, k: nat)
    requires multiset(a) == multiset(b) && a != [] && k < |b| && b[k] == a[|a| - 1]
    ensures multiset(a[..|a| - 1]) == multiset(b[..k] + b[k + 1..])
  {
    var last := |a| - 1;
    TakenOut(a, last);
    TakenOut(b, k);
    assert a[..last] + a[last + 1..] == a[..last];
  }

  lemma {:induction false} SumIgnoresOrder(a: seq<Entry>, b: seq<Entry>, ids: set<string>, weight: Entry -> nat)
    requires multiset(a) == multiset(b)
    ensures SumOf(a, ids, weight) == SumOf(b, ids, weight)
    decreases |a|
  {
    hide SumOf;
    SameLength(a, b);
    if a != [] {
      var last := |a| - 1;
      assert a[last] in multiset(b);
      var k :| 0 <= k < |b| && b[k] == a[last];
      RestMatches(a, b, k);
      SumIgnoresOrder(a[..last], b[..k] + b[k + 1..], ids, weight);
      SumWithout(b, k, ids, weight);
      SumOfParts(a[..last], [a[last]], ids, weight);
      assert a == a[..last] + [a[last]];
    }
  }

  // ----- What the selection promises -----

  /** A listed ticket never ranks after an omitted one. */
  lemma ListedRankFirst(es: seq<Entry>, budget: nat, a: Entry, b: Entry)
    requires a in es && b in es && UniqueIds(es)
    requires a.id in Selected(es, budget) && b.id !in Selected(es, budget)
    ensures Before(a, b, Risks(es))
  {
    var ranked, k := RankedEntries(es), CutOf(es, budget);
    RankedEntriesKeep(es);
    RankedSorts(es, Risks(es));
    hide Cut, Before;
    var i :| 0 <= i < k && ranked[i].id == a.id;
    SameIdSameEntry(ranked, ranked[i], a);
    var j :| 0 <= j < |ranked| && ranked[j] == b;
    assert j >= k;
    BeforeIsTotal(a, b, Risks(es));
  }

  /** So blocked tickets survive first, then those at risk, and among equals the identifier decides. */
  lemma BlockedSurviveFirst(es: seq<Entry>, budget: nat, a: Entry, b: Entry)
    requires a in es && b in es && UniqueIds(es)
    requires a.id in Selected(es, budget) && b.id !in Selected(es, budget)
    ensures b.blocked ==> a.blocked
    ensures !a.blocked && b.risky ==> a.risky
    ensures a.blocked == b.blocked && (a.blocked || a.risky == b.risky) ==> StringLess(a.id, b.id)
  {
    ListedRankFirst(es, budget, a, b);
    RisksAreRisky(es, a);
    RisksAreRisky(es, b);
  }

  lemma RisksAreRisky(es: seq<Entry>, e: Entry)
    requires UniqueIds(es) && e in es
    ensures e.id in Risks(es) <==> e.risky
  {
    if e.id in Risks(es) {
      var f :| f in es && f.risky && f.id == e.id;
      SameIdSameEntry(es, e, f);
    }
  }

  /** The order in which the source delivered the tickets does not matter. */
  lemma SelectionIgnoresOrder(a: seq<Entry>, b: seq<Entry>, budget: nat)
    requires UniqueIds(a) && multiset(a) == multiset(b)
    ensures Selected(a, budget) == Selected(b, budget)
  {
    UniqueIdsOfPermutation(a, b);
    SameMembers(a, b);
    assert Risks(a) == Risks(b);
    RankedIgnoresOrder(a, b, Risks(a));
    SameLines(a, b);
  }

  lemma SameMembers(a: seq<Entry>, b: seq<Entry>)
    requires multiset(a) == multiset(b)
    ensures forall e :: e in a <==> e in b
  {
    forall e
      ensures e in a <==> e in b
    {
      assert e in multiset(a) <==> e in multiset(b);
    }
  }

  lemma {:induction false} LinesOnlyHave(es: seq<Entry>, id: string)
    requires id in Lines(es)
    ensures exists e :: e in es && e.id == id
    decreases |es|
  {
    var front, e := es[..|es| - 1], es[|es| - 1];
    assert es == front + [e];
    if e.id != id {
      LinesOnlyHave(front, id);
    } else {
      assert e in es;
    }
  }

  lemma SameLines(a: seq<Entry>, b: seq<Entry>)
    requires UniqueIds(a) && UniqueIds(b) && forall e :: e in a <==> e in b
    ensures Lines(a) == Lines(b)
  {
    LinesHaveAll(a);
    LinesHaveAll(b);
    forall id
      ensures id in Lines(a) <==> id in Lines(b)
    {
      if id in Lines(a) {
        LinesOnlyHave(a, id);
      }
      if id in Lines(b) {
        LinesOnlyHave(b, id);
      }
    }
    forall id | id in Lines(a)
      ensures Lines(a)[id] == Lines(b)[id]
    {
      LinesOnlyHave(a, id);
    }
  }

  /** With distinct identifiers the count of omitted tickets is right: none are omitted when it says so. */
  lemma NoneOmitted(es: seq<Entry>, budget: nat)
    requires UniqueIds(es)
    ensures |Selected(es, budget)| == CutOf(es, budget)
    ensures |es| - |Selected(es, budget)| == 0 <==> forall e :: e in es ==> e.id in Selected(es, budget)
  {
    var ranked, k := RankedEntries(es), CutOf(es, budget);
    RankedEntriesKeep(es);
    IdsOfSize(ranked, k);
    if k < |es| {
      assert ranked[k] in es && ranked[k].id !in Selected(es, budget);
    } else {
      forall e | e in es
        ensures e.id in Selected(es, budget)
      {
        assert e in ranked;
      }
    }
  }

  lemma {:induction false} IdsOfSize(es: seq<Entry>, k: nat)
    requires UniqueIds(es) && k <= |es|
    ensures |IdsOf(es, k)| == k
  {
    if k > 0 {
      IdsOfSize(es, k - 1);
      var before, id := IdsOf(es, k - 1), es[k - 1].id;
      assert id !in before;
      assert IdsOf(es, k) == before + {id};
      hide UniqueIds, IdsOf;
    } else {
      assert IdsOf(es, 0) == {};
    }
  }

  // ----- The budget in characters -----

  /** The characters of an entry's line, with its newline. */
  function LineChars(e: Entry): nat {
    |e.line| + 1
  }

  /** The characters of some lines, with their newlines. */
  function Chars(lines: seq<string>): nat {
    if lines == [] then 0 else Chars(lines[..|lines| - 1]) + |lines[|lines| - 1]| + 1
  }


  /** Rounding down and adding one bounds every line from above. */
  lemma CostCoversLine(line: string)
    ensures |line| + 1 <= CHARS_PER_TOKEN * (EstimateTokens(line) + 1)
  {
  }

  lemma {:induction false} ListingChars(es: seq<Entry>, lines: map<string, string>, ids: set<string>)
    requires forall e :: e in es ==> e.id in lines && lines[e.id] == e.line
    ensures Chars(Listing(es, lines, ids)) == SumOf(es, ids, LineChars)
    decreases |es|
  {
    if es != [] {
      var front, e := es[..|es| - 1], es[|es| - 1];
      assert es == front + [e];
      ListingChars(front, lines, ids);
      var before := Listing(front, lines, ids);
      assert (before + [e.line])[..|before|] == before;
    }
  }

  /** Counting along the ranking: the selected come first, and each is covered by its cost. */
  lemma {:induction false} RankedChars(ranked: seq<Entry>, lines: map<string, string>, k: nat, n: nat)
    requires UniqueIds(ranked) && k <= |ranked| && n <= |ranked|
    requires forall e :: e in ranked ==> e.id in lines && lines[e.id] == e.line
    ensures SumOf(ranked[..n], IdsOf(ranked, k), LineChars)
            <= CHARS_PER_TOKEN * Total(ranked, lines, if n < k then n else k)
    decreases n
  {
    hide IdsOf, CostOf, UniqueIds;
    if n > 0 {
      RankedChars(ranked, lines, k, n - 1);
      assert ranked[..n][..n - 1] == ranked[..n - 1];
      assert ranked[n - 1] in ranked;
      CostCoversEntry(lines, ranked[n - 1]);
      IsAmongFirst(ranked, k, n);
    }
  }

  lemma CostCoversEntry(lines: map<string, string>, e: Entry)
    requires e.id in lines && lines[e.id] == e.line
    ensures LineChars(e) <= CHARS_PER_TOKEN * CostOf(lines, e)
  {
    CostCoversLine(e.line);
  }

  lemma IsAmongFirst(ranked: seq<Entry>, k: nat, n: nat)
    requires UniqueIds(ranked) && k <= |ranked| && 0 < n <= |ranked|
    ensures ranked[n - 1].id in IdsOf(ranked, k) <==> n <= k
  {
  }

  /** When the first ticket fits, the listing stays within the budget, newlines included. */
  lemma ListingFits(es: seq<Entry>, budget: nat)
    requires UniqueIds(es)
    requires RankedEntries(es) != [] ==> Total(RankedEntries(es), Lines(es), 1) <= budget
    ensures Chars(Listing(es, Lines(es), Selected(es, budget))) <= 4 * budget
  {
    hide RankedEntries, Lines, CutOf, Listing, Chars, SumOf, IdsOf, UniqueIds, Total;
    var ranked, lines, k := RankedEntries(es), Lines(es), CutOf(es, budget);
    var ids := IdsOf(ranked, k);
    RankedEntriesKeep(es);
    LinesHaveAll(es);
    ListingChars(es, lines, ids);
    SumIgnoresOrder(es, ranked, ids, LineChars);
    RankedChars(ranked, lines, k, |ranked|);
    assert ranked[..|ranked|] == ranked;
    TotalWithinBudget(ranked, lines, budget, k);
  }

  lemma TotalWithinBudget(ranked: seq<Entry>, lines: map<string, string>, budget: nat, k: nat)
    requires IsCut(ranked, lines, budget, k) && (ranked != [] ==> Total(ranked, lines, 1) <= budget)
    ensures Total(ranked, lines, k) <= budget
  {
  }

  /** And no less would do: every budget can be used up to the last character. */
  lemma BudgetIsReached(budget: nat) returns (es: seq<Entry>)
    requires budget >= 2
    ensures |es| == 1 && Chars(Listing(es, Lines(es), Selected(es, budget))) == 4 * budget
  {
    var e := Entry("1", false, false, seq(CHARS_PER_TOKEN * budget - 1, _ => 'x'));
    es := [e];
    RankedEntriesKeep(es);
    LinesHaveAll(es);
    var ranked, lines := RankedEntries(es), Lines(es);
    assert ranked[0] in es && ranked[0].id in Selected(es, budget);
    assert es[..0] == [] && Listing(es[..0], lines, Selected(es, budget)) == [];
    assert Listing(es, lines, Selected(es, budget)) == [e.line];
    assert [e.line][..0] == [];
  }

  // ----- In terms of the entries -----

  /** A quarter of the characters, but at least one token, and one for the newline. */
  function LineCost(e: Entry): nat {
    (if |e.line| / 4 > 1 then |e.line| / 4 else 1) + 1
  }

  function CostAt(es: seq<Entry>, at: seq<nat>): nat
    requires forall k :: 0 <= k < |at| ==> at[k] < |es|
  {
    if at == [] then 0 else CostAt(es, at[..|at| - 1]) + LineCost(es[at[|at| - 1]])
  }

  /** What is left of the input tokens after the header and 500 more. */
  function Left(header: string, maxInputTokens: int): int {
    var reserved := (if |header| / 4 > 1 then |header| / 4 else 1) + 500;
    if maxInputTokens > reserved then maxInputTokens - reserved else 0
  }

  /** Entry `j` is omitted, and no other omitted entry comes before it. */
  ghost predicate IsNextOmitted(es: seq<Entry>, at: seq<nat>, j: nat) {
    && j < |es| && j !in at
    && (forall i :: 0 <= i < |es| && i !in at && i != j ==> GoesBefore(es[j], es[i]))
  }

  /** Blocked before not blocked, then at risk before not at risk, then by identifier. */
  predicate GoesBefore(a: Entry, b: Entry) {
    if a.blocked != b.blocked then a.blocked
    else if !a.blocked && a.risky != b.risky then a.risky
    else StringLess(a.id, b.id)
  }

  /**
   * The entries at `at` are listed, in their order, and all others are excluded. Those listed go before those excluded;
   * they fit in what is left, unless it is one alone; and the next one would not fit.
   */
  ghost predicate IsSelection(es: seq<Entry>, header: string, maxInputTokens: int, listing: seq<string>, excluded: int,
                              at: seq<nat>) {
    && |listing| == |at| && excluded == |es| - |at|
    && (forall k :: 0 <= k < |at| ==> at[k] < |es| && listing[k] == es[at[k]].line)
    && (forall k, l :: 0 <= k < l < |at| ==> at[k] < at[l])
    && (forall i, j :: i in at && 0 <= j < |es| && j !in at ==> GoesBefore(es[i], es[j]))
    && (at == [] <==> es == [])
    && (|at| > 1 ==> CostAt(es, at) <= Left(header, maxInputTokens))
    && (forall j: nat :: IsNextOmitted(es, at, j) ==> CostAt(es, at) + LineCost(es[j]) > Left(header, maxInputTokens))
  }

  /** The places of the entries with the given identifiers, in order. */
  function PlacesOf(es: seq<Entry>, ids: set<string>): (at: seq<nat>)
    ensures forall k :: 0 <= k < |at| ==> at[k] < |es|
  {
    if es == [] then []
    else
      var before := PlacesOf(es[..|es| - 1], ids);
      if es[|es| - 1].id in ids then before + [|es| - 1] else before
  }

  lemma {:induction false} PlacesAreThose(es: seq<Entry>, ids: set<string>)
    ensures var at := PlacesOf(es, ids);
      && (forall k, l :: 0 <= k < l < |at| ==> at[k] < at[l])
      && (forall i :: 0 <= i < |es| ==> (i in at <==> es[i].id in ids))
    decreases |es|
  {
    if es != [] {
      PlacesAreThose(es[..|es| - 1], ids);
      assert forall i :: 0 <= i < |es| - 1 ==> es[..|es| - 1][i] == es[i];
    }
  }

  lemma {:induction false} ListedAtPlaces(es: seq<Entry>, lines: map<string, string>, ids: set<string>)
    requires forall e :: e in es ==> e.id in lines && lines[e.id] == e.line
    ensures var at, listing := PlacesOf(es, ids), Listing(es, lines, ids);
      |listing| == |at| && forall k :: 0 <= k < |at| ==> listing[k] == es[at[k]].line
    decreases |es|
  {
    if es != [] {
      var last := |es| - 1;
      assert es == es[..last] + [es[last]];
      ListedAtPlaces(es[..last], lines, ids);
    }
  }

  lemma {:induction false} CostOfPlaces(es: seq<Entry>, ids: set<string>)
    ensures CostAt(es, PlacesOf(es, ids)) == SumOf(es, ids, LineCost)
    decreases |es|
  {
    if es != [] {
      var last := |es| - 1;
      var before := PlacesOf(es[..last], ids);
      CostOfPlaces(es[..last], ids);
      CostOfFront(es, before);
      assert (before + [last])[..|before|] == before;
    }
  }

  lemma {:induction false} CostOfFront(es: seq<Entry>, at: seq<nat>)
    requires es != [] && forall k :: 0 <= k < |at| ==> at[k] < |es| - 1
    ensures CostAt(es, at) == CostAt(es[..|es| - 1], at)
    decreases |at|
  {
    if at != [] {
      CostOfFront(es, at[..|at| - 1]);
    }
  }

  /** As many places as identifiers. */
  lemma {:induction false} CountOfPlaces(es: seq<Entry>, at: seq<nat>, ids: set<string>)
    requires UniqueIds(es) && (forall k :: 0 <= k < |at| ==> at[k] < |es|)
    requires forall k, l :: 0 <= k < l < |at| ==> at[k] < at[l]
    requires forall id :: id in ids <==> exists k :: 0 <= k < |at| && es[at[k]].id == id
    ensures |ids| == |at|
    decreases |at|
  {
    if at == [] {
      assert ids == {};
    } else {
      var last := |at| - 1;
      var id := es[at[last]].id;
      forall other
        ensures other in ids - {id} <==> exists k :: 0 <= k < last && es[at[..last][k]].id == other
      {
        if other in ids - {id} {
          var k :| 0 <= k < |at| && es[at[k]].id == other;
          assert es[at[..last][k]].id == other;
        }
        if k :| 0 <= k < last && es[at[..last][k]].id == other {
          assert es[at[k]].id == other && at[k] != at[last];
        }
      }
      CountOfPlaces(es, at[..last], ids - {id});
    }
  }

  lemma {:induction false} CostsAlong(ranked: seq<Entry>, lines: map<string, string>, k: nat, n: nat)
    requires UniqueIds(ranked) && k <= |ranked| && n <= |ranked|
    requires forall e :: e in ranked ==> e.id in lines && lines[e.id] == e.line
    ensures SumOf(ranked[..n], IdsOf(ranked, k), LineCost) == Total(ranked, lines, if n < k then n else k)
    decreases n
  {
    hide IdsOf, CostOf, LineCost, UniqueIds;
    if n > 0 {
      CostsAlong(ranked, lines, k, n - 1);
      assert ranked[..n][..n - 1] == ranked[..n - 1];
      assert ranked[n - 1] in ranked;
      CostIsLineCost(lines, ranked[n - 1]);
      IsAmongFirst(ranked, k, n);
    }
  }

  lemma CostIsLineCost(lines: map<string, string>, e: Entry)
    requires e.id in lines && lines[e.id] == e.line
    ensures CostOf(lines, e) == LineCost(e)
  {
  }

  lemma SelectedCost(es: seq<Entry>, budget: nat)
    requires UniqueIds(es)
    ensures SumOf(es, Selected(es, budget), LineCost) == Total(RankedEntries(es), Lines(es), CutOf(es, budget))
  {
    var ranked, lines, k := RankedEntries(es), Lines(es), CutOf(es, budget);
    RankedEntriesKeep(es);
    LinesHaveAll(es);
    hide RankedEntries, Lines, CutOf, SumOf;
    SumIgnoresOrder(es, ranked, IdsOf(ranked, k), LineCost);
    CostsAlong(ranked, lines, k, |ranked|);
    assert ranked[..|ranked|] == ranked;
  }

  /** The entry that comes first after the cut. */
  lemma NextOmittedIsNext(es: seq<Entry>, budget: nat, at: seq<nat>, j: nat)
    requires UniqueIds(es) && forall i :: 0 <= i < |es| ==> (i in at <==> es[i].id in Selected(es, budget))
    requires IsNextOmitted(es, at, j)
    ensures CutOf(es, budget) < |RankedEntries(es)| && RankedEntries(es)[CutOf(es, budget)] == es[j]
  {
    var ranked, k := RankedEntries(es), CutOf(es, budget);
    RankedEntriesKeep(es);
    RankedSorts(es, Risks(es));
    hide Cut;
    assert es[j] in ranked;
    var m :| 0 <= m < |ranked| && ranked[m] == es[j];
    assert m >= k;
    assert ranked[k] in es;
    var i :| 0 <= i < |es| && es[i] == ranked[k];
    assert ranked[k].id !in Selected(es, budget);
    RisksAreRisky(es, es[i]);
    RisksAreRisky(es, es[j]);
    if m > k {
      assert false;
    }
  }

  /** What the greedy loop selects is as the entries say. */
  lemma SelectionIs(es: seq<Entry>, header: string, maxInputTokens: int) returns (at: seq<nat>)
    requires UniqueIds(es)
    ensures var selected := Selected(es, Budget(header, maxInputTokens));
      IsSelection(es, header, maxInputTokens, Listing(es, Lines(es), selected), |es| - |selected|, at)
  {
    hide RankedEntries, Lines, Listing, SumOf, CostAt, Budget, Left, GoesBefore, LineCost, CostOf, Selected, CutOf,
         UniqueIds, IsNextOmitted;
    var budget := Budget(header, maxInputTokens);
    BudgetIsLeft(header, maxInputTokens);
    var selected := Selected(es, budget);
    at := PlacesOf(es, selected);
    PlacesAreThose(es, selected);
    LinesHaveAll(es);
    ListedAtPlaces(es, Lines(es), selected);
    CostOfPlaces(es, selected);
    PlacesFit(es, budget);
    forall i, j | i in at && 0 <= j < |es| && j !in at
      ensures GoesBefore(es[i], es[j])
    {
      ListedGoesBefore(es, budget, es[i], es[j]);
    }
    forall j: nat | IsNextOmitted(es, at, j)
      ensures j < |es| && CostAt(es, at) + LineCost(es[j]) > budget
    {
      NextCosts(es, budget, at, j);
    }
  }

  /** As many places as the cut says, and within the budget. */
  lemma PlacesFit(es: seq<Entry>, budget: nat)
    requires UniqueIds(es)
    ensures var at := PlacesOf(es, Selected(es, budget));
      && |at| == |Selected(es, budget)| && (at == [] <==> es == [])
      && (|at| > 1 ==> CostAt(es, at) <= budget)
  {
    hide RankedEntries, Lines, SumOf, CostAt, LineCost, Selected, CutOf, UniqueIds, Total;
    var at, k := PlacesOf(es, Selected(es, budget)), CutOf(es, budget);
    assert IsCut(RankedEntries(es), Lines(es), budget, k);
    RankedEntriesKeep(es);
    PlacesAreThose(es, Selected(es, budget));
    CostOfPlaces(es, Selected(es, budget));
    SelectedCost(es, budget);
    PlacesAreSelected(es, budget, at);
    CountOfPlaces(es, at, Selected(es, budget));
    NoneOmitted(es, budget);
  }

  lemma ListedGoesBefore(es: seq<Entry>, budget: nat, a: Entry, b: Entry)
    requires a in es && b in es && UniqueIds(es)
    requires a.id in Selected(es, budget) && b.id !in Selected(es, budget)
    ensures GoesBefore(a, b)
  {
    BlockedSurviveFirst(es, budget, a, b);
    hide Selected, UniqueIds;
  }

  lemma NextCosts(es: seq<Entry>, budget: nat, at: seq<nat>, j: nat)
    requires UniqueIds(es) && (forall i :: 0 <= i < |es| ==> (i in at <==> es[i].id in Selected(es, budget)))
    requires (forall k :: 0 <= k < |at| ==> at[k] < |es|) && CostAt(es, at) == SumOf(es, Selected(es, budget), LineCost)
    requires IsNextOmitted(es, at, j)
    ensures j < |es| && CostAt(es, at) + LineCost(es[j]) > budget
  {
    NextOmittedIsNext(es, budget, at, j);
    SelectedCost(es, budget);
    LinesHaveAll(es);
    CostIsLineCost(Lines(es), es[j]);
    hide Lines, Selected, CostAt, SumOf, IsNextOmitted, CostOf, LineCost;
    NextWouldNotFit(RankedEntries(es), Lines(es), budget, CutOf(es, budget));
  }

  lemma NextWouldNotFit(ranked: seq<Entry>, lines: map<string, string>, budget: nat, k: nat)
    requires IsCut(ranked, lines, budget, k) && k < |ranked|
    ensures Total(ranked, lines, k) + CostOf(lines, ranked[k]) > budget
  {
  }

  lemma IncludedIsSelected(es: seq<Entry>, budget: nat)
    ensures IdsOf(Ranked(es, Risks(es)), Cut(Ranked(es, Risks(es)), Lines(es), budget)) == Selected(es, budget)
  {
  }

  lemma BudgetIsLeft(header: string, maxInputTokens: int)
    ensures Budget(header, maxInputTokens) == Left(header, maxInputTokens)
  {
  }

  lemma PlacesAreSelected(es: seq<Entry>, budget: nat, at: seq<nat>)
    requires UniqueIds(es) && forall k :: 0 <= k < |at| ==> at[k] < |es|
    requires forall i :: 0 <= i < |es| ==> (i in at <==> es[i].id in Selected(es, budget))
    ensures forall id :: id in Selected(es, budget) <==> exists k :: 0 <= k < |at| && es[at[k]].id == id
  {
    var ranked, n := RankedEntries(es), CutOf(es, budget);
    RankedEntriesKeep(es);
    forall id | id in Selected(es, budget)
      ensures exists k :: 0 <= k < |at| && es[at[k]].id == id
    {
      var m :| 0 <= m < n && ranked[m].id == id;
      assert ranked[m] in es;
      var i :| 0 <= i < |es| && es[i] == ranked[m];
      assert i in at;
      var k :| 0 <= k < |at| && at[k] == i;
      assert es[at[k]].id == id;
    }
    forall k | 0 <= k < |at|
      ensures es[at[k]].id in Selected(es, budget)
    {
      assert at[k] in at;
    }
  }

  // ----- The operation -----

  method SelectTickets(es: seq<Entry>, header: string, maxInputTokens: int)
    returns (listing: seq<string>, excluded: int, ghost at: seq<nat>)
    ensures listing == Listing(es, Lines(es), Selected(es, Budget(header, maxInputTokens)))
    ensures excluded == |es| - |Selected(es, Budget(header, maxInputTokens))|
    ensures UniqueIds(es) ==> IsSelection(es, header, maxInputTokens, listing, excluded, at)
  {
    hide IsSelection, Selected, Listing, Lines, Risks, Cut, IdsOf, Ranked, UniqueIds;
    var lines, risks := CollectLines(es);
    var reserved := EstimateTokens(header) + RESERVED_TOKENS;
    var budget := if maxInputTokens - reserved > 0 then maxInputTokens - reserved else 0;
    var included := KeepWithinBudget(Ranked(es, risks), lines, budget);
    IncludedIsSelected(es, budget);
    excluded := |es| - |included|;
    listing := RenderListing(es, lines, included);
    at := [];
    if UniqueIds(es) {
      at := SelectionIs(es, header, maxInputTokens);
    }
  }
}
