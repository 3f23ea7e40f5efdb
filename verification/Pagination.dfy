/**
What the pagination loops of the connectors have in common: a source seen as
a listing of numbered pages, and what a bounded fetch of it may claim.
*/
module Pagination {
  import opened Wrappers
  import opened Tickets

  const MAX_PAGES: nat := 50
  const PAGE_SIZE: nat := 100
  const MAX_RECORDS: nat := 5000

  /** One page as the loop sees it: its tickets, and whether the source marks it as its last. */
  datatype View = View(tickets: seq<Ticket>, last: bool)

  /** Page `n` is what follows `n` pages; there is none when the request fails or no page follows. */
  type Feed = nat -> Option<View>

  /** The first `n` pages can be read, and none but the last of them ends the listing. */
  predicate Readable(pages: Feed, n: nat) {
    forall i :: 0 <= i < n ==> pages(i).Some? && (i < n - 1 ==> !pages(i).value.last)
  }

  /** The tickets of the first `n` pages, in order. */
  function Collected(pages: Feed, n: nat): seq<Ticket>
    requires Readable(pages, n)
  {
    if n == 0 then [] else Collected(pages, n - 1) + pages(n - 1).value.tickets
  }

  /** The listing is `n` pages long, to its end mark. */
  predicate EndsAfter(pages: Feed, n: nat) {
    n > 0 && Readable(pages, n) && pages(n - 1).value.last
  }

  /** And it is within the bounds: the record limit is not reached before the last page. */
  predicate IsWithinBounds(pages: Feed, n: nat) {
    EndsAfter(pages, n) && n <= MAX_PAGES && |Collected(pages, n - 1)| < MAX_RECORDS
  }

  /** What a fetch that read `n` pages reports: an in-order prefix, and its truncation flag and reason agree. */
  ghost predicate Reports(pages: Feed, n: nat, r: FetchResult) {
    && 1 <= n <= MAX_PAGES && Readable(pages, n)
    && r.tickets == Collected(pages, n)
    && IsExplained(r)
    && (!r.truncated <==> IsWithinBounds(pages, n))
    && (r.truncated ==> forall m :: !IsWithinBounds(pages, m))
  }

  /** A listing goes on after any page that is not its last. */
  lemma GoesOn(pages: Feed, n: nat, m: nat)
    requires EndsAfter(pages, m) && n > 0 && Readable(pages, n) && !pages(n - 1).value.last
    ensures m > n
  {
    assert pages(m - 1).value.last;
  }

  lemma EndIsUnique(pages: Feed, n: nat, m: nat)
    requires EndsAfter(pages, n) && EndsAfter(pages, m)
    ensures n == m
  {
    assert pages(n - 1).value.last && pages(m - 1).value.last;
  }

  /** A fetch is untruncated exactly when the source can be read to its end within the bounds, and then it has all. */
  lemma UntruncatedIsComplete(pages: Feed, n: nat, r: FetchResult)
    requires Reports(pages, n, r)
    ensures !r.truncated <==> exists m :: IsWithinBounds(pages, m)
    ensures forall m :: IsWithinBounds(pages, m) ==> r.tickets == Collected(pages, m)
  {
    forall m | IsWithinBounds(pages, m)
      ensures m == n
    {
      assert !r.truncated;
      EndIsUnique(pages, m, n);
    }
  }

  // ----- Why the loop may stop early -----

  lemma {:induction false} CollectedGrows(pages: Feed, n: nat, m: nat)
    requires n <= m && Readable(pages, m)
    ensures Readable(pages, n) && Collected(pages, n) <= Collected(pages, m)
    decreases m
  {
    if n < m {
      CollectedGrows(pages, n, m - 1);
    }
  }

  predicate IsPrefix(pages: Feed, n: nat, tickets: seq<Ticket>) {
    && 1 <= n <= MAX_PAGES && Readable(pages, n) && tickets == Collected(pages, n)
  }

  /** The last page has been read. */
  lemma EndIsReached(pages: Feed, n: nat, tickets: seq<Ticket>)
    requires IsPrefix(pages, n, tickets) && pages(n - 1).value.last && |Collected(pages, n - 1)| < MAX_RECORDS
    ensures Reports(pages, n, FetchResult(tickets, false, None))
  {
  }

  /** The record limit is reached on a page that is not the last. */
  lemma RecordLimit(pages: Feed, n: nat, tickets: seq<Ticket>, reason: string)
    requires reason != ""
    requires IsPrefix(pages, n, tickets) && !pages(n - 1).value.last && |tickets| >= MAX_RECORDS
    ensures Reports(pages, n, FetchResult(tickets, true, Some(reason)))
  {
    forall m: nat
      ensures !IsWithinBounds(pages, m)
    {
      if EndsAfter(pages, m) {
        GoesOn(pages, n, m);
        CollectedGrows(pages, n, m - 1);
      }
    }
  }

  /** The page is not the last, but none can be read after it. */
  lemma Unreadable(pages: Feed, n: nat, tickets: seq<Ticket>, reason: string)
    requires reason != ""
    requires IsPrefix(pages, n, tickets) && !pages(n - 1).value.last && pages(n).None?
    ensures Reports(pages, n, FetchResult(tickets, true, Some(reason)))
  {
    forall m: nat
      ensures !IsWithinBounds(pages, m)
    {
      if EndsAfter(pages, m) {
        GoesOn(pages, n, m);
      }
    }
  }

  /** The page limit is reached on a page that is not the last. */
  lemma PageLimit(pages: Feed, tickets: seq<Ticket>, reason: string)
    requires reason != ""
    requires IsPrefix(pages, MAX_PAGES, tickets) && !pages(MAX_PAGES - 1).value.last
    ensures Reports(pages, MAX_PAGES, FetchResult(tickets, true, Some(reason)))
  {
    forall m: nat
      ensures !IsWithinBounds(pages, m)
    {
      if EndsAfter(pages, m) {
        GoesOn(pages, MAX_PAGES, m);
      }
    }
  }

  predicate Recurs(pages: Feed, i: nat, j: nat, k: nat) {
    pages(i + k) == pages(j + k)
  }

  lemma PageRecurs(pages: Feed, i: nat, j: nat, k: nat)
    requires forall k: nat :: Recurs(pages, i, j, k)
    ensures pages(i + k) == pages(j + k)
  {
    assert Recurs(pages, i, j, k);
  }

  /** When the pages after `i` recur after `j`, the listing has no end. */
  lemma RepetitionIsEndless(pages: Feed, i: nat, j: nat, m: nat)
    requires i < j && forall k: nat :: Recurs(pages, i, j, k)
    requires Readable(pages, j) && !pages(j - 1).value.last
    ensures !EndsAfter(pages, m)
  {
    if EndsAfter(pages, m) {
      GoesOn(pages, j, m);
      PageRecurs(pages, i, j, m - 1 - j);
    }
  }

  /** So stopping where a repetition begins loses nothing that a bounded fetch could have reported as complete. */
  lemma Repetition(pages: Feed, i: nat, n: nat, tickets: seq<Ticket>, reason: string)
    requires reason != "" && i < n && forall k: nat :: Recurs(pages, i, n, k)
    requires IsPrefix(pages, n, tickets) && !pages(n - 1).value.last
    ensures Reports(pages, n, FetchResult(tickets, true, Some(reason)))
  {
    forall m: nat
      ensures !IsWithinBounds(pages, m)
    {
      RepetitionIsEndless(pages, i, n, m);
    }
  }
}
