/**
Sources whose pages name the next one by an opaque cursor. The first request
has none. As no cursor is requested twice, a function from cursors to
responses describes whatever a source may answer during one fetch.
*/
module Cursors {
  import opened Wrappers
  import opened Tickets
  import opened Pagination

  /** A response, reduced to what the loop uses. */
  datatype Page = Page(tickets: seq<Ticket>, last: bool, next: Option<string>)

  /** None is a failed request. */
  type Source = Option<string> -> Option<Page>

  /** Neither missing nor empty. */
  predicate IsGiven(cursor: Option<string>) {
    cursor.Some? && cursor.value != ""
  }

  predicate LeadsOn(page: Page) {
    !page.last && IsGiven(page.next)
  }

  function PageAt(source: Source, n: nat): Option<Page> {
    if n == 0 then source(None)
    else
      match PageAt(source, n - 1)
      case Some(page) => if LeadsOn(page) then source(page.next) else None
      case None => None
  }

  /** The cursor of request `n`, as long as the pages before lead there. */
  function CursorAt(source: Source, n: nat): Option<string> {
    if n == 0 then None
    else
      match PageAt(source, n - 1)
      case Some(page) => page.next
      case None => None
  }

  function Pages(source: Source): Feed {
    (n: nat) =>
      match PageAt(source, n)
      case Some(page) => Some(View(page.tickets, page.last))
      case None => None
  }

  ghost predicate DistinctRequests(source: Source, n: nat) {
    forall i, j :: 0 <= i < j < n ==> CursorAt(source, i) != CursorAt(source, j)
  }

  /** Every page before page `n` leads on. */
  predicate LeadsTo(source: Source, n: nat) {
    forall i :: 0 <= i < n ==> PageAt(source, i).Some? && LeadsOn(PageAt(source, i).value)
  }

  lemma {:induction false} PagesRecur(source: Source, i: nat, j: nat, k: nat)
    requires LeadsTo(source, i) && LeadsTo(source, j) && CursorAt(source, i) == CursorAt(source, j) && 0 < i < j
    ensures PageAt(source, i + k) == PageAt(source, j + k)
  {
    if k > 0 {
      PagesRecur(source, i, j, k - 1);
    } else {
      assert LeadsOn(PageAt(source, i - 1).value) && LeadsOn(PageAt(source, j - 1).value);
    }
  }

  lemma LeadsToReadable(source: Source, n: nat)
    requires LeadsTo(source, n)
    ensures Readable(Pages(source), n)
    ensures n > 0 ==> !Pages(source)(n - 1).value.last
  {
  }

  /** A repeated cursor begins a repetition of pages without end. */
  lemma RepeatedCursorRecurs(source: Source, i: nat, j: nat)
    requires LeadsTo(source, j) && CursorAt(source, i) == CursorAt(source, j) && 0 < i < j
    ensures forall k: nat :: Recurs(Pages(source), i, j, k)
  {
    hide PageAt, CursorAt;
    assert LeadsTo(source, i);
    hide LeadsTo;
    forall k: nat
      ensures Recurs(Pages(source), i, j, k)
    {
      PagesRecur(source, i, j, k);
    }
  }

  // ----- What the loops keep -----

  /** `seen` are the cursors found on the first `n` pages. */
  ghost predicate Seen(source: Source, n: nat, seen: set<string>) {
    forall c :: c in seen <==> exists i :: 1 <= i <= n && CursorAt(source, i) == Some(c)
  }

  /** `n` pages have been read, and the loop goes on to request page `n`. */
  ghost predicate Reading(source: Source, n: nat, tickets: seq<Ticket>, seen: set<string>) {
    && LeadsTo(source, n) && Readable(Pages(source), n)
    && tickets == Collected(Pages(source), n) && |tickets| < MAX_RECORDS
    && Seen(source, n, seen) && DistinctRequests(source, n + 1)
  }

  /** Before page `n`, a page leads on to the next. */
  lemma PageIsFollowed(source: Source, n: nat, i: nat)
    requires LeadsTo(source, n) && i < n
    ensures LeadsTo(source, i) && source(CursorAt(source, i)).Some?
    ensures var page := source(CursorAt(source, i)).value; LeadsOn(page) && CursorAt(source, i + 1) == page.next
  {
    PageFromSource(source, i);
  }

  lemma TicketsOfPage(source: Source, i: nat)
    requires LeadsTo(source, i) && Pages(source)(i).Some?
    ensures source(CursorAt(source, i)).Some?
    ensures Pages(source)(i).value.tickets == source(CursorAt(source, i)).value.tickets
  {
    PageFromSource(source, i);
  }

  lemma LeadsToFewer(source: Source, n: nat, i: nat)
    requires LeadsTo(source, n) && i <= n
    ensures LeadsTo(source, i)
  {
  }

  /** A page comes from the request with the cursor that leads to it. */
  lemma PageFromSource(source: Source, i: nat)
    requires LeadsTo(source, i)
    ensures PageAt(source, i) == source(CursorAt(source, i))
    ensures i > 0 ==> CursorAt(source, i) == PageAt(source, i - 1).value.next && IsGiven(CursorAt(source, i))
  {
    assert i > 0 ==> LeadsOn(PageAt(source, i - 1).value);
  }

  /**
   * `n` pages have been read, each but the first from where the one before it led, none twice and none needlessly; the
   * result holds their tickets, and is truncated exactly when the last of them is not the last of the source.
   */
  ghost predicate IsRead(source: Source, n: nat, r: FetchResult) {
    && 1 <= n <= MAX_PAGES && LeadsTo(source, n - 1) && PageAt(source, n - 1).Some? && DistinctRequests(source, n)
    && Readable(Pages(source), n) && r.tickets == Collected(Pages(source), n)
    && (forall i :: 0 <= i < n ==> FewRecords(source, i))
    && (r.truncated <==> !PageAt(source, n - 1).value.last)
    && (r.truncated && IsGiven(PageAt(source, n - 1).value.next) ==>
          || |r.tickets| >= MAX_RECORDS || n == MAX_PAGES
          || source(PageAt(source, n - 1).value.next).None?
          || exists i :: 0 <= i < n && CursorAt(source, i) == PageAt(source, n - 1).value.next)
  }

  ghost predicate FewRecords(source: Source, i: nat) {
    Readable(Pages(source), i) && |Collected(Pages(source), i)| < MAX_RECORDS
  }

  lemma StillFewRecords(source: Source, n: nat)
    requires Readable(Pages(source), n) && |Collected(Pages(source), n)| < MAX_RECORDS
    ensures forall i :: 0 <= i <= n ==> FewRecords(source, i)
  {
    forall i | 0 <= i <= n
      ensures FewRecords(source, i)
    {
      CollectedGrows(Pages(source), i, n);
    }
  }

  /** The page just read is where the loop stops. */
  lemma StopsHere(source: Source, n: nat, tickets: seq<Ticket>, seen: set<string>, page: Page, truncated: bool,
                  reason: Option<string>)
    requires n < MAX_PAGES && Reading(source, n, tickets, seen) && source(CursorAt(source, n)) == Some(page)
    requires truncated <==> !page.last
    requires truncated && IsGiven(page.next) ==> |tickets + page.tickets| >= MAX_RECORDS || page.next.value in seen
    ensures IsRead(source, n + 1, FetchResult(tickets + page.tickets, truncated, reason))
  {
    PageIsRead(source, n, tickets, seen, page);
    StillFewRecords(source, n);
    hide PageAt, CursorAt, LeadsTo, Pages, Readable, Collected, FewRecords, DistinctRequests;
    if truncated && IsGiven(page.next) && page.next.value in seen {
      var i :| 1 <= i <= n && CursorAt(source, i) == page.next;
    }
    FewerLead(source, n);
  }

  lemma FewerLead(source: Source, n: nat)
    requires LeadsTo(source, n) && DistinctRequests(source, n + 1)
    ensures n > 0 ==> LeadsTo(source, n - 1) && PageAt(source, n - 1).Some? && LeadsOn(PageAt(source, n - 1).value)
    ensures n > 0 ==> CursorAt(source, n) == PageAt(source, n - 1).value.next
    ensures DistinctRequests(source, n)
  {
  }

  /** The loop stops before the next page. */
  lemma StopsBefore(source: Source, n: nat, tickets: seq<Ticket>, seen: set<string>, reason: Option<string>)
    requires 0 < n <= MAX_PAGES && Reading(source, n, tickets, seen)
    requires n == MAX_PAGES || source(CursorAt(source, n)).None?
    ensures IsRead(source, n, FetchResult(tickets, true, reason))
  {
    StillFewRecords(source, n);
    FewerLead(source, n);
    hide PageAt, CursorAt, LeadsTo, Pages, Readable, Collected, FewRecords, DistinctRequests, Seen;
  }

  lemma ReadingStarts(source: Source)
    ensures Reading(source, 0, [], {}) && CursorAt(source, 0) == None
  {
  }

  /** One more page has been read. */
  lemma PageIsRead(source: Source, n: nat, tickets: seq<Ticket>, seen: set<string>, page: Page)
    requires Reading(source, n, tickets, seen) && source(CursorAt(source, n)) == Some(page)
    ensures PageAt(source, n) == Some(page) && Pages(source)(n) == Some(View(page.tickets, page.last))
    ensures Readable(Pages(source), n + 1) && Collected(Pages(source), n + 1) == tickets + page.tickets
  {
    hide Seen, DistinctRequests, PageAt, LeadsTo, CursorAt, LeadsOn;
    LeadsToReadable(source, n);
    CursorLeadsToPage(source, n, page);
  }

  lemma CursorLeadsToPage(source: Source, n: nat, page: Page)
    requires LeadsTo(source, n) && source(CursorAt(source, n)) == Some(page)
    ensures PageAt(source, n) == Some(page)
  {
    assert n > 0 ==> LeadsOn(PageAt(source, n - 1).value);
    hide LeadsTo;
  }

  /** The request failed after the first page. */
  lemma RequestFails(source: Source, n: nat, tickets: seq<Ticket>, seen: set<string>, reason: string)
    requires reason != "" && 0 < n < MAX_PAGES && Reading(source, n, tickets, seen) && source(CursorAt(source, n)).None?
    ensures Reports(Pages(source), n, FetchResult(tickets, true, Some(reason)))
  {
    LeadsToReadable(source, n);
    assert LeadsOn(PageAt(source, n - 1).value);
    assert Pages(source)(n).None? && IsPrefix(Pages(source), n, tickets);
    hide *;
    Unreadable(Pages(source), n, tickets, reason);
  }

  /** The page just read, the `n`th, is the last. */
  lemma LastPage(source: Source, n: nat, tickets: seq<Ticket>, seen: set<string>, page: Page)
    requires n < MAX_PAGES && Reading(source, n, tickets, seen) && source(CursorAt(source, n)) == Some(page)
    requires page.last
    ensures Reports(Pages(source), n + 1, FetchResult(tickets + page.tickets, false, None))
  {
    hide LeadsTo, PageAt, CursorAt, Seen, DistinctRequests;
    PageIsRead(source, n, tickets, seen, page);
    assert |Collected(Pages(source), n)| < MAX_RECORDS && IsPrefix(Pages(source), n + 1, tickets + page.tickets);
    hide *;
    EndIsReached(Pages(source), n + 1, tickets + page.tickets);
  }

  lemma TooManyRecords(source: Source, n: nat, tickets: seq<Ticket>, seen: set<string>, page: Page, reason: string)
    requires reason != "" && n < MAX_PAGES && Reading(source, n, tickets, seen)
    requires source(CursorAt(source, n)) == Some(page) && !page.last
    requires |tickets + page.tickets| >= MAX_RECORDS
    ensures Reports(Pages(source), n + 1, FetchResult(tickets + page.tickets, true, Some(reason)))
  {
    hide LeadsTo, PageAt, CursorAt, Seen, DistinctRequests;
    PageIsRead(source, n, tickets, seen, page);
    assert IsPrefix(Pages(source), n + 1, tickets + page.tickets);
    hide *;
    RecordLimit(Pages(source), n + 1, tickets + page.tickets, reason);
  }

  /** It is not the last, but names no next one. */
  lemma NoCursor(source: Source, n: nat, tickets: seq<Ticket>, seen: set<string>, page: Page, reason: string)
    requires reason != "" && n < MAX_PAGES && Reading(source, n, tickets, seen)
    requires source(CursorAt(source, n)) == Some(page)
    requires !page.last && !IsGiven(page.next)
    ensures Reports(Pages(source), n + 1, FetchResult(tickets + page.tickets, true, Some(reason)))
  {
    hide LeadsTo, PageAt, CursorAt, Seen, DistinctRequests;
    PageIsRead(source, n, tickets, seen, page);
    NothingFollows(source, n, page);
    hide Pages;
    assert IsPrefix(Pages(source), n + 1, tickets + page.tickets);
    hide *;
    Unreadable(Pages(source), n + 1, tickets + page.tickets, reason);
  }

  lemma NothingFollows(source: Source, n: nat, page: Page)
    requires PageAt(source, n) == Some(page) && !LeadsOn(page)
    ensures Pages(source)(n + 1).None?
  {
  }

  /** The page just read leads on to the cursor it names. */
  lemma LeadsFurther(source: Source, n: nat, page: Page)
    requires LeadsTo(source, n) && PageAt(source, n) == Some(page) && LeadsOn(page)
    ensures LeadsTo(source, n + 1) && CursorAt(source, n + 1) == page.next
  {
  }

  /** It names a page requested before. */
  lemma CursorRepeats(source: Source, n: nat, tickets: seq<Ticket>, seen: set<string>, page: Page, reason: string)
    requires reason != "" && n < MAX_PAGES && Reading(source, n, tickets, seen)
    requires source(CursorAt(source, n)) == Some(page)
    requires LeadsOn(page) && page.next.value in seen
    ensures Reports(Pages(source), n + 1, FetchResult(tickets + page.tickets, true, Some(reason)))
  {
    hide PageAt, CursorAt, LeadsTo, DistinctRequests, Pages;
    PageIsRead(source, n, tickets, seen, page);
    var i :| 1 <= i <= n && CursorAt(source, i) == page.next;
    LeadsFurther(source, n, page);
    assert IsPrefix(Pages(source), n + 1, tickets + page.tickets);
    hide *;
    RepeatedCursorRecurs(source, i, n + 1);
    Repetition(Pages(source), i, n + 1, tickets + page.tickets, reason);
  }

  /** It names a page not requested before. */
  lemma ReadingGoesOn(source: Source, n: nat, tickets: seq<Ticket>, seen: set<string>, page: Page)
    requires Reading(source, n, tickets, seen) && source(CursorAt(source, n)) == Some(page) && LeadsOn(page)
    requires page.next.value !in seen && |tickets + page.tickets| < MAX_RECORDS
    ensures CursorAt(source, n + 1) == page.next
    ensures Reading(source, n + 1, tickets + page.tickets, seen + {page.next.value})
  {
    PageIsRead(source, n, tickets, seen, page);
    LeadsFurther(source, n, page);
    hide LeadsTo, PageAt, CursorAt, Pages, Readable, Collected, Seen, DistinctRequests;
    SeenGoesOn(source, n, seen);
    DistinctGoesOn(source, n, seen);
  }

  lemma DistinctGoesOn(source: Source, n: nat, seen: set<string>)
    requires Seen(source, n, seen) && DistinctRequests(source, n + 1)
    requires CursorAt(source, n + 1).Some? && CursorAt(source, n + 1).value !in seen
    ensures DistinctRequests(source, n + 2)
  {
    var next := CursorAt(source, n + 1);
    assert CursorAt(source, 0) != next;
    hide PageAt, CursorAt;
    assert forall i :: 1 <= i <= n ==> CursorAt(source, i) != next;
  }

  lemma PagesExhausted(source: Source, tickets: seq<Ticket>, seen: set<string>, reason: string)
    requires reason != "" && Reading(source, MAX_PAGES, tickets, seen)
    ensures Reports(Pages(source), MAX_PAGES, FetchResult(tickets, true, Some(reason)))
  {
    LeadsToReadable(source, MAX_PAGES);
    assert IsPrefix(Pages(source), MAX_PAGES, tickets);
    hide *;
    PageLimit(Pages(source), tickets, reason);
  }

  lemma ReadingIsDistinct(source: Source, n: nat, tickets: seq<Ticket>, seen: set<string>)
    requires Reading(source, n, tickets, seen)
    ensures DistinctRequests(source, n) && DistinctRequests(source, n + 1) && |tickets| < MAX_RECORDS
  {
  }

  lemma SeenGoesOn(source: Source, n: nat, seen: set<string>)
    requires Seen(source, n, seen) && CursorAt(source, n + 1).Some?
    ensures Seen(source, n + 1, seen + {CursorAt(source, n + 1).value})
  {
    var next := CursorAt(source, n + 1).value;
    forall c
      ensures c in seen + {next} <==> exists i :: 1 <= i <= n + 1 && CursorAt(source, i) == Some(c)
    {
      if exists i :: 1 <= i <= n + 1 && CursorAt(source, i) == Some(c) {
        var i :| 1 <= i <= n + 1 && CursorAt(source, i) == Some(c);
      }
    }
  }
}
