/** The pagination loop of app/connectors/asana.py. */
module AsanaConnector {
  import opened Wrappers
  import opened Tickets
  import opened Pagination
  import opened Cursors

  datatype Response = Response(data: seq<Ticket>, nextOffset: Option<string>)

  /** Asana marks its last page by giving no next offset. */
  function PageOf(response: Option<Response>): Option<Page> {
    match response
    case Some(r) => Some(Page(r.data, !IsGiven(r.nextOffset), r.nextOffset))
    case None => None
  }

  function SourceOf(respond: Option<string> -> Option<Response>): Source {
    offset => PageOf(respond(offset))
  }

  // ----- In terms of the responses -----

  /** The tickets of the responses to the given requests, in order. */
  function TicketsOf(respond: Option<string> -> Option<Response>, offsets: seq<Option<string>>): seq<Ticket> {
    if offsets == [] then []
    else
      var before := TicketsOf(respond, offsets[..|offsets| - 1]);
      match respond(offsets[|offsets| - 1])
      case Some(r) => before + r.data
      case None => before
  }

  /** The response to request `i` has a next offset, not empty, which is that of the next request. */
  predicate IsFollowed(respond: Option<string> -> Option<Response>, offsets: seq<Option<string>>, i: nat)
    requires i + 1 < |offsets|
  {
    && respond(offsets[i]).Some? && offsets[i + 1] == respond(offsets[i]).value.nextOffset
    && offsets[i + 1].Some? && offsets[i + 1].value != ""
    && |TicketsOf(respond, offsets[..i + 1])| < 5000
  }

  /**
   * The requests made go from one response to the next, none twice, and stop no earlier than they must. The tickets are
   * those of all responses, and the fetch is truncated exactly when the last response has a next offset.
   */
  ghost predicate IsFetch(respond: Option<string> -> Option<Response>, offsets: seq<Option<string>>, r: FetchResult) {
    var n := |offsets|;
    && 1 <= n <= 50 && offsets[0] == None && respond(offsets[n - 1]).Some?
    && (forall i :: 0 <= i < n - 1 ==> IsFollowed(respond, offsets, i))
    && (forall i, j :: 0 <= i < j < n ==> offsets[i] != offsets[j])
    && r.tickets == TicketsOf(respond, offsets)
    && var next := respond(offsets[n - 1]).value.nextOffset;
    && (r.truncated <==> next.Some? && next.value != "")
    && (r.truncated ==> |r.tickets| >= 5000 || n == 50 || next in offsets || respond(next).None?)
  }

  function OffsetsOf(source: Source, n: nat): (offsets: seq<Option<string>>)
    ensures |offsets| == n && forall i :: 0 <= i < n ==> offsets[i] == CursorAt(source, i)
  {
    seq(n, i requires 0 <= i < n => CursorAt(source, i))
  }

  lemma {:induction false} CollectedAreTickets(respond: Option<string> -> Option<Response>, n: nat)
    requires Readable(Pages(SourceOf(respond)), n)
    requires n > 0 ==> LeadsTo(SourceOf(respond), n - 1)
    ensures Collected(Pages(SourceOf(respond)), n) == TicketsOf(respond, OffsetsOf(SourceOf(respond), n))
  {
    hide PageAt, CursorAt, LeadsTo, Pages;
    var source := SourceOf(respond);
    if n > 0 {
      if n > 1 {
        LeadsToFewer(source, n - 1, n - 2);
      }
      CollectedAreTickets(respond, n - 1);
      assert OffsetsOf(source, n)[..n - 1] == OffsetsOf(source, n - 1);
      TicketsOfPage(source, n - 1);
    }
  }

  /** Every response but the last leads to the next. */
  lemma ReadIsFollowed(respond: Option<string> -> Option<Response>, n: nat, i: nat)
    requires i + 1 < n && LeadsTo(SourceOf(respond), n - 1) && FewRecords(SourceOf(respond), i + 1)
    ensures IsFollowed(respond, OffsetsOf(SourceOf(respond), n), i)
  {
    hide PageAt, CursorAt, LeadsTo, Pages, Collected;
    var source := SourceOf(respond);
    PageIsFollowed(source, n - 1, i);
    CollectedAreTickets(respond, i + 1);
    assert OffsetsOf(source, n)[..i + 1] == OffsetsOf(source, i + 1);
  }

  /** What the loop has read is a fetch. */
  lemma ReadIsFetch(respond: Option<string> -> Option<Response>, n: nat, r: FetchResult)
    returns (offsets: seq<Option<string>>)
    requires IsRead(SourceOf(respond), n, r)
    ensures |offsets| == n && IsFetch(respond, offsets, r)
  {
    hide LeadsTo, Pages, Collected, FewRecords, IsFollowed, TicketsOf, PageAt, Readable;
    var source := SourceOf(respond);
    offsets := OffsetsOf(source, n);
    CollectedAreTickets(respond, n);
    PageFromSource(source, n - 1);
    forall i | 0 <= i < n - 1
      ensures IsFollowed(respond, offsets, i)
    {
      assert FewRecords(source, i + 1);
      ReadIsFollowed(respond, n, i);
    }
    assert CursorAt(source, 0) == None;
    var last := respond(offsets[n - 1]).value;
    assert source(offsets[n - 1]) == PageOf(Some(last)) == PageAt(source, n - 1);
    if exists i :: 0 <= i < n && CursorAt(source, i) == last.nextOffset {
      var i :| 0 <= i < n && CursorAt(source, i) == last.nextOffset;
      assert offsets[i] == last.nextOffset;
    }
    hide CursorAt;
  }

  /** `n` pages are read with `requests` requests; only the first may fail the whole fetch. */
  method Fetch(respond: Option<string> -> Option<Response>)
    returns (result: Result<FetchResult, string>, ghost n: nat, ghost requests: nat, ghost offsets: seq<Option<string>>)
    ensures result.Failure? <==> respond(None).None?
    ensures result.Success? ==> |offsets| == n && IsFetch(respond, offsets, result.value)
    ensures result.Success? ==> Reports(Pages(SourceOf(respond)), n, result.value)
    ensures n <= requests <= n + 1 && requests <= MAX_PAGES && DistinctRequests(SourceOf(respond), requests)
  {
    hide Reading, Reports, PageAt, CursorAt, DistinctRequests, IsRead, IsFetch;
    ghost var source := SourceOf(respond);
    var tickets: seq<Ticket>, offset: Option<string>, seenOffsets: set<string> := [], None, {};
    var truncated, truncationReason: Option<string>, stopped := false, None, false;
    n, requests, offsets := 0, 0, [];
    ReadingStarts(source);
    for page := 0 to MAX_PAGES
      invariant Reading(source, page, tickets, seenOffsets) && offset == CursorAt(source, page)
      invariant !stopped && !truncated && truncationReason == None && (page > 0 ==> respond(None).Some?)
    {
      ReadingIsDistinct(source, page, tickets, seenOffsets);
      n, requests := page, page + 1;
      var response := respond(offset);
      if response.None? {
        if page == 0 {
          return Failure("Asana page fetch failed"), n, requests, offsets;
        }
        truncated, truncationReason, stopped := true, Some("Asana page fetch failed"), true;
        RequestFails(source, page, tickets, seenOffsets, truncationReason.value);
        StopsBefore(source, page, tickets, seenOffsets, truncationReason);
        break;
      }
      n := page + 1;
      var data := response.value;
      ghost var view, before := PageOf(response).value, tickets;
      tickets := tickets + data.data;

      if |tickets| >= MAX_RECORDS {
        truncated, stopped := IsGiven(data.nextOffset), true;
        if truncated {
          truncationReason := Some("Reached the 5000-record fetch limit");
          TooManyRecords(source, page, before, seenOffsets, view, truncationReason.value);
        } else {
          LastPage(source, page, before, seenOffsets, view);
        }
        StopsHere(source, page, before, seenOffsets, view, truncated, truncationReason);
        break;
      }
      if !IsGiven(data.nextOffset) {
        stopped := true;
        LastPage(source, page, before, seenOffsets, view);
        StopsHere(source, page, before, seenOffsets, view, truncated, truncationReason);
        break;
      }
      if data.nextOffset.value in seenOffsets {
        truncated, truncationReason, stopped := true, Some("Asana returned a repeated pagination cursor"), true;
        CursorRepeats(source, page, before, seenOffsets, view, truncationReason.value);
        StopsHere(source, page, before, seenOffsets, view, truncated, truncationReason);
        break;
      }
      ReadingGoesOn(source, page, before, seenOffsets, view);
      seenOffsets, offset := seenOffsets + {data.nextOffset.value}, data.nextOffset;
    }
    if !stopped {
      truncated, truncationReason := true, Some("Reached the 50-page fetch limit");
      n, requests := MAX_PAGES, MAX_PAGES;
      ReadingIsDistinct(source, MAX_PAGES, tickets, seenOffsets);
      PagesExhausted(source, tickets, seenOffsets, truncationReason.value);
      StopsBefore(source, MAX_PAGES, tickets, seenOffsets, truncationReason);
    }
    offsets := ReadIsFetch(respond, n, FetchResult(tickets, truncated, truncationReason));
    result := Success(FetchResult(tickets, truncated, truncationReason));
  }
}
