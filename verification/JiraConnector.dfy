/** The pagination loop of app/connectors/jira.py. */
module JiraConnector {
  import opened Wrappers
  import opened Tickets
  import opened Pagination
  import opened Cursors

  datatype Response = Response(issues: seq<Ticket>, isLast: bool, nextPageToken: Option<string>)

  /** Jira marks its last page; a page without issues counts as the last too. */
  function PageOf(response: Option<Response>): Option<Page> {
    match response
    case Some(r) => Some(Page(r.issues, r.isLast || r.issues == [], r.nextPageToken))
    case None => None
  }

  function SourceOf(respond: Option<string> -> Option<Response>): Source {
    token => PageOf(respond(token))
  }

  // ----- In terms of the responses -----

  /** The tickets of the responses to the given requests, in order. */
  function TicketsOf(respond: Option<string> -> Option<Response>, tokens: seq<Option<string>>): seq<Ticket> {
    if tokens == [] then []
    else
      var before := TicketsOf(respond, tokens[..|tokens| - 1]);
      match respond(tokens[|tokens| - 1])
      case Some(r) => before + r.issues
      case None => before
  }

  /** The response to request `i` is not the last, and its token, which is not empty, is that of the next request. */
  predicate IsFollowed(respond: Option<string> -> Option<Response>, tokens: seq<Option<string>>, i: nat)
    requires i + 1 < |tokens|
  {
    && respond(tokens[i]).Some? && tokens[i + 1] == respond(tokens[i]).value.nextPageToken
    && !respond(tokens[i]).value.isLast && respond(tokens[i]).value.issues != []
    && tokens[i + 1].Some? && tokens[i + 1].value != ""
    && |TicketsOf(respond, tokens[..i + 1])| < 5000
  }

  /**
   * The requests made go from one response to the next, none twice, and stop no earlier than they must. The tickets are
   * those of all responses, and the fetch is truncated exactly when the last response has issues and is not marked.
   */
  ghost predicate IsFetch(respond: Option<string> -> Option<Response>, tokens: seq<Option<string>>, r: FetchResult) {
    var n := |tokens|;
    && 1 <= n <= 50 && tokens[0] == None && respond(tokens[n - 1]).Some?
    && (forall i :: 0 <= i < n - 1 ==> IsFollowed(respond, tokens, i))
    && (forall i, j :: 0 <= i < j < n ==> tokens[i] != tokens[j])
    && r.tickets == TicketsOf(respond, tokens)
    && var last := respond(tokens[n - 1]).value;
    && (r.truncated <==> !last.isLast && last.issues != [])
    && (r.truncated ==>
          || |r.tickets| >= 5000 || n == 50 || last.nextPageToken in [None, Some("")]
          || last.nextPageToken in tokens || respond(last.nextPageToken).None?)
  }

  function TokensOf(source: Source, n: nat): (tokens: seq<Option<string>>)
    ensures |tokens| == n && forall i :: 0 <= i < n ==> tokens[i] == CursorAt(source, i)
  {
    seq(n, i requires 0 <= i < n => CursorAt(source, i))
  }

  lemma {:induction false} CollectedAreTickets(respond: Option<string> -> Option<Response>, n: nat)
    requires Readable(Pages(SourceOf(respond)), n)
    requires n > 0 ==> LeadsTo(SourceOf(respond), n - 1)
    ensures Collected(Pages(SourceOf(respond)), n) == TicketsOf(respond, TokensOf(SourceOf(respond), n))
  {
    hide PageAt, CursorAt, LeadsTo, Pages;
    var source := SourceOf(respond);
    if n > 0 {
      if n > 1 {
        LeadsToFewer(source, n - 1, n - 2);
      }
      CollectedAreTickets(respond, n - 1);
      assert TokensOf(source, n)[..n - 1] == TokensOf(source, n - 1);
      TicketsOfPage(source, n - 1);
    }
  }

  /** Every response but the last leads to the next. */
  lemma ReadIsFollowed(respond: Option<string> -> Option<Response>, n: nat, i: nat)
    requires i + 1 < n && LeadsTo(SourceOf(respond), n - 1) && FewRecords(SourceOf(respond), i + 1)
    ensures IsFollowed(respond, TokensOf(SourceOf(respond), n), i)
  {
    hide PageAt, CursorAt, LeadsTo, Pages, Collected;
    var source := SourceOf(respond);
    PageIsFollowed(source, n - 1, i);
    CollectedAreTickets(respond, i + 1);
    assert TokensOf(source, n)[..i + 1] == TokensOf(source, i + 1);
  }

  /** What the loop has read is a fetch. */
  lemma ReadIsFetch(respond: Option<string> -> Option<Response>, n: nat, r: FetchResult)
    returns (tokens: seq<Option<string>>)
    requires IsRead(SourceOf(respond), n, r)
    ensures |tokens| == n && IsFetch(respond, tokens, r)
  {
    hide LeadsTo, Pages, Collected, FewRecords, IsFollowed, TicketsOf, PageAt, Readable;
    var source := SourceOf(respond);
    tokens := TokensOf(source, n);
    CollectedAreTickets(respond, n);
    PageFromSource(source, n - 1);
    forall i | 0 <= i < n - 1
      ensures IsFollowed(respond, tokens, i)
    {
      assert FewRecords(source, i + 1);
      ReadIsFollowed(respond, n, i);
    }
    assert CursorAt(source, 0) == None;
    var last := respond(tokens[n - 1]).value;
    assert source(tokens[n - 1]) == PageOf(Some(last)) == PageAt(source, n - 1);
    if exists i :: 0 <= i < n && CursorAt(source, i) == last.nextPageToken {
      var i :| 0 <= i < n && CursorAt(source, i) == last.nextPageToken;
      assert tokens[i] == last.nextPageToken;
    }
    assert !IsGiven(last.nextPageToken) ==> last.nextPageToken == None || last.nextPageToken == Some("");
    hide CursorAt;
  }

  /** `n` pages are read with `requests` requests; only the first may fail the whole fetch. */
  method Fetch(respond: Option<string> -> Option<Response>)
    returns (result: Result<FetchResult, string>, ghost n: nat, ghost requests: nat, ghost tokens: seq<Option<string>>)
    ensures result.Failure? <==> respond(None).None?
    ensures result.Success? ==> |tokens| == n && IsFetch(respond, tokens, result.value)
    ensures result.Success? ==> Reports(Pages(SourceOf(respond)), n, result.value)
    ensures n <= requests <= n + 1 && requests <= MAX_PAGES && DistinctRequests(SourceOf(respond), requests)
  {
    hide Reading, Reports, PageAt, CursorAt, DistinctRequests, IsRead, IsFetch;
    ghost var source := SourceOf(respond);
    var tickets: seq<Ticket>, nextPageToken: Option<string>, seenPageTokens: set<string> := [], None, {};
    var truncated, truncationReason: Option<string>, stopped := false, None, false;
    n, requests, tokens := 0, 0, [];
    ReadingStarts(source);
    for page := 0 to MAX_PAGES
      invariant Reading(source, page, tickets, seenPageTokens) && nextPageToken == CursorAt(source, page)
      invariant !stopped && !truncated && truncationReason == None && (page > 0 ==> respond(None).Some?)
    {
      ReadingIsDistinct(source, page, tickets, seenPageTokens);
      n, requests := page, page + 1;
      var response := respond(nextPageToken);
      if response.None? {
        if page == 0 {
          return Failure("Jira page fetch failed"), n, requests, tokens;
        }
        truncated, truncationReason, stopped := true, Some("Jira page fetch failed"), true;
        RequestFails(source, page, tickets, seenPageTokens, truncationReason.value);
        StopsBefore(source, page, tickets, seenPageTokens, truncationReason);
        break;
      }
      n := page + 1;
      var data := response.value;
      ghost var view, before := PageOf(response).value, tickets;
      tickets := tickets + data.issues;

      if |tickets| >= MAX_RECORDS {
        truncated, stopped := !data.isLast, true;
        if truncated {
          truncationReason := Some("Reached the 5000-record fetch limit");
          TooManyRecords(source, page, before, seenPageTokens, view, truncationReason.value);
        } else {
          LastPage(source, page, before, seenPageTokens, view);
        }
        StopsHere(source, page, before, seenPageTokens, view, truncated, truncationReason);
        break;
      }
      if data.issues == [] || data.isLast {
        stopped := true;
        LastPage(source, page, before, seenPageTokens, view);
        StopsHere(source, page, before, seenPageTokens, view, truncated, truncationReason);
        break;
      }
      var candidate := data.nextPageToken;
      if !IsGiven(candidate) {
        truncated, truncationReason, stopped := true, Some("Jira did not return a next-page token"), true;
        NoCursor(source, page, before, seenPageTokens, view, truncationReason.value);
        StopsHere(source, page, before, seenPageTokens, view, truncated, truncationReason);
        break;
      }
      if candidate.value in seenPageTokens {
        truncated, truncationReason, stopped := true, Some("Jira returned a repeated pagination cursor"), true;
        CursorRepeats(source, page, before, seenPageTokens, view, truncationReason.value);
        StopsHere(source, page, before, seenPageTokens, view, truncated, truncationReason);
        break;
      }
      ReadingGoesOn(source, page, before, seenPageTokens, view);
      seenPageTokens, nextPageToken := seenPageTokens + {candidate.value}, candidate;
    }
    if !stopped {
      truncated, truncationReason := true, Some("Reached the 50-page fetch limit");
      n, requests := MAX_PAGES, MAX_PAGES;
      ReadingIsDistinct(source, MAX_PAGES, tickets, seenPageTokens);
      PagesExhausted(source, tickets, seenPageTokens, truncationReason.value);
      StopsBefore(source, MAX_PAGES, tickets, seenPageTokens, truncationReason);
    }
    tokens := ReadIsFetch(respond, n, FetchResult(tickets, truncated, truncationReason));
    result := Success(FetchResult(tickets, truncated, truncationReason));
  }
}
