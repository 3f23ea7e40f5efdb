/** The pagination loop of app/connectors/github.py. */
module GitHubConnector {
  import opened Wrappers
  import opened Tickets
  import opened Pagination

  /** GitHub lists pull requests among the issues. */
  datatype Item = Issue(ticket: Ticket) | PullRequest

  /** Page numbers start at one. None is a failed request. */
  type Source = nat -> Option<seq<Item>>

  function IssuesOnly(data: seq<Item>): seq<Ticket> {
    if data == [] then []
    else
      var before, item := IssuesOnly(data[..|data| - 1]), data[|data| - 1];
      if item.Issue? then before + [item.ticket] else before
  }

  /** A page that is not full, pull requests included, is the last. */
  function Pages(respond: Source): Feed {
    (n: nat) =>
      match respond(n + 1)
      case Some(data) => Some(View(IssuesOnly(data), |data| < PAGE_SIZE))
      case None => None
  }

  /** The issues of a response are kept in order, and nothing else is. */
  lemma {:induction false} IssuesOnlyKeeps(data: seq<Item>) returns (at: seq<nat>)
    ensures |at| == |IssuesOnly(data)| && forall k :: 0 <= k < |at| ==>
              at[k] < |data| && data[at[k]] == Issue(IssuesOnly(data)[k])
    ensures forall k, l :: 0 <= k < l < |at| ==> at[k] < at[l]
    ensures forall i :: 0 <= i < |data| && data[i].Issue? ==> i in at
    decreases |data|
  {
    if data == [] {
      at := [];
    } else {
      var last := |data| - 1;
      assert data == data[..last] + [data[last]];
      at := IssuesOnlyKeeps(data[..last]);
      assert forall i :: 0 <= i < last ==> data[..last][i] == data[i];
      if data[last].Issue? {
        at := at + [last];
      }
    }
  }

  method ReadIssues(data: seq<Item>) returns (tickets: seq<Ticket>)
    ensures tickets == IssuesOnly(data)
  {
    tickets := [];
    for i := 0 to |data|
      invariant tickets == IssuesOnly(data[..i])
    {
      assert data[..i + 1][..i] == data[..i];
      if data[i].Issue? {
        tickets := tickets + [data[i].ticket];
      }
    }
    assert data[..|data|] == data;
  }

  // ----- In terms of the responses -----

  /** The tickets of the first `n` responses, in order. */
  function TicketsOf(respond: Source, n: nat): seq<Ticket> {
    if n == 0 then []
    else
      match respond(n)
      case Some(data) => TicketsOf(respond, n - 1) + IssuesOnly(data)
      case None => TicketsOf(respond, n - 1)
  }

  /** Response `i` is full, pull requests included, and the records up to it are below the limit. */
  predicate IsFull(respond: Source, i: nat) {
    respond(i).Some? && |respond(i).value| >= 100 && |TicketsOf(respond, i)| < 5000
  }

  /**
   * Full responses are read until the first that is not, or as far as the bounds or a failure allow. The tickets are
   * those of all responses read, and the fetch is truncated exactly when the last of them is full.
   */
  ghost predicate IsFetch(respond: Source, n: nat, r: FetchResult) {
    && 1 <= n <= 50 && respond(n).Some?
    && (forall i :: 1 <= i < n ==> IsFull(respond, i))
    && r.tickets == TicketsOf(respond, n)
    && (r.truncated <==> |respond(n).value| >= 100)
    && (r.truncated ==> |r.tickets| >= 5000 || n == 50 || respond(n + 1).None?)
  }

  // ----- What the loop keeps -----

  /** `n` responses have been read, all full, and the records are below the limit. */
  ghost predicate Reading(respond: Source, n: nat, tickets: seq<Ticket>) {
    && Readable(Pages(respond), n) && (n > 0 ==> !Pages(respond)(n - 1).value.last)
    && tickets == Collected(Pages(respond), n) == TicketsOf(respond, n) && |tickets| < MAX_RECORDS
    && (forall i :: 1 <= i <= n ==> IsFull(respond, i))
  }

  ghost predicate IsDone(respond: Source, n: nat, r: FetchResult) {
    IsFetch(respond, n, r) && Reports(Pages(respond), n, r)
  }

  lemma ReadingStarts(respond: Source)
    ensures Reading(respond, 0, [])
  {
  }

  /** One more response has been read. */
  lemma ResponseIsRead(respond: Source, n: nat, tickets: seq<Ticket>, data: seq<Item>)
    requires Reading(respond, n, tickets) && respond(n + 1) == Some(data)
    ensures var all := tickets + IssuesOnly(data);
      && Pages(respond)(n) == Some(View(IssuesOnly(data), |data| < PAGE_SIZE))
      && Readable(Pages(respond), n + 1) && all == Collected(Pages(respond), n + 1) == TicketsOf(respond, n + 1)
  {
    hide IsFull, IssuesOnly, Pages, Collected, TicketsOf;
    ViewOfResponse(respond, n, data);
    assert Readable(Pages(respond), n + 1);
    OneMorePage(Pages(respond), n);
    OneMoreResponse(respond, n, data);
  }

  lemma OneMorePage(pages: Feed, n: nat)
    requires Readable(pages, n + 1)
    ensures Readable(pages, n) && Collected(pages, n + 1) == Collected(pages, n) + pages(n).value.tickets
  {
  }

  lemma OneMoreResponse(respond: Source, n: nat, data: seq<Item>)
    requires respond(n + 1) == Some(data)
    ensures TicketsOf(respond, n + 1) == TicketsOf(respond, n) + IssuesOnly(data)
  {
  }

  lemma ViewOfResponse(respond: Source, n: nat, data: seq<Item>)
    requires respond(n + 1) == Some(data)
    ensures Pages(respond)(n) == Some(View(IssuesOnly(data), |data| < PAGE_SIZE))
  {
  }

  /** The loop stops with it. */
  lemma StopsHere(respond: Source, n: nat, tickets: seq<Ticket>, data: seq<Item>, truncated: bool,
                  reason: Option<string>)
    requires n < MAX_PAGES && Reading(respond, n, tickets) && respond(n + 1) == Some(data)
    requires truncated <==> |data| >= PAGE_SIZE
    requires if truncated then |tickets + IssuesOnly(data)| >= MAX_RECORDS && reason.Some? && reason.value != ""
             else reason == None
    ensures IsDone(respond, n + 1, FetchResult(tickets + IssuesOnly(data), truncated, reason))
  {
    ResponseIsRead(respond, n, tickets, data);
    var all := tickets + IssuesOnly(data);
    if truncated {
      RecordLimit(Pages(respond), n + 1, all, reason.value);
    } else {
      EndIsReached(Pages(respond), n + 1, all);
    }
    hide Reports, Collected, TicketsOf, IssuesOnly;
  }

  /** The loop goes on. */
  lemma ReadingGoesOn(respond: Source, n: nat, tickets: seq<Ticket>, data: seq<Item>)
    requires Reading(respond, n, tickets) && respond(n + 1) == Some(data) && |data| >= PAGE_SIZE
    requires |tickets + IssuesOnly(data)| < MAX_RECORDS
    ensures Reading(respond, n + 1, tickets + IssuesOnly(data))
  {
    ResponseIsRead(respond, n, tickets, data);
    hide Readable, Collected, TicketsOf, IssuesOnly;
    assert IsFull(respond, n + 1);
  }

  /** The loop ends before the next response: it fails, or the page limit is reached. */
  lemma StopsBefore(respond: Source, n: nat, tickets: seq<Ticket>, reason: string)
    requires 0 < n <= MAX_PAGES && Reading(respond, n, tickets) && reason != ""
    requires n == MAX_PAGES || respond(n + 1).None?
    ensures IsDone(respond, n, FetchResult(tickets, true, Some(reason)))
  {
    assert IsFull(respond, n);
    if n == MAX_PAGES {
      PageLimit(Pages(respond), tickets, reason);
    } else {
      assert Pages(respond)(n).None?;
      Unreadable(Pages(respond), n, tickets, reason);
    }
    hide Reports, Collected, TicketsOf;
  }

  method Fetch(respond: Source) returns (result: Result<FetchResult, string>, ghost n: nat)
    ensures result.Failure? <==> respond(1).None?
    ensures result.Success? ==> IsFetch(respond, n, result.value)
    ensures result.Success? ==> Reports(Pages(respond), n, result.value)
  {
    hide Reports, Reading, IsFetch;
    var tickets: seq<Ticket> := [];
    var truncated, truncationReason: Option<string>, stopped := false, None, false;
    n := 0;
    ReadingStarts(respond);
    for page := 1 to MAX_PAGES + 1
      invariant Reading(respond, page - 1, tickets) && (page > 1 ==> respond(1).Some?)
      invariant !stopped && !truncated && truncationReason == None
    {
      n := page - 1;
      var response := respond(page);
      if response.None? {
        if page == 1 {
          return Failure("GitHub page fetch failed"), n;
        }
        truncated, truncationReason, stopped := true, Some("GitHub page fetch failed"), true;
        StopsBefore(respond, n, tickets, truncationReason.value);
        break;
      }
      n := page;
      var data := response.value;
      var issuesOnly := ReadIssues(data);
      ghost var before := tickets;
      tickets := tickets + issuesOnly;

      var isLastPage := |data| < PAGE_SIZE;
      if |tickets| >= MAX_RECORDS {
        truncated, stopped := !isLastPage, true;
        if truncated {
          truncationReason := Some("Reached the 5000-record fetch limit");
        }
        StopsHere(respond, page - 1, before, data, truncated, truncationReason);
        break;
      }
      if isLastPage {
        stopped := true;
        StopsHere(respond, page - 1, before, data, truncated, truncationReason);
        break;
      }
      ReadingGoesOn(respond, page - 1, before, data);
    }
    if !stopped {
      truncated, truncationReason, n := true, Some("Reached the 50-page fetch limit"), MAX_PAGES;
      StopsBefore(respond, n, tickets, truncationReason.value);
    }
    result := Success(FetchResult(tickets, truncated, truncationReason));
  }
}
