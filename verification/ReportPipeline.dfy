/**
From the source to the report's own account of its completeness
(app/core/report_service.py): fetch, collapse duplicates, filter by period,
sanitize, fit the input budget, ask the provider.
*/
module ReportPipeline {
  import opened Wrappers
  import opened Tickets
  import opened Pagination
  import opened Dedupe
  import opened PromptBudget
  import R = Ranking

  datatype Error = Error(statusCode: int, detail: string)

  /** The language model: an error, an answer of nothing but space, or a narrative, perhaps cut off. */
  datatype Answer = Failed | Blank | Narrative(text: string, truncated: bool)

  datatype Report = Report(
    status: string,
    ticketCount: nat,
    narrative: string,
    isTruncated: bool,
    truncationReason: Option<string>)

  /**
   * What the prompt holds of the tickets: sanitizing rewrites their texts, scoring flags risks and the line is
   * assembled, one entry for each ticket under its own identifier. The header is what size is reserved for, and
   * `render` assembles the prompt around the listing and redacts it once more, as a whole.
   */
  datatype Config = Config(
    describe: seq<Ticket> -> seq<R.Entry>,
    header: seq<Ticket> -> string,
    render: (seq<Ticket>, seq<string>) -> string,
    maxInputTokens: int)

  ghost predicate KeepsIds(describe: seq<Ticket> -> seq<R.Entry>) {
    forall ts: seq<Ticket> :: |describe(ts)| == |ts| && forall i :: 0 <= i < |ts| ==> describe(ts)[i].id == ts[i].id
  }

  // ----- The reasons -----

  function Join(reasons: seq<string>): string {
    if reasons == [] then ""
    else if |reasons| == 1 then reasons[0]
    else Join(reasons[..|reasons| - 1]) + "; " + reasons[|reasons| - 1]
  }

  function OneOrNone(condition: bool, reason: string): seq<string> {
    if condition then [reason] else []
  }

  function Reasons(fetched: FetchResult, excluded: int, cutOff: bool): seq<string> {
    var fetchReason := fetched.truncationReason;
    (if fetchReason.Some? && fetchReason.value != "" then [fetchReason.value] else [])
    + OneOrNone(excluded != 0, "ticket(s) omitted from the LLM input size budget")
    + OneOrNone(cutOff, "Provider cut the narrative off at its output token limit")
  }

  function NoneIfEmpty(text: string): Option<string> {
    if text == "" then None else Some(text)
  }

  lemma JoinIsEmpty(reasons: seq<string>)
    requires forall r :: r in reasons ==> r != ""
    ensures Join(reasons) == "" <==> reasons == []
  {
    if |reasons| == 1 {
      assert reasons[0] in reasons;
    } else if reasons != [] {
      assert |Join(reasons)| >= 2;
    }
  }

  /** The reasons come in order. */
  lemma {:induction false} JoinStartsWithFirst(reasons: seq<string>)
    requires reasons != []
    ensures reasons[0] <= Join(reasons)
    decreases |reasons|
  {
    if |reasons| > 1 {
      JoinStartsWithFirst(reasons[..|reasons| - 1]);
    }
  }

  /** Something to report gives a reason, and nothing gives none. */
  lemma ReasonsAreGiven(fetched: FetchResult, excluded: nat, cutOff: bool)
    requires IsExplained(fetched)
    ensures NoneIfEmpty(Join(Reasons(fetched, excluded, cutOff))).Some? <==> fetched.truncated || excluded > 0 || cutOff
  {
    JoinIsEmpty(Reasons(fetched, excluded, cutOff));
    hide Join;
  }

  // ----- What a report says of itself -----

  /** What is left to report on after duplicates and the period. */
  function Relevant(fetched: FetchResult, start: Option<int>, end: Option<int>): seq<Ticket> {
    FilterByPeriod(Deduped(fetched.tickets), start, end)
  }

  ghost function SelectedOf(config: Config, relevant: seq<Ticket>): set<string> {
    Selected(config.describe(relevant), Budget(config.header(relevant), config.maxInputTokens))
  }

  /** The listing the prompt holds. */
  ghost function ListingOf(config: Config, relevant: seq<Ticket>): seq<string> {
    Listing(config.describe(relevant), Lines(config.describe(relevant)), SelectedOf(config, relevant))
  }

  /** The report made of the provider's narrative. */
  ghost predicate IsReport(fetched: FetchResult, relevant: seq<Ticket>, config: Config, answer: Answer,
                           report: Report) {
    && answer.Narrative? && report.narrative == answer.text && report.ticketCount == |relevant|
    && var excluded := |relevant| - |SelectedOf(config, relevant)|;
    && report.isTruncated == (fetched.truncated || excluded > 0 || answer.truncated)
    && report.truncationReason == NoneIfEmpty(Join(Reasons(fetched, excluded, answer.truncated)))
    && report.status == if report.isTruncated then "partial" else "complete"
  }

  method GenerateReport(fetched: Result<FetchResult, string>, start: Option<int>, end: Option<int>, config: Config,
                        ask: string -> Answer)
    returns (result: Result<Report, Error>)
    requires KeepsIds(config.describe)
    ensures match fetched
      case Failure(_) => result.Failure? && result.error.statusCode == 502
      case Success(f) =>
        var relevant := Relevant(f, start, end);
        if f.tickets == [] || relevant == [] then result.Failure? && result.error.statusCode == 422
        else
          var answer := ask(config.render(relevant, ListingOf(config, relevant)));
          match result
          case Success(report) =>
            && IsReport(f, relevant, config, answer, report)
            && answer.Narrative? && report.narrative == answer.text && report.ticketCount == |relevant|
            && report.status == (if report.isTruncated then "partial" else "complete")
          case Failure(e) => (answer.Failed? && e.statusCode == 500) || (answer.Blank? && e.statusCode == 502)
  {
    hide Deduped, FilterByPeriod, Selected, Join, Reasons, Listing, Lines, Budget, IsSelection, R.UniqueIds;
    if fetched.Failure? {
      return Failure(Error(502, "fetch failed; check connection settings"));
    }
    var fetch := fetched.value;
    if fetch.tickets == [] {
      return Failure(Error(422, "No tickets found for the given filter"));
    }
    var tickets := DedupeTickets(fetch.tickets);
    tickets := FilterByPeriod(tickets, start, end);
    if tickets == [] {
      return Failure(Error(422, "No tickets updated within the given period"));
    }

    var listing, excluded, _ := SelectTickets(config.describe(tickets), config.header(tickets), config.maxInputTokens);
    var answer := ask(config.render(tickets, listing));
    match answer
    case Failed => result := Failure(Error(500, "Report generation failed; check provider settings"));
    case Blank => result := Failure(Error(502, "Provider returned an empty report; try again"));
    case Narrative(text, cutOff) =>
      var isTruncated := fetch.truncated || excluded > 0 || cutOff;
      var reasons := Reasons(fetch, excluded, cutOff);
      result := Success(Report(if isTruncated then "partial" else "complete", |tickets|, text, isTruncated,
                               NoneIfEmpty(Join(reasons))));
  }

  // ----- What that account is worth -----

  /** What is reported on: the newest records in the period, each identifier once, in the order of first sight. */
  lemma RelevantIsNewestInPeriod(fetched: FetchResult, start: Option<int>, end: Option<int>)
    ensures var ts, relevant := fetched.tickets, Relevant(fetched, start, end);
      && (forall i :: 0 <= i < |ts| && IsNewest(ts, i) ==>
            (ts[i] in relevant <==>
              && (start.Some? ==> start.value <= ts[i].updatedAt) && (end.Some? ==> ts[i].updatedAt <= end.value)))
      && (forall t :: t in relevant ==> exists i :: 0 <= i < |ts| && ts[i] == t && IsNewest(ts, i))
      && (forall i, j :: 0 <= i < j < |relevant| ==> SeenBefore(ts, relevant[i].id, relevant[j].id))
  {
    SurvivorsAreNewestInPeriod(fetched.tickets, start, end);
    hide Deduped, FilterByPeriod, IsNewest, SeenBefore;
  }

  /** What the prompt lists of them is a selection by rank within the budget. */
  lemma ListingIsSelection(fetched: FetchResult, start: Option<int>, end: Option<int>, config: Config)
    returns (at: seq<nat>)
    requires KeepsIds(config.describe)
    ensures var relevant := Relevant(fetched, start, end);
      IsSelection(config.describe(relevant), config.header(relevant), config.maxInputTokens,
                  ListingOf(config, relevant), |relevant| - |SelectedOf(config, relevant)|, at)
  {
    var relevant := Relevant(fetched, start, end);
    EntriesHaveUniqueIds(fetched, start, end, config);
    hide Relevant, R.UniqueIds, IsSelection, Selected;
    at := SelectionIs(config.describe(relevant), config.header(relevant), config.maxInputTokens);
  }

  lemma EntriesHaveUniqueIds(fetched: FetchResult, start: Option<int>, end: Option<int>, config: Config)
    requires KeepsIds(config.describe)
    ensures R.UniqueIds(config.describe(Relevant(fetched, start, end)))
  {
    var relevant := Relevant(fetched, start, end);
    SurvivorsAreNewestInPeriod(fetched.tickets, start, end);
    assert Dedupe.UniqueIds(relevant);
    hide Relevant, Dedupe.IsNewest;
  }

  lemma ExcludedIsNatural(fetched: FetchResult, start: Option<int>, end: Option<int>, config: Config)
    requires KeepsIds(config.describe)
    ensures var relevant := Relevant(fetched, start, end);
      && |SelectedOf(config, relevant)| <= |relevant|
      && (|SelectedOf(config, relevant)| == |relevant| <==>
            forall e :: e in config.describe(relevant) ==> e.id in SelectedOf(config, relevant))
  {
    var relevant := Relevant(fetched, start, end);
    EntriesHaveUniqueIds(fetched, start, end, config);
    hide Relevant, R.UniqueIds;
    NoneOmitted(config.describe(relevant), Budget(config.header(relevant), config.maxInputTokens));
  }

  /** A report is marked truncated exactly when it gives a reason. */
  lemma TruncationIsExplained(fetched: FetchResult, start: Option<int>, end: Option<int>, config: Config,
                              answer: Answer, report: Report)
    requires KeepsIds(config.describe) && IsExplained(fetched)
    requires IsReport(fetched, Relevant(fetched, start, end), config, answer, report)
    ensures report.isTruncated <==> report.truncationReason.Some?
    ensures fetched.truncated ==>
      report.truncationReason.Some? && fetched.truncationReason.value <= report.truncationReason.value
    ensures report.status == if report.isTruncated then "partial" else "complete"
  {
    var relevant := Relevant(fetched, start, end);
    ExcludedIsNatural(fetched, start, end, config);
    hide Relevant, SelectedOf, Join, Reasons, KeepsIds;
    ReasonsAreGiven(fetched, |relevant| - |SelectedOf(config, relevant)|, answer.truncated);
    if fetched.truncated {
      FetchReasonIsFirst(fetched, |relevant| - |SelectedOf(config, relevant)|, answer.truncated);
    }
  }

  lemma FetchReasonIsFirst(fetched: FetchResult, excluded: int, cutOff: bool)
    requires IsExplained(fetched) && fetched.truncated
    ensures fetched.truncationReason.value <= Join(Reasons(fetched, excluded, cutOff))
  {
    hide Join;
    JoinStartsWithFirst(Reasons(fetched, excluded, cutOff));
  }

  /** The lines of all entries, in order. */
  function AllLines(es: seq<R.Entry>): (lines: seq<string>)
    ensures |lines| == |es| && forall i :: 0 <= i < |es| ==> lines[i] == es[i].line
  {
    seq(|es|, i requires 0 <= i < |es| => es[i].line)
  }

  lemma {:induction false} FullListing(es: seq<R.Entry>, lines: map<string, string>, ids: set<string>)
    requires forall e :: e in es ==> e.id in ids && e.id in lines && lines[e.id] == e.line
    ensures Listing(es, lines, ids) == AllLines(es)
    decreases |es|
  {
    if es != [] {
      var front, e := es[..|es| - 1], es[|es| - 1];
      assert es == front + [e];
      FullListing(front, lines, ids);
      assert AllLines(es) == AllLines(front) + [e.line];
    }
  }

  /** A complete report lists every entry: each has its own line, in its own place. */
  lemma CompleteListingIsFull(fetched: FetchResult, start: Option<int>, end: Option<int>, config: Config,
                              answer: Answer, report: Report)
    requires KeepsIds(config.describe)
    requires IsReport(fetched, Relevant(fetched, start, end), config, answer, report) && report.status == "complete"
    ensures var relevant := Relevant(fetched, start, end);
            ListingOf(config, relevant) == AllLines(config.describe(relevant))
  {
    var relevant := Relevant(fetched, start, end);
    ExcludedIsNatural(fetched, start, end, config);
    EntriesHaveUniqueIds(fetched, start, end, config);
    hide Relevant, SelectedOf, Join, Reasons, Listing, Lines;
    LinesHaveAll(config.describe(relevant));
    FullListing(config.describe(relevant), Lines(config.describe(relevant)), SelectedOf(config, relevant));
  }

  /**
   * A complete report saw its source to the end, and the ticket of every newest record, the earliest of those as
   * new, that lies in the period has its own line in the listing, in its own place.
   */
  lemma CompleteListsEverything(pages: Feed, n: nat, fetched: FetchResult, start: Option<int>, end: Option<int>,
                                config: Config, answer: Answer, report: Report, i: nat)
    requires Reports(pages, n, fetched) && KeepsIds(config.describe)
    requires IsReport(fetched, Relevant(fetched, start, end), config, answer, report)
    requires report.status == "complete"
    ensures EndsAfter(pages, n)
    ensures var all, relevant := Collected(pages, n), Relevant(fetched, start, end);
      && |ListingOf(config, relevant)| == |config.describe(relevant)| == |relevant|
      && (i < |all| && IsNewest(all, i)
          && (start.Some? ==> start.value <= all[i].updatedAt) && (end.Some? ==> all[i].updatedAt <= end.value) ==>
            exists j :: 0 <= j < |relevant| && relevant[j] == all[i]
              && config.describe(relevant)[j].id == all[i].id
              && ListingOf(config, relevant)[j] == config.describe(relevant)[j].line)
  {
    hide Relevant, ListingOf, IsNewest, SeenBefore, SelectedOf, Reasons, Join;
    var all, relevant := Collected(pages, n), Relevant(fetched, start, end);
    CompleteListingIsFull(fetched, start, end, config, answer, report);
    ExcludedIsNatural(fetched, start, end, config);
    if i < |all| && IsNewest(all, i)
       && (start.Some? ==> start.value <= all[i].updatedAt) && (end.Some? ==> all[i].updatedAt <= end.value) {
      RelevantIsNewestInPeriod(fetched, start, end);
      var j :| 0 <= j < |relevant| && relevant[j] == all[i];
      assert config.describe(relevant)[j].id == all[i].id;
    }
  }

  /** And nothing else makes it partial: the fetch had it all, every entry is listed, the provider was not cut off. */
  lemma CompleteExactlyWhen(pages: Feed, n: nat, fetched: FetchResult, start: Option<int>, end: Option<int>,
                            config: Config, answer: Answer, report: Report)
    requires Reports(pages, n, fetched) && KeepsIds(config.describe)
    requires IsReport(fetched, Relevant(fetched, start, end), config, answer, report)
    ensures var relevant := Relevant(fetched, start, end);
      report.status == "complete" <==>
        && IsWithinBounds(pages, n) && !answer.truncated
        && (forall e :: e in config.describe(relevant) ==> e.id in SelectedOf(config, relevant))
  {
    ExcludedIsNatural(fetched, start, end, config);
  }
}
