/** The ticket every connector delivers (app/models/ticket.py), and the outcome of a fetch. Times are instants. */
module Tickets {
  import opened Wrappers

  datatype Ticket = Ticket(
    id: string,
    title: string,
    description: string,
    status: string,
    assignee: Option<string>,
    priority: Option<string>,
    labels: seq<string>,
    createdAt: int,
    updatedAt: int,
    sprint: Option<string>,
    url: string)

  datatype FetchResult = FetchResult(tickets: seq<Ticket>, truncated: bool, truncationReason: Option<string>)

  /** A fetch that gives a reason exactly when it is truncated. */
  predicate IsExplained(r: FetchResult) {
    if r.truncated then r.truncationReason.Some? && r.truncationReason.value != "" else r.truncationReason == None
  }
}
