/** app/core/webhook_service.py against the transactions it must compute. Signing and sending are a given outcome. */
module WebhookService {
  import opened Wrappers
  import opened Models
  import opened Transactions
  import opened Storage

  /** `after` is `before` with a delivery of `report` for each of `ds`: pending, never attempted and due at once. */
  ghost predicate IsEnqueued(before: map<Id, Delivery>, after: map<Id, Delivery>, first: Id, report: Id, ds: seq<Id>) {
    && (forall d :: d in after <==> d in before || first <= d < first + |ds|)
    && (forall d :: d in before && !(first <= d < first + |ds|) ==> after[d] == before[d])
    && (forall d :: first <= d < first + |ds| ==>
          after[d] == Delivery(destinationId := ds[d - first], reportId := report, status := Pending, attempts := 0,
                               nextAttemptAt := None, deliveredAt := None, lastError := None))
  }

  lemma {:induction false} EnqueueEnqueues(deliveries: map<Id, Delivery>, first: Id, report: Id, ds: seq<Id>)
    ensures IsEnqueued(deliveries, Enqueue(deliveries, first, report, ds), first, report, ds)
    decreases |ds|
  {
    if ds != [] {
      EnqueueEnqueues(deliveries, first, report, ds[..|ds| - 1]);
    }
  }

  /** The loop that adds one pending delivery for each active destination, within the caller's transaction. */
  method EnqueueDeliveriesForReport(deliveries: map<Id, Delivery>, first: Id, report: Id, destinations: seq<Id>)
    returns (result: map<Id, Delivery>)
    ensures result == Enqueue(deliveries, first, report, destinations)
    ensures IsEnqueued(deliveries, result, first, report, destinations)
  {
    result := deliveries;
    for i := 0 to |destinations|
      invariant result == Enqueue(deliveries, first, report, destinations[..i])
    {
      assert destinations[..i + 1][..i] == destinations[..i];
      result := result[first + i := NewDelivery(destinations[i], report)];
    }
    assert destinations[..|destinations|] == destinations;
    EnqueueEnqueues(deliveries, first, report, destinations);
  }

  /** UPDATE … WHERE due RETURNING: at most one of several senders gets the row. */
  method ClaimDelivery(db: Database, id: Id, now: int) returns (claimed: Option<Delivery>)
    modifies db`deliveries
    ensures claimed.Some? ==> id in old(db.deliveries)
    ensures id in old(db.deliveries) ==>
      var row := old(db.deliveries)[id];
      claimed.Some? <==>
        || (row.status == Pending && (row.nextAttemptAt.None? || row.nextAttemptAt.value <= now))
        || (row.status == Sending && row.nextAttemptAt.Some? && row.nextAttemptAt.value <= now)
    ensures claimed.None? ==> db.deliveries == old(db.deliveries)
    ensures claimed.Some? ==>
      && claimed.value == old(db.deliveries)[id].(
           status := Sending, attempts := old(db.deliveries)[id].attempts + 1, nextAttemptAt := Some(now + 600_000_000))
      && db.deliveries == old(db.deliveries)[id := claimed.value]
  {
    if id !in db.deliveries || !DeliveryDue(db.deliveries[id], now) {
      return None;
    }
    var row := db.deliveries[id];
    row := row.(status := Sending, attempts := row.attempts + 1, nextAttemptAt := Some(now + DELIVERY_LEASE));
    db.deliveries := db.deliveries[id := row];
    claimed := Some(row);
  }

  /** The final write of an attempt, lost when the row has been deleted meanwhile. */
  function Sent(store: Store, id: Id, attempts: nat, outcome: SendOutcome, now: int): Store {
    if id !in store.deliveries then store
    else
      var row := SentDelivery(store.deliveries[id], attempts, outcome, now);
      store.(deliveries := store.deliveries[id := row])
  }

  /** What that write does: only the row of the delivery changes, and of it only what the outcome says. */
  ghost predicate IsSent(before: Store, after: Store, id: Id, attempts: nat, outcome: SendOutcome, now: int) {
    if id !in before.deliveries then after == before
    else
      && id in after.deliveries
      && after == before.(deliveries := before.deliveries[id := after.deliveries[id]])
      && after.deliveries[id] == match outcome
        case NoDestination =>
          before.deliveries[id].(status := DeliveryStatus.Failed, nextAttemptAt := None,
                                 lastError := Some("Destination was deleted or deactivated"))
        case Accepted =>
          before.deliveries[id].(status := Delivered, deliveredAt := Some(now), nextAttemptAt := None,
                                 lastError := None)
        case Rejected =>
          if attempts < 5 then
            before.deliveries[id].(status := Pending, nextAttemptAt := Some(now + 30_000_000),
                                   lastError := Some("Delivery request failed"))
          else
            before.deliveries[id].(status := DeliveryStatus.Failed, nextAttemptAt := None,
                                   lastError := Some("Delivery request failed"))
  }

  method FinishDelivery(db: Database, id: Id, attempts: nat, outcome: SendOutcome, now: int)
    modifies db`deliveries
    ensures db.Rows() == Sent(old(db.Rows()), id, attempts, outcome, now)
    ensures IsSent(old(db.Rows()), db.Rows(), id, attempts, outcome, now)
  {
    if id !in db.deliveries {
      return;
    }
    var row := db.deliveries[id];
    match outcome {
      case NoDestination =>
        row := row.(status := DeliveryStatus.Failed, lastError := Some("Destination was deleted or deactivated"),
                    nextAttemptAt := None);
      case Accepted =>
        row := row.(status := Delivered, deliveredAt := Some(now), lastError := None, nextAttemptAt := None);
      case Rejected =>
        var retryable := attempts < MAX_DELIVERY_ATTEMPTS;
        row := row.(lastError := Some("Delivery request failed"),
                    status := if retryable then Pending else DeliveryStatus.Failed,
                    nextAttemptAt := if retryable then Some(now + RETRY_DELAY) else None);
    }
    db.deliveries := db.deliveries[id := row];
  }

  /**
   * One attempt. Other sessions have committed `reading` when the destination is looked up and `others` when the
   * attempt ends; `accepted` says whether the destination answered 2xx. One found missing or inactive is never asked.
   * The final write names no owner: it overwrites whatever the row has become. `written` is what the claim left.
   */
  method SendDelivery(db: Database, id: Id, now: int, reading: Store, accepted: bool, others: Store, later: int)
    returns (outcome: Option<SendOutcome>, ghost written: Store)
    modifies db
    ensures var before := old(db.Rows());
      if id !in before.deliveries || !DeliveryDue(before.deliveries[id], now) then
        outcome == None && db.Rows() == written == before
      else
        var row := before.deliveries[id];
        var copy := row.(status := Sending, attempts := row.attempts + 1, nextAttemptAt := Some(now + 600_000_000));
        var usable := copy.destinationId in reading.destinations && reading.destinations[copy.destinationId].active;
        && written == before.(deliveries := before.deliveries[id := copy])
        && outcome == Some(if !usable then NoDestination else if accepted then Accepted else Rejected)
        && db.Rows() == Sent(others, id, copy.attempts, outcome.value, later)
        && IsSent(others, db.Rows(), id, copy.attempts, outcome.value, later)
  {
    outcome := None;
    var claimed := ClaimDelivery(db, id, now);
    written := db.Rows();
    if claimed.None? {
      return;
    }
    var copy := claimed.value;
    var d := copy.destinationId;
    db.Meanwhile(reading);
    if d !in db.destinations || !db.destinations[d].active {
      outcome := Some(NoDestination);
    } else if accepted {
      outcome := Some(Accepted);
    } else {
      outcome := Some(Rejected);
    }

    db.Meanwhile(others);
    FinishDelivery(db, id, copy.attempts, outcome.value, later);
  }

  /** An operator's retry, from any state. The attempts made so far stay counted. */
  method RetryDelivery(db: Database, id: Id)
    requires id in db.deliveries
    modifies db`deliveries
    ensures db.deliveries ==
      old(db.deliveries)[id := old(db.deliveries)[id].(status := Pending, nextAttemptAt := None, lastError := None)]
  {
    var row := db.deliveries[id];
    db.deliveries := db.deliveries[id := row.(status := Pending, lastError := None, nextAttemptAt := None)];
  }
}
