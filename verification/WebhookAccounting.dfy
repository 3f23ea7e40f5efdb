/**
What holds of webhook deliveries in every run, with no assumption on timing,
even when slow senders finish after losing their lease: attempts are the claims
made, their number is bounded, and claims are spaced.
*/
module WebhookAccounting {
  import opened Models
  import opened Transactions
  import opened World
  import Sets

  /** Until an operator interferes, the next claim cannot come within the retry delay of the last one. */
  ghost predicate Paced(row: Delivery, sent: seq<int>) {
    sent != [] && (row.status == Pending || row.status == Sending) ==>
      row.nextAttemptAt.Some? && sent[|sent| - 1] + RETRY_DELAY <= row.nextAttemptAt.value
  }

  ghost predicate Spaced(sent: seq<int>) {
    forall i :: 0 < i < |sent| ==> sent[i - 1] + RETRY_DELAY <= sent[i]
  }

  ghost predicate Balanced(row: Delivery, ledger: DeliveryLedger, now: int) {
    && |ledger.sent| == row.attempts
    && (ledger.sent != [] ==> ledger.sent[|ledger.sent| - 1] <= now)
    && (forall c :: c in ledger.resent ==> 1 <= c < MAX_DELIVERY_ATTEMPTS && c <= row.attempts)
    && row.attempts <= |ledger.resent| + ledger.reclaims + ledger.retries + (if row.status == Pending then 0 else 1)
    && (ledger.retries == 0 ==> Paced(row, ledger.sent) && Spaced(ledger.sent))
  }

  ghost predicate RowsBalanced(deliveries: map<Id, Delivery>, ledgers: map<Id, DeliveryLedger>, now: int) {
    forall d :: d in deliveries ==> Balanced(deliveries[d], DeliveryLedgerOf(ledgers, d), now)
  }

  /** A sender's copy is at an attempt that nobody has sent back to pending yet. */
  ghost predicate CopyFits(copy: Delivery, row: Delivery, ledger: DeliveryLedger) {
    1 <= copy.attempts <= row.attempts && copy.attempts !in ledger.resent
  }

  ghost predicate SendersFit(senders: map<Id, Sender>, deliveries: map<Id, Delivery>, ledgers: map<Id, DeliveryLedger>,
                             nextId: Id) {
    forall i :: i in senders ==>
      && senders[i].delivery < nextId
      && (senders[i].delivery in deliveries ==>
            CopyFits(senders[i].copy, deliveries[senders[i].delivery], DeliveryLedgerOf(ledgers, senders[i].delivery)))
  }

  predicate SendsAt(sender: Sender, delivery: Id, attempt: nat) {
    sender.delivery == delivery && sender.copy.attempts == attempt
  }

  /** No two senders are at the same attempt of the same delivery. */
  ghost predicate AttemptsDiffer(senders: map<Id, Sender>, deliveries: map<Id, Delivery>) {
    forall i, k :: i in senders && k in senders && i != k && senders[i].delivery in deliveries ==>
      !SendsAt(senders[k], senders[i].delivery, senders[i].copy.attempts)
  }

  ghost predicate KeysFit(deliveries: map<Id, Delivery>, ledgers: map<Id, DeliveryLedger>, nextId: Id) {
    && (forall d :: d in deliveries ==> d < nextId)
    && (forall d :: d in ledgers ==> d < nextId)
  }

  ghost predicate PartsInv(deliveries: map<Id, Delivery>, ledgers: map<Id, DeliveryLedger>, senders: map<Id, Sender>,
                           now: int, nextId: Id)
  {
    && RowsBalanced(deliveries, ledgers, now)
    && SendersFit(senders, deliveries, ledgers, nextId)
    && AttemptsDiffer(senders, deliveries)
    && KeysFit(deliveries, ledgers, nextId)
  }

  ghost predicate Inv(w: World) {
    PartsInv(w.store.deliveries, w.history.deliveries, w.senders, w.now, w.store.nextId)
  }

  // ----- One row changes -----

  lemma RowChanges(d: Id, row: Delivery, ledger: DeliveryLedger, deliveries: map<Id, Delivery>,
                   ledgers: map<Id, DeliveryLedger>,
                   senders: map<Id, Sender>, now: int, nextId: Id)
    requires PartsInv(deliveries, ledgers, senders, now, nextId)
    requires d in deliveries && Balanced(row, ledger, now) && deliveries[d].attempts <= row.attempts
    requires forall i :: i in senders && senders[i].delivery == d ==> senders[i].copy.attempts !in ledger.resent
    ensures PartsInv(deliveries[d := row], ledgers[d := ledger], senders, now, nextId)
  {
    hide Balanced;
    var deliveries', ledgers' := deliveries[d := row], ledgers[d := ledger];
    forall k | k in deliveries'
      ensures Balanced(deliveries'[k], DeliveryLedgerOf(ledgers', k), now)
    {
      assert k != d ==> DeliveryLedgerOf(ledgers', k) == DeliveryLedgerOf(ledgers, k);
    }
    forall i | i in senders && senders[i].delivery in deliveries'
      ensures CopyFits(senders[i].copy, deliveries'[senders[i].delivery],
                       DeliveryLedgerOf(ledgers', senders[i].delivery))
    {
      assert CopyFits(senders[i].copy, deliveries[senders[i].delivery], DeliveryLedgerOf(ledgers, senders[i].delivery));
    }
  }

  /** Senders may vanish, rows may be deleted, and time passes. */
  lemma Shrinks(deliveries: map<Id, Delivery>, ledgers: map<Id, DeliveryLedger>, senders: map<Id, Sender>, now: int,
                nextId: Id,
                deliveries': map<Id, Delivery>, senders': map<Id, Sender>, now': int, nextId': Id)
    requires PartsInv(deliveries, ledgers, senders, now, nextId) && now <= now' && nextId <= nextId'
    requires forall i :: i in senders' ==> i in senders && senders'[i] == senders[i]
    requires forall d :: d in deliveries' ==> d in deliveries && deliveries'[d] == deliveries[d]
    ensures PartsInv(deliveries', ledgers, senders', now', nextId')
  {
    forall d | d in deliveries'
      ensures Balanced(deliveries'[d], DeliveryLedgerOf(ledgers, d), now')
    {
      assert Balanced(deliveries[d], DeliveryLedgerOf(ledgers, d), now);
    }
    hide CopyFits, Balanced;
  }

  lemma SenderJoins(i: Id, sender: Sender, deliveries: map<Id, Delivery>, ledgers: map<Id, DeliveryLedger>,
                    senders: map<Id, Sender>, now: int, nextId: Id)
    requires PartsInv(deliveries, ledgers, senders, now, nextId)
    requires i !in senders && sender.delivery in deliveries
    requires CopyFits(sender.copy, deliveries[sender.delivery], DeliveryLedgerOf(ledgers, sender.delivery))
    requires forall k :: k in senders ==> !SendsAt(senders[k], sender.delivery, sender.copy.attempts)
    ensures PartsInv(deliveries, ledgers, senders[i := sender], now, nextId)
  {
    hide CopyFits, Balanced;
  }

  // ----- Steps on one delivery -----

  function ClaimLedger(row: Delivery, ledger: DeliveryLedger, now: int): DeliveryLedger {
    var overran := row.status == Sending && row.attempts >= MAX_DELIVERY_ATTEMPTS;
    ledger.(sent := ledger.sent + [now],
            reclaims := ledger.reclaims + (if row.status == Sending then 1 else 0),
            overruns := ledger.overruns + (if overran then 1 else 0))
  }

  lemma ClaimIsBalanced(row: Delivery, ledger: DeliveryLedger, now: int)
    requires Balanced(row, ledger, now) && DeliveryDue(row, now)
    ensures Balanced(ClaimedDelivery(row, now), ClaimLedger(row, ledger, now), now)
    ensures ClaimedDelivery(row, now).attempts !in ledger.resent
  {
  }

  lemma ClaimKeepsParts(sender: Id, d: Id, deliveries: map<Id, Delivery>, ledgers: map<Id, DeliveryLedger>,
                        senders: map<Id, Sender>, now: int, nextId: Id)
    requires PartsInv(deliveries, ledgers, senders, now, nextId)
    requires sender !in senders && d in deliveries && DeliveryDue(deliveries[d], now)
    ensures var row := ClaimedDelivery(deliveries[d], now);
            PartsInv(deliveries[d := row], ledgers[d := ClaimLedger(deliveries[d], DeliveryLedgerOf(ledgers, d), now)],
                     senders[sender := Sender(d, row)], now, nextId)
  {
    var row, ledger := ClaimedDelivery(deliveries[d], now), DeliveryLedgerOf(ledgers, d);
    ClaimIsBalanced(deliveries[d], ledger, now);
    forall i | i in senders && senders[i].delivery == d
      ensures senders[i].copy.attempts !in ledger.resent && senders[i].copy.attempts < row.attempts
    {
      assert CopyFits(senders[i].copy, deliveries[d], ledger);
    }
    var ledger' := ClaimLedger(deliveries[d], ledger, now);
    RowChanges(d, row, ledger', deliveries, ledgers, senders, now, nextId);
    SenderJoins(sender, Sender(d, row), deliveries[d := row], ledgers[d := ledger'], senders, now, nextId);
  }

  function FinishLedger(ledger: DeliveryLedger, attempts: nat, status: DeliveryStatus): DeliveryLedger {
    ledger.(resent := ledger.resent + (if status == Pending then {attempts} else {}))
  }

  /** A sender ends its attempt, which may by now not be the delivery's last one. */
  lemma FinishIsBalanced(row: Delivery, ledger: DeliveryLedger, attempts: nat, outcome: SendOutcome, now: int)
    requires Balanced(row, ledger, now) && 1 <= attempts <= row.attempts && attempts !in ledger.resent
    ensures var after := SentDelivery(row, attempts, outcome, now);
      Balanced(after, FinishLedger(ledger, attempts, after.status), now)
  {
  }

  lemma FinishKeepsParts(sender: Id, outcome: SendOutcome, deliveries: map<Id, Delivery>,
                         ledgers: map<Id, DeliveryLedger>,
                         senders: map<Id, Sender>, now: int, nextId: Id)
    requires PartsInv(deliveries, ledgers, senders, now, nextId)
    requires sender in senders && senders[sender].delivery in deliveries
    ensures var Sender(d, copy) := senders[sender];
            var row := SentDelivery(deliveries[d], copy.attempts, outcome, now);
            PartsInv(deliveries[d := row],
                     ledgers[d := FinishLedger(DeliveryLedgerOf(ledgers, d), copy.attempts, row.status)],
                     senders - {sender}, now, nextId)
  {
    var Sender(d, copy) := senders[sender];
    var ledger, others := DeliveryLedgerOf(ledgers, d), senders - {sender};
    assert CopyFits(copy, deliveries[d], ledger);
    FinishIsBalanced(deliveries[d], ledger, copy.attempts, outcome, now);
    forall i | i in others && others[i].delivery == d
      ensures others[i].copy.attempts !in ledger.resent + {copy.attempts}
    {
      assert CopyFits(others[i].copy, deliveries[d], ledger) && !SendsAt(others[i], d, copy.attempts);
    }
    Shrinks(deliveries, ledgers, senders, now, nextId, deliveries, others, now, nextId);
    var row := SentDelivery(deliveries[d], copy.attempts, outcome, now);
    hide PartsInv, Balanced;
    RowChanges(d, row, FinishLedger(ledger, copy.attempts, row.status), deliveries, ledgers, others, now, nextId);
  }

  lemma RetryKeepsParts(d: Id, deliveries: map<Id, Delivery>, ledgers: map<Id, DeliveryLedger>,
                        senders: map<Id, Sender>, now: int, nextId: Id)
    requires PartsInv(deliveries, ledgers, senders, now, nextId) && d in deliveries
    ensures var ledger := DeliveryLedgerOf(ledgers, d);
            PartsInv(deliveries[d := RetriedDelivery(deliveries[d])],
                     ledgers[d := ledger.(retries := ledger.retries + 1)], senders, now, nextId)
  {
    var ledger := DeliveryLedgerOf(ledgers, d);
    assert Balanced(deliveries[d], ledger, now);
    forall i | i in senders && senders[i].delivery == d
      ensures senders[i].copy.attempts !in ledger.resent
    {
      assert CopyFits(senders[i].copy, deliveries[d], ledger);
    }
    RowChanges(d, RetriedDelivery(deliveries[d]), ledger.(retries := ledger.retries + 1), deliveries, ledgers, senders,
               now, nextId);
  }

  /** New deliveries arrive under fresh identifiers. */
  lemma EnqueueKeepsParts(report: Id, ds: seq<Id>, deliveries: map<Id, Delivery>, ledgers: map<Id, DeliveryLedger>,
                          senders: map<Id, Sender>, now: int, nextId: Id, nextId': Id)
    requires PartsInv(deliveries, ledgers, senders, now, nextId) && nextId + 1 + |ds| <= nextId'
    ensures PartsInv(Enqueue(deliveries, nextId + 1, report, ds), ledgers, senders, now, nextId')
  {
    EnqueueAdds(deliveries, nextId + 1, report, ds);
    var after := Enqueue(deliveries, nextId + 1, report, ds);
    forall d | d in after
      ensures Balanced(after[d], DeliveryLedgerOf(ledgers, d), now)
    {
      if d in deliveries {
        assert Balanced(deliveries[d], DeliveryLedgerOf(ledgers, d), now);
      }
    }
    hide Balanced, CopyFits, Enqueue;
  }

  // ----- Every step -----

  lemma SendStepKeepsInv(w: World, step: SendStep)
    requires Inv(w) && CanSend(w, step)
    ensures Inv(DoSend(w, step))
  {
    hide PartsInv, ClaimedDelivery, SentDelivery, RetriedDelivery;
    var deliveries, ledgers, senders, nextId := w.store.deliveries, w.history.deliveries, w.senders, w.store.nextId;
    match step
    case StartSend(sender, d) =>
      if d in deliveries && DeliveryDue(deliveries[d], w.now) {
        ClaimKeepsParts(sender, d, deliveries, ledgers, senders, w.now, nextId);
      }
    case FinishSend(sender, outcome) =>
      if senders[sender].delivery in deliveries {
        FinishKeepsParts(sender, outcome, deliveries, ledgers, senders, w.now, nextId);
      } else {
        Shrinks(deliveries, ledgers, senders, w.now, nextId, deliveries, senders - {sender}, w.now, nextId);
      }
    case SenderDies(sender) => Shrinks(deliveries, ledgers, senders, w.now, nextId, deliveries, senders - {sender},
                                       w.now, nextId);
    case RetryDelivery(d) => RetryKeepsParts(d, deliveries, ledgers, senders, w.now, nextId);
    case PublishDelivery(d) =>
    case LoseDeliveryMessage(d) =>
  }

  lemma FramedKeepsInv(w: World, w': World)
    requires Inv(w) && LeavesDeliveries(w, w')
    ensures Inv(w')
  {
    hide PartsInv;
    Shrinks(w.store.deliveries, w.history.deliveries, w.senders, w.now, w.store.nextId, w.store.deliveries, w.senders,
            w'.now, w'.store.nextId);
  }

  lemma DeletionKeepsInv(w: World, step: OtherStep)
    requires Inv(w) && CanOther(w, step) && (DeletesReports(step) || step.RemoveDestination?)
    ensures Inv(DoOther(w, step))
  {
    var w' := DoOther(w, step);
    hide PartsInv;
    Shrinks(w.store.deliveries, w.history.deliveries, w.senders, w.now, w.store.nextId, w'.store.deliveries, w.senders,
            w.now, w.store.nextId);
  }

  lemma StepKeepsInv(w: World, step: Step)
    requires Inv(w) && Can(w, step)
    ensures Inv(Do(w, step))
  {
    hide PartsInv;
    match step
    case Sends(ss) => SendStepKeepsInv(w, ss);
    case Passes(ps) =>
      PassStepsLeaveDeliveries(w, ps);
      FramedKeepsInv(w, DoPass(w, ps));
    case Jobs(js) =>
      if js.CompleteAttempt? {
        EnqueueKeepsParts(w.store.nextId, js.ds, w.store.deliveries, w.history.deliveries, w.senders, w.now,
                          w.store.nextId,
                          w.store.nextId + 1 + |js.ds|);
      } else {
        JobStepsLeaveDeliveries(w, js);
        FramedKeepsInv(w, DoJob(w, js));
      }
    case Others(os) =>
      if DeletesReports(os) || os.RemoveDestination? {
        DeletionKeepsInv(w, os);
      } else {
        OtherStepsLeaveDeliveries(w, os);
        FramedKeepsInv(w, DoOther(w, os));
      }
  }

  /** A row just enqueued, for a report as new as itself. */
  predicate IsFresh(d: Id, row: Delivery, nextId: Id) {
    nextId <= d && nextId <= row.reportId && row.status == Pending && row.attempts == 0
  }

  /** Outside the sending steps, rows are only added under fresh identifiers or deleted. */
  ghost predicate RowsComeAndGo(w: World, w': World) {
    && w'.history.deliveries == w.history.deliveries && w.store.nextId <= w'.store.nextId
    && (forall d :: d in w'.store.deliveries ==>
          (d in w.store.deliveries && w'.store.deliveries[d] == w.store.deliveries[d])
          || IsFresh(d, w'.store.deliveries[d], w.store.nextId))
  }

  lemma CompletionOnlyAdds(w: World, worker: Id, ds: seq<Id>)
    requires Inv(w) && worker in w.workers && w.workers[worker].job in w.store.jobs
    ensures RowsComeAndGo(w, DoCompleteAttempt(w, worker, ds))
    ensures DoCompleteAttempt(w, worker, ds).senders == w.senders
  {
    assert KeysFit(w.store.deliveries, w.history.deliveries, w.store.nextId);
    EnqueueAdds(w.store.deliveries, w.store.nextId + 1, w.store.nextId, ds);
    hide Inv, Enqueue;
  }

  lemma DeletionOnlyDeletes(w: World, step: OtherStep)
    requires CanOther(w, step) && (DeletesReports(step) || step.RemoveDestination?)
    ensures RowsComeAndGo(w, DoOther(w, step)) && DoOther(w, step).senders == w.senders
  {
  }

  lemma NonSendSteps(w: World, step: Step)
    requires Inv(w) && Can(w, step) && !step.Sends?
    ensures RowsComeAndGo(w, Do(w, step)) && Do(w, step).senders == w.senders
  {
    hide Inv;
    match step
    case Passes(ps) => PassStepsLeaveDeliveries(w, ps);
    case Jobs(js) =>
      if js.CompleteAttempt? {
        CompletionOnlyAdds(w, js.worker, js.ds);
      } else {
        JobStepsLeaveDeliveries(w, js);
      }
    case Others(os) =>
      if DeletesReports(os) || os.RemoveDestination? {
        DeletionOnlyDeletes(w, os);
      } else {
        OtherStepsLeaveDeliveries(w, os);
      }
  }

  lemma {:induction false} RunKeepsInv(ws: seq<World>, steps: seq<Step>, i: nat)
    requires IsRun(ws, steps) && Init(ws[0]) && i < |ws|
    ensures Inv(ws[i])
  {
    if i > 0 {
      RunKeepsInv(ws, steps, i - 1);
      StepKeepsInv(ws[i - 1], steps[i - 1]);
    }
  }

  // ----- The bounds -----

  /**
   * In every run: a delivery's attempt counter equals the claims made, never exceeds five plus the reclaims of
   * expired leases plus the manual retries, and without manual retry any two claims in a row are 30 seconds apart.
   */
  lemma AttemptsAreAccountedFor(ws: seq<World>, steps: seq<Step>, i: nat, d: Id)
    requires IsRun(ws, steps) && Init(ws[0]) && i < |ws| && d in ws[i].store.deliveries
    ensures var row, ledger := ws[i].store.deliveries[d], DeliveryLedgerOf(ws[i].history.deliveries, d);
      && row.attempts == |ledger.sent|
      && row.attempts <= MAX_DELIVERY_ATTEMPTS + ledger.reclaims + ledger.retries
      && (ledger.retries == 0 ==> forall k :: 0 < k < |ledger.sent| ==>
          ledger.sent[k - 1] + 30 * SECOND <= ledger.sent[k])
  {
    RunKeepsInv(ws, steps, i);
    BalanceBounds(ws[i].store.deliveries[d], DeliveryLedgerOf(ws[i].history.deliveries, d), ws[i].now);
  }

  lemma BalanceBounds(row: Delivery, ledger: DeliveryLedger, now: int)
    requires Balanced(row, ledger, now)
    ensures row.attempts <= MAX_DELIVERY_ATTEMPTS + ledger.reclaims + ledger.retries
  {
    assert ledger.resent <= {1, 2, 3, 4};
    Sets.SubsetSize(ledger.resent, {1, 2, 3, 4});
  }
}
