/**
The delivery lease as mutual exclusion: when every sender ends its attempt, or
dies, before its lease runs out, a delivery that no operator retried has at
most one sender, and its final states are final.
*/
module WebhookLease {
  import opened Models
  import opened Transactions
  import opened World
  import Accounting = WebhookAccounting

  /** No live sender has outlived its lease. */
  ghost predicate SendersAreTimely(senders: map<Id, Sender>, now: int) {
    forall i :: i in senders && senders[i].copy.nextAttemptAt.Some? ==> now < senders[i].copy.nextAttemptAt.value
  }

  ghost predicate Untouched(ledgers: map<Id, DeliveryLedger>, d: Id) {
    DeliveryLedgerOf(ledgers, d).retries == 0
  }

  /** A live sender's copy is the row itself. */
  predicate Holds(sender: Sender, row: Delivery) {
    sender.copy == row && row.status == Sending && row.nextAttemptAt.Some?
  }

  ghost predicate HoldersMatch(senders: map<Id, Sender>, deliveries: map<Id, Delivery>,
                               ledgers: map<Id, DeliveryLedger>) {
    forall i :: i in senders && senders[i].delivery in deliveries && Untouched(ledgers, senders[i].delivery) ==>
      Holds(senders[i], deliveries[senders[i].delivery])
  }

  ghost predicate Inv(w: World) {
    && Accounting.Inv(w)
    && HoldersMatch(w.senders, w.store.deliveries, w.history.deliveries)
  }

  lemma OneHolder(w: World, i: Id, k: Id, d: Id)
    requires Inv(w) && d in w.store.deliveries && Untouched(w.history.deliveries, d)
    requires i in w.senders && k in w.senders && w.senders[i].delivery == w.senders[k].delivery == d
    ensures i == k
  {
    assert Holds(w.senders[i], w.store.deliveries[d]) && Holds(w.senders[k], w.store.deliveries[d]);
    assert Accounting.SendsAt(w.senders[k], d, w.senders[i].copy.attempts);
  }

  /** While a sender is at work no other message can start an attempt. */
  lemma HeldIsNotDue(w: World, i: Id, d: Id)
    requires Inv(w) && SendersAreTimely(w.senders, w.now) && d in w.store.deliveries
    requires Untouched(w.history.deliveries, d)
    requires i in w.senders && w.senders[i].delivery == d
    ensures !DeliveryDue(w.store.deliveries[d], w.now)
  {
    assert Holds(w.senders[i], w.store.deliveries[d]);
  }

  // ----- Steps -----

  lemma ClaimKeeps(w: World, sender: Id, d: Id)
    requires Inv(w) && SendersAreTimely(w.senders, w.now) && sender !in w.senders
    requires d in w.store.deliveries && DeliveryDue(w.store.deliveries[d], w.now)
    ensures var w' := DoStartSend(w, sender, d); HoldersMatch(w'.senders, w'.store.deliveries, w'.history.deliveries)
  {
    var w' := DoStartSend(w, sender, d);
    forall i | i in w'.senders && w'.senders[i].delivery in w'.store.deliveries
      && Untouched(w'.history.deliveries, w'.senders[i].delivery)
      ensures Holds(w'.senders[i], w'.store.deliveries[w'.senders[i].delivery])
    {
      if i != sender {
        assert Untouched(w.history.deliveries, w.senders[i].delivery);
        if w.senders[i].delivery == d {
          HeldIsNotDue(w, i, d);
        }
      }
    }
  }

  lemma FinishKeeps(w: World, sender: Id, outcome: SendOutcome)
    requires Inv(w) && sender in w.senders
    ensures var w' := DoFinishSend(w, sender, outcome);
      HoldersMatch(w'.senders, w'.store.deliveries, w'.history.deliveries)
  {
    var w', d := DoFinishSend(w, sender, outcome), w.senders[sender].delivery;
    forall i | i in w'.senders && w'.senders[i].delivery in w'.store.deliveries
      && Untouched(w'.history.deliveries, w'.senders[i].delivery)
      ensures Holds(w'.senders[i], w'.store.deliveries[w'.senders[i].delivery])
    {
      assert Untouched(w.history.deliveries, w.senders[i].delivery);
      if w.senders[i].delivery == d {
        OneHolder(w, i, sender, d);
      }
    }
  }

  lemma SendStepKeeps(w: World, step: SendStep)
    requires Inv(w) && CanSend(w, step) && SendersAreTimely(w.senders, w.now)
    ensures var w' := DoSend(w, step); HoldersMatch(w'.senders, w'.store.deliveries, w'.history.deliveries)
  {
    match step
    case StartSend(sender, d) =>
      if d in w.store.deliveries && DeliveryDue(w.store.deliveries[d], w.now) {
        ClaimKeeps(w, sender, d);
      }
    case FinishSend(sender, outcome) => FinishKeeps(w, sender, outcome);
    case RetryDelivery(d) => RetryKeeps(w, d);
    case _ => hide Accounting.Inv;
  }

  lemma RetryKeeps(w: World, d: Id)
    requires Inv(w) && d in w.store.deliveries
    ensures var w' := DoRetryDelivery(w, d); HoldersMatch(w'.senders, w'.store.deliveries, w'.history.deliveries)
  {
    var w' := DoRetryDelivery(w, d);
    assert !Untouched(w'.history.deliveries, d);
    assert forall k :: k != d && Untouched(w'.history.deliveries, k) ==> Untouched(w.history.deliveries, k);
    hide Accounting.Inv;
  }

  lemma NonSendStepKeeps(w: World, w': World)
    requires Inv(w) && Accounting.RowsComeAndGo(w, w') && w'.senders == w.senders
    ensures HoldersMatch(w'.senders, w'.store.deliveries, w'.history.deliveries)
  {
    forall i | i in w.senders && w.senders[i].delivery in w'.store.deliveries
      && Untouched(w.history.deliveries, w.senders[i].delivery)
      ensures Holds(w.senders[i], w'.store.deliveries[w.senders[i].delivery])
    {
      assert w.senders[i].delivery < w.store.nextId;
    }
  }

  lemma StepKeepsInv(w: World, step: Step)
    requires Inv(w) && Can(w, step) && SendersAreTimely(w.senders, w.now)
    ensures Inv(Do(w, step))
  {
    Accounting.StepKeepsInv(w, step);
    if step.Sends? {
      hide Accounting.Inv, HoldersMatch;
      SendStepKeeps(w, step.ss);
    } else {
      Accounting.NonSendSteps(w, step);
      hide Inv, Can, Do;
      NonSendStepKeeps(w, Do(w, step));
    }
  }

  // ----- Runs -----

  ghost predicate IsPromptRun(ws: seq<World>, steps: seq<Step>) {
    && IsRun(ws, steps) && Init(ws[0])
    && (forall i :: 0 <= i < |ws| ==> SendersAreTimely(ws[i].senders, ws[i].now))
  }

  lemma {:induction false} RunKeepsInv(ws: seq<World>, steps: seq<Step>, i: nat)
    requires IsPromptRun(ws, steps) && i < |ws|
    ensures Inv(ws[i])
  {
    if i > 0 {
      RunKeepsInv(ws, steps, i - 1);
      StepKeepsInv(ws[i - 1], steps[i - 1]);
    }
  }

  /** Mutual exclusion: one sender at most, whose copy is the row, and no message can start another. */
  lemma SendersExcludeEachOther(ws: seq<World>, steps: seq<Step>, n: nat, d: Id, i: Id)
    requires IsPromptRun(ws, steps) && n < |ws| && d in ws[n].store.deliveries && Untouched(ws[n].history.deliveries, d)
    requires i in ws[n].senders && ws[n].senders[i].delivery == d
    ensures ws[n].senders[i].copy == ws[n].store.deliveries[d]
    ensures forall k :: k in ws[n].senders && ws[n].senders[k].delivery == d ==> k == i
    ensures forall k :: k !in ws[n].senders ==> DoStartSend(ws[n], k, d).senders == ws[n].senders
  {
    var w := ws[n];
    RunKeepsInv(ws, steps, n);
    assert Holds(w.senders[i], w.store.deliveries[d]);
    forall k | k in w.senders && w.senders[k].delivery == d
      ensures k == i
    {
      OneHolder(w, k, i, d);
    }
    HeldIsNotDue(w, i, d);
  }

  predicate Final(row: Delivery) {
    row.status == Delivered || row.status == DeliveryStatus.Failed
  }

  /** Where a delivery stands after `d` was final: deleted or as it was, and its identifier is not used again. */
  ghost predicate Settled(row: Delivery, w: World, d: Id) {
    d < w.store.nextId && (d in w.store.deliveries ==> w.store.deliveries[d] == row)
  }

  lemma SettledBySend(w: World, step: SendStep, d: Id, row: Delivery)
    requires Inv(w) && CanSend(w, step) && Final(row) && Settled(row, w, d)
    requires Untouched(DoSend(w, step).history.deliveries, d)
    ensures Untouched(w.history.deliveries, d) && Settled(row, DoSend(w, step), d)
  {
    assert Untouched(w.history.deliveries, d);
    if step.FinishSend? {
      FinalHasNoSender(w, step.sender, d);
      hide Inv, SentDelivery, DeliveryLedgerOf, Untouched;
    } else {
      hide Inv, ClaimedDelivery, SentDelivery;
    }
  }

  lemma FinalHasNoSender(w: World, sender: Id, d: Id)
    requires Inv(w) && sender in w.senders && Untouched(w.history.deliveries, d)
    requires d in w.store.deliveries ==> Final(w.store.deliveries[d])
    ensures d in w.store.deliveries ==> w.senders[sender].delivery != d
  {
    assert HoldersMatch(w.senders, w.store.deliveries, w.history.deliveries);
    hide Accounting.Inv;
  }

  lemma SettledByOneStep(w: World, step: Step, d: Id, row: Delivery)
    requires Inv(w) && Can(w, step) && Final(row) && Settled(row, w, d)
    requires Untouched(Do(w, step).history.deliveries, d)
    ensures Settled(row, Do(w, step), d)
  {
    if step.Sends? {
      SettledBySend(w, step.ss, d, row);
    } else {
      Accounting.NonSendSteps(w, step);
      hide Inv, Can, Do;
    }
  }

  lemma SendsOnlyAddRetries(w: World, step: SendStep, d: Id)
    requires CanSend(w, step)
    ensures DeliveryLedgerOf(w.history.deliveries, d).retries
            <= DeliveryLedgerOf(DoSend(w, step).history.deliveries, d).retries
  {
    hide ClaimedDelivery, SentDelivery, DeliveryDue, RetriedDelivery;
  }

  lemma RetriesOnlyGrow(w: World, step: Step, d: Id)
    requires Inv(w) && Can(w, step) && Untouched(Do(w, step).history.deliveries, d)
    ensures Untouched(w.history.deliveries, d)
  {
    if step.Sends? {
      hide Inv, CanSend, DoSend;
      SendsOnlyAddRetries(w, step.ss, d);
    } else {
      Accounting.NonSendSteps(w, step);
      hide Inv, Can, Do;
    }
  }

  lemma FinalIsSettled(w: World, d: Id)
    requires Inv(w) && d in w.store.deliveries
    ensures Settled(w.store.deliveries[d], w, d)
  {
    assert Accounting.KeysFit(w.store.deliveries, w.history.deliveries, w.store.nextId);
  }

  /** Delivered and failed are never left, unless an operator retries; the row can only be deleted. */
  lemma {:induction false} FinalStaysFinal(ws: seq<World>, steps: seq<Step>, i: nat, n: nat, d: Id)
    requires IsPromptRun(ws, steps) && i <= n < |ws|
    requires d in ws[i].store.deliveries && Final(ws[i].store.deliveries[d])
    requires Untouched(ws[n].history.deliveries, d)
    ensures Settled(ws[i].store.deliveries[d], ws[n], d)
    decreases n
  {
    hide Inv, Can, Do, SendersAreTimely, Settled, Untouched;
    if i < n {
      RunKeepsInv(ws, steps, n - 1);
      assert ws[n] == Do(ws[n - 1], steps[n - 1]);
      RetriesOnlyGrow(ws[n - 1], steps[n - 1], d);
      FinalStaysFinal(ws, steps, i, n - 1, d);
      SettledByOneStep(ws[n - 1], steps[n - 1], d, ws[i].store.deliveries[d]);
    } else {
      RunKeepsInv(ws, steps, n);
      FinalIsSettled(ws[n], d);
    }
  }

  // ----- Without the premise -----

  /** Some sender is still at work on the delivery. */
  ghost predicate Held(w: World, d: Id) {
    exists i :: i in w.senders && w.senders[i].delivery == d
  }

  /** The step can happen and changes the status of `d`, not by deleting it and not by an operator's hand. */
  ghost predicate Leaves(w: World, step: Step, d: Id)
    requires d in w.store.deliveries
  {
    && step != Sends(RetryDelivery(d)) && Can(w, step)
    && d in Do(w, step).store.deliveries && Do(w, step).store.deliveries[d].status != w.store.deliveries[d].status
  }

  lemma SendLeaves(w: World, step: SendStep, d: Id)
    requires CanSend(w, step) && step != RetryDelivery(d) && d in w.store.deliveries && Final(w.store.deliveries[d])
    ensures d in DoSend(w, step).store.deliveries
    ensures DoSend(w, step).store.deliveries[d].status != w.store.deliveries[d].status ==> Held(w, d)
  {
    hide DeliveryLedgerOf;
    match step
    case FinishSend(sender, outcome) =>
      if w.senders[sender].delivery != d {
        FinishSparesOthers(w, sender, outcome, d);
        hide DoFinishSend;
      }
    case StartSend(sender, e) =>
      StartChangesNothing(w, sender, e, d);
      hide DoStartSend;
    case _ =>
      hide DoStartSend, DoFinishSend;
  }

  lemma FinishSparesOthers(w: World, sender: Id, outcome: SendOutcome, d: Id)
    requires sender in w.senders && w.senders[sender].delivery != d && d in w.store.deliveries
    ensures var w' := DoFinishSend(w, sender, outcome);
      && d in w'.store.deliveries && w'.store.deliveries[d] == w.store.deliveries[d]
      && DeliveryLedgerOf(w'.history.deliveries, d) == DeliveryLedgerOf(w.history.deliveries, d)
  {
    hide SentDelivery;
  }

  lemma StartChangesNothing(w: World, sender: Id, e: Id, d: Id)
    requires d in w.store.deliveries && Final(w.store.deliveries[d])
    ensures var after := DoStartSend(w, sender, e).store.deliveries; d in after && after[d] == w.store.deliveries[d]
  {
    hide DeliveryLedgerOf, ClaimedDelivery;
  }

  lemma LeavingNeedsASender(w: World, step: Step, d: Id)
    requires Accounting.Inv(w) && d in w.store.deliveries && Final(w.store.deliveries[d]) && Leaves(w, step, d)
    ensures Held(w, d)
  {
    if step.Sends? {
      hide Accounting.Inv;
      SendLeaves(w, step.ss, d);
    } else {
      assert d < w.store.nextId;
      Accounting.NonSendSteps(w, step);
      hide Accounting.Inv, Can, Do;
    }
  }

  /** A sender gives up a delivered row, or delivers a failed one. */
  lemma SenderCanLeave(w: World, sender: Id, d: Id) returns (step: Step)
    requires d in w.store.deliveries && Final(w.store.deliveries[d])
    requires sender in w.senders && w.senders[sender].delivery == d
    ensures Leaves(w, step, d)
  {
    var outcome := if w.store.deliveries[d].status == Delivered then NoDestination else Accepted;
    FinishWrites(w, sender, outcome);
    assert SentDelivery(w.store.deliveries[d], w.senders[sender].copy.attempts, outcome,
                        w.now).status != w.store.deliveries[d].status;
    step := Sends(FinishSend(sender, outcome));
    hide DoFinishSend, SentDelivery;
  }

  lemma FinishWrites(w: World, sender: Id, outcome: SendOutcome)
    requires sender in w.senders && w.senders[sender].delivery in w.store.deliveries
    ensures var Sender(d, copy) := w.senders[sender];
      DoFinishSend(w, sender, outcome).store.deliveries
      == w.store.deliveries[d := SentDelivery(w.store.deliveries[d], copy.attempts, outcome, w.now)]
  {
    hide SentDelivery, DeliveryLedgerOf;
  }

  /**
   * With no premise at all, and no operator: some step that can happen now takes a delivered or failed delivery to
   * another status exactly when a sender is still at work on it, at whatever attempt.
   */
  lemma FinalIsAtRiskExactlyWhenHeld(w: World, d: Id)
    requires Accounting.Inv(w) && d in w.store.deliveries && Final(w.store.deliveries[d])
    ensures (exists step :: Leaves(w, step, d)) <==> Held(w, d)
  {
    hide Leaves, Accounting.Inv;
    if step :| Leaves(w, step, d) {
      LeavingNeedsASender(w, step, d);
    }
    if Held(w, d) {
      var sender :| sender in w.senders && w.senders[sender].delivery == d;
      var step := SenderCanLeave(w, sender, d);
    }
  }

  lemma FinalGetsNoSender(w: World, step: SendStep, d: Id)
    requires CanSend(w, step) && (d in w.store.deliveries ==> Final(w.store.deliveries[d]))
    ensures Held(DoSend(w, step), d) ==> Held(w, d)
  {
    hide DeliveryLedgerOf, ClaimedDelivery, SentDelivery, RetriedDelivery;
    var w' := DoSend(w, step);
    assert forall i :: i in w'.senders && w'.senders[i].delivery == d ==> i in w.senders && w.senders[i].delivery == d;
  }

  /** The delivery is gone for good, or final with nobody at work on it. */
  ghost predicate AtRest(w: World, d: Id, status: DeliveryStatus) {
    && d < w.store.nextId && !Held(w, d)
    && (d in w.store.deliveries ==> w.store.deliveries[d].status == status && Final(w.store.deliveries[d]))
  }

  lemma RestsByOneStep(w: World, step: Step, d: Id, status: DeliveryStatus)
    requires Accounting.Inv(w) && Can(w, step) && step != Sends(RetryDelivery(d)) && AtRest(w, d, status)
    ensures AtRest(Do(w, step), d, status)
  {
    if step.Sends? {
      hide Accounting.Inv;
      SendRests(w, step.ss, d, status);
    } else {
      Accounting.NonSendSteps(w, step);
      hide Accounting.Inv, Can, Do;
      assert Held(Do(w, step), d) <==> Held(w, d);
    }
  }

  lemma SendRests(w: World, step: SendStep, d: Id, status: DeliveryStatus)
    requires CanSend(w, step) && step != RetryDelivery(d) && AtRest(w, d, status)
    ensures AtRest(DoSend(w, step), d, status)
  {
    FinalGetsNoSender(w, step, d);
    SendStepsOnlySend(w, step);
    SendsKeepRows(w, step, d);
    if d in w.store.deliveries {
      SendLeaves(w, step, d);
    }
    hide DoSend, CanSend, Held;
  }

  lemma SendsKeepRows(w: World, step: SendStep, d: Id)
    requires CanSend(w, step)
    ensures d in DoSend(w, step).store.deliveries <==> d in w.store.deliveries
  {
    hide ClaimedDelivery, SentDelivery, RetriedDelivery, DeliveryLedgerOf, DeliveryDue;
  }

  /** In every run, with no premise: a final delivery that nobody holds stays as it is until an operator retries it. */
  lemma {:induction false} UnheldStaysFinal(ws: seq<World>, steps: seq<Step>, i: nat, n: nat, d: Id)
    requires IsRun(ws, steps) && Init(ws[0]) && i <= n < |ws|
    requires d in ws[i].store.deliveries && Final(ws[i].store.deliveries[d]) && !Held(ws[i], d)
    requires forall k :: i <= k < n ==> steps[k] != Sends(RetryDelivery(d))
    ensures AtRest(ws[n], d, ws[i].store.deliveries[d].status)
    decreases n
  {
    hide Can, Do, Init, Held, Accounting.Inv;
    if i < n {
      UnheldStaysFinal(ws, steps, i, n - 1, d);
      Accounting.RunKeepsInv(ws, steps, n - 1);
      hide AtRest;
      assert ws[n] == Do(ws[n - 1], steps[n - 1]);
      RestsByOneStep(ws[n - 1], steps[n - 1], d, ws[i].store.deliveries[d].status);
    } else {
      Accounting.RunKeepsInv(ws, steps, n);
      IdIsUsed(ws[n], d);
    }
  }

  lemma IdIsUsed(w: World, d: Id)
    requires Accounting.Inv(w) && d in w.store.deliveries
    ensures d < w.store.nextId
  {
  }
}
