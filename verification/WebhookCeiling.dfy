/**
When the ceiling of five automatic attempts holds, and when it does not, for a
delivery that no operator retried and senders that keep to their lease: the
attempts beyond the fifth are exactly the claims of a lease that ran out on
the fifth attempt or a later one.
*/
module WebhookCeiling {
  import opened Models
  import opened Transactions
  import opened World
  import Accounting = WebhookAccounting
  import opened WebhookLease

  /** A pending row has an attempt left, and only overruns went beyond the ceiling. */
  predicate WithinCeiling(row: Delivery, ledger: DeliveryLedger) {
    && (row.status == Pending ==> row.attempts < MAX_DELIVERY_ATTEMPTS)
    && ledger.overruns == if row.attempts > MAX_DELIVERY_ATTEMPTS then row.attempts - MAX_DELIVERY_ATTEMPTS else 0
  }

  ghost predicate CeilingInv(w: World) {
    forall d :: d in w.store.deliveries && Untouched(w.history.deliveries, d) ==>
      WithinCeiling(w.store.deliveries[d], DeliveryLedgerOf(w.history.deliveries, d))
  }

  // ----- Steps -----

  lemma ClaimKeepsCeiling(w: World, sender: Id, e: Id, d: Id)
    requires CeilingInv(w) && d in w.store.deliveries && Untouched(w.history.deliveries, d)
    ensures var w' := DoStartSend(w, sender, e);
      && d in w'.store.deliveries && Untouched(w'.history.deliveries, d)
      && WithinCeiling(w'.store.deliveries[d], DeliveryLedgerOf(w'.history.deliveries, d))
  {
  }

  /** A sender that keeps to its lease ends the row's own attempt, and makes the row pending only below the ceiling. */
  lemma FinishKeepsCeiling(w: World, sender: Id, outcome: SendOutcome, d: Id)
    requires WebhookLease.Inv(w) && CeilingInv(w) && sender in w.senders
    requires d in w.store.deliveries && Untouched(w.history.deliveries, d)
    ensures var w' := DoFinishSend(w, sender, outcome);
      && d in w'.store.deliveries && Untouched(w'.history.deliveries, d)
      && WithinCeiling(w'.store.deliveries[d], DeliveryLedgerOf(w'.history.deliveries, d))
  {
    hide WebhookLease.Inv, CeilingInv, SentDelivery, WithinCeiling;
    StaysWithinCeiling(w, d);
    if w.senders[sender].delivery == d {
      HolderMatches(w, sender, d);
      FinishOwn(w, sender, outcome);
    } else {
      FinishSparesOthers(w, sender, outcome, d);
    }
  }

  lemma HolderMatches(w: World, sender: Id, d: Id)
    requires WebhookLease.Inv(w) && sender in w.senders && w.senders[sender].delivery == d
    requires d in w.store.deliveries && Untouched(w.history.deliveries, d)
    ensures w.senders[sender].copy == w.store.deliveries[d]
  {
    assert Holds(w.senders[sender], w.store.deliveries[d]);
  }

  lemma FinishOwn(w: World, sender: Id, outcome: SendOutcome)
    requires sender in w.senders && w.senders[sender].delivery in w.store.deliveries
    requires var Sender(d, copy), row := w.senders[sender], w.store.deliveries[w.senders[sender].delivery];
      && copy.attempts == row.attempts && Untouched(w.history.deliveries, d)
      && WithinCeiling(row, DeliveryLedgerOf(w.history.deliveries, d))
    ensures var w', d := DoFinishSend(w, sender, outcome), w.senders[sender].delivery;
      && d in w'.store.deliveries && Untouched(w'.history.deliveries, d)
      && WithinCeiling(w'.store.deliveries[d], DeliveryLedgerOf(w'.history.deliveries, d))
  {
  }

  lemma SendKeepsCeiling(w: World, step: SendStep, d: Id)
    requires WebhookLease.Inv(w) && CeilingInv(w) && CanSend(w, step)
    requires d in DoSend(w, step).store.deliveries && Untouched(DoSend(w, step).history.deliveries, d)
    ensures var w' := DoSend(w, step); WithinCeiling(w'.store.deliveries[d], DeliveryLedgerOf(w'.history.deliveries, d))
  {
    SendsOnlyAddRetries(w, step, d);
    SendsKeepRows(w, step, d);
    hide WebhookLease.Inv, CeilingInv, WithinCeiling;
    match step
    case StartSend(sender, e) => ClaimKeepsCeiling(w, sender, e, d);
    case FinishSend(sender, outcome) => FinishKeepsCeiling(w, sender, outcome, d);
    case RetryDelivery(e) => RetryTouches(w, e, d);
    case _ => StaysWithinCeiling(w, d);
  }

  lemma StaysWithinCeiling(w: World, d: Id)
    requires CeilingInv(w) && d in w.store.deliveries && Untouched(w.history.deliveries, d)
    ensures WithinCeiling(w.store.deliveries[d], DeliveryLedgerOf(w.history.deliveries, d))
  {
  }

  lemma RetryTouches(w: World, e: Id, d: Id)
    requires e in w.store.deliveries && CeilingInv(w) && d in w.store.deliveries && Untouched(w.history.deliveries, d)
    requires Untouched(DoRetryDelivery(w, e).history.deliveries, d)
    ensures var w' := DoRetryDelivery(w, e);
      WithinCeiling(w'.store.deliveries[d], DeliveryLedgerOf(w'.history.deliveries, d))
  {
    assert e != d;
  }

  lemma NonSendKeepsCeiling(w: World, w': World)
    requires WebhookLease.Inv(w) && CeilingInv(w) && Accounting.RowsComeAndGo(w, w')
    ensures CeilingInv(w')
  {
    forall d | d in w'.store.deliveries && Untouched(w'.history.deliveries, d)
      ensures WithinCeiling(w'.store.deliveries[d], DeliveryLedgerOf(w'.history.deliveries, d))
    {
      if d !in w.store.deliveries || w'.store.deliveries[d] != w.store.deliveries[d] {
        assert Accounting.KeysFit(w.store.deliveries, w.history.deliveries, w.store.nextId);
        assert d !in w.history.deliveries;
      }
    }
  }

  lemma StepKeepsCeiling(w: World, step: Step)
    requires WebhookLease.Inv(w) && CeilingInv(w) && Can(w, step)
    ensures CeilingInv(Do(w, step))
  {
    if step.Sends? {
      forall d | d in Do(w, step).store.deliveries && Untouched(Do(w, step).history.deliveries, d)
        ensures WithinCeiling(Do(w, step).store.deliveries[d], DeliveryLedgerOf(Do(w, step).history.deliveries, d))
      {
        SendKeepsCeiling(w, step.ss, d);
      }
      hide DoSend, CanSend, WebhookLease.Inv;
    } else {
      Accounting.NonSendSteps(w, step);
      hide WebhookLease.Inv, CeilingInv, Can, Do;
      NonSendKeepsCeiling(w, Do(w, step));
    }
  }

  // ----- Runs -----

  lemma InitHolds(w: World)
    requires Init(w)
    ensures CeilingInv(w)
  {
  }

  lemma {:induction false} RunKeepsCeiling(ws: seq<World>, steps: seq<Step>, n: nat)
    requires IsPromptRun(ws, steps) && n < |ws|
    ensures CeilingInv(ws[n])
  {
    hide WebhookLease.Inv, CeilingInv, Can, Do, SendersAreTimely, Init;
    if n == 0 {
      InitHolds(ws[0]);
    } else {
      RunKeepsCeiling(ws, steps, n - 1);
      WebhookLease.RunKeepsInv(ws, steps, n - 1);
      assert ws[n] == Do(ws[n - 1], steps[n - 1]);
      StepKeepsCeiling(ws[n - 1], steps[n - 1]);
    }
  }

  /** A pending delivery has an attempt left. */
  lemma PendingHasAttemptsLeft(ws: seq<World>, steps: seq<Step>, n: nat, d: Id)
    requires IsPromptRun(ws, steps) && n < |ws|
    requires d in ws[n].store.deliveries && Untouched(ws[n].history.deliveries, d)
    ensures ws[n].store.deliveries[d].status == Pending ==> ws[n].store.deliveries[d].attempts < MAX_DELIVERY_ATTEMPTS
  {
    RunKeepsCeiling(ws, steps, n);
  }

  /** A message goes beyond the ceiling exactly when it finds a lease run out on the last allowed attempt or later. */
  lemma ClaimOverrunsExactlyWhen(ws: seq<World>, steps: seq<Step>, n: nat, sender: Id, d: Id)
    requires IsPromptRun(ws, steps) && n < |ws|
    requires d in ws[n].store.deliveries && Untouched(ws[n].history.deliveries, d)
    ensures var w := ws[n]; var row, after := w.store.deliveries[d], DoStartSend(w, sender, d).store.deliveries;
      && d in after
      && (after[d].attempts > row.attempts && after[d].attempts > MAX_DELIVERY_ATTEMPTS
          <==> row.status == Sending && row.attempts >= MAX_DELIVERY_ATTEMPTS && DeliveryDue(row, w.now))
  {
    RunKeepsCeiling(ws, steps, n);
  }

  /**
   * The attempts beyond the fifth are as many as such claims: the ceiling is broken exactly when a lease that ran
   * out on the fifth attempt or a later one was claimed again.
   */
  lemma CeilingBrokenExactlyWhen(ws: seq<World>, steps: seq<Step>, n: nat, d: Id)
    requires IsPromptRun(ws, steps) && n < |ws|
    requires d in ws[n].store.deliveries && Untouched(ws[n].history.deliveries, d)
    ensures var row, overruns := ws[n].store.deliveries[d], DeliveryLedgerOf(ws[n].history.deliveries, d).overruns;
      && (row.attempts > MAX_DELIVERY_ATTEMPTS <==> overruns > 0)
      && row.attempts <= MAX_DELIVERY_ATTEMPTS + overruns
      && (overruns > 0 ==> row.attempts == MAX_DELIVERY_ATTEMPTS + overruns)
  {
    RunKeepsCeiling(ws, steps, n);
  }
}
