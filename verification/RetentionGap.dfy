/**
Retention selects the reports it may delete and deletes them later. What is
committed in between can make a delivery of a selected report pending again,
and the report is deleted all the same. This says exactly when.
*/
module RetentionGap {
  import opened Models
  import opened Transactions
  import opened World
  import Accounting = WebhookAccounting
  import CrashLoop
  import Lease = WebhookLease
  import Outbox

  // ----- Deliveries that can become pending by themselves -----

  /** A rejection of this sender's attempt makes the delivery pending. */
  predicate MayRequeue(sender: Sender, d: Id) {
    sender.delivery == d && sender.copy.attempts < MAX_DELIVERY_ATTEMPTS
  }

  ghost predicate HasRequeuer(senders: map<Id, Sender>, d: Id) {
    exists i :: i in senders && MayRequeue(senders[i], d)
  }

  /** Once its lease has run out, the next attempt is below the ceiling. */
  predicate HasAttemptLeft(row: Delivery) {
    row.status == Sending && row.nextAttemptAt.Some? && row.attempts + 1 < MAX_DELIVERY_ATTEMPTS
  }

  ghost predicate AtRisk(w: World, d: Id)
    requires d in w.store.deliveries
  {
    HasRequeuer(w.senders, d) || HasAttemptLeft(w.store.deliveries[d])
  }

  ghost predicate IsQuiet(w: World, d: Id)
    requires d in w.store.deliveries
  {
    w.store.deliveries[d].status != Pending && !AtRisk(w, d)
  }

  lemma ClaimKeepsQuiet(w: World, sender: Id, e: Id, d: Id)
    requires sender !in w.senders && d in w.store.deliveries && IsQuiet(w, d)
    ensures d in DoStartSend(w, sender, e).store.deliveries && IsQuiet(DoStartSend(w, sender, e), d)
    ensures DoStartSend(w, sender, e).store.deliveries[d].reportId == w.store.deliveries[d].reportId
  {
    var w' := DoStartSend(w, sender, e);
    if e == d && DeliveryDue(w.store.deliveries[d], w.now) {
      ClaimRow(w, sender, d);
      hide DoStartSend;
    } else {
      ClaimSparesOthers(w, sender, e, d);
      hide DoStartSend;
    }
    forall i | i in w'.senders
      ensures !MayRequeue(w'.senders[i], d)
    {
      assert i != sender ==> w'.senders[i] == w.senders[i] && !MayRequeue(w.senders[i], d);
    }
  }

  lemma ClaimRow(w: World, sender: Id, d: Id)
    requires d in w.store.deliveries && DeliveryDue(w.store.deliveries[d], w.now)
    ensures var w', row := DoStartSend(w, sender, d), ClaimedDelivery(w.store.deliveries[d], w.now);
      && w'.store.deliveries == w.store.deliveries[d := row] && w'.senders == w.senders[sender := Sender(d, row)]
      && w'.store.reports == w.store.reports && w'.purges == w.purges
  {
    hide DeliveryLedgerOf, DeliveryDue, ClaimedDelivery;
  }

  lemma ClaimSparesOthers(w: World, sender: Id, e: Id, d: Id)
    requires d in w.store.deliveries && (e == d ==> !DeliveryDue(w.store.deliveries[d], w.now))
    ensures var w' := DoStartSend(w, sender, e);
      && d in w'.store.deliveries && w'.store.deliveries[d] == w.store.deliveries[d]
      && w'.senders.Keys <= w.senders.Keys + {sender}
      && (sender in w'.senders && sender !in w.senders ==> w'.senders[sender].delivery == e != d)
      && (forall i :: i in w'.senders && i != sender ==> i in w.senders && w'.senders[i] == w.senders[i])
  {
    hide DeliveryLedgerOf, DeliveryDue, ClaimedDelivery;
  }

  lemma FinishKeepsQuiet(w: World, sender: Id, outcome: SendOutcome, d: Id)
    requires sender in w.senders && d in w.store.deliveries && IsQuiet(w, d)
    ensures d in DoFinishSend(w, sender, outcome).store.deliveries && IsQuiet(DoFinishSend(w, sender, outcome), d)
    ensures DoFinishSend(w, sender, outcome).store.deliveries[d].reportId == w.store.deliveries[d].reportId
  {
    assert !MayRequeue(w.senders[sender], d);
    var w' := DoFinishSend(w, sender, outcome);
    assert w'.senders == w.senders - {sender};
    if w.senders[sender].delivery == d {
      Lease.FinishWrites(w, sender, outcome);
    } else {
      Lease.FinishSparesOthers(w, sender, outcome, d);
    }
    hide DoFinishSend;
    forall i | i in w'.senders
      ensures !MayRequeue(w'.senders[i], d)
    {
      assert !MayRequeue(w.senders[i], d);
    }
  }

  lemma SendKeepsQuiet(w: World, step: SendStep, d: Id)
    requires CanSend(w, step) && !step.RetryDelivery? && d in w.store.deliveries && IsQuiet(w, d)
    ensures d in DoSend(w, step).store.deliveries && IsQuiet(DoSend(w, step), d)
    ensures DoSend(w, step).store.deliveries[d].reportId == w.store.deliveries[d].reportId
  {
    match step
    case StartSend(sender, e) => ClaimKeepsQuiet(w, sender, e, d); hide DoStartSend, IsQuiet;
    case FinishSend(sender, outcome) => FinishKeepsQuiet(w, sender, outcome, d); hide DoFinishSend, IsQuiet;
    case SenderDies(sender) =>
      hide DoStartSend, DoFinishSend;
      assert forall i :: i in w.senders - {sender} && MayRequeue(w.senders[i], d) ==> i in w.senders;
    case _ => hide DoStartSend, DoFinishSend, AtRisk;
  }

  // ----- Reports that stay without a pending delivery -----

  ghost predicate AllQuiet(w: World, r: Id) {
    r < w.store.nextId
    && forall d :: d in w.store.deliveries && w.store.deliveries[d].reportId == r ==> IsQuiet(w, d)
  }

  /** Between the selection and the deletion of one retention run: anything else but an operator's retry. */
  predicate InGap(step: Step, purge: Id) {
    match step
    case Sends(RetryDelivery(_)) => false
    case Others(CommitPurge(p)) => p != purge
    case Others(PurgeDies(p)) => p != purge
    case _ => true
  }

  lemma SendStepKeepsAllQuiet(w: World, step: SendStep, r: Id)
    requires CanSend(w, step) && !step.RetryDelivery? && AllQuiet(w, r)
    ensures AllQuiet(DoSend(w, step), r)
  {
    SendStepsOnlySend(w, step);
    var w' := DoSend(w, step);
    forall d | d in w'.store.deliveries && w'.store.deliveries[d].reportId == r
      ensures IsQuiet(w', d)
    {
      Lease.SendsKeepRows(w, step, d);
      SendTargetsStay(w, step, d);
      hide DoSend, CanSend, IsQuiet;
      SendKeepsQuiet(w, step, d);
    }
    hide DoSend, CanSend, IsQuiet;
  }

  lemma SendTargetsStay(w: World, step: SendStep, d: Id)
    requires CanSend(w, step) && d in w.store.deliveries && d in DoSend(w, step).store.deliveries
    ensures DoSend(w, step).store.deliveries[d].reportId == w.store.deliveries[d].reportId
  {
    Outbox.SendStepRetargets(w, step);
    hide DoSend, CanSend;
  }

  lemma OtherStepKeepsAllQuiet(w: World, w': World, r: Id)
    requires AllQuiet(w, r) && Accounting.RowsComeAndGo(w, w') && w'.senders == w.senders
    ensures AllQuiet(w', r)
  {
    forall d | d in w'.store.deliveries && w'.store.deliveries[d].reportId == r
      ensures IsQuiet(w', d)
    {
      assert d in w.store.deliveries && IsQuiet(w, d);
    }
  }

  lemma StepKeepsAllQuiet(w: World, step: Step, r: Id)
    requires Accounting.Inv(w) && Can(w, step) && AllQuiet(w, r)
    requires !(step.Sends? && step.ss.RetryDelivery?)
    ensures AllQuiet(Do(w, step), r)
  {
    hide AllQuiet, Accounting.Inv;
    if step.Sends? {
      SendStepKeepsAllQuiet(w, step.ss, r);
    } else {
      Accounting.NonSendSteps(w, step);
      hide Can, Do;
      OtherStepKeepsAllQuiet(w, Do(w, step), r);
    }
  }

  // ----- The gap -----

  ghost predicate IsGap(ws: seq<World>, steps: seq<Step>, w: World, purge: Id) {
    IsRun(ws, steps) && ws[0] == w && forall i :: 0 <= i < |steps| ==> InGap(steps[i], purge)
  }

  /** The deletion takes `r` although a delivery of it is pending. */
  ghost predicate TakesPending(w: World, purge: Id, r: Id) {
    && purge in w.purges && r in w.store.reports && HasPendingDelivery(w.store.deliveries, r)
    && r !in DoOther(w, CommitPurge(purge)).store.reports
  }

  ghost predicate GapTakesPending(ws: seq<World>, steps: seq<Step>, w: World, purge: Id, r: Id) {
    IsGap(ws, steps, w, purge) && TakesPending(Last(ws), purge, r)
  }

  lemma {:induction false} QuietAllAlong(ws: seq<World>, steps: seq<Step>, w: World, purge: Id, r: Id, i: nat)
    requires IsGap(ws, steps, w, purge) && Accounting.Inv(w) && AllQuiet(w, r) && i < |ws|
    ensures Accounting.Inv(ws[i]) && AllQuiet(ws[i], r)
  {
    hide AllQuiet, Accounting.Inv, Can, Do;
    if i > 0 {
      QuietAllAlong(ws, steps, w, purge, r, i - 1);
      assert ws[i] == Do(ws[i - 1], steps[i - 1]) && InGap(steps[i - 1], purge);
      Accounting.StepKeepsInv(ws[i - 1], steps[i - 1]);
      StepKeepsAllQuiet(ws[i - 1], steps[i - 1], r);
    }
  }

  lemma TakeInGap(ws: seq<World>, steps: seq<Step>, w: World, purge: Id, step: Step)
    returns (ws': seq<World>, steps': seq<Step>)
    requires ws != [] && IsGap(ws, steps, w, purge) && Can(Last(ws), step) && InGap(step, purge)
    ensures ws' != [] && IsGap(ws', steps', w, purge) && Last(ws') == Do(Last(ws), step)
  {
    hide Can, Do;
    Extend(ws, steps, step);
    ws', steps' := ws + [Do(Last(ws), step)], steps + [step];
  }

  /** From one world of the gap to the other only deliveries, senders and the clock differ. */
  ghost predicate SameSelection(w: World, w': World, d: Id) {
    && w'.purges == w.purges && w'.store.reports == w.store.reports
    && d in w.store.deliveries && d in w'.store.deliveries
      && w'.store.deliveries[d].reportId == w.store.deliveries[d].reportId
  }

  lemma RejectionRequeues(w: World, sender: Id, d: Id)
    requires d in w.store.deliveries && sender in w.senders && MayRequeue(w.senders[sender], d)
    ensures var w' := Do(w, Sends(FinishSend(sender, Rejected)));
      SameSelection(w, w', d) && w'.store.deliveries[d].status == Pending
  {
    Lease.FinishWrites(w, sender, Rejected);
    hide DeliveryLedgerOf;
  }

  lemma ClaimJoins(w: World, sender: Id, d: Id)
    requires sender !in w.senders && d in w.deliveryMessages && d in w.store.deliveries
    requires DeliveryDue(w.store.deliveries[d], w.now) && HasAttemptLeft(w.store.deliveries[d])
    ensures var w' := Do(w, Sends(StartSend(sender, d)));
      SameSelection(w, w', d) && sender in w'.senders && MayRequeue(w'.senders[sender], d)
  {
    ClaimRow(w, sender, d);
    hide DoStartSend;
  }

  lemma LeaseRunsDown(w: World, purge: Id, d: Id) returns (ws: seq<World>, steps: seq<Step>)
    requires d in w.store.deliveries && HasAttemptLeft(w.store.deliveries[d])
    ensures ws != [] && IsGap(ws, steps, w, purge)
    ensures var later := Last(ws);
      && later.store == w.store && later.senders == w.senders && later.purges == w.purges
      && DeliveryDue(later.store.deliveries[d], later.now)
  {
    var lease := w.store.deliveries[d].nextAttemptAt.value;
    ws, steps := [w], [];
    assert IsGap(ws, steps, w, purge);
    hide IsGap;
    ws, steps := TakeInGap(ws, steps, w, purge, Others(Tick(if lease > w.now then lease - w.now else 0)));
  }

  /** The lease runs out and another sender takes over. */
  lemma LeaseRunsOut(w: World, purge: Id, d: Id) returns (ws: seq<World>, steps: seq<Step>, sender: Id)
    requires d in w.store.deliveries && HasAttemptLeft(w.store.deliveries[d])
    ensures ws != [] && IsGap(ws, steps, w, purge) && SameSelection(w, Last(ws), d)
    ensures sender in Last(ws).senders && MayRequeue(Last(ws).senders[sender], d)
  {
    hide IsGap, HasAttemptLeft, MayRequeue, DeliveryDue, DoStartSend;
    sender := UnusedId(w.senders.Keys);
    ws, steps := LeaseRunsDown(w, purge, d);
    ws, steps := TakeInGap(ws, steps, w, purge, Sends(PublishDelivery(d)));
    ClaimJoins(Last(ws), sender, d);
    ws, steps := TakeInGap(ws, steps, w, purge, Sends(StartSend(sender, d)));
  }

  lemma RiskBecomesPending(w: World, purge: Id, d: Id) returns (ws: seq<World>, steps: seq<Step>)
    requires d in w.store.deliveries && AtRisk(w, d)
    ensures ws != [] && IsGap(ws, steps, w, purge) && SameSelection(w, Last(ws), d)
    ensures Last(ws).store.deliveries[d].status == Pending
  {
    var sender: Id;
    if HasRequeuer(w.senders, d) {
      sender :| sender in w.senders && MayRequeue(w.senders[sender], d);
      ws, steps := [w], [];
      assert IsGap(ws, steps, w, purge);
    } else {
      ws, steps, sender := LeaseRunsOut(w, purge, d);
    }
    hide IsGap, Do;
    RejectionRequeues(Last(ws), sender, d);
    ws, steps := TakeInGap(ws, steps, w, purge, Sends(FinishSend(sender, Rejected)));
  }

  ghost predicate SomeAtRisk(w: World, r: Id) {
    exists d :: d in w.store.deliveries && w.store.deliveries[d].reportId == r && AtRisk(w, d)
  }

  /** A retention run begins. */
  function Selecting(w: World, purge: Id, cutoff: int): World
    requires purge !in w.purges
  {
    DoOther(w, BeginPurge(purge, cutoff))
  }

  lemma SomeRiskTakesPending(w: World, purge: Id, cutoff: int, r: Id) returns (ws: seq<World>, steps: seq<Step>)
    requires purge !in w.purges && r in EligibleReports(w.store, cutoff) && SomeAtRisk(w, r)
    ensures GapTakesPending(ws, steps, Selecting(w, purge, cutoff), purge, r)
  {
    var w' := Selecting(w, purge, cutoff);
    var d :| d in w.store.deliveries && w.store.deliveries[d].reportId == r && AtRisk(w, d);
    assert AtRisk(w', d);
    ws, steps := RiskBecomesPending(w', purge, d);
    hide IsGap;
    assert HasPendingDelivery(Last(ws).store.deliveries, r);
  }

  lemma NoRiskNoPending(w: World, purge: Id, cutoff: int, r: Id, ws: seq<World>, steps: seq<Step>)
    requires Accounting.Inv(w) && purge !in w.purges && r < w.store.nextId && r in EligibleReports(w.store, cutoff)
    requires !SomeAtRisk(w, r) && IsGap(ws, steps, Selecting(w, purge, cutoff), purge)
    ensures !HasPendingDelivery(Last(ws).store.deliveries, r)
  {
    var w' := Selecting(w, purge, cutoff);
    forall d | d in w.store.deliveries && w.store.deliveries[d].reportId == r
      ensures IsQuiet(w', d)
    {
      assert !AtRisk(w, d);
    }
    assert AllQuiet(w', r) && Accounting.Inv(w');
    QuietAllAlong(ws, steps, w', purge, r, |ws| - 1);
    hide Accounting.Inv, IsGap, Selecting, EligibleReports;
  }

  /**
   * For a report that a retention run selects: something committed before its deletion, other than an operator's
   * retry, can give it a pending delivery, so that the deletion takes it against the promise, exactly when one of its
   * deliveries has a sender below the ceiling or is being sent with an attempt left after this one.
   */
  lemma PendingIsTakenExactlyWhen(w: World, purge: Id, cutoff: int, r: Id)
    requires Accounting.Inv(w) && purge !in w.purges && r < w.store.nextId && r in EligibleReports(w.store, cutoff)
    ensures (exists ws, steps :: GapTakesPending(ws, steps, Selecting(w, purge, cutoff), purge, r))
            <==> SomeAtRisk(w, r)
  {
    hide Accounting.Inv, SomeAtRisk, EligibleReports, Selecting, GapTakesPending;
    if SomeAtRisk(w, r) {
      var ws, steps := SomeRiskTakesPending(w, purge, cutoff, r);
    }
    if ws, steps :| GapTakesPending(ws, steps, Selecting(w, purge, cutoff), purge, r) {
      PendingNeedsRisk(w, purge, cutoff, r, ws, steps);
    }
  }

  lemma PendingNeedsRisk(w: World, purge: Id, cutoff: int, r: Id, ws: seq<World>, steps: seq<Step>)
    requires Accounting.Inv(w) && purge !in w.purges && r < w.store.nextId && r in EligibleReports(w.store, cutoff)
    requires GapTakesPending(ws, steps, Selecting(w, purge, cutoff), purge, r)
    ensures SomeAtRisk(w, r)
  {
    hide Accounting.Inv, SomeAtRisk, EligibleReports, Selecting, IsGap;
    if !SomeAtRisk(w, r) {
      NoRiskNoPending(w, purge, cutoff, r, ws, steps);
    }
  }

  // ----- It happens -----

  lemma RejectionIsPrompt(w: World, sender: Id, d: Id)
    requires w.store.deliveries.Keys == {d} && Lease.Untouched(w.history.deliveries, d)
    requires w.senders.Keys == {sender} && MayRequeue(w.senders[sender], d)
    ensures var w' := Do(w, Sends(FinishSend(sender, Rejected)));
      && w'.store.deliveries.Keys == {d} && Lease.Untouched(w'.history.deliveries, d)
      && Lease.SendersAreTimely(w'.senders, w'.now)
  {
    hide SentDelivery;
    assert (w.senders - {sender}).Keys == {};
  }

  /** The only delivery is being sent for the first time, and its report can be selected. */
  lemma FirstSending(request: Request) returns (ws: seq<World>, steps: seq<Step>, cutoff: int, d: Id)
    ensures ws != [] && Lease.IsPromptRun(ws, steps)
    ensures var w := Last(ws);
      && w.store.deliveries.Keys == {d} && w.store.deliveries[d].status == Sending
      && w.senders.Keys == {0} && MayRequeue(w.senders[0], d) && Lease.Untouched(w.history.deliveries, d)
      && Lease.SendersAreTimely(w.senders, w.now) && w.store.deliveries[d].reportId in w.store.reports
      && w.store.deliveries[d].reportId in EligibleReports(w.store, cutoff)
  {
    ws, steps, d := CrashLoop.FirstDelivery(request);
    ws, steps := CrashLoop.ClaimOnce(ws, steps, d, 0);
    var w := Last(ws);
    Outbox.RunKeepsOutbox(ws, steps, |ws| - 1);
    assert Outbox.IsWarranted(w.store.deliveries[d], w.store, w.history.commits);
    cutoff := w.store.reports[w.store.deliveries[d].reportId].createdAt + 1;
    assert Lease.SendersAreTimely(w.senders, w.now);
    hide Lease.IsPromptRun;
  }

  /**
   * A run in which retention deletes a report whose delivery is pending at that moment, although every sender is
   * timely and no operator has retried the delivery.
   */
  lemma PendingReportIsDeleted(request: Request)
    returns (ws: seq<World>, steps: seq<Step>, n: nat, purge: Id, r: Id)
    ensures Lease.IsPromptRun(ws, steps) && |ws| == n + 2 && steps[n] == Others(CommitPurge(purge))
    ensures r in ws[n].store.reports && HasPendingDelivery(ws[n].store.deliveries, r)
    ensures forall d :: d in ws[n].store.deliveries ==> Lease.Untouched(ws[n].history.deliveries, d)
    ensures r !in ws[n + 1].store.reports
  {
    hide Lease.IsPromptRun, EligibleReports, DoFinishSend, DoStartSend, DoRetryDelivery, Lease.Untouched;
    var cutoff, d;
    ws, steps, cutoff, d := FirstSending(request);
    r := Last(ws).store.deliveries[d].reportId;
    purge := UnusedId(Last(ws).purges.Keys);
    ws, steps := CrashLoop.TakePromptly(ws, steps, Others(BeginPurge(purge, cutoff)));
    RejectionRequeues(Last(ws), 0, d);
    RejectionIsPrompt(Last(ws), 0, d);
    ws, steps := CrashLoop.TakePromptly(ws, steps, Sends(FinishSend(0, Rejected)));
    n := |ws| - 1;
    ws, steps := CrashLoop.TakePromptly(ws, steps, Others(CommitPurge(purge)));
  }
}
