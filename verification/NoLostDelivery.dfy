/**
No delivery is forgotten: from every state of a run with timely senders, a
delivery that is pending or being sent can be brought to its end, without a
crash, without an operator and with every sender timely on the way.
*/
module NoLostDelivery {
  import opened Models
  import opened Transactions
  import opened World
  import opened WebhookLease
  import Accounting = WebhookAccounting
  import NoLostWork

  // ----- Whatever is being sent has a lease -----

  predicate HasLease(row: Delivery) {
    row.status == Sending ==> row.nextAttemptAt.Some?
  }

  ghost predicate LeasesAreSet(deliveries: map<Id, Delivery>) {
    forall d :: d in deliveries ==> HasLease(deliveries[d])
  }

  lemma StartSetsLease(w: World, sender: Id, d: Id)
    requires LeasesAreSet(w.store.deliveries)
    ensures LeasesAreSet(DoStartSend(w, sender, d).store.deliveries)
  {
    hide DeliveryLedgerOf, DeliveryDue;
  }

  lemma FinishSetsLease(w: World, sender: Id, outcome: SendOutcome)
    requires sender in w.senders && LeasesAreSet(w.store.deliveries)
    ensures LeasesAreSet(DoFinishSend(w, sender, outcome).store.deliveries)
  {
    hide DeliveryLedgerOf;
  }

  lemma SendSetsLeases(w: World, step: SendStep)
    requires CanSend(w, step) && LeasesAreSet(w.store.deliveries)
    ensures LeasesAreSet(DoSend(w, step).store.deliveries)
  {
    hide DoStartSend, DoFinishSend, DeliveryLedgerOf;
    match step
    case StartSend(sender, d) => StartSetsLease(w, sender, d);
    case FinishSend(sender, outcome) => FinishSetsLease(w, sender, outcome);
    case _ =>
  }

  lemma StepSetsLeases(w: World, step: Step)
    requires Accounting.Inv(w) && Can(w, step) && LeasesAreSet(w.store.deliveries)
    ensures LeasesAreSet(Do(w, step).store.deliveries)
  {
    hide Accounting.Inv, CanSend, DoSend;
    if step.Sends? {
      SendSetsLeases(w, step.ss);
    } else {
      Accounting.NonSendSteps(w, step);
      hide Can, Do;
    }
  }

  lemma {:induction false} RunSetsLeases(ws: seq<World>, steps: seq<Step>, n: nat)
    requires IsRun(ws, steps) && Init(ws[0]) && n < |ws|
    ensures LeasesAreSet(ws[n].store.deliveries)
  {
    if n > 0 {
      hide Can, Do, Init, LeasesAreSet, Accounting.Inv;
      RunSetsLeases(ws, steps, n - 1);
      Accounting.RunKeepsInv(ws, steps, n - 1);
      StepSetsLeases(ws[n - 1], steps[n - 1]);
    }
  }

  // ----- How a delivery should end -----

  predicate IsWanted(store: Store, d: Id)
    requires d in store.deliveries
  {
    var x := store.deliveries[d].destinationId;
    x in store.destinations && store.destinations[x].active
  }

  /** Delivered, unless its destination has been deactivated. */
  function Ending(store: Store, d: Id): DeliveryStatus
    requires d in store.deliveries
  {
    if IsWanted(store, d) then Delivered else DeliveryStatus.Failed
  }

  function Outcome(store: Store, d: Id): SendOutcome {
    if d in store.deliveries && IsWanted(store, d) then Accepted else NoDestination
  }

  /** If the delivery has ended, then as it should. */
  predicate EndsWell(w: World, d: Id) {
    d in w.store.deliveries && (Final(w.store.deliveries[d]) ==> w.store.deliveries[d].status == Ending(w.store, d))
  }

  predicate SameTarget(w: World, w': World, d: Id) {
    && d in w.store.deliveries && d in w'.store.deliveries && w'.store.destinations == w.store.destinations
    && w'.store.deliveries[d].destinationId == w.store.deliveries[d].destinationId
  }

  predicate IsOrdinary(step: Step) {
    !NoLostWork.IsCrash(step) && !(step.Sends? && step.ss.RetryDelivery?)
  }

  /** The run goes on with timely senders, without a crash and without an operator's retry. */
  ghost predicate GoesOn(ws: seq<World>, steps: seq<Step>, ws': seq<World>, steps': seq<Step>, d: Id) {
    && ws != [] && ws' != [] && ws <= ws' && steps <= steps' && IsPromptRun(ws', steps')
    && SameTarget(Last(ws), Last(ws'), d) && EndsWell(Last(ws'), d)
    && (forall k :: |steps| <= k < |steps'| ==> IsOrdinary(steps'[k]))
  }

  lemma NoStep(ws: seq<World>, steps: seq<Step>, d: Id)
    requires ws != [] && IsPromptRun(ws, steps) && EndsWell(Last(ws), d)
    ensures GoesOn(ws, steps, ws, steps, d)
  {
    hide IsPromptRun;
  }

  lemma OneStep(ws: seq<World>, steps: seq<Step>, ws1: seq<World>, steps1: seq<Step>, step: Step, d: Id)
    returns (ws': seq<World>, steps': seq<Step>)
    requires GoesOn(ws, steps, ws1, steps1, d) && Can(Last(ws1), step) && IsOrdinary(step)
    requires var w' := Do(Last(ws1), step);
      SendersAreTimely(w'.senders, w'.now) && SameTarget(Last(ws1), w', d) && EndsWell(w', d)
    ensures GoesOn(ws, steps, ws', steps', d) && Last(ws') == Do(Last(ws1), step)
  {
    hide Can, Do, SendersAreTimely, Init, EndsWell;
    Extend(ws1, steps1, step);
    ws', steps' := ws1 + [Do(Last(ws1), step)], steps1 + [step];
  }

  lemma LastIsTimely(ws: seq<World>, steps: seq<Step>)
    requires ws != [] && IsPromptRun(ws, steps)
    ensures SendersAreTimely(Last(ws).senders, Last(ws).now) && LeasesAreSet(Last(ws).store.deliveries)
  {
    RunSetsLeases(ws, steps, |ws| - 1);
    hide IsRun, Init;
  }

  // ----- Everybody at work comes to an end -----

  lemma FinishEndsWell(w: World, sender: Id, d: Id)
    requires sender in w.senders && EndsWell(w, d) && SendersAreTimely(w.senders, w.now)
    ensures var w' := DoFinishSend(w, sender, Outcome(w.store, w.senders[sender].delivery));
      && SameTarget(w, w', d) && EndsWell(w', d) && w'.senders == w.senders - {sender}
      && SendersAreTimely(w'.senders, w'.now)
  {
    hide DeliveryLedgerOf;
  }

  lemma {:induction false} SendersEnd(ws: seq<World>, steps: seq<Step>, ws1: seq<World>, steps1: seq<Step>, d: Id)
    returns (ws': seq<World>, steps': seq<Step>)
    requires GoesOn(ws, steps, ws1, steps1, d)
    ensures GoesOn(ws, steps, ws', steps', d) && Last(ws').senders == map[]
    decreases |Last(ws1).senders|
  {
    hide IsPromptRun, EndsWell, SameTarget;
    var w := Last(ws1);
    if w.senders == map[] {
      ws', steps' := ws1, steps1;
    } else {
      var sender :| sender in w.senders;
      LastIsTimely(ws1, steps1);
      FinishEndsWell(w, sender, d);
      hide DoFinishSend, SendersAreTimely, GoesOn;
      ws', steps' := OneStep(ws, steps, ws1, steps1,
                             Sends(FinishSend(sender, Outcome(w.store, w.senders[sender].delivery))), d);
      assert |w.senders| == |w.senders - {sender}| + 1;
      ws', steps' := SendersEnd(ws, steps, ws', steps', d);
    }
  }

  // ----- And the delivery is taken on -----

  /** With nobody at work, time may pass until the delivery is due. */
  lemma TimePasses(ws: seq<World>, steps: seq<Step>, ws1: seq<World>, steps1: seq<Step>, d: Id)
    returns (ws': seq<World>, steps': seq<Step>)
    requires GoesOn(ws, steps, ws1, steps1, d) && Last(ws1).senders == map[] && !Final(Last(ws1).store.deliveries[d])
    ensures GoesOn(ws, steps, ws', steps', d) && Last(ws').senders == map[]
    ensures DeliveryDue(Last(ws').store.deliveries[d], Last(ws').now)
  {
    hide IsPromptRun, IsRun, Ending;
    var w := Last(ws1);
    LastIsTimely(ws1, steps1);
    assert HasLease(w.store.deliveries[d]);
    var at := w.store.deliveries[d].nextAttemptAt;
    var elapsed: nat := if at.Some? && at.value > w.now then at.value - w.now else 0;
    hide GoesOn, LeasesAreSet;
    ws', steps' := OneStep(ws, steps, ws1, steps1, Others(Tick(elapsed)), d);
  }

  lemma StartIsPrompt(w: World, d: Id)
    requires w.senders == map[] && EndsWell(w, d) && DeliveryDue(w.store.deliveries[d], w.now)
    ensures var w' := DoStartSend(w, 0, d);
      && SameTarget(w, w', d) && EndsWell(w', d) && SendersAreTimely(w'.senders, w'.now)
      && 0 in w'.senders && w'.senders[0].delivery == d
  {
    hide DeliveryLedgerOf, DeliveryDue;
  }

  lemma Publish(ws: seq<World>, steps: seq<Step>, ws1: seq<World>, steps1: seq<Step>, d: Id)
    returns (ws': seq<World>, steps': seq<Step>)
    requires GoesOn(ws, steps, ws1, steps1, d) && Last(ws1).senders == map[]
    requires DeliveryDue(Last(ws1).store.deliveries[d], Last(ws1).now)
    ensures GoesOn(ws, steps, ws', steps', d) && Last(ws').senders == map[] && d in Last(ws').deliveryMessages
    ensures DeliveryDue(Last(ws').store.deliveries[d], Last(ws').now)
  {
    hide IsPromptRun, DeliveryDue;
    ws', steps' := OneStep(ws, steps, ws1, steps1, Sends(PublishDelivery(d)), d);
  }

  lemma Start(ws: seq<World>, steps: seq<Step>, ws1: seq<World>, steps1: seq<Step>, d: Id)
    returns (ws': seq<World>, steps': seq<Step>)
    requires GoesOn(ws, steps, ws1, steps1, d) && Last(ws1).senders == map[] && d in Last(ws1).deliveryMessages
    requires DeliveryDue(Last(ws1).store.deliveries[d], Last(ws1).now)
    ensures GoesOn(ws, steps, ws', steps', d) && 0 in Last(ws').senders && Last(ws').senders[0].delivery == d
  {
    hide IsPromptRun, DeliveryDue, DoStartSend, EndsWell, SameTarget, SendersAreTimely;
    StartIsPrompt(Last(ws1), d);
    ws', steps' := OneStep(ws, steps, ws1, steps1, Sends(StartSend(0, d)), d);
  }

  lemma FinishEnds(w: World, sender: Id, d: Id)
    requires sender in w.senders && w.senders[sender].delivery == d && d in w.store.deliveries
    ensures var after := DoFinishSend(w, sender, Outcome(w.store, d)).store.deliveries;
      d in after && after[d].status == Ending(w.store, d)
  {
    hide DeliveryLedgerOf;
  }

  lemma Finish(ws: seq<World>, steps: seq<Step>, ws1: seq<World>, steps1: seq<Step>, d: Id)
    returns (ws': seq<World>, steps': seq<Step>)
    requires GoesOn(ws, steps, ws1, steps1, d) && 0 in Last(ws1).senders && Last(ws1).senders[0].delivery == d
    ensures GoesOn(ws, steps, ws', steps', d) && Final(Last(ws').store.deliveries[d])
  {
    hide IsPromptRun, DoFinishSend, EndsWell, SendersAreTimely;
    LastIsTimely(ws1, steps1);
    FinishEndsWell(Last(ws1), 0, d);
    FinishEnds(Last(ws1), 0, d);
    ws', steps' := OneStep(ws, steps, ws1, steps1, Sends(FinishSend(0, Outcome(Last(ws1).store, d))), d);
  }

  /**
   * From every state of a run with timely senders, a delivery that is pending or being sent can be brought to its end:
   * delivered if its destination is active, and failed otherwise.
   */
  lemma EveryDeliveryCanFinish(ws: seq<World>, steps: seq<Step>, d: Id) returns (ws': seq<World>, steps': seq<Step>)
    requires ws != [] && IsPromptRun(ws, steps)
    requires d in Last(ws).store.deliveries && !Final(Last(ws).store.deliveries[d])
    ensures GoesOn(ws, steps, ws', steps', d)
    ensures Last(ws').store.deliveries[d].status == Ending(Last(ws).store, d)
  {
    hide IsPromptRun, DeliveryDue;
    NoStep(ws, steps, d);
    ws', steps' := SendersEnd(ws, steps, ws, steps, d);
    if !Final(Last(ws').store.deliveries[d]) {
      ws', steps' := TimePasses(ws, steps, ws', steps', d);
      ws', steps' := Publish(ws, steps, ws', steps', d);
      ws', steps' := Start(ws, steps, ws', steps', d);
      ws', steps' := Finish(ws, steps, ws', steps', d);
    }
  }
}
