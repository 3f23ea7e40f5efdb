/**
The attempt ceiling does not bind a sender that dies every time: claiming a
delivery whose lease has expired does not look at the attempts made so far.
*/
module CrashLoop {
  import opened Wrappers
  import opened Models
  import opened Transactions
  import opened World
  import opened WebhookLease

  lemma TakePromptly(ws: seq<World>, steps: seq<Step>, step: Step) returns (ws': seq<World>, steps': seq<Step>)
    requires ws != [] && IsPromptRun(ws, steps) && Can(Last(ws), step)
    requires SendersAreTimely(Do(Last(ws), step).senders, Do(Last(ws), step).now)
    ensures IsPromptRun(ws', steps') && |ws'| == |ws| + 1
    ensures Last(ws') == Do(Last(ws), step) && ws'[|ws| - 1] == Last(ws) && steps'[|ws| - 1] == step
  {
    hide Can, Do, SendersAreTimely, Init;
    Extend(ws, steps, step);
    ws', steps' := ws + [Do(Last(ws), step)], steps + [step];
  }

  /** The only delivery, with no sender, is due, after `n` attempts and no retry by an operator. */
  predicate Waiting(w: World, d: Id, n: nat) {
    && w.store.deliveries.Keys == {d}
    && w.store.deliveries[d].attempts == n && DeliveryDue(w.store.deliveries[d], w.now)
    && w.senders == map[] && DeliveryLedgerOf(w.history.deliveries, d).retries == 0
  }

  predicate OneDestination(w: World) {
    && w.store.deliveries == map[] && w.senders == map[] && w.history.deliveries == map[]
    && w.store.destinations == map[0 := Destination(true)]
  }

  lemma OneJob(request: Request) returns (ws: seq<World>, steps: seq<Step>)
    ensures ws != [] && IsPromptRun(ws, steps) && OneDestination(Last(ws))
    ensures JobClaimable(Last(ws).store.jobs, 1) && Last(ws).workers == map[]
  {
    var w := World(Store(map[], map[], map[], map[], map[], 0), 0, map[], map[], map[], map[], map[], multiset{},
                   multiset{},
                   History(map[], map[], map[]));
    ws, steps := [w], [];
    assert IsPromptRun(ws, steps);
    hide IsPromptRun;
    ws, steps := TakePromptly(ws, steps, Others(AddDestination));
    ws, steps := TakePromptly(ws, steps, Jobs(Submit(request, None)));
  }

  lemma OneWorker(request: Request) returns (ws: seq<World>, steps: seq<Step>)
    ensures ws != [] && IsPromptRun(ws, steps)
    ensures OneDestination(Last(ws))
    ensures var w := Last(ws); 0 in w.workers && w.workers[0].phase == Generating && w.workers[0].job in w.store.jobs
  {
    hide IsPromptRun;
    ws, steps := OneJob(request);
    ws, steps := TakePromptly(ws, steps, Jobs(PublishJob(1)));
    ws, steps := TakePromptly(ws, steps, Jobs(StartAttempt(0, 1)));
  }

  lemma FirstDelivery(request: Request) returns (ws: seq<World>, steps: seq<Step>, d: Id)
    ensures ws != [] && IsPromptRun(ws, steps) && Waiting(Last(ws), d, 0)
  {
    hide IsPromptRun;
    ws, steps := OneWorker(request);
    var w := Last(ws);
    assert ListsActive(w.store.destinations, [0]);
    d := w.store.nextId + 1;
    assert Enqueue(w.store.deliveries, d, w.store.nextId, [0]) == map[d := NewDelivery(0, w.store.nextId)];
    ws, steps := TakePromptly(ws, steps, Jobs(CompleteAttempt(0, [0])));
  }

  lemma ClaimOnce(ws: seq<World>, steps: seq<Step>, d: Id, n: nat) returns (ws': seq<World>, steps': seq<Step>)
    requires ws != [] && IsPromptRun(ws, steps) && Waiting(Last(ws), d, n)
    ensures ws' != [] && IsPromptRun(ws', steps')
    ensures var w := Last(ws');
      && w.store.deliveries.Keys == {d}
      && w.store.deliveries[d].attempts == n + 1 && w.store.deliveries[d].status == Sending
      && w.store.deliveries[d].nextAttemptAt == Some(w.now + DELIVERY_LEASE)
      && w.senders == map[0 := Sender(d, w.store.deliveries[d])]
      && DeliveryLedgerOf(w.history.deliveries, d).retries == 0
  {
    hide IsPromptRun;
    ws', steps' := TakePromptly(ws, steps, Sends(PublishDelivery(d)));
    ws', steps' := TakePromptly(ws', steps', Sends(StartSend(0, d)));
  }

  /** A sender claims the delivery and dies, and the lease runs out. */
  lemma CrashOnce(ws: seq<World>, steps: seq<Step>, d: Id, n: nat) returns (ws': seq<World>, steps': seq<Step>)
    requires ws != [] && IsPromptRun(ws, steps) && Waiting(Last(ws), d, n)
    ensures ws' != [] && IsPromptRun(ws', steps') && Waiting(Last(ws'), d, n + 1)
  {
    hide IsPromptRun;
    ws', steps' := ClaimOnce(ws, steps, d, n);
    ws', steps' := TakePromptly(ws', steps', Sends(SenderDies(0)));
    ws', steps' := TakePromptly(ws', steps', Others(Tick(DELIVERY_LEASE)));
  }

  /** Timely senders and no operator, yet any number of attempts on one delivery. */
  lemma AttemptsHaveNoCeiling(request: Request, n: nat) returns (ws: seq<World>, steps: seq<Step>, d: Id)
    ensures ws != [] && IsPromptRun(ws, steps)
    ensures d in Last(ws).store.deliveries && Last(ws).store.deliveries[d].attempts == n
    ensures Untouched(Last(ws).history.deliveries, d)
  {
    ws, steps, d := Crash(request, n);
  }

  lemma {:induction false} Crash(request: Request, n: nat) returns (ws: seq<World>, steps: seq<Step>, d: Id)
    ensures ws != [] && IsPromptRun(ws, steps) && Waiting(Last(ws), d, n)
  {
    hide IsPromptRun, Waiting;
    if n == 0 {
      ws, steps, d := FirstDelivery(request);
    } else {
      ws, steps, d := Crash(request, n - 1);
      ws, steps := CrashOnce(ws, steps, d, n - 1);
    }
  }
}
