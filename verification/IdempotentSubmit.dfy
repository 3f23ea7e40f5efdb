/**
The race of `create_report_job`: any number of callers with the same key, each
looking up, inserting and looking up again in transactions of its own, among
anything other sessions commit. Inserts fail only on the unique key.
*/
module IdempotentSubmit {
  import opened Wrappers
  import opened Models
  import opened Transactions
  import opened JobService

  datatype Phase = LookingUp | Inserting | Refetching | Returned(job: Id, created: bool)

  datatype Race = Race(store: Store, callers: map<Id, Phase>)

  /** A caller's next transaction, or a commit of another session. */
  datatype RaceStep = Act(caller: Id, request: Request) | Elsewhere(after: Store)

  /** The row a query by key finds. */
  ghost function JobWithKey(jobs: map<Id, Job>, key: Option<string>): (id: Id)
    requires KeyTaken(jobs, key)
    ensures id in jobs && jobs[id].idempotencyKey == key
  {
    var id :| id in jobs && jobs[id].idempotencyKey == key;
    id
  }

  predicate HasKey(jobs: map<Id, Job>, j: Id, key: Option<string>) {
    j in jobs && jobs[j].idempotencyKey == key
  }

  ghost predicate KeysFit(store: Store, key: Option<string>) {
    && (forall j :: j in store.jobs ==> j < store.nextId)
    && (key.Some? ==> forall j, k :: HasKey(store.jobs, j, key) && HasKey(store.jobs, k, key) ==> j == k)
  }

  /** Other sessions change rows as they like, but no row comes or goes under the key. */
  ghost predicate LeavesKey(before: Store, after: Store, key: Option<string>) {
    && KeysFit(after, key) && before.nextId <= after.nextId && KeysStay(before.jobs, after.jobs)
    && (forall j :: j in after.jobs && j !in before.jobs ==> after.jobs[j].idempotencyKey != key)
  }

  ghost predicate CanStep(r: Race, key: Option<string>, step: RaceStep) {
    match step
    case Act(caller, _) => caller in r.callers && !r.callers[caller].Returned?
    case Elsewhere(after) => LeavesKey(r.store, after, key)
  }

  ghost function DoAct(r: Race, key: Option<string>, caller: Id, request: Request): Race
    requires caller in r.callers
  {
    var taken := KeyTaken(r.store.jobs, key);
    match r.callers[caller]
    case LookingUp =>
      if IsGiven(key) && taken then
        r.(callers := r.callers[caller := Returned(JobWithKey(r.store.jobs, key), false)])
      else r.(callers := r.callers[caller := Inserting])
    case Inserting =>
      if taken then r.(callers := r.callers[caller := Refetching])
      else
        Race(InsertJob(r.store, NewJob(request, key, None, None)),
             r.callers[caller := Returned(r.store.nextId, true)])
    case Refetching =>
      if taken then r.(callers := r.callers[caller := Returned(JobWithKey(r.store.jobs, key), false)]) else r
    case Returned(_, _) => r
  }

  ghost function DoStep(r: Race, key: Option<string>, step: RaceStep): Race
    requires CanStep(r, key, step)
  {
    match step
    case Act(caller, request) => DoAct(r, key, caller, request)
    case Elsewhere(after) => r.(store := after)
  }

  // ----- The invariant -----

  predicate Created(r: Race, c: Id) {
    c in r.callers && r.callers[c].Returned? && r.callers[c].created
  }

  ghost predicate AnyCreated(r: Race) {
    exists c :: Created(r, c)
  }

  /** What caller `c` knows is so. */
  predicate Right(r: Race, key: Option<string>, c: Id)
    requires c in r.callers
  {
    match r.callers[c]
    case Returned(j, _) => j in r.store.jobs && r.store.jobs[j].idempotencyKey == key
    case Refetching => KeyTaken(r.store.jobs, key)
    case _ => true
  }

  /** `taken` says whether the key was taken at the start. */
  ghost predicate Inv(r: Race, key: Option<string>, taken: bool) {
    && KeysFit(r.store, key)
    && (forall c :: c in r.callers ==> Right(r, key, c))
    && (forall c, d :: Created(r, c) && Created(r, d) ==> c == d)
    && (KeyTaken(r.store.jobs, key) <==> taken || AnyCreated(r))
    && !(taken && AnyCreated(r))
  }

  lemma ElsewhereKeeps(r: Race, key: Option<string>, taken: bool, after: Store)
    requires key.Some? && Inv(r, key, taken) && LeavesKey(r.store, after, key)
    ensures Inv(r.(store := after), key, taken)
  {
    var r' := r.(store := after);
    assert KeyTaken(after.jobs, key) <==> KeyTaken(r.store.jobs, key) by {
      if KeyTaken(r.store.jobs, key) {
        assert after.jobs[JobWithKey(r.store.jobs, key)].idempotencyKey == key;
      }
    }
    forall c | c in r'.callers
      ensures Right(r', key, c)
    {
      assert Right(r, key, c);
    }
    assert forall c :: Created(r', c) <==> Created(r, c);
    assert AnyCreated(r') <==> AnyCreated(r);
  }

  /** A caller moves on without writing. */
  lemma ReadingKeeps(r: Race, key: Option<string>, taken: bool, caller: Id, phase: Phase)
    requires Inv(r, key, taken) && caller in r.callers && !r.callers[caller].Returned?
    requires phase.Returned? ==> !phase.created
    requires Right(r.(callers := r.callers[caller := phase]), key, caller)
    ensures Inv(r.(callers := r.callers[caller := phase]), key, taken)
  {
    var r' := r.(callers := r.callers[caller := phase]);
    forall c | c in r'.callers
      ensures Right(r', key, c)
    {
      assert c != caller ==> Right(r, key, c);
    }
    assert forall c :: Created(r', c) <==> Created(r, c);
    assert AnyCreated(r') <==> AnyCreated(r);
  }

  lemma InsertKeeps(r: Race, key: Option<string>, taken: bool, caller: Id, request: Request)
    requires key.Some? && Inv(r, key, taken) && caller in r.callers && !KeyTaken(r.store.jobs, key)
    ensures Inv(Race(InsertJob(r.store, NewJob(request, key, None, None)),
                     r.callers[caller := Returned(r.store.nextId, true)]), key, taken)
  {
    var r' := Race(InsertJob(r.store, NewJob(request, key, None, None)),
                   r.callers[caller := Returned(r.store.nextId, true)]);
    assert r'.store.jobs[r.store.nextId].idempotencyKey == key && Created(r', caller);
    forall c | c in r'.callers
      ensures Right(r', key, c)
    {
      assert c != caller ==> Right(r, key, c);
    }
    forall c | Created(r', c)
      ensures c == caller
    {
      assert c != caller ==> Created(r, c);
    }
  }

  lemma StepKeepsInv(r: Race, key: Option<string>, taken: bool, step: RaceStep)
    requires key.Some? && Inv(r, key, taken) && CanStep(r, key, step)
    ensures Inv(DoStep(r, key, step), key, taken)
  {
    match step
    case Elsewhere(after) =>
      ElsewhereKeeps(r, key, taken, after);
    case Act(caller, request) =>
      assert Right(r, key, caller);
      hide Inv;
      var isTaken := KeyTaken(r.store.jobs, key);
      match r.callers[caller] {
        case Inserting =>
          if isTaken {
            ReadingKeeps(r, key, taken, caller, Refetching);
          } else {
            InsertKeeps(r, key, taken, caller, request);
          }
        case LookingUp =>
          if IsGiven(key) && isTaken {
            ReadingKeeps(r, key, taken, caller, Returned(JobWithKey(r.store.jobs, key), false));
          } else {
            ReadingKeeps(r, key, taken, caller, Inserting);
          }
        case Refetching =>
          ReadingKeeps(r, key, taken, caller, Returned(JobWithKey(r.store.jobs, key), false));
      }
  }

  // ----- Runs -----

  ghost predicate IsRace(rs: seq<Race>, steps: seq<RaceStep>, key: Option<string>) {
    && |rs| == |steps| + 1
    && (forall i :: 0 <= i < |steps| ==> CanStep(rs[i], key, steps[i]) && rs[i + 1] == DoStep(rs[i], key, steps[i]))
    && KeysFit(rs[0].store, key) && (forall c :: c in rs[0].callers ==> rs[0].callers[c] == LookingUp)
  }

  lemma {:induction false} RaceKeepsInv(rs: seq<Race>, steps: seq<RaceStep>, key: Option<string>, n: nat)
    requires key.Some? && IsRace(rs, steps, key) && n < |rs|
    ensures Inv(rs[n], key, KeyTaken(rs[0].store.jobs, key))
  {
    if n > 0 {
      RaceKeepsInv(rs, steps, key, n - 1);
      assert rs[n] == DoStep(rs[n - 1], key, steps[n - 1]);
      StepKeepsInv(rs[n - 1], key, KeyTaken(rs[0].store.jobs, key), steps[n - 1]);
    }
  }

  /**
   * Whatever the interleaving: all callers that have returned, returned the one job under the key; at most one
   * created it, exactly one if the key was free at the start, and none otherwise.
   */
  lemma CallersAgree(rs: seq<Race>, steps: seq<RaceStep>, key: Option<string>, n: nat, c: Id, d: Id)
    requires key.Some? && IsRace(rs, steps, key) && n < |rs|
    requires c in rs[n].callers && rs[n].callers[c].Returned? && d in rs[n].callers && rs[n].callers[d].Returned?
    ensures rs[n].callers[c].job == rs[n].callers[d].job
    ensures rs[n].callers[c].job in rs[n].store.jobs && rs[n].store.jobs[rs[n].callers[c].job].idempotencyKey == key
    ensures Created(rs[n], c) && Created(rs[n], d) ==> c == d
    ensures AnyCreated(rs[n]) <==> !KeyTaken(rs[0].store.jobs, key)
  {
    RaceKeepsInv(rs, steps, key, n);
    assert Right(rs[n], key, c) && Right(rs[n], key, d);
    assert HasKey(rs[n].store.jobs, rs[n].callers[c].job, key) && HasKey(rs[n].store.jobs, rs[n].callers[d].job, key);
    assert KeyTaken(rs[n].store.jobs, key);
  }

  /** A caller writes nothing but one new row, for its own request, and not even that when the key is taken. */
  lemma CallersOnlyAdd(r: Race, key: Option<string>, caller: Id, request: Request)
    requires KeysFit(r.store, key) && caller in r.callers
    ensures Grows(r.store, DoAct(r, key, caller, request).store)
    ensures KeyTaken(r.store.jobs, key) ==> DoAct(r, key, caller, request).store == r.store
    ensures var jobs := DoAct(r, key, caller, request).store.jobs;
      forall j :: j in jobs && j !in r.store.jobs ==>
        && jobs[j] == Job(status := Queued, request := request, idempotencyKey := key, scheduleId := None,
                          scheduledFor := None, attempts := 0, startedAt := None, finishedAt := None,
                          errorReason := None, reportId := None)
        && DoAct(r, key, caller, request).callers[caller] == Returned(j, true)
    ensures key == Some("") && r.callers[caller].LookingUp? ==>
      DoAct(r, key, caller, request).callers[caller] == Inserting
  {
  }
}
