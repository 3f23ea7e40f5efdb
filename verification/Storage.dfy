/** The database and the broker, as the services reach them. */
module Storage {
  import opened Wrappers
  import opened Models
  import opened Transactions

  /** The committed rows. Every method is one transaction or one query. */
  class Database {
    var jobs: map<Id, Job>
    var schedules: map<Id, Schedule>
    var reports: map<Id, Report>
    var destinations: map<Id, Destination>
    var deliveries: map<Id, Delivery>
    var nextId: Id

    constructor ()
      ensures Rows() == Store(map[], map[], map[], map[], map[], 0)
    {
      jobs, schedules, reports, destinations, deliveries, nextId := map[], map[], map[], map[], map[], 0;
    }

    ghost function Rows(): Store
      reads this
    {
      Store(jobs, schedules, reports, destinations, deliveries, nextId)
    }

    /** Other sessions commit. */
    method Meanwhile(others: Store)
      modifies this
      ensures Rows() == others
    {
      jobs, schedules, reports := others.jobs, others.schedules, others.reports;
      destinations, deliveries, nextId := others.destinations, others.deliveries, others.nextId;
    }

    // ----- Jobs -----

    method FindByKey(key: Option<string>) returns (found: Option<Id>)
      ensures found.Some? <==> key.Some? && exists id :: id in jobs && jobs[id].idempotencyKey == key
      ensures found.Some? ==> found.value in jobs && jobs[found.value].idempotencyKey == key
    {
      found := None;
      if key == None {
        return;
      }
      var ids := jobs.Keys;
      while ids != {}
        invariant ids <= jobs.Keys
        invariant forall id :: id in jobs.Keys - ids ==> jobs[id].idempotencyKey != key
      {
        var id :| id in ids;
        if jobs[id].idempotencyKey == key {
          return Some(id);
        }
        ids := ids - {id};
      }
    }

    /** Fails on the unique key, and changes nothing then. */
    method InsertManualJob(job: Job) returns (inserted: Option<Id>)
      requires job.scheduleId == None
      modifies this
      ensures inserted.None? <==>
        job.idempotencyKey.Some? && exists id :: id in old(jobs) && old(jobs)[id].idempotencyKey == job.idempotencyKey
      ensures inserted.None? ==> Rows() == old(Rows())
      ensures inserted.Some? ==>
        && inserted.value == old(nextId) && nextId == old(nextId) + 1 && jobs == old(jobs)[inserted.value := job]
        && Rows() == old(Rows()).(jobs := jobs, nextId := nextId)
    {
      var found := FindByKey(job.idempotencyKey);
      if found.Some? {
        return None;
      }
      inserted := Some(nextId);
      jobs, nextId := jobs[nextId := job], nextId + 1;
    }

    /** Fails on the unique (schedule, occurrence), and changes nothing then. */
    method InsertScheduledJob(job: Job) returns (inserted: Option<Id>)
      requires job.scheduleId.Some? && job.scheduledFor.Some? && job.idempotencyKey == None
      modifies this`jobs, this`nextId
      ensures inserted.None? <==>
        exists id :: id in old(jobs)
          && old(jobs)[id].scheduleId == job.scheduleId && old(jobs)[id].scheduledFor == job.scheduledFor
      ensures inserted.None? ==> Rows() == old(Rows())
      ensures inserted.Some? ==>
        && inserted.value == old(nextId) && nextId == old(nextId) + 1 && jobs == old(jobs)[inserted.value := job]
    {
      var ids := jobs.Keys;
      while ids != {}
        invariant ids <= jobs.Keys && jobs == old(jobs) && nextId == old(nextId)
        invariant forall id :: id in jobs.Keys - ids ==>
          !(jobs[id].scheduleId == job.scheduleId && jobs[id].scheduledFor == job.scheduledFor)
      {
        var id :| id in ids;
        if jobs[id].scheduleId == job.scheduleId && jobs[id].scheduledFor == job.scheduledFor {
          return None;
        }
        ids := ids - {id};
      }
      inserted := Some(nextId);
      jobs, nextId := jobs[nextId := job], nextId + 1;
    }

    /** UPDATE … WHERE status = queued RETURNING. */
    method ClaimJob(id: Id, now: int) returns (claimed: Option<Job>)
      modifies this`jobs
      ensures claimed.Some? <==> id in old(jobs) && old(jobs)[id].status == Queued
      ensures claimed.None? ==> jobs == old(jobs)
      ensures claimed.Some? ==>
        && claimed.value == old(jobs)[id].(
             status := Running, attempts := old(jobs)[id].attempts + 1, startedAt := Some(now), finishedAt := None)
        && jobs == old(jobs)[id := claimed.value]
    {
      if id !in jobs || jobs[id].status != Queued {
        return None;
      }
      var job := jobs[id];
      job := job.(status := Running, startedAt := Some(now), finishedAt := None, attempts := job.attempts + 1);
      jobs := jobs[id := job];
      claimed := Some(job);
    }

    // ----- Queries: every matching row once -----

    method ActiveDestinations() returns (ds: seq<Id>)
      ensures forall d :: d in ds <==> d in destinations && destinations[d].active
      ensures forall i, j :: 0 <= i < j < |ds| ==> ds[i] != ds[j]
    {
      ds := [];
      var ids := destinations.Keys;
      while ids != {}
        invariant ids <= destinations.Keys
        invariant forall d :: d in ds <==> d in destinations.Keys - ids && destinations[d].active
        invariant forall i, j :: 0 <= i < j < |ds| ==> ds[i] != ds[j]
      {
        var d :| d in ids;
        if destinations[d].active {
          ds := ds + [d];
        }
        ids := ids - {d};
      }
    }

    method SelectJobs(wanted: Job -> bool) returns (ids: seq<Id>)
      ensures forall id :: id in ids <==> id in jobs && wanted(jobs[id])
      ensures forall i, j :: 0 <= i < j < |ids| ==> ids[i] != ids[j]
    {
      ids := [];
      var rest := jobs.Keys;
      while rest != {}
        invariant rest <= jobs.Keys
        invariant forall id :: id in ids <==> id in jobs.Keys - rest && wanted(jobs[id])
        invariant forall i, j :: 0 <= i < j < |ids| ==> ids[i] != ids[j]
      {
        var id :| id in rest;
        if wanted(jobs[id]) {
          ids := ids + [id];
        }
        rest := rest - {id};
      }
    }

    method SelectActiveSchedules() returns (ids: seq<Id>)
      ensures forall s :: s in ids <==> s in schedules && schedules[s].active
      ensures forall i, j :: 0 <= i < j < |ids| ==> ids[i] != ids[j]
    {
      ids := [];
      var rest := schedules.Keys;
      while rest != {}
        invariant rest <= schedules.Keys
        invariant forall s :: s in ids <==> s in schedules.Keys - rest && schedules[s].active
        invariant forall i, j :: 0 <= i < j < |ids| ==> ids[i] != ids[j]
      {
        var s :| s in rest;
        if schedules[s].active {
          ids := ids + [s];
        }
        rest := rest - {s};
      }
    }

    method SelectDueDeliveries(now: int) returns (ids: seq<Id>)
      ensures forall d :: d in ids ==> d in deliveries
      ensures forall d :: d in deliveries ==>
        var row := deliveries[d];
        d in ids <==>
          || (row.status == Pending && (row.nextAttemptAt.None? || row.nextAttemptAt.value <= now))
          || (row.status == Sending && row.nextAttemptAt.Some? && row.nextAttemptAt.value <= now)
      ensures forall i, j :: 0 <= i < j < |ids| ==> ids[i] != ids[j]
    {
      ids := [];
      var rest := deliveries.Keys;
      while rest != {}
        invariant rest <= deliveries.Keys
        invariant forall d :: d in ids <==> d in deliveries.Keys - rest && DeliveryDue(deliveries[d], now)
        invariant forall i, j :: 0 <= i < j < |ids| ==> ids[i] != ids[j]
      {
        var d :| d in rest;
        if DeliveryDue(deliveries[d], now) {
          ids := ids + [d];
        }
        rest := rest - {d};
      }
    }
  }

  /** Messages not yet consumed. */
  class Broker {
    var jobMessages: multiset<Id>
    var deliveryMessages: multiset<Id>

    constructor ()
      ensures jobMessages == multiset{} && deliveryMessages == multiset{}
    {
      jobMessages, deliveryMessages := multiset{}, multiset{};
    }

    method PublishJob(id: Id)
      modifies this`jobMessages
      ensures jobMessages == old(jobMessages) + multiset{id}
    {
      jobMessages := jobMessages + multiset{id};
    }

    method PublishDelivery(id: Id)
      modifies this`deliveryMessages
      ensures deliveryMessages == old(deliveryMessages) + multiset{id}
    {
      deliveryMessages := deliveryMessages + multiset{id};
    }
  }
}
