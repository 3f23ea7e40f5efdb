/** app/core/retention_service.py: reports past the cutoff go, unless a delivery of theirs is pending. */
module RetentionService {
  import opened Wrappers
  import opened Models
  import opened Transactions
  import opened Storage

  const DAY := 86_400 * SECOND

  /** Older than the cutoff, and none of its deliveries is pending. */
  ghost function Deletable(store: Store, cutoff: int): set<Id> {
    set r | r in store.reports && store.reports[r].createdAt < cutoff
      && forall d :: d in store.deliveries && store.deliveries[d].reportId == r ==>
           store.deliveries[d].status != Pending
  }

  lemma DeletableIsEligible(store: Store, cutoff: int)
    ensures Deletable(store, cutoff) == EligibleReports(store, cutoff)
  {
  }

  method EligibleIds(db: Database, cutoff: int) returns (ids: set<Id>)
    ensures ids == EligibleReports(db.Rows(), cutoff)
  {
    var pending := {};
    var rest := db.deliveries.Keys;
    while rest != {}
      invariant rest <= db.deliveries.Keys
      invariant forall r :: r in pending <==>
        exists d :: d in db.deliveries.Keys - rest && db.deliveries[d].reportId == r
          && db.deliveries[d].status == Pending
    {
      var d :| d in rest;
      ghost var before := pending;
      if db.deliveries[d].status == Pending {
        pending := pending + {db.deliveries[d].reportId};
      }
      forall r
        ensures r in pending <==>
          exists e :: e in db.deliveries.Keys - (rest - {d}) && db.deliveries[e].reportId == r
            && db.deliveries[e].status == Pending
      {
        if r in before {
          var e :| e in db.deliveries.Keys - rest && db.deliveries[e].reportId == r
            && db.deliveries[e].status == Pending;
          assert e in db.deliveries.Keys - (rest - {d});
        }
      }
      rest := rest - {d};
    }
    ids := set r | r in db.reports && db.reports[r].createdAt < cutoff && r !in pending;
    assert forall r :: r in pending <==> HasPendingDelivery(db.deliveries, r);
  }

  /**
   * `after` is `before` without the reports in `gone`: their deliveries go with them, jobs that referred to one of them
   * lose the reference, and nothing else changes.
   */
  ghost predicate IsDeletion(before: Store, after: Store, gone: set<Id>) {
    && after == before.(reports := after.reports, deliveries := after.deliveries, jobs := after.jobs)
    && (forall r :: r in after.reports <==> r in before.reports && r !in gone)
    && (forall r :: r in after.reports ==> after.reports[r] == before.reports[r])
    && (forall d :: d in after.deliveries <==> d in before.deliveries && before.deliveries[d].reportId !in gone)
    && (forall d :: d in after.deliveries ==> after.deliveries[d] == before.deliveries[d])
    && after.jobs.Keys == before.jobs.Keys
    && (forall j :: j in before.jobs ==>
          after.jobs[j] ==
            if before.jobs[j].reportId.Some? && before.jobs[j].reportId.value in gone
            then before.jobs[j].(reportId := None) else before.jobs[j])
  }

  /** Select, and delete what was selected; `others` is committed in between. Zero days or less turns it off. */
  method EnforceReportRetention(db: Database, now: int, retentionDays: int, others: Store) returns (deleted: nat)
    modifies db
    ensures retentionDays <= 0 ==> deleted == 0 && db.Rows() == old(db.Rows())
    ensures retentionDays > 0 ==>
      var ids := EligibleReports(old(db.Rows()), now - retentionDays * DAY);
      deleted == |ids| && db.Rows() == DeleteReports(others, ids)
    ensures retentionDays > 0 ==>
      var gone := Deletable(old(db.Rows()), now - retentionDays * 86_400_000_000);
      deleted == |gone| && IsDeletion(others, db.Rows(), gone)
  {
    if retentionDays <= 0 {
      return 0;
    }
    var ids := EligibleIds(db, now - retentionDays * DAY);
    hide EligibleReports, DeleteReports, IsDeletion, Deletable;
    DeletableIsEligible(db.Rows(), now - retentionDays * DAY);
    db.Meanwhile(others);
    if ids == {} {
      DeletingNothing(others);
      return 0;
    }
    DeleteCascade(db, ids);
    deleted := |ids|;
  }

  /** ON DELETE CASCADE for the deliveries, SET NULL for the jobs. */
  method DeleteCascade(db: Database, ids: set<Id>)
    modifies db
    ensures db.Rows() == DeleteReports(old(db.Rows()), ids)
    ensures IsDeletion(old(db.Rows()), db.Rows(), ids)
  {
    db.reports := db.reports - ids;
    db.deliveries := map d | d in db.deliveries && db.deliveries[d].reportId !in ids :: db.deliveries[d];
    db.jobs := map j | j in db.jobs :: ForgetReports(db.jobs[j], ids);
  }

  /** An operator deletes one report (app/api/routes/report.py), whatever state its deliveries are in. */
  method DeleteReport(db: Database, id: Id) returns (found: bool)
    modifies db
    ensures found <==> id in old(db.reports)
    ensures db.Rows() == if found then DeleteReports(old(db.Rows()), {id}) else old(db.Rows())
    ensures found ==> IsDeletion(old(db.Rows()), db.Rows(), {id})
  {
    found := id in db.reports;
    if found {
      DeleteCascade(db, {id});
    }
  }

  lemma DeletingNothing(store: Store)
    ensures DeleteReports(store, {}) == store && IsDeletion(store, store, {})
  {
    var after := DeleteReports(store, {});
    assert after.jobs == store.jobs;
    assert after.deliveries == store.deliveries;
    assert after.reports == store.reports;
  }

  predicate IsEligible(store: Store, cutoff: int, r: Id) {
    r in store.reports && store.reports[r].createdAt < cutoff && !HasPendingDelivery(store.deliveries, r)
  }

  /**
   * What retention takes from the rows it finds, `others`: exactly the reports that were old and without a pending
   * delivery when it selected, in `before`; and with a report exactly its deliveries, whatever they are by then.
   * Jobs stay, and lose only the reference. With nothing committed in between a pending delivery is safe.
   */
  lemma RetentionTakesExactly(before: Store, others: Store, cutoff: int, r: Id, d: Id, j: Id)
    requires r in others.reports && d in others.deliveries && j in others.jobs
    ensures var after := DeleteReports(others, EligibleReports(before, cutoff));
      && (r in after.reports <==> !IsEligible(before, cutoff, r))
      && (d in after.deliveries <==> !IsEligible(before, cutoff, others.deliveries[d].reportId))
      && (others == before && others.deliveries[d].status == Pending ==> d in after.deliveries)
      && j in after.jobs && after.jobs[j].(reportId := None) == others.jobs[j].(reportId := None)
      && (others.jobs[j].reportId == Some(r) ==> after.jobs[j].reportId == if r in after.reports then Some(r) else None)
  {
    if others.deliveries[d].status == Pending {
      assert HasPendingDelivery(others.deliveries, others.deliveries[d].reportId);
    }
  }
}
