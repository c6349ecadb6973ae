/** The bookkeeping of allocations: reconciled amounts are what the live reconciliations allocate. */
module Allocations {
  import opened Sums
  import opened Ledger
  import opened Tables
  import opened Steps
  import opened Invariants

  function To(l: LineId): Allocation -> int {
    (a: Allocation) => if a.line == l then a.amount else 0
  }

  /** What one reconciliation allocates to a line */
  function AllocatedBy(items: seq<Allocation>, l: LineId): int {
    SumSeq(items, To(l))
  }

  ghost function Share(reconciliations: map<Id, Reconciliation>, l: LineId): Id -> int {
    (r: Id) => if r in reconciliations then AllocatedBy(reconciliations[r].items, l) else 0
  }

  /** What all live reconciliations allocate to a line */
  ghost function AllocatedTo(reconciliations: map<Id, Reconciliation>, l: LineId): int {
    SumSet(reconciliations.Keys, Share(reconciliations, l))
  }

  ghost predicate SoundReconciliation(db: Db, r: Reconciliation) {
    && (forall i :: 0 <= i < |r.items| ==> r.items[i].amount > 0)
    && (r.fxMove.Some? ==> IsPosted(db, r.fxMove.value))
  }

  /** A line carries an allocation only if it is posted, and never more than its capacity. */
  ghost predicate WithinCapacity(db: Db, l: LineId) {
    Reconciled(db, l) > 0 ==> HasLine(db, l) && IsPosted(db, l.move) && Reconciled(db, l) <= Capacity(LineAt(db, l))
  }

  ghost predicate SoundAllocations(db: Db) {
    && (forall r :: r in db.reconciliations ==> SoundReconciliation(db, db.reconciliations[r]))
    && (forall l :: Reconciled(db, l) == AllocatedTo(db.reconciliations, l))
    && (forall l :: WithinCapacity(db, l))
  }

  /** Transactions that leave the two tables alone keep the bookkeeping. */
  lemma AllocationsFramed(db: Db, after: Db)
    requires SoundAllocations(db) && Extends(db, after)
    requires after.reconciled == db.reconciled && after.reconciliations == db.reconciliations
    ensures SoundAllocations(after)
  {
    forall l
      ensures WithinCapacity(after, l)
    {
      assert WithinCapacity(db, l);
    }
    forall r | r in after.reconciliations
      ensures SoundReconciliation(after, after.reconciliations[r])
    {
      assert SoundReconciliation(db, db.reconciliations[r]);
    }
  }

  lemma {:induction false} AllocateAdds(reconciled: map<LineId, nat>, items: seq<Allocation>, l: LineId)
    requires forall i :: 0 <= i < |items| ==> items[i].amount > 0
    ensures ValueAt(Allocate(reconciled, items), l) == ValueAt(reconciled, l) + AllocatedBy(items, l)
  {
    if items != [] {
      AllocateAdds(reconciled, items[..|items| - 1], l);
    }
  }

  /** Releasing what is allocated succeeds and subtracts it: the inconsistent branch is not taken. */
  lemma {:induction false} ReleaseSubtracts(reconciled: map<LineId, nat>, items: seq<Allocation>)
    requires forall i :: 0 <= i < |items| ==> items[i].amount > 0
    requires forall l :: ValueAt(reconciled, l) >= AllocatedBy(items, l)
    ensures Release(reconciled, items).Ok?
    ensures forall l :: ValueAt(Release(reconciled, items).value, l) == ValueAt(reconciled, l) - AllocatedBy(items, l)
  {
    if items != [] {
      var n := |items| - 1;
      forall l
        ensures AllocatedBy(items, l) == AllocatedBy(items[..n], l) + To(l)(items[n])
      {
      }
      ReleaseSubtracts(reconciled, items[..n]);
      var before, l := Release(reconciled, items[..n]).value, items[n].line;
      assert ValueAt(before, l) == ValueAt(reconciled, l) - AllocatedBy(items[..n], l) >= items[n].amount;
    }
  }

  lemma {:induction false} AllocatedByNonNegative(items: seq<Allocation>, l: LineId)
    requires forall i :: 0 <= i < |items| ==> items[i].amount > 0
    ensures AllocatedBy(items, l) >= 0
  {
    if items != [] {
      AllocatedByNonNegative(items[..|items| - 1], l);
    }
  }

  lemma {:induction false} AllocatedByDistinct(items: seq<Allocation>, l: LineId)
    requires forall i, j :: 0 <= i < j < |items| ==> items[i].line != items[j].line
    ensures forall i :: 0 <= i < |items| && items[i].line == l ==> AllocatedBy(items, l) == items[i].amount
    ensures (forall i :: 0 <= i < |items| ==> items[i].line != l) ==> AllocatedBy(items, l) == 0
  {
    if items != [] {
      AllocatedByDistinct(items[..|items| - 1], l);
    }
  }

  lemma AllocatedToInserted(reconciliations: map<Id, Reconciliation>, id: Id, r: Reconciliation, l: LineId)
    requires id !in reconciliations
    ensures AllocatedTo(reconciliations[id := r], l) == AllocatedTo(reconciliations, l) + AllocatedBy(r.items, l)
  {
    var after := reconciliations[id := r];
    assert after.Keys == reconciliations.Keys + {id};
    SumSetAdd(reconciliations.Keys, id, Share(after, l));
    SumSetSame(reconciliations.Keys, Share(after, l), Share(reconciliations, l));
  }

  lemma AllocatedToRemoved(reconciliations: map<Id, Reconciliation>, id: Id, l: LineId)
    requires id in reconciliations
    ensures AllocatedTo(reconciliations - {id}, l) == AllocatedTo(reconciliations, l) - AllocatedBy(reconciliations[id].items, l)
  {
    var after := reconciliations - {id};
    assert after.Keys == reconciliations.Keys - {id};
    SumSetPick(reconciliations.Keys, id, Share(reconciliations, l));
    SumSetSame(after.Keys, Share(after, l), Share(reconciliations, l));
  }

  lemma AllocatedAtLeast(db: Db, id: Id, l: LineId)
    requires SoundAllocations(db) && id in db.reconciliations
    ensures Reconciled(db, l) >= AllocatedBy(db.reconciliations[id].items, l)
  {
    forall r | r in db.reconciliations.Keys
      ensures Share(db.reconciliations, l)(r) >= 0
    {
      assert SoundReconciliation(db, db.reconciliations[r]);
      AllocatedByNonNegative(db.reconciliations[r].items, l);
    }
    SumSetNonNegative(db.reconciliations.Keys, Share(db.reconciliations, l));
    assert Share(db.reconciliations, l)(id) == AllocatedBy(db.reconciliations[id].items, l);
  }

  /** In a sound state the items of a live reconciliation can always be released. */
  lemma LiveReconciliationReleases(db: Db, id: Id)
    requires SoundAllocations(db) && id in db.reconciliations
    ensures Release(db.reconciled, db.reconciliations[id].items).Ok?
    ensures forall l :: ValueAt(Release(db.reconciled, db.reconciliations[id].items).value, l)
                        == Reconciled(db, l) - AllocatedBy(db.reconciliations[id].items, l)
  {
    assert SoundReconciliation(db, db.reconciliations[id]);
    forall l
      ensures ValueAt(db.reconciled, l) >= AllocatedBy(db.reconciliations[id].items, l)
    {
      AllocatedAtLeast(db, id, l);
    }
    ReleaseSubtracts(db.reconciled, db.reconciliations[id].items);
  }

  /** The checks of ReconcileMoveLines leave every line within its capacity. */
  lemma CheckedWithinCapacity(db: Db, date: Date, account: Id, currency: string, items: seq<Allocation>, l: LineId)
    requires SoundAllocations(db)
    requires CheckAllocations(db, date, account, currency, items, |items|).Ok?
    ensures Reconciled(db, l) + AllocatedBy(items, l) == ValueAt(Allocate(db.reconciled, items), l)
    ensures ValueAt(Allocate(db.reconciled, items), l) > 0 ==>
              HasLine(db, l) && IsPosted(db, l.move) && ValueAt(Allocate(db.reconciled, items), l) <= Capacity(LineAt(db, l))
  {
    hide CheckAllocations, CheckAllocation;
    AllocateAdds(db.reconciled, items, l);
    CheckedDistinct(db, date, account, currency, items);
    AllocatedByDistinct(items, l);
    assert WithinCapacity(db, l);
    if i :| 0 <= i < |items| && items[i].line == l {
      CheckedItem(db, date, account, currency, items, i);
    }
  }

  lemma CheckedItem(db: Db, date: Date, account: Id, currency: string, items: seq<Allocation>, i: nat)
    requires CheckAllocations(db, date, account, currency, items, |items|).Ok? && i < |items|
    ensures var l := items[i].line;
            HasLine(db, l) && IsPosted(db, l.move) && items[i].amount <= Capacity(LineAt(db, l)) - Reconciled(db, l)
  {
    assert CheckAllocation(db, date, account, currency, items, i).Ok?;
  }

  lemma CheckedDistinct(db: Db, date: Date, account: Id, currency: string, items: seq<Allocation>)
    requires CheckAllocations(db, date, account, currency, items, |items|).Ok?
    ensures forall i, j :: 0 <= i < j < |items| ==> items[i].line != items[j].line
  {
    forall i, j | 0 <= i < j < |items|
      ensures items[i].line != items[j].line
    {
      assert CheckAllocation(db, date, account, currency, items, j).Ok?;
      assert items[..j][i] == items[i];
      assert !Mentions(items[..j], items[j].line);
    }
  }
}
