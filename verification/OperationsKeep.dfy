/** Reconciliations, periods, master data and the year close keep the invariant and extend the state. */
module OperationsKeep {
  import opened Sums
  import opened Ledger
  import opened Tables
  import opened Steps
  import opened Invariants
  import opened Allocations
  import opened Hierarchy
  import opened PostingKeeps

  // Reconciliation.

  lemma FxLinesBalanced(account: Id, realized: Amount, date: Date, config: Config)
    requires realized != 0
    ensures Balanced(FxLines(account, realized, date, config))
    ensures forall i :: 0 <= i < 2 ==> FxLines(account, realized, date, config)[i].date == date
  {
    var lines := FxLines(account, realized, date, config);
    assert lines[..1][..0] == [] && lines[..1] == [lines[0]] && lines == [lines[0]] + [lines[1]];
    assert SumSeq(lines[..1], Net) == Net(lines[0]);
  }

  lemma PostFxMoveKeeps(h: Hashers, db: Db, account: Id, realized: Amount, date: Date, found: Option<Id>, actor: Id, id: Id,
                        now: nat, config: Config)
    requires Core(h, db) && PostFxMove(h, db, account, realized, date, found, actor, id, now, config).Ok?
    ensures var after := PostFxMove(h, db, account, realized, date, found, actor, id, now, config).value;
            Core(h, after) && Extends(db, after) && IsPosted(after, id)
            && SameAllocations(db, after)
  {
    hide Core, Extends;
    FxLinesBalanced(account, realized, date, config);
    var e := Entry(config.fxJournal, found.value, date, None, Some(actor), Some(actor), now,
                   FxLines(account, realized, date, config));
    PostedAndLogged(h, db, id, e, "account_move", id, "POST", actor, now);
  }

  lemma SettleFxKeeps(h: Hashers, db: Db, account: Id, realized: Amount, date: Date, found: Option<Id>, actor: Id, fxId: Id, now: nat)
    requires Core(h, db) && SettleFx(h, db, account, realized, date, found, actor, fxId, now).Ok?
    ensures var after := SettleFx(h, db, account, realized, date, found, actor, fxId, now).value;
            Core(h, after) && Extends(db, after) && (realized != 0 ==> IsPosted(after, fxId))
            && SameAllocations(db, after)
  {
    if realized != 0 {
      PostFxMoveKeeps(h, db, account, realized, date, found, actor, fxId, now, db.config.value);
    }
  }

  lemma UndoFxKeeps(h: Hashers, db: Db, fxMove: Option<Id>, reversalId: Id, date: Date, found: Option<Id>, actor: Id, now: nat)
    requires Core(h, db) && UndoFx(h, db, fxMove, reversalId, date, found, actor, now).Ok?
    ensures var after := UndoFx(h, db, fxMove, reversalId, date, found, actor, now).value;
            Core(h, after) && Extends(db, after)
            && SameAllocations(db, after)
  {
    if fxMove.Some? {
      ReverseFxMoveKeeps(h, db, fxMove.value, reversalId, date, found, actor, now);
    }
  }

  lemma PostedStays(db: Db, after: Db, r: Reconciliation)
    requires Extends(db, after) && SoundReconciliation(db, r)
    ensures SoundReconciliation(after, r)
  {
  }

  lemma LineStays(db: Db, after: Db, l: LineId)
    requires Extends(db, after)
    ensures HasLine(db, l) && IsPosted(db, l.move) ==> HasLine(after, l) && IsPosted(after, l.move) && LineAt(after, l) == LineAt(db, l)
  {
  }

  lemma EnteredSound(db: Db, after: Db, id: Id, r: Reconciliation, date: Date, account: Id, currency: string)
    requires SoundAllocations(db) && id !in db.reconciliations
    requires CheckAllocations(db, date, account, currency, r.items, |r.items|).Ok?
    requires Extends(db, after) && after.reconciled == Allocate(db.reconciled, r.items)
    requires after.reconciliations == db.reconciliations[id := r]
    requires r.fxMove.Some? ==> IsPosted(after, r.fxMove.value)
    ensures SoundAllocations(after)
  {
    hide CheckAllocations, Capacity, Extends;
    forall l
      ensures Reconciled(after, l) == AllocatedTo(after.reconciliations, l) && WithinCapacity(after, l)
    {
      CheckedWithinCapacity(db, date, account, currency, r.items, l);
      AllocatedToInserted(db.reconciliations, id, r, l);
      assert WithinCapacity(db, l) && Reconciled(db, l) == AllocatedTo(db.reconciliations, l);
      LineStays(db, after, l);
    }
    forall k | k in after.reconciliations
      ensures SoundReconciliation(after, after.reconciliations[k])
    {
      if k != id {
        assert SoundReconciliation(db, db.reconciliations[k]);
        PostedStays(db, after, db.reconciliations[k]);
      }
    }
  }

  lemma CoreIgnoresAllocations(h: Hashers, db: Db, after: Db)
    requires Core(h, db) && after == db.(reconciled := after.reconciled, reconciliations := after.reconciliations)
    ensures Core(h, after) && Extends(db, after)
  {
    hide GapFree, Chained, SoundReversals, SoundMoves, SoundHierarchy, SoundYears;
    EventsMoved(db, after);
    YearsMoved(db, after);
    CoreMoved(h, db, after);
  }

  /** settled is the state of a reconciliation before its audit row. */
  ghost predicate Settles(h: Hashers, db: Db, id: Id, fxId: Id, date: Date, found: Option<Id>, actor: Id, account: Id, currency: string,
                          items: seq<Allocation>, now: nat, t: Totals, settled: Db)
  {
    && CheckReconcile(db, id, date, actor, account, currency, items) == Ok(t)
    && var r := NewReconciliation(db, fxId, date, t, items);
       SettleFx(h, Entered(db, id, r), r.account, t.debitFunctional - t.creditFunctional, date, found, actor, fxId, now) == Ok(settled)
  }

  lemma SettledSound(h: Hashers, db: Db, id: Id, fxId: Id, date: Date, found: Option<Id>, actor: Id, account: Id,
                     currency: string, items: seq<Allocation>,
                     now: nat, t: Totals, settled: Db)
    requires Inv(h, db) && Settles(h, db, id, fxId, date, found, actor, account, currency, items, now, t, settled)
    ensures Inv(h, settled) && Extends(db, settled)
  {
    hide Core, Extends, CheckAllocations, SettleFx, Allocate, SoundAllocations;
    var r := NewReconciliation(db, fxId, date, t, items);
    var entered := Entered(db, id, r);
    CoreIgnoresAllocations(h, db, entered);
    SettleFxKeeps(h, entered, r.account, t.debitFunctional - t.creditFunctional, date, found, actor, fxId, now);
    ExtendsTransitive(db, entered, settled);
    EnteredSound(db, settled, id, r, date, account, currency);
  }

  lemma ReconcileIs(h: Hashers, db: Db, id: Id, fxId: Id, date: Date, found: Option<Id>, actor: Id, account: Id,
                    currency: string, items: seq<Allocation>, now: nat)
    returns (t: Totals, settled: Db)
    requires Reconcile(h, db, id, fxId, date, found, actor, account, currency, items, now).Ok?
    ensures Settles(h, db, id, fxId, date, found, actor, account, currency, items, now, t, settled)
    ensures Reconcile(h, db, id, fxId, date, found, actor, account, currency, items, now).value
            == Logged(h, settled, "account_reconciliation", id, "RECONCILE", actor, "", now)
  {
    hide CheckAllocations, PostFxMove, Allocate;
    t := CheckReconcile(db, id, date, actor, account, currency, items).value;
    var r := NewReconciliation(db, fxId, date, t, items);
    settled := SettleFx(h, Entered(db, id, r), r.account, t.debitFunctional - t.creditFunctional, date, found, actor, fxId, now).value;
  }

  lemma ReconcileKeeps(h: Hashers, db: Db, id: Id, fxId: Id, date: Date, found: Option<Id>, actor: Id, account: Id,
                       currency: string, items: seq<Allocation>, now: nat)
    requires Inv(h, db) && Reconcile(h, db, id, fxId, date, found, actor, account, currency, items, now).Ok?
    ensures Inv(h, Reconcile(h, db, id, fxId, date, found, actor, account, currency, items, now).value)
    ensures Extends(db, Reconcile(h, db, id, fxId, date, found, actor, account, currency, items, now).value)
  {
    hide *;
    var t, settled := ReconcileIs(h, db, id, fxId, date, found, actor, account, currency, items, now);
    SettledSound(h, db, id, fxId, date, found, actor, account, currency, items, now, t, settled);
    LoggedAfter(h, db, settled, "account_reconciliation", id, "RECONCILE", actor, now);
  }

  lemma LoggedAfter(h: Hashers, base: Db, db: Db, entityType: string, entity: Id, action: string, actor: Id, at: int)
    requires Inv(h, db) && Extends(base, db) && '|' !in action
    ensures Inv(h, Logged(h, db, entityType, entity, action, actor, "", at))
    ensures Extends(base, Logged(h, db, entityType, entity, action, actor, "", at))
  {
    LoggedKeepsInv(h, db, entityType, entity, action, actor, at);
    ExtendsTransitive(base, db, Logged(h, db, entityType, entity, action, actor, "", at));
  }

  lemma LoggedKeepsInv(h: Hashers, db: Db, entityType: string, entity: Id, action: string, actor: Id, at: int)
    requires Inv(h, db) && '|' !in action
    ensures Inv(h, Logged(h, db, entityType, entity, action, actor, "", at))
    ensures Extends(db, Logged(h, db, entityType, entity, action, actor, "", at))
  {
    LoggedKeepsCore(h, db, entityType, entity, action, actor, "", at);
    AllocationsFramed(db, Logged(h, db, entityType, entity, action, actor, "", at));
  }

  lemma ReleasedSound(db: Db, after: Db, id: Id)
    requires SoundAllocations(db) && id in db.reconciliations && Extends(db, after)
    requires Release(db.reconciled, db.reconciliations[id].items) == Ok(after.reconciled)
    requires after.reconciliations == db.reconciliations - {id}
    ensures SoundAllocations(after)
  {
    LiveReconciliationReleases(db, id);
    forall l
      ensures Reconciled(after, l) == AllocatedTo(after.reconciliations, l) && WithinCapacity(after, l)
    {
      AllocatedToRemoved(db.reconciliations, id, l);
      assert WithinCapacity(db, l) && Reconciled(db, l) == AllocatedTo(db.reconciliations, l);
      assert SoundReconciliation(db, db.reconciliations[id]);
      AllocatedByNonNegative(db.reconciliations[id].items, l);
    }
    forall k | k in after.reconciliations
      ensures SoundReconciliation(after, after.reconciliations[k])
    {
      assert SoundReconciliation(db, db.reconciliations[k]);
    }
  }

  lemma UnreconcileKeeps(h: Hashers, db: Db, id: Id, reversalId: Id, date: Date, found: Option<Id>, actor: Id, now: nat)
    requires Inv(h, db) && Unreconcile(h, db, id, reversalId, date, found, actor, now).Ok?
    ensures Inv(h, Unreconcile(h, db, id, reversalId, date, found, actor, now).value)
    ensures Extends(db, Unreconcile(h, db, id, reversalId, date, found, actor, now).value)
  {
    var r := db.reconciliations[id];
    var restored := db.(reconciled := Release(db.reconciled, r.items).value);
    var settled := UndoFx(h, restored, r.fxMove, reversalId, date, found, actor, now).value;
    var logged := Logged(h, settled, "account_reconciliation", id, "UNRECONCILE", actor, "", now);
    assert Unreconcile(h, db, id, reversalId, date, found, actor, now) == Ok(Dropped(logged, id));
    RestoredCore(h, db, restored, r.fxMove, reversalId, date, found, actor, now);
    DroppedCore(h, db, settled, id, actor, now);
    ReleasedSound(db, Dropped(logged, id), id);
  }

  lemma RestoredCore(h: Hashers, db: Db, restored: Db, fxMove: Option<Id>, reversalId: Id, date: Date, found: Option<Id>,
                     actor: Id, now: nat)
    requires Core(h, db) && restored == db.(reconciled := restored.reconciled)
    requires UndoFx(h, restored, fxMove, reversalId, date, found, actor, now).Ok?
    ensures var settled := UndoFx(h, restored, fxMove, reversalId, date, found, actor, now).value;
            Core(h, settled) && Extends(db, settled) && SameAllocations(restored, settled)
  {
    CoreIgnoresAllocations(h, db, restored);
    UndoFxKeeps(h, restored, fxMove, reversalId, date, found, actor, now);
    ExtendsTransitive(db, restored, UndoFx(h, restored, fxMove, reversalId, date, found, actor, now).value);
  }

  lemma DroppedCore(h: Hashers, base: Db, db: Db, id: Id, actor: Id, now: nat)
    requires Core(h, db) && Extends(base, db)
    ensures var after := Dropped(Logged(h, db, "account_reconciliation", id, "UNRECONCILE", actor, "", now), id);
            Core(h, after) && Extends(base, after)
  {
    var logged := Logged(h, db, "account_reconciliation", id, "UNRECONCILE", actor, "", now);
    LoggedKeepsCore(h, db, "account_reconciliation", id, "UNRECONCILE", actor, "", now);
    CoreIgnoresAllocations(h, logged, Dropped(logged, id));
    ExtendsTransitive(db, logged, Dropped(logged, id));
    ExtendsTransitive(base, db, Dropped(logged, id));
  }

  // Periods and years.

  /** What a change of period state may touch: a period that is not hard closed, in a year that is not closed. */
  ghost predicate PeriodChanges(db: Db, p: Id, state: PeriodState, after: Db) {
    && p in db.periods && db.periods[p].state != HardClosed
    && db.periods[p].year in db.years && !db.years[db.periods[p].year].closed
    && after == WithPeriodState(db, p, state)
  }

  lemma PeriodStateIs(db: Db, p: Id, state: PeriodState, after: Db)
    requires SetPeriodState(db, p, state) == Ok(after)
    ensures after == db || PeriodChanges(db, p, state, after)
  {
  }

  lemma PeriodStateHardClosed(db: Db, p: Id, state: PeriodState, after: Db)
    requires ClosedIsHardClosed(db) && PeriodChanges(db, p, state, after)
    ensures ClosedIsHardClosed(after)
  {
    forall y | y in after.years && after.years[y].closed
      ensures AllHardClosed(after, y)
    {
      assert AllHardClosed(db, y);
      YearUntouched(db, after, y);
    }
  }

  lemma PeriodStateKeys(db: Db, p: Id, state: PeriodState, after: Db)
    requires YearKeys(db) && PeriodChanges(db, p, state, after)
    ensures YearKeys(after)
  {
    forall q, r | q in after.periods && r in after.periods && SamePeriodKey(after.periods[q], after.periods[r])
      ensures q == r
    {
      assert SamePeriodKey(db.periods[q], db.periods[r]);
    }
  }

  lemma PeriodStateExtends(db: Db, p: Id, state: PeriodState, after: Db)
    requires PeriodChanges(db, p, state, after)
    ensures Extends(db, after) && SameMoves(db, after)
  {
  }

  lemma PeriodStateKeeps(h: Hashers, db: Db, p: Id, state: PeriodState, after: Db)
    requires Inv(h, db) && SetPeriodState(db, p, state) == Ok(after)
    ensures Inv(h, after) && Extends(db, after)
  {
    PeriodStateIs(db, p, state, after);
    if after != db {
      PeriodStateHardClosed(db, p, state, after);
      PeriodStateKeys(db, p, state, after);
      PeriodStateExtends(db, p, state, after);
      hide SetPeriodState, SameMoves, Extends, GapFree, Chained, SoundReversals, SoundMoves, SoundHierarchy, SoundAllocations,
        SoundEvents, SoundAudit, YearKeys, ClosedIsHardClosed;
      SameMovesKeeps(h, db, after);
    } else {
      ExtendsItself(db);
    }
  }

  /** A transaction that leaves moves, events, log and allocations alone. */
  lemma SameMovesKeeps(h: Hashers, db: Db, after: Db)
    requires Inv(h, db) && Extends(db, after) && SameMoves(db, after) && SameAllocations(db, after)
    requires after.events == db.events && after.audit == db.audit
    requires SoundYears(after) && SoundHierarchy(after.accounts)
    ensures Inv(h, after)
  {
    hide GapFree, Chained, SoundReversals, SoundMoves, SoundHierarchy, SoundAllocations, SoundYears, SoundEvents, SameMoves, Extends;
    assert after.moves == db.moves by { MovesAreSame(db, after); }
    EventsMoved(db, after);
    CoreMoved(h, db, after);
    AllocationsFramed(db, after);
  }

  lemma MovesAreSame(db: Db, after: Db)
    requires SameMoves(db, after)
    ensures after.moves == db.moves
  {
  }

  lemma NewYearSound(db: Db, id: Id, year: Year, periods: map<Id, Period>, after: Db)
    requires SoundYears(db) && YearFits(db, id, year) && PeriodsFit(db, id, periods) && after == WithYear(db, id, year, periods)
    ensures SoundYears(after)
  {
    NewYearKeys(db, id, year, periods, after);
    NewYearOpen(db, id, year, periods, after);
  }

  lemma OldYearPeriods(db: Db, id: Id, periods: map<Id, Period>, after: Db, y: Id)
    requires y != id && PeriodsFit(db, id, periods) && after.periods == db.periods + periods
    ensures forall p :: InYear(db, y, p) <==> InYear(after, y, p)
    ensures forall p :: InYear(db, y, p) && InYear(after, y, p) ==> after.periods[p] == db.periods[p]
  {
    hide SamePeriodKey;
  }

  lemma NewYearOpen(db: Db, id: Id, year: Year, periods: map<Id, Period>, after: Db)
    requires ClosedIsHardClosed(db) && YearFits(db, id, year) && PeriodsFit(db, id, periods) && after == WithYear(db, id, year, periods)
    ensures ClosedIsHardClosed(after)
  {
    hide PeriodsFit, AllHardClosed, InYear;
    forall y | y in after.years && after.years[y].closed
      ensures AllHardClosed(after, y)
    {
      assert y in db.years && AllHardClosed(db, y);
      OldYearPeriods(db, id, periods, after, y);
      YearUntouched(db, after, y);
    }
  }

  lemma NewPeriodKeys(db: Db, id: Id, periods: map<Id, Period>, after: Db, p: Id, q: Id)
    requires YearKeys(db) && id !in db.years && PeriodsFit(db, id, periods) && after.periods == db.periods + periods
    requires p in after.periods && q in after.periods && SamePeriodKey(after.periods[p], after.periods[q])
    ensures p == q
  {
    if p in periods && q in periods {
      assert SamePeriodKey(periods[p], periods[q]);
    } else if p in db.periods && q in db.periods {
      assert SamePeriodKey(db.periods[p], db.periods[q]);
    }
  }

  lemma NewYearNumbers(db: Db, id: Id, year: Year, after: Db, y: Id, z: Id)
    requires YearKeys(db) && YearFits(db, id, year) && after.years == db.years[id := year]
    requires y in after.years && z in after.years && SameNumber(after.years[y], after.years[z])
    ensures y == z
  {
    assert y != id && z != id ==> SameNumber(db.years[y], db.years[z]);
  }

  lemma NewPeriodYears(db: Db, id: Id, year: Year, periods: map<Id, Period>, after: Db)
    requires YearKeys(db) && PeriodsFit(db, id, periods) && after == WithYear(db, id, year, periods)
    ensures forall p :: p in after.periods ==> after.periods[p].year in after.years
  {
    hide SamePeriodKey, SameNumber;
  }

  lemma NewYearKeys(db: Db, id: Id, year: Year, periods: map<Id, Period>, after: Db)
    requires YearKeys(db) && YearFits(db, id, year) && PeriodsFit(db, id, periods) && after == WithYear(db, id, year, periods)
    ensures YearKeys(after)
  {
    assert id !in db.years && after.years == db.years[id := year] && after.periods == db.periods + periods;
    NewPeriodYears(db, id, year, periods, after);
    AllPeriodKeys(db, id, periods, after);
    AllYearNumbers(db, id, year, after);
  }

  lemma AllPeriodKeys(db: Db, id: Id, periods: map<Id, Period>, after: Db)
    requires YearKeys(db) && id !in db.years && PeriodsFit(db, id, periods) && after.periods == db.periods + periods
    ensures forall p, q :: p in after.periods && q in after.periods && SamePeriodKey(after.periods[p], after.periods[q]) ==> p == q
  {
    hide *;
    forall p, q | p in after.periods && q in after.periods && SamePeriodKey(after.periods[p], after.periods[q])
      ensures p == q
    {
      NewPeriodKeys(db, id, periods, after, p, q);
    }
  }

  lemma AllYearNumbers(db: Db, id: Id, year: Year, after: Db)
    requires YearKeys(db) && YearFits(db, id, year) && after.years == db.years[id := year]
    ensures forall y, z :: y in after.years && z in after.years && SameNumber(after.years[y], after.years[z]) ==> y == z
  {
    hide *;
    forall y, z | y in after.years && z in after.years && SameNumber(after.years[y], after.years[z])
      ensures y == z
    {
      NewYearNumbers(db, id, year, after, y, z);
    }
  }

  lemma WithYearExtends(db: Db, id: Id, year: Year, periods: map<Id, Period>, after: Db)
    requires YearFits(db, id, year) && PeriodsFit(db, id, periods) && after == WithYear(db, id, year, periods)
    ensures Extends(db, after) && SameMoves(db, after)
  {
    hide YearFits, PeriodsFit;
    OldYearsStay(db, id, year, periods, after);
  }

  lemma OldYearsStay(db: Db, id: Id, year: Year, periods: map<Id, Period>, after: Db)
    requires YearFits(db, id, year) && PeriodsFit(db, id, periods) && after == WithYear(db, id, year, periods)
    ensures db.periods.Keys <= after.periods.Keys
    ensures forall p :: p in db.periods ==> p in after.periods && after.periods[p] == db.periods[p]
    ensures forall y :: y in db.years ==> y in after.years && after.years[y] == db.years[y]
  {
  }

  lemma CreateYearKeeps(h: Hashers, db: Db, id: Id, year: Year, periods: map<Id, Period>, after: Db)
    requires Inv(h, db) && CreateYear(db, id, year, periods) == Ok(after)
    ensures Inv(h, after) && Extends(db, after)
  {
    hide YearFits, PeriodsFit, SoundYears, SoundHierarchy, SameMoves, Extends;
    NewYearSound(db, id, year, periods, after);
    WithYearExtends(db, id, year, periods, after);
    SameMovesKeeps(h, db, after);
  }

  // Journals, accounts, configuration.

  lemma CreateJournalKeeps(h: Hashers, db: Db, id: Id, prefix: string, after: Db)
    requires Inv(h, db) && CreateJournal(db, id, prefix) == Ok(after)
    ensures Inv(h, after) && Extends(db, after)
  {
    hide GapFree, Chained, SoundReversals, SoundMoves, SoundHierarchy, SoundAllocations, SoundEvents, SoundAudit, YearKeys, ClosedIsHardClosed;
    YearsMoved(db, after);
    SameMovesKeeps(h, db, after);
  }

  lemma UpdateJournalKeeps(h: Hashers, db: Db, id: Id, prefix: string, active: bool, after: Db)
    requires Inv(h, db) && UpdateJournal(db, id, prefix, active) == Ok(after)
    ensures Inv(h, after) && Extends(db, after)
  {
    hide GapFree, Chained, SoundReversals, SoundMoves, SoundHierarchy, SoundAllocations, SoundEvents, SoundAudit, YearKeys, ClosedIsHardClosed;
    YearsMoved(db, after);
    SameMovesKeeps(h, db, after);
  }

  lemma AccountsChange(h: Hashers, db: Db, after: Db)
    requires Inv(h, db) && after == db.(accounts := after.accounts) && db.accounts.Keys <= after.accounts.Keys
    requires SoundHierarchy(after.accounts)
    ensures Inv(h, after) && Extends(db, after)
  {
    hide GapFree, Chained, SoundReversals, SoundMoves, SoundHierarchy, SoundAllocations, SoundEvents, SoundAudit, YearKeys, ClosedIsHardClosed;
    YearsMoved(db, after);
    SameMovesKeeps(h, db, after);
  }

  lemma ConfigureKeeps(h: Hashers, db: Db, config: Config, after: Db)
    requires Inv(h, db) && Configure(db, config) == Ok(after)
    ensures Inv(h, after) && Extends(db, after)
  {
    hide GapFree, Chained, SoundReversals, SoundMoves, SoundHierarchy, SoundAllocations, SoundEvents, SoundAudit, YearKeys, ClosedIsHardClosed;
    YearsMoved(db, after);
    SameMovesKeeps(h, db, after);
  }

  // Year close.

  lemma SystemMoveKeeps(h: Hashers, db: Db, id: Id, journal: Id, period: Id, date: Date, actor: Id, now: nat, lines: seq<Line>, after: Db)
    requires Inv(h, db) && SystemMove(h, db, id, journal, period, date, actor, now, lines) == Ok(after)
    requires forall i :: 0 <= i < |lines| ==> lines[i].date == date
    ensures Inv(h, after) && Extends(db, after) && after.years == db.years && after.periods == db.periods
  {
    hide Core, Extends, SoundAllocations;
    if lines != [] {
      var e := Entry(journal, period, date, None, Some(actor), Some(actor), now, lines);
      PostedAndLogged(h, db, id, e, "account_move", id, "POST", actor, now);
    } else {
      ExtendsItself(db);
    }
  }

  lemma ExtendsItself(db: Db)
    ensures Extends(db, db)
  {
  }

  lemma {:induction false} SweepDated(db: Db, asOf: Date, currency: string, rows: seq<Id>)
    ensures forall i :: 0 <= i < |SweepLines(db, asOf, currency, rows)| ==> SweepLines(db, asOf, currency, rows)[i].date == asOf
  {
    if rows != [] {
      SweepDated(db, asOf, currency, rows[..|rows| - 1]);
    }
  }

  lemma ClosedYearYears(db: Db, y: Id)
    requires SoundYears(db) && y in db.years && AllHardClosed(db, y)
    ensures SoundYears(YearClosed(db, y))
  {
    var after := YearClosed(db, y);
    forall z | z in after.years && after.years[z].closed
      ensures AllHardClosed(after, z)
    {
      assert AllHardClosed(db, z);
      YearUntouched(db, after, z);
    }
    forall a, b | a in after.years && b in after.years && SameNumber(after.years[a], after.years[b])
      ensures a == b
    {
      assert SameNumber(db.years[a], db.years[b]);
    }
  }

  lemma ClosedYearExtends(db: Db, y: Id)
    requires y in db.years && !db.years[y].closed
    ensures Extends(db, YearClosed(db, y)) && SameMoves(db, YearClosed(db, y))
  {
  }

  lemma ClosedYearSound(h: Hashers, db: Db, y: Id)
    requires Inv(h, db) && y in db.years && AllHardClosed(db, y) && !db.years[y].closed
    ensures Inv(h, YearClosed(db, y)) && Extends(db, YearClosed(db, y))
  {
    hide GapFree, Chained, SoundReversals, SoundMoves, SoundHierarchy, SoundAllocations, SoundYears, SoundEvents, SoundAudit, Extends,
      SameMoves;
    ClosedYearYears(db, y);
    ClosedYearExtends(db, y);
    SameMovesKeeps(h, db, YearClosed(db, y));
  }

  /** Twelve rows in sequence, all hard closed, are the whole year. */
  lemma PreparedIsHardClosed(db: Db, y: Id, journal: Id, retained: Id, actor: Id, periodRows: seq<Id>)
    requires PeriodsOf(db, y, periodRows) && PrepareClose(db, y, journal, retained, actor, periodRows).Ok?
    ensures AllHardClosed(db, y) && y in db.years && !db.years[y].closed
    ensures var s := PrepareClose(db, y, journal, retained, actor, periodRows).value;
            s.successor in db.years && db.years[s.successor].start == db.years[y].end + 1
            && InYear(db, y, s.closingPeriod)
            && s.openingPeriod in db.periods && db.periods[s.openingPeriod].state == Open
            && ActiveOfKind(db, s.retained, Equity)
  {
    ListedCount(periodRows, PeriodSet(db, y));
    forall p | InYear(db, y, p)
      ensures db.periods[p].state == HardClosed
    {
      assert p in periodRows;
      var i :| 0 <= i < |periodRows| && periodRows[i] == p;
      assert HardClosedAt(db, periodRows, i);
    }
  }

  /** closed and finished are the states after the closing and after the opening move. */
  ghost predicate Closes(h: Hashers, db: Db, y: Id, journal: Id, s: CloseSetup, actor: Id, closingId: Id, openingId: Id, now: nat,
                         resultRows: seq<Id>, openingRows: seq<Group>, closed: Db, lines: seq<Line>, finished: Db)
  {
    && y in db.years && s.successor in db.years
    && var asOf := db.years[y].end;
    && SystemMove(h, db, closingId, journal, s.closingPeriod, asOf, actor, now,
                  ClosingLines(db, asOf, s.retained, s.currency, resultRows)) == Ok(closed)
    && OpeningLines(closed, asOf, s.currency, openingRows) == Ok(lines)
    && SystemMove(h, closed, openingId, journal, s.openingPeriod, db.years[s.successor].start, actor, now, lines) == Ok(finished)
  }

  lemma WriteCloseIs(h: Hashers, db: Db, y: Id, journal: Id, s: CloseSetup, actor: Id, closingId: Id, openingId: Id, now: nat,
                     resultRows: seq<Id>, openingRows: seq<Group>, after: Db) returns (closed: Db, lines: seq<Line>, finished: Db)
    requires y in db.years && s.successor in db.years
    requires WriteClose(h, db, y, journal, s, actor, closingId, openingId, now, resultRows, openingRows) == Ok(after)
    ensures Closes(h, db, y, journal, s, actor, closingId, openingId, now, resultRows, openingRows, closed, lines, finished)
    ensures after == YearClosed(Logged(h, finished, "fiscal_year", y, "CLOSE", actor, "", now), y)
  {
    hide SystemMove, OpeningLines, ClosingLines;
    var asOf := db.years[y].end;
    closed := SystemMove(h, db, closingId, journal, s.closingPeriod, asOf, actor, now,
                         ClosingLines(db, asOf, s.retained, s.currency, resultRows)).value;
    lines := OpeningLines(closed, asOf, s.currency, openingRows).value;
    finished := SystemMove(h, closed, openingId, journal, s.openingPeriod, db.years[s.successor].start, actor, now, lines).value;
    SystemMoveYears(h, db, closingId, journal, s.closingPeriod, asOf, actor, now,
                    ClosingLines(db, asOf, s.retained, s.currency, resultRows), closed);
    SystemMoveYears(h, closed, openingId, journal, s.openingPeriod, db.years[s.successor].start, actor, now, lines, finished);
  }

  lemma SystemMoveYears(h: Hashers, db: Db, id: Id, journal: Id, period: Id, date: Date, actor: Id, now: nat, lines: seq<Line>, after: Db)
    requires SystemMove(h, db, id, journal, period, date, actor, now, lines) == Ok(after)
    ensures after.years == db.years
  {
  }

  lemma ClosesKeeps(h: Hashers, db: Db, y: Id, journal: Id, s: CloseSetup, actor: Id, closingId: Id, openingId: Id, now: nat,
                    resultRows: seq<Id>, openingRows: seq<Group>, closed: Db, lines: seq<Line>, finished: Db)
    requires Inv(h, db) && Closes(h, db, y, journal, s, actor, closingId, openingId, now, resultRows, openingRows, closed, lines, finished)
    requires db.years[s.successor].start == db.years[y].end + 1
    ensures Inv(h, finished) && Extends(db, finished) && finished.years == db.years && finished.periods == db.periods
  {
    hide Inv, Extends, SystemMove;
    var asOf := db.years[y].end;
    var closing := ClosingLines(db, asOf, s.retained, s.currency, resultRows);
    SweepDated(db, asOf, s.currency, resultRows);
    SystemMoveKeeps(h, db, closingId, journal, s.closingPeriod, asOf, actor, now, closing, closed);
    SystemMoveKeeps(h, closed, openingId, journal, s.openingPeriod, db.years[s.successor].start, actor, now, lines, finished);
    ExtendsTransitive(db, closed, finished);
  }

  lemma CloseYearKeeps(h: Hashers, db: Db, y: Id, journal: Id, retained: Id, actor: Id, closingId: Id, openingId: Id, now: nat,
                       periodRows: seq<Id>, resultRows: seq<Id>, openingRows: seq<Group>, after: Db)
    requires Inv(h, db) && PeriodsOf(db, y, periodRows)
    requires CloseYear(h, db, y, journal, retained, actor, closingId, openingId, now, periodRows, resultRows, openingRows) == Ok(after)
    ensures Inv(h, after) && Extends(db, after)
  {
    hide Inv, Extends, PrepareClose, WriteClose, AllHardClosed;
    PreparedIsHardClosed(db, y, journal, retained, actor, periodRows);
    var s := PrepareClose(db, y, journal, retained, actor, periodRows).value;
    var closed, lines, finished :=
      WriteCloseIs(h, db, y, journal, s, actor, closingId, openingId, now, resultRows, openingRows, after);
    ClosesKeeps(h, db, y, journal, s, actor, closingId, openingId, now, resultRows, openingRows, closed, lines, finished);
    SamePeriodsHardClosed(db, finished, y);
    LoggedAfter(h, db, finished, "fiscal_year", y, "CLOSE", actor, now);
    var logged := Logged(h, finished, "fiscal_year", y, "CLOSE", actor, "", now);
    SamePeriodsHardClosed(db, logged, y);
    ClosedYearSound(h, logged, y);
    ExtendsTransitive(db, logged, after);
  }

  lemma SamePeriodsHardClosed(db: Db, after: Db, y: Id)
    requires AllHardClosed(db, y) && after.periods == db.periods
    ensures AllHardClosed(after, y)
  {
    YearUntouched(db, after, y);
  }
}
