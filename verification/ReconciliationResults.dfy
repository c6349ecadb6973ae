/** Reconciling and undoing: residuals, the realised difference, and when an undo succeeds. */
module ReconciliationResults {
  import opened Sums
  import opened Ledger
  import opened Rounding
  import opened MoveNames
  import opened Tables
  import opened Steps
  import opened ReconcileTotals
  import opened Invariants
  import opened Allocations
  import opened PostingKeeps
  import opened OperationsKeep
  import opened Runs
  import opened LedgerHistory

  // Undo.

  /** In a sound state the reconciled amounts of a live reconciliation are never inconsistent. */
  lemma UndoNeverInconsistent(h: Hashers, db: Db, id: Id, reversalId: Id, date: Date, found: Option<Id>, actor: Id, now: nat)
    requires Inv(h, db)
    ensures Unreconcile(h, db, id, reversalId, date, found, actor, now) != Err(Inconsistent)
  {
    if id in db.reconciliations {
      LiveReconciliationReleases(db, id);
      var released := Release(db.reconciled, db.reconciliations[id].items).value;
      FxReversalErrors(h, db.(reconciled := released), db.reconciliations[id].fxMove, reversalId, date, found, actor, now);
    }
    hide Inv, UndoFx, Release;
  }

  lemma FxReversalErrors(h: Hashers, db: Db, fxMove: Option<Id>, reversalId: Id, date: Date, found: Option<Id>, actor: Id, now: nat)
    ensures UndoFx(h, db, fxMove, reversalId, date, found, actor, now) != Err(Inconsistent)
  {
    hide HasReversal, PostedRow, NameTaken, ReferencesHold;
  }

  /** The next number of a journal is free under its name. */
  ghost predicate NextNameFree(db: Db, j: Id) {
    j in db.journals && db.journals[j].next >= 0 && !NameTaken(db, SequenceName(db.journals[j].prefix, db.journals[j].next))
  }

  /** What the reversal of a posted move needs, read from the state before. */
  ghost predicate CanReverseFx(db: Db, fx: Id, reversalId: Id, found: Option<Id>) {
    && fx in db.moves && !HasReversal(db, fx)
    && found.Some? && found.value in db.periods && db.periods[found.value].state == Open
    && reversalId !in db.moves
    && NextNameFree(db, db.moves[fx].journal)
  }

  lemma ReverseFxSucceeds(h: Hashers, db: Db, fx: Id, reversalId: Id, date: Date, found: Option<Id>, actor: Id, now: nat)
    requires SoundMoves(db) && GapFree(db) && IsPosted(db, fx) && LooksUp(db, date, found)
    ensures ReverseFxMove(h, db, fx, reversalId, date, found, actor, now).Ok? <==> CanReverseFx(db, fx, reversalId, found)
  {
    assert SoundMove(db, fx);
    hide HasReversal, PreviousHash, NameTaken, SoundMoves;
  }

  lemma UndoIs(h: Hashers, db: Db, id: Id, reversalId: Id, date: Date, found: Option<Id>, actor: Id, now: nat)
    requires id != 0 && actor != 0 && id in db.reconciliations && Release(db.reconciled, db.reconciliations[id].items).Ok?
    ensures var restored := db.(reconciled := Release(db.reconciled, db.reconciliations[id].items).value);
            Unreconcile(h, db, id, reversalId, date, found, actor, now).Ok?
            <==> UndoFx(h, restored, db.reconciliations[id].fxMove, reversalId, date, found, actor, now).Ok?
  {
    hide UndoFx, Release;
  }

  lemma UndoFxSucceeds(h: Hashers, db: Db, restored: Db, fx: Id, reversalId: Id, date: Date, found: Option<Id>, actor: Id, now: nat)
    requires Inv(h, db) && restored == db.(reconciled := restored.reconciled) && IsPosted(db, fx) && LooksUp(db, date, found)
    ensures UndoFx(h, restored, Some(fx), reversalId, date, found, actor, now).Ok? <==> CanReverseFx(db, fx, reversalId, found)
  {
    hide GapFree, SoundMoves, Chained, SoundReversals, SoundEvents, SoundAudit, SoundYears, SoundAllocations, ReverseFxMove,
      CanReverseFx;
    RestoredSame(db, restored, fx, reversalId, found);
    MovesMoved(db, restored);
    NumbersMoved(db, restored);
    ReverseFxSucceeds(h, restored, fx, reversalId, date, found, actor, now);
  }

  /** Undoing a live reconciliation succeeds exactly when it has no realised move, or that move has not been reversed
      already, the period found for the date is open and the next name of its journal is free. */
  lemma UndoSucceeds(h: Hashers, db: Db, id: Id, reversalId: Id, date: Date, found: Option<Id>, actor: Id, now: nat)
    requires Inv(h, db) && id != 0 && actor != 0 && id in db.reconciliations && LooksUp(db, date, found)
    ensures Unreconcile(h, db, id, reversalId, date, found, actor, now).Ok? <==>
            db.reconciliations[id].fxMove.None? || CanReverseFx(db, db.reconciliations[id].fxMove.value, reversalId, found)
  {
    var r := db.reconciliations[id];
    LiveReconciliationReleases(db, id);
    assert SoundReconciliation(db, r);
    UndoIs(h, db, id, reversalId, date, found, actor, now);
    hide Inv, SoundAllocations, Unreconcile, ReverseFxMove, Release, CanReverseFx;
    if r.fxMove.Some? {
      UndoFxSucceeds(h, db, db.(reconciled := Release(db.reconciled, r.items).value), r.fxMove.value, reversalId, date, found, actor, now);
    }
  }

  lemma RestoredSame(db: Db, restored: Db, fx: Id, reversalId: Id, found: Option<Id>)
    requires restored == db.(reconciled := restored.reconciled)
    ensures CanReverseFx(restored, fx, reversalId, found) <==> CanReverseFx(db, fx, reversalId, found)
  {
    assert HasReversal(restored, fx) <==> HasReversal(db, fx);
    if fx in db.moves && db.moves[fx].journal in db.journals {
      var j := db.journals[db.moves[fx].journal];
      assert j.next >= 0 ==> (NameTaken(restored, SequenceName(j.prefix, j.next)) <==> NameTaken(db, SequenceName(j.prefix, j.next)));
    }
  }

  lemma FxRefused(h: Hashers, db: Db, fx: Id, reversalId: Id, date: Date, found: Option<Id>, actor: Id, now: nat)
    requires IsPosted(db, fx) && HasReversal(db, fx)
    ensures UndoFx(h, db, Some(fx), reversalId, date, found, actor, now) == Err(MoveAlreadyReversed)
  {
    hide InsertPosted, HasReversal, LockOpenPeriod, NextSequence, Mirrored;
  }

  lemma UndoError(h: Hashers, db: Db, id: Id, reversalId: Id, date: Date, found: Option<Id>, actor: Id, now: nat, e: Error)
    requires id != 0 && actor != 0 && id in db.reconciliations && Release(db.reconciled, db.reconciliations[id].items).Ok?
    requires UndoFx(h, db.(reconciled := Release(db.reconciled, db.reconciliations[id].items).value), db.reconciliations[id].fxMove, reversalId,
                    date, found, actor, now) == Err(e)
    ensures Unreconcile(h, db, id, reversalId, date, found, actor, now) == Err(e)
  {
    hide UndoFx, Release;
  }

  lemma AlreadyReversedFx(h: Hashers, db: Db, id: Id, reversalId: Id, date: Date, found: Option<Id>, actor: Id, now: nat)
    requires Inv(h, db) && id != 0 && actor != 0 && id in db.reconciliations
    requires db.reconciliations[id].fxMove.Some? && HasReversal(db, db.reconciliations[id].fxMove.value)
    ensures Unreconcile(h, db, id, reversalId, date, found, actor, now) == Err(MoveAlreadyReversed)
  {
    var fx := db.reconciliations[id].fxMove.value;
    LiveReconciliationReleases(db, id);
    assert SoundReconciliation(db, db.reconciliations[id]);
    hide Inv, Release, UndoFx, Unreconcile, SoundAllocations;
    var restored := db.(reconciled := Release(db.reconciled, db.reconciliations[id].items).value);
    assert IsPosted(restored, fx) && HasReversal(restored, fx);
    FxRefused(h, restored, fx, reversalId, date, found, actor, now);
    UndoError(h, db, id, reversalId, date, found, actor, now, MoveAlreadyReversed);
  }

  lemma ReversalStays(db: Db, later: Db, m: Id, o: Id)
    requires IsPosted(db, m) && Reverses(db, m, o) && Extends(db, later)
    ensures HasReversal(later, o)
  {
  }

  lemma ReversalKeepsReconciliations(h: Hashers, db: Db, original: Id, id: Id, period: Id, date: Date, actor: Id, now: nat, after: Db)
    requires ReverseMove(h, db, original, id, period, date, actor, now) == Ok(after)
    ensures after.reconciliations == db.reconciliations
  {
    hide NameTaken, ReferencesHold, PreviousHash, SequenceName, Mirrored, LockOpenPeriod, HasReversal;
  }

  lemma ReversedByHand(h: Hashers, db: Db, original: Id, id: Id, period: Id, date: Date, actor: Id, now: nat, after: Db)
    requires Inv(h, db) && ReverseMove(h, db, original, id, period, date, actor, now) == Ok(after)
    ensures Inv(h, after) && IsPosted(after, id) && Reverses(after, id, original) && after.reconciliations == db.reconciliations
  {
    hide *;
    ReverseMoveKeeps(h, db, original, id, period, date, actor, now);
    ReversalPosts(h, db, original, id, period, date, actor, now, after);
    ReversalKeepsReconciliations(h, db, original, id, period, date, actor, now, after);
  }

  /** Reconcile with a realised difference, then reverse the FX move by hand: from then on, in every later state, undoing that
      reconciliation fails. */
  lemma ReversedFxBlocksUndo(h: Hashers, db: Db, id: Id, fxId: Id, date: Date, found: Option<Id>, actor: Id, account: Id, currency: string,
                             items: seq<Allocation>, now: nat, mid: Db, reversal: Id, period: Id, date': Date, actor': Id, now': nat, after: Db, later: Db)
    requires Inv(h, db) && Reconcile(h, db, id, fxId, date, found, actor, account, currency, items, now) == Ok(mid)
    requires id in mid.reconciliations && mid.reconciliations[id].fxMove.Some?
    requires ReverseMove(h, mid, mid.reconciliations[id].fxMove.value, reversal, period, date', actor', now') == Ok(after)
    requires Inv(h, later) && Extends(after, later) && id in later.reconciliations && later.reconciliations[id] == mid.reconciliations[id]
    ensures Inv(h, after) && id in after.reconciliations && after.reconciliations[id] == mid.reconciliations[id]
    ensures forall reversalId, date'', found'', actor'', now'' :: id != 0 && actor'' != 0 ==>
              Unreconcile(h, later, id, reversalId, date'', found'', actor'', now'') == Err(MoveAlreadyReversed)
  {
    ReconcileKeeps(h, db, id, fxId, date, found, actor, account, currency, items, now);
    hide *;
    var fx := mid.reconciliations[id].fxMove.value;
    ReversedByHand(h, mid, fx, reversal, period, date', actor', now', after);
    ReversalStays(after, later, reversal, fx);
    forall reversalId, date'', found'', actor'', now'' | id != 0 && actor'' != 0
      ensures Unreconcile(h, later, id, reversalId, date'', found'', actor'', now'') == Err(MoveAlreadyReversed)
    {
      AlreadyReversedFx(h, later, id, reversalId, date'', found'', actor'', now'');
    }
  }

  // Reconciling and undoing again.

  lemma ReconcileAdds(h: Hashers, db: Db, id: Id, fxId: Id, date: Date, found: Option<Id>, actor: Id, account: Id,
                      currency: string, items: seq<Allocation>,
                      now: nat, after: Db)
    requires Reconcile(h, db, id, fxId, date, found, actor, account, currency, items, now) == Ok(after)
    ensures id in after.reconciliations && after.reconciliations[id].items == items
    ensures forall l :: Reconciled(after, l) == Reconciled(db, l) + AllocatedBy(items, l)
  {
    hide Reconcile, CheckAllocations, SettleFx, CheckReconcile, FunctionalPart;
    var t, settled := ReconcileIs(h, db, id, fxId, date, found, actor, account, currency, items, now);
    var r := NewReconciliation(db, fxId, date, t, items);
    SettleFxAllocations(h, Entered(db, id, r), r.account, t.debitFunctional - t.creditFunctional, date, found, actor, fxId, now, settled);
    forall l
      ensures Reconciled(after, l) == Reconciled(db, l) + AllocatedBy(items, l)
    {
      AllocateAdds(db.reconciled, items, l);
    }
  }

  lemma SettleFxAllocations(h: Hashers, db: Db, account: Id, realized: Amount, date: Date, found: Option<Id>, actor: Id,
                            fxId: Id, now: nat, after: Db)
    requires SettleFx(h, db, account, realized, date, found, actor, fxId, now) == Ok(after)
    ensures SameAllocations(db, after)
  {
    hide PostedRow, NameTaken, ReferencesHold, FxLines;
  }

  /** An undo gives back exactly what its reconciliation allocated, on every line. */
  lemma UndoSubtracts(h: Hashers, db: Db, id: Id, reversalId: Id, date: Date, found: Option<Id>, actor: Id, now: nat, after: Db)
    requires Inv(h, db) && Unreconcile(h, db, id, reversalId, date, found, actor, now) == Ok(after)
    ensures id in db.reconciliations && after.reconciliations == db.reconciliations - {id}
    ensures forall l :: Reconciled(after, l) == Reconciled(db, l) - AllocatedBy(db.reconciliations[id].items, l)
  {
    var r := db.reconciliations[id];
    LiveReconciliationReleases(db, id);
    var restored := db.(reconciled := Release(db.reconciled, r.items).value);
    var settled := UndoFx(h, restored, r.fxMove, reversalId, date, found, actor, now).value;
    UndoFxAllocations(h, restored, r.fxMove, reversalId, date, found, actor, now, settled);
    hide Inv, UndoFx, Release;
  }

  lemma UndoFxAllocations(h: Hashers, db: Db, fxMove: Option<Id>, reversalId: Id, date: Date, found: Option<Id>, actor: Id,
                          now: nat, after: Db)
    requires UndoFx(h, db, fxMove, reversalId, date, found, actor, now) == Ok(after)
    ensures SameAllocations(db, after)
  {
    hide PostedRow, NameTaken, ReferencesHold, HasReversal;
  }

  /** Reconcile followed by unreconcile restores every residual and the set of live reconciliations. */
  lemma UndoRestoresResiduals(h: Hashers, db: Db, id: Id, fxId: Id, date: Date, found: Option<Id>, actor: Id, account: Id, currency: string,
                              items: seq<Allocation>, now: nat, mid: Db, reversalId: Id, date': Date, found': Option<Id>, actor': Id, now': nat, after: Db)
    requires Inv(h, db) && Reconcile(h, db, id, fxId, date, found, actor, account, currency, items, now) == Ok(mid)
    requires Unreconcile(h, mid, id, reversalId, date', found', actor', now') == Ok(after)
    ensures forall l :: Reconciled(after, l) == Reconciled(db, l)
    ensures after.reconciliations == db.reconciliations
  {
    hide *;
    ReconcileKeeps(h, db, id, fxId, date, found, actor, account, currency, items, now);
    ReconcileAdds(h, db, id, fxId, date, found, actor, account, currency, items, now, mid);
    UndoSubtracts(h, mid, id, reversalId, date', found', actor', now', after);
    ReconcileTable(h, db, id, fxId, date, found, actor, account, currency, items, now, mid);
  }

  lemma ReconcileTable(h: Hashers, db: Db, id: Id, fxId: Id, date: Date, found: Option<Id>, actor: Id, account: Id,
                       currency: string, items: seq<Allocation>,
                       now: nat, after: Db)
    requires Reconcile(h, db, id, fxId, date, found, actor, account, currency, items, now) == Ok(after)
    ensures id !in db.reconciliations && after.reconciliations - {id} == db.reconciliations
  {
    hide Reconcile, CheckAllocations, SettleFx, CheckReconcile, FunctionalPart;
    var t, settled := ReconcileIs(h, db, id, fxId, date, found, actor, account, currency, items, now);
    var r := NewReconciliation(db, fxId, date, t, items);
    SettleFxAllocations(h, Entered(db, id, r), r.account, t.debitFunctional - t.creditFunctional, date, found, actor, fxId, now, settled);
  }

  lemma SettleFxPosts(h: Hashers, db: Db, account: Id, realized: Amount, date: Date, found: Option<Id>, actor: Id, fxId: Id,
                      now: nat, after: Db)
    requires SettleFx(h, db, account, realized, date, found, actor, fxId, now) == Ok(after)
    ensures realized == 0 ==> after.moves == db.moves
    ensures realized != 0 ==> db.config.Some? && Posts(db, after, fxId, FxLines(account, realized, date, db.config.value))
  {
    hide NameTaken, ReferencesHold, FxLines, PreviousHash;
  }

  lemma UndoFxPosts(h: Hashers, db: Db, fxMove: Option<Id>, reversalId: Id, date: Date, found: Option<Id>, actor: Id, now: nat, after: Db)
    requires UndoFx(h, db, fxMove, reversalId, date, found, actor, now) == Ok(after)
    ensures fxMove.None? ==> after.moves == db.moves
    ensures fxMove.Some? ==> fxMove.value in db.moves && Posts(db, after, reversalId, Mirrored(db.moves[fxMove.value].lines, date, false))
  {
    hide NameTaken, ReferencesHold, PreviousHash, HasReversal;
  }

  lemma ReconcilePosts(h: Hashers, db: Db, id: Id, fxId: Id, date: Date, found: Option<Id>, actor: Id, account: Id,
                       currency: string, items: seq<Allocation>,
                       now: nat, after: Db)
    requires Reconcile(h, db, id, fxId, date, found, actor, account, currency, items, now) == Ok(after)
    ensures id in after.reconciliations
    ensures var fx := after.reconciliations[id].fxMove;
            && (fx.None? ==> after.moves == db.moves)
            && (fx.Some? ==> fx.value in after.moves && Posts(db, after, fx.value, after.moves[fx.value].lines))
  {
    hide Reconcile, CheckAllocations, SettleFx, CheckReconcile, FunctionalPart;
    var t, settled := ReconcileIs(h, db, id, fxId, date, found, actor, account, currency, items, now);
    var r := NewReconciliation(db, fxId, date, t, items);
    var realized := t.debitFunctional - t.creditFunctional;
    SettleFxAllocations(h, Entered(db, id, r), r.account, realized, date, found, actor, fxId, now, settled);
    SettleFxPosts(h, Entered(db, id, r), r.account, realized, date, found, actor, fxId, now, settled);
  }

  /** The difference a reconciliation realises: the functional parts of its items, signed like the nets of their lines. */
  function Realized(db: Db, items: seq<Allocation>): Amount {
    SumSeq(items, SignedPart(db))
  }

  /** A reconciliation takes the signed functional parts of its items off the reconciled account and puts them on the loss account where
      they are positive and on the gain account where they are negative; no other account moves. */
  lemma ReconcileSettles(h: Hashers, db: Db, id: Id, fxId: Id, date: Date, found: Option<Id>, actor: Id, account: Id,
                         currency: string, items: seq<Allocation>, now: nat, after: Db, a: Id)
    requires Reconcile(h, db, id, fxId, date, found, actor, account, currency, items, now) == Ok(after)
    ensures forall i :: 0 <= i < |items| ==> HasLine(db, items[i].line)
    ensures |items| >= 2 && forall i :: 0 <= i < |items| ==> LineAt(db, items[i].line).account == LineAt(db, items[0].line).account
    ensures Realized(db, items) != 0 ==> db.config.Some?
    ensures PostedNet(after, a) - PostedNet(db, a) ==
            (if Realized(db, items) > 0 && a == db.config.value.loss then Realized(db, items) else 0)
            + (if Realized(db, items) < 0 && a == db.config.value.gain then Realized(db, items) else 0)
            - (if a == LineAt(db, items[0].line).account then Realized(db, items) else 0)
  {
    hide Reconcile, CheckReconcile, CheckAllocations, SettleFx, FxLines, PostedNet, SignedPart, DebitAmount, CreditAmount, Capacity;
    TestsPass(db, id, date, actor, account, currency, items);
    var t, settled := ReconcileIs(h, db, id, fxId, date, found, actor, account, currency, items, now);
    TotalsAre(db, date, account, currency, items, |items|, t);
    assert items[..|items|] == items;
    forall i | 0 <= i < |items|
      ensures LineAt(db, items[i].line).account == LineAt(db, items[0].line).account
    {
      assert Accepted(db, date, account, currency, items, i);
    }
    var r := NewReconciliation(db, fxId, date, t, items);
    var realized := t.debitFunctional - t.creditFunctional;
    SettleFxPosts(h, Entered(db, id, r), r.account, realized, date, found, actor, fxId, now, settled);
    if realized != 0 {
      SettledNet(db, settled, fxId, r.account, realized, date, db.config.value, a);
    } else {
      NetOfMoves(db, settled, a);
    }
    NetOfMoves(settled, after, a);
  }

  function NetOfItem(db: Db): Allocation -> int {
    (a: Allocation) => if HasLine(db, a.line) then LineAt(db, a.line).debit - LineAt(db, a.line).credit else 0
  }

  /** Lines that are settled in full leave nothing open: their nets and what the reconciliation puts on their account add up to zero. Only
      on the loss or gain account itself the FX move cancels out. */
  lemma SettledInFull(h: Hashers, db: Db, id: Id, fxId: Id, date: Date, found: Option<Id>, actor: Id, account: Id,
                      currency: string, items: seq<Allocation>, now: nat, after: Db, own: Id)
    requires Reconcile(h, db, id, fxId, date, found, actor, account, currency, items, now) == Ok(after)
    requires forall i :: 0 <= i < |items| && HasLine(db, items[i].line) ==> items[i].amount == Capacity(LineAt(db, items[i].line))
    requires items != [] && HasLine(db, items[0].line) && own == LineAt(db, items[0].line).account
    requires db.config.Some? ==> own != db.config.value.loss && own != db.config.value.gain
    ensures SumSeq(items, NetOfItem(db)) + (PostedNet(after, own) - PostedNet(db, own)) == 0
  {
    ReconcileSettles(h, db, id, fxId, date, found, actor, account, currency, items, now, after, own);
    hide PostedNet, Reconcile;
    AllAccepted(h, db, id, fxId, date, found, actor, account, currency, items, now, after);
    forall i | 0 <= i < |items|
      ensures SignedPart(db)(items[i]) == NetOfItem(db)(items[i])
    {
      WholePart(db, items[i]);
    }
    hide SignedPart, NetOfItem;
    SumSeqSame(items, SignedPart(db), NetOfItem(db));
  }

  lemma AllAccepted(h: Hashers, db: Db, id: Id, fxId: Id, date: Date, found: Option<Id>, actor: Id, account: Id,
                    currency: string, items: seq<Allocation>, now: nat, after: Db)
    requires Reconcile(h, db, id, fxId, date, found, actor, account, currency, items, now) == Ok(after)
    ensures forall i :: 0 <= i < |items| ==> HasLine(db, items[i].line) && items[i].amount > 0
  {
    hide CheckAllocations, SettleFx, Allocate;
  }

  lemma WholePart(db: Db, a: Allocation)
    requires HasLine(db, a.line) && a.amount == Capacity(LineAt(db, a.line)) > 0
    ensures SignedPart(db)(a) == NetOfItem(db)(a)
  {
  }

  ghost function PostedNet(db: Db, a: Id): Amount {
    LedgerSum(db.moves, PostedIds(db), On(a, Net))
  }

  lemma NetOfMoves(db: Db, after: Db, a: Id)
    requires db.moves == after.moves
    ensures PostedNet(db, a) == PostedNet(after, a)
  {
    assert PostedIds(db) == PostedIds(after);
  }

  lemma SettledNet(db: Db, settled: Db, fxId: Id, account: Id, realized: Amount, date: Date, config: Config, a: Id)
    requires realized != 0 && Posts(db, settled, fxId, FxLines(account, realized, date, config))
    ensures var other := if realized > 0 then config.loss else config.gain;
            PostedNet(settled, a) - PostedNet(db, a) == (if a == other then realized else 0) - (if a == account then realized else 0)
  {
    hide LedgerSum, PostedIds;
    var lines := FxLines(account, realized, date, config);
    PostsAdds(db, settled, fxId, lines, On(a, Net));
    TwoLines(lines, On(a, Net));
    OnAt(lines[0], a);
    OnAt(lines[1], a);
  }

  lemma UnreconcilePosts(h: Hashers, db: Db, id: Id, reversalId: Id, date: Date, found: Option<Id>, actor: Id, now: nat, after: Db)
    requires Unreconcile(h, db, id, reversalId, date, found, actor, now) == Ok(after)
    ensures id in db.reconciliations
    ensures var fx := db.reconciliations[id].fxMove;
            && (fx.None? ==> after.moves == db.moves)
            && (fx.Some? ==> fx.value in db.moves && Posts(db, after, reversalId, Mirrored(db.moves[fx.value].lines, date, false)))
  {
    var r := db.reconciliations[id];
    var restored := db.(reconciled := Release(db.reconciled, r.items).value);
    var settled := UndoFx(h, restored, r.fxMove, reversalId, date, found, actor, now).value;
    UndoFxPosts(h, restored, r.fxMove, reversalId, date, found, actor, now, settled);
    hide UndoFx, Release;
  }

  /** Reconcile followed by unreconcile leaves every account and currency with the net it had. */
  lemma UndoRestoresBalances(h: Hashers, db: Db, id: Id, fxId: Id, date: Date, found: Option<Id>, actor: Id, account: Id, currency: string,
                             items: seq<Allocation>, now: nat, mid: Db, reversalId: Id, date': Date, found': Option<Id>, actor': Id, now': nat, after: Db,
                             f: Line -> int)
    requires Reconcile(h, db, id, fxId, date, found, actor, account, currency, items, now) == Ok(mid)
    requires Unreconcile(h, mid, id, reversalId, date', found', actor', now') == Ok(after)
    requires Odd(f)
    ensures LedgerSum(after.moves, PostedIds(after), f) == LedgerSum(db.moves, PostedIds(db), f)
  {
    hide Reconcile, Unreconcile, LedgerSum, Posts, Odd, SumSeq;
    ReconcilePosts(h, db, id, fxId, date, found, actor, account, currency, items, now, mid);
    UnreconcilePosts(h, mid, id, reversalId, date', found', actor', now', after);
    var fx := mid.reconciliations[id].fxMove;
    if fx.Some? {
      var lines := mid.moves[fx.value].lines;
      PostsAdds(db, mid, fx.value, lines, f);
      PostsAdds(mid, after, reversalId, Mirrored(lines, date', false), f);
      OddOverMirror(lines, Mirrored(lines, date', false), f);
    } else {
      assert PostedIds(after) == PostedIds(db);
    }
  }

  // The realised difference.

  /** The functional part of an allocation lies between nothing and the functional amount of its line. */
  lemma FunctionalPartBounded(l: Line, amount: Amount)
    requires 0 < amount <= Capacity(l)
    ensures 0 <= FunctionalPart(l, amount) <= FunctionalCapacity(l)
    ensures Capacity(l) == FunctionalCapacity(l) ==> FunctionalPart(l, amount) == amount
  {
    if amount != Capacity(l) {
      ProRataBounded(FunctionalCapacity(l), amount, Capacity(l));
      ProRataSameMagnitude(Capacity(l), amount);
    }
  }

  ghost predicate SameMagnitude(db: Db, l: LineId) {
    HasLine(db, l) && Capacity(LineAt(db, l)) == FunctionalCapacity(LineAt(db, l))
  }

  /** Where foreign and functional magnitudes coincide, the functional totals are the foreign totals. */
  lemma {:induction false} SameMagnitudeTotals(db: Db, date: Date, account: Id, currency: string, items: seq<Allocation>, n: nat)
    requires n <= |items| && CheckAllocations(db, date, account, currency, items, n).Ok?
    requires forall i :: 0 <= i < n ==> SameMagnitude(db, items[i].line)
    ensures var t := CheckAllocations(db, date, account, currency, items, n).value;
            t.debitFunctional == t.debitForeign && t.creditFunctional == t.creditForeign
  {
    if n > 0 {
      SameMagnitudeTotals(db, date, account, currency, items, n - 1);
      assert SameMagnitude(db, items[n - 1].line);
      FunctionalPartBounded(LineAt(db, items[n - 1].line), items[n - 1].amount);
    }
  }

  /** Lines whose foreign and functional magnitudes coincide never give rise to a realised FX move. */
  lemma NoFxWithoutForeignAmounts(h: Hashers, db: Db, id: Id, fxId: Id, date: Date, found: Option<Id>, actor: Id,
                                  account: Id, currency: string,
                                  items: seq<Allocation>, now: nat, after: Db)
    requires Reconcile(h, db, id, fxId, date, found, actor, account, currency, items, now) == Ok(after)
    requires forall i :: 0 <= i < |items| ==> SameMagnitude(db, items[i].line)
    ensures id in after.reconciliations && after.reconciliations[id].fxMove == None
    ensures after.moves == db.moves && after.journals == db.journals
  {
    var t, settled := ReconcileIs(h, db, id, fxId, date, found, actor, account, currency, items, now);
    SameMagnitudeTotals(db, date, account, currency, items, |items|);
    hide Reconcile, CheckAllocations, Allocate;
  }

  /** The FX move takes exactly the functional difference off the reconciled account and puts it on loss or gain;
      it cancels out only when the reconciled account is that account itself. */
  lemma FxMoveCancelsDifference(account: Id, realized: Amount, date: Date, config: Config)
    requires realized != 0
    ensures var other := if realized > 0 then config.loss else config.gain;
            var lines := FxLines(account, realized, date, config);
            && SumSeq(lines, On(account, Net)) == (if account == other then 0 else -realized)
            && SumSeq(lines, On(other, Net)) == (if account == other then 0 else realized)
            && Balanced(lines)
  {
    var other := if realized > 0 then config.loss else config.gain;
    var lines := FxLines(account, realized, date, config);
    FxLinesBalanced(account, realized, date, config);
    TwoLines(lines, On(account, Net));
    TwoLines(lines, On(other, Net));
    assert AccountOf(lines[0]) == account && AccountOf(lines[1]) == other;
    assert Net(lines[0]) == -realized && Net(lines[1]) == realized;
  }

  lemma TwoLines(lines: seq<Line>, f: Line -> int)
    requires |lines| == 2
    ensures SumSeq(lines, f) == f(lines[0]) + f(lines[1])
  {
    assert lines[..1][..0] == [] && SumSeq(lines[..1][..0], f) == 0;
    assert SumSeq(lines[..1], f) == f(lines[0]);
  }

  // The functional parts of a line that is settled piece by piece.

  /** What a reconciliation counts in functional currency for an allocation of line l. */
  function Counted(l: LineId, line: Line): Allocation -> int {
    (a: Allocation) => if a.line == l && Capacity(line) > 0 then FunctionalPart(line, a.amount) else 0
  }

  /** An allocation of line l that does not take its whole capacity at once. */
  function Partial(l: LineId, line: Line): Allocation -> int {
    (a: Allocation) => if a.line == l && a.amount != Capacity(line) then 1 else 0
  }

  /** A measure of allocations, over all live reconciliations. */
  ghost function Across(reconciliations: map<Id, Reconciliation>, f: Allocation -> int): Id -> int {
    (r: Id) => if r in reconciliations then SumSeq(reconciliations[r].items, f) else 0
  }

  ghost function TotalAcross(reconciliations: map<Id, Reconciliation>, f: Allocation -> int): int {
    SumSet(reconciliations.Keys, Across(reconciliations, f))
  }

  /** Functional parts c for allocated amounts a are off by at most n shares of the two roundings. */
  predicate Drifts(line: Line, c: int, a: int, n: int) {
    Abs(2 * FINE * (Capacity(line) * c - FunctionalCapacity(line) * a)) <= n * (Capacity(line) * (FINE + 1))
  }

  lemma DriftsAdd(line: Line, c: int, a: int, n: int, c': int, a': int, n': int)
    requires Drifts(line, c, a, n) && Drifts(line, c', a', n')
    ensures Drifts(line, c + c', a + a', n + n')
  {
    hide Capacity, FunctionalCapacity;
    Distribute(Capacity(line), c, c');
    Distribute(FunctionalCapacity(line), a, a');
    AddDrift(Capacity(line) * c - FunctionalCapacity(line) * a, Capacity(line) * c' - FunctionalCapacity(line) * a', n, n', Capacity(line) * (FINE + 1));
  }

  lemma AddDrift(x: int, y: int, n: int, m: int, b: int)
    requires Abs(2 * FINE * x) <= n * b && Abs(2 * FINE * y) <= m * b
    ensures Abs(2 * FINE * (x + y)) <= (n + m) * b
  {
    assert (n + m) * b == n * b + m * b;
    assert 2 * FINE * (x + y) == 2 * FINE * x + 2 * FINE * y;
  }

  lemma ItemDrifts(line: Line, l: LineId, a: Allocation)
    requires Capacity(line) > 0 && a.amount > 0
    ensures Drifts(line, Counted(l, line)(a), To(l)(a), Partial(l, line)(a))
  {
    if a.line == l && a.amount != Capacity(line) {
      FunctionalNonNegative(line);
      ProRataError(FunctionalCapacity(line), a.amount, Capacity(line));
    } else if a.line == l {
      hide Capacity, FunctionalCapacity;
      assert Counted(l, line)(a) == FunctionalCapacity(line);
      assert Capacity(line) * FunctionalCapacity(line) == FunctionalCapacity(line) * Capacity(line);
    }
  }

  lemma {:induction false} ItemsDrift(line: Line, l: LineId, items: seq<Allocation>)
    requires Capacity(line) > 0 && forall i :: 0 <= i < |items| ==> items[i].amount > 0
    ensures Drifts(line, SumSeq(items, Counted(l, line)), SumSeq(items, To(l)), SumSeq(items, Partial(l, line)))
  {
    hide Capacity, Counted, Partial, To;
    if items == [] {
      NoDrift(line);
    } else {
      var n := |items| - 1;
      hide Drifts;
      ItemsDrift(line, l, items[..n]);
      ItemDrifts(line, l, items[n]);
      DriftsAdd(line, SumSeq(items[..n], Counted(l, line)), SumSeq(items[..n], To(l)), SumSeq(items[..n], Partial(l, line)),
                Counted(l, line)(items[n]), To(l)(items[n]), Partial(l, line)(items[n]));
    }
  }

  lemma NoDrift(line: Line)
    ensures Drifts(line, 0, 0, 0)
  {
  }

  lemma {:induction false} AllDrift(line: Line, l: LineId, reconciliations: map<Id, Reconciliation>, ids: set<Id>)
    requires Capacity(line) > 0 && ids <= reconciliations.Keys
    requires forall r, i :: r in reconciliations && 0 <= i < |reconciliations[r].items| ==> reconciliations[r].items[i].amount > 0
    ensures Drifts(line, SumSet(ids, Across(reconciliations, Counted(l, line))), SumSet(ids, Across(reconciliations, To(l))),
                   SumSet(ids, Across(reconciliations, Partial(l, line))))
  {
    hide Capacity, Counted, Partial, To, Drifts, SumSet;
    if ids == {} {
      NothingToSum(ids, Across(reconciliations, Counted(l, line)));
      NothingToSum(ids, Across(reconciliations, To(l)));
      NothingToSum(ids, Across(reconciliations, Partial(l, line)));
      NoDrift(line);
    } else {
      var r :| r in ids;
      var rest := ids - {r};
      AllDrift(line, l, reconciliations, rest);
      ItemsDrift(line, l, reconciliations[r].items);
      SumSetPick(ids, r, Across(reconciliations, Counted(l, line)));
      SumSetPick(ids, r, Across(reconciliations, To(l)));
      SumSetPick(ids, r, Across(reconciliations, Partial(l, line)));
      DriftsAdd(line, SumSet(rest, Across(reconciliations, Counted(l, line))), SumSet(rest, Across(reconciliations, To(l))),
                SumSet(rest, Across(reconciliations, Partial(l, line))),
                SumSeq(reconciliations[r].items, Counted(l, line)), SumSeq(reconciliations[r].items, To(l)),
                SumSeq(reconciliations[r].items, Partial(l, line)));
    }
  }

  lemma NothingToSum(ids: set<Id>, f: Id -> int)
    requires ids == {}
    ensures SumSet(ids, f) == 0
  {
  }

  lemma AmountsPositive(h: Hashers, db: Db)
    requires Inv(h, db)
    ensures forall r, i :: r in db.reconciliations && 0 <= i < |db.reconciliations[r].items| ==> db.reconciliations[r].items[i].amount > 0
  {
    forall r, i | r in db.reconciliations && 0 <= i < |db.reconciliations[r].items|
      ensures db.reconciliations[r].items[i].amount > 0
    {
      assert SoundReconciliation(db, db.reconciliations[r]);
    }
  }

  lemma SharesAre(reconciliations: map<Id, Reconciliation>, l: LineId)
    ensures TotalAcross(reconciliations, To(l)) == AllocatedTo(reconciliations, l)
  {
    SumSetSame(reconciliations.Keys, Across(reconciliations, To(l)), Share(reconciliations, l));
  }

  lemma NothingCounted(reconciliations: map<Id, Reconciliation>, l: LineId, line: Line)
    requires Capacity(line) == 0
    ensures TotalAcross(reconciliations, Counted(l, line)) == 0 && FunctionalCapacity(line) == 0
    ensures TotalAcross(reconciliations, Partial(l, line)) >= 0
  {
    forall r | r in reconciliations.Keys
      ensures Across(reconciliations, Counted(l, line))(r) == 0 && Across(reconciliations, Partial(l, line))(r) >= 0
    {
      SumSeqZero(reconciliations[r].items, Counted(l, line));
      PartialsNonNegative(reconciliations[r].items, l, line);
    }
    SumSetZero(reconciliations.Keys, Across(reconciliations, Counted(l, line)));
    SumSetNonNegative(reconciliations.Keys, Across(reconciliations, Partial(l, line)));
  }

  lemma {:induction false} PartialsNonNegative(items: seq<Allocation>, l: LineId, line: Line)
    ensures SumSeq(items, Partial(l, line)) >= 0
  {
    if items != [] {
      PartialsNonNegative(items[..|items| - 1], l, line);
    }
  }

  /** In every reachable state: once the live reconciliations of a line add up to its capacity, the functional parts they have counted
      miss its functional amount by at most half of 10^-4 and half of 10^-16 for each allocation that took only a part of it. */
  lemma ExhaustedDrift(h: Hashers, states: seq<Db>, ops: seq<Op>, n: nat, l: LineId)
    requires Run(h, states, ops) && n < |states| && HasLine(states[n], l)
    requires AllocatedTo(states[n].reconciliations, l) == Capacity(LineAt(states[n], l))
    ensures var line := LineAt(states[n], l);
            Abs(2 * FINE * (TotalAcross(states[n].reconciliations, Counted(l, line)) - FunctionalCapacity(line)))
            <= TotalAcross(states[n].reconciliations, Partial(l, line)) * (FINE + 1)
  {
    hide *;
    RunKeeps(h, states, ops, n, n);
    AmountsPositive(h, states[n]);
    ExhaustedIn(states[n].reconciliations, l, LineAt(states[n], l));
  }

  lemma ExhaustedIn(reconciliations: map<Id, Reconciliation>, l: LineId, line: Line)
    requires forall r, i :: r in reconciliations && 0 <= i < |reconciliations[r].items| ==> reconciliations[r].items[i].amount > 0
    requires AllocatedTo(reconciliations, l) == Capacity(line)
    ensures Abs(2 * FINE * (TotalAcross(reconciliations, Counted(l, line)) - FunctionalCapacity(line)))
            <= TotalAcross(reconciliations, Partial(l, line)) * (FINE + 1)
  {
    hide Counted, Partial, To, FunctionalCapacity, AllocatedTo;
    CapacityNonNegative(line);
    hide Capacity;
    if Capacity(line) == 0 {
      NothingCounted(reconciliations, l, line);
      NonNegativeProduct(TotalAcross(reconciliations, Partial(l, line)));
    } else {
      SharesAre(reconciliations, l);
      AllDrift(line, l, reconciliations, reconciliations.Keys);
      DivideDrift(TotalAcross(reconciliations, Counted(l, line)), FunctionalCapacity(line), Capacity(line),
                  TotalAcross(reconciliations, Partial(l, line)));
    }
  }

  lemma CapacityNonNegative(line: Line)
    ensures Capacity(line) >= 0
  {
  }

  lemma NonNegativeProduct(n: int)
    requires n >= 0
    ensures 0 <= n * (FINE + 1)
  {
  }

  lemma FunctionalNonNegative(line: Line)
    ensures FunctionalCapacity(line) >= 0
  {
  }

  lemma DivideDrift(s: int, f: int, k: int, n: int)
    requires k > 0 && Abs(2 * FINE * (k * s - f * k)) <= n * (k * (FINE + 1))
    ensures Abs(2 * FINE * (s - f)) <= n * (FINE + 1)
  {
    var d, b := 2 * FINE * (s - f), n * (FINE + 1);
    assert 2 * FINE * (k * s - f * k) == k * d by {
      assert k * s - f * k == k * (s - f);
    }
    assert n * (k * (FINE + 1)) == k * b;
    CancelBound(d, b, k);
  }

  lemma CancelBound(d: int, b: int, k: int)
    requires k > 0 && Abs(k * d) <= k * b
    ensures Abs(d) <= b
  {
    if d > b {
      MulGap(k, d, b);
    } else if -d > b {
      MulGap(k, -d, b);
    }
  }

  // The list of lines that are open for reconciliation.

  /** The condition of ListUnreconciledLines, without the filter on account and currency. */
  predicate IsUnreconciled(db: Db, l: LineId) {
    && HasLine(db, l) && IsPosted(db, l.move)
    && LineAt(db, l).account in db.accounts && db.accounts[LineAt(db, l).account].reconcilable
    && Capacity(LineAt(db, l)) > Reconciled(db, l)
  }

  ghost predicate Allocatable(db: Db, date: Date, l: LineId, amount: Amount) {
    CheckAllocation(db, date, 0, "", [Allocation(l, amount)], 0).Ok?
  }

  /** The amounts that can be allocated are all those from the smallest up to the residual, on a line that is listed as unreconciled,
      up to what the list leaves out: whether its account is active and whether the reconciliation is dated on or after it. So a line is
      listed exactly when some amount of it can still be allocated. */
  lemma ListedIfAllocatable(db: Db, date: Date, l: LineId)
    ensures forall amount :: Allocatable(db, date, l, amount) <==>
              && IsUnreconciled(db, l) && db.accounts[LineAt(db, l).account].active && date >= LineAt(db, l).date
              && 0 < amount <= Capacity(LineAt(db, l)) - Reconciled(db, l)
    ensures (exists amount :: Allocatable(db, date, l, amount))
            <==> IsUnreconciled(db, l) && db.accounts[LineAt(db, l).account].active && date >= LineAt(db, l).date
  {
    hide Capacity;
    assert forall amount :: [Allocation(l, amount)][..0] == [];
    if IsUnreconciled(db, l) && db.accounts[LineAt(db, l).account].active && date >= LineAt(db, l).date {
      assert Allocatable(db, date, l, Capacity(LineAt(db, l)) - Reconciled(db, l));
    }
  }
}
