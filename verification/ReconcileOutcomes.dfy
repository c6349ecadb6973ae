/** Reconciling and undoing, written out on the tables: exactly when each commits, and every field it writes. */
module ReconcileOutcomes {
  import opened Sums
  import opened Ledger
  import opened MoveNames
  import opened Tables
  import opened Steps
  import opened ReconcileTotals
  import opened Allocations
  import opened PostingKeeps
  import opened OperationsKeep
  import opened PostingOutcomes
  import opened ReconciliationResults

  // The move for a realised difference.

  /** What the move for a realised difference needs: the configured journal and accounts, the period found for the date and a new id. */
  ghost predicate FxFits(db: Db, fxId: Id, date: Date, found: Option<Id>) {
    && db.config.Some? && found.Some? && PeriodTakes(db, found.value, date) && fxId !in db.moves
    && var c := db.config.value;
       && c.fxJournal in db.journals && db.journals[c.fxJournal].active && NumberFree(db, c.fxJournal)
       && c.gain in db.accounts && db.accounts[c.gain].active && db.accounts[c.gain].kind == Income
       && c.loss in db.accounts && db.accounts[c.loss].active && db.accounts[c.loss].kind == Expense
  }

  /** One line takes the difference off the reconciled account, the other puts it on loss or gain. */
  ghost predicate FxPair(lines: seq<Line>, own: Id, realized: Amount, date: Date, c: Config) {
    if realized > 0 then
      lines == [Line(own, None, None, 0, realized, 0, c.currency, "", date), Line(c.loss, None, None, realized, 0, 0, c.currency, "", date)]
    else
      lines == [Line(own, None, None, -realized, 0, 0, c.currency, "", date), Line(c.gain, None, None, 0, -realized, 0, c.currency, "", date)]
  }

  function FxEntry(account: Id, realized: Amount, date: Date, period: Id, actor: Id, now: nat, c: Config): Entry {
    Entry(c.fxJournal, period, date, None, Some(actor), Some(actor), now, FxLines(account, realized, date, c))
  }

  lemma SettleCommits(h: Hashers, db: Db, account: Id, realized: Amount, date: Date, found: Option<Id>, actor: Id, fxId: Id, now: nat)
    requires account in db.accounts
    ensures SettleFx(h, db, account, realized, date, found, actor, fxId, now).Ok? <==> realized == 0 || FxFits(db, fxId, date, found)
  {
    if found.Some? && db.config.Some? {
      LockIs(db, found.value, date);
      InsertFits(h, db, fxId, FxEntry(account, realized, date, found.value, actor, now, db.config.value));
    }
    hide InsertPosted, LockOpenPeriod, NumberFree;
  }

  lemma SettleWrites(h: Hashers, db: Db, account: Id, realized: Amount, date: Date, found: Option<Id>, actor: Id, fxId: Id, now: nat, after: Db)
    requires SettleFx(h, db, account, realized, date, found, actor, fxId, now) == Ok(after)
    ensures realized == 0 ==> after == db
    ensures realized != 0 ==>
              && db.config.Some? && found.Some? && fxId !in db.moves && fxId in after.moves && OnlyPosts(db, after)
              && PostsOne(db, after, fxId, Entry(db.config.value.fxJournal, found.value, date, None, Some(actor), Some(actor), now, after.moves[fxId].lines))
              && FxPair(after.moves[fxId].lines, account, realized, date, db.config.value)
              && AddsRow(db, after, "account_move", fxId, "POST", actor, now)
  {
    if realized != 0 {
      var e := FxEntry(account, realized, date, found.value, actor, now, db.config.value);
      assert FxPair(e.lines, account, realized, date, db.config.value);
      InsertFits(h, db, fxId, e);
      PostingLogged(h, db, fxId, e, PostRow(h, db, fxId, e).value, fxId, "POST", actor, now);
      hide InsertPosted, PostRow, FxLines, FxPair, OnlyPosts, AddsRow, NumberFree, AccountsKnown;
    }
  }

  // Reconciling.

  /** A reconciliation commits exactly with an actor, two or more accepted items, equal and positive amounts on both sides and a new id,
      if no difference is realised or the move for it fits. */
  lemma ReconcileCommits(h: Hashers, db: Db, id: Id, fxId: Id, date: Date, found: Option<Id>, actor: Id, account: Id, currency: string,
                         items: seq<Allocation>, now: nat)
    ensures Reconcile(h, db, id, fxId, date, found, actor, account, currency, items, now).Ok? <==>
            && actor != 0 && |items| >= 2 && (forall i :: 0 <= i < |items| ==> Accepted(db, date, account, currency, items, i))
            && SumSeq(items, DebitAmount(db)) == SumSeq(items, CreditAmount(db)) > 0 && id !in db.reconciliations
            && (SumSeq(items, SignedPart(db)) == 0 || FxFits(db, fxId, date, found))
  {
    hide *;
    TestsPass(db, id, date, actor, account, currency, items);
    var checked := CheckReconcile(db, id, date, actor, account, currency, items);
    if checked.Ok? {
      var t := checked.value;
      TotalsAre(db, date, account, currency, items, |items|, t);
      assert items[..|items|] == items;
      SettlesAfter(h, db, id, fxId, date, found, actor, account, currency, items, now, t);
    } else {
      NotChecked(h, db, id, fxId, date, found, actor, account, currency, items, now);
    }
  }

  lemma NotChecked(h: Hashers, db: Db, id: Id, fxId: Id, date: Date, found: Option<Id>, actor: Id, account: Id, currency: string,
                   items: seq<Allocation>, now: nat)
    requires CheckReconcile(db, id, date, actor, account, currency, items).Err?
    ensures Reconcile(h, db, id, fxId, date, found, actor, account, currency, items, now).Err?
  {
    hide CheckReconcile, SettleFx, Allocate;
  }

  /** Once the tests have passed, the reconciliation commits exactly if its difference can be settled. */
  lemma SettlesAfter(h: Hashers, db: Db, id: Id, fxId: Id, date: Date, found: Option<Id>, actor: Id, account: Id, currency: string,
                     items: seq<Allocation>, now: nat, t: Totals)
    requires CheckReconcile(db, id, date, actor, account, currency, items) == Ok(t)
    ensures Reconcile(h, db, id, fxId, date, found, actor, account, currency, items, now).Ok? <==>
            t.debitFunctional == t.creditFunctional || FxFits(db, fxId, date, found)
  {
    hide CheckReconcile, CheckAllocations, SettleFx, FxFits, Allocate, Reconcile;
    FirstOwned(db, id, date, actor, account, currency, items, t);
    var r := NewReconciliation(db, fxId, date, t, items);
    var entered := Entered(db, id, r);
    SettleCommits(h, entered, r.account, t.debitFunctional - t.creditFunctional, date, found, actor, fxId, now);
    SameFits(db, entered, fxId, date, found);
    ThenSettles(h, db, id, fxId, date, found, actor, account, currency, items, now, t);
  }

  lemma ThenSettles(h: Hashers, db: Db, id: Id, fxId: Id, date: Date, found: Option<Id>, actor: Id, account: Id, currency: string,
                    items: seq<Allocation>, now: nat, t: Totals)
    requires CheckReconcile(db, id, date, actor, account, currency, items) == Ok(t) && items != [] && HasLine(db, items[0].line)
    requires forall i :: 0 <= i < |items| ==> items[i].amount > 0
    ensures var r := NewReconciliation(db, fxId, date, t, items);
            Reconcile(h, db, id, fxId, date, found, actor, account, currency, items, now).Ok? <==>
            SettleFx(h, Entered(db, id, r), r.account, t.debitFunctional - t.creditFunctional, date, found, actor, fxId, now).Ok?
  {
    hide CheckReconcile, CheckAllocations, SettleFx, Allocate, Entered;
  }

  lemma FirstOwned(db: Db, id: Id, date: Date, actor: Id, account: Id, currency: string, items: seq<Allocation>, t: Totals)
    requires CheckReconcile(db, id, date, actor, account, currency, items) == Ok(t)
    ensures items != [] && HasLine(db, items[0].line) && LineAt(db, items[0].line).account in db.accounts
    ensures forall i :: 0 <= i < |items| ==> items[i].amount > 0
  {
    hide CheckAllocations, CheckReconcile, DebitAmount, CreditAmount;
    TestsPass(db, id, date, actor, account, currency, items);
    assert Accepted(db, date, account, currency, items, 0);
  }

  lemma SameFits(db: Db, entered: Db, fxId: Id, date: Date, found: Option<Id>)
    requires entered == db.(reconciled := entered.reconciled, reconciliations := entered.reconciliations)
    ensures FxFits(entered, fxId, date, found) <==> FxFits(db, fxId, date, found)
  {
    hide SequenceName;
  }

  /** It enters the reconciliation of that account and currency with its items, adds every item to the reconciled amount of its line, and
      logs that last. Without a realised difference it writes nothing else; with one it also posts and logs the move for it. */
  lemma ReconcileWrites(h: Hashers, db: Db, id: Id, fxId: Id, date: Date, found: Option<Id>, actor: Id, account: Id, currency: string,
                        items: seq<Allocation>, now: nat, after: Db)
    requires Reconcile(h, db, id, fxId, date, found, actor, account, currency, items, now) == Ok(after)
    ensures items != [] && HasLine(db, items[0].line)
    ensures var realized, first := SumSeq(items, SignedPart(db)), LineAt(db, items[0].line);
      && after.reconciliations == db.reconciliations[id := Reconciliation(date, first.account, first.currency,
                                                                          if realized == 0 then None else Some(fxId), items)]
      && (forall l :: Reconciled(after, l) == Reconciled(db, l) + AllocatedBy(items, l))
      && OthersKept(db, after) && LogsLast(after, "account_reconciliation", id, "RECONCILE", actor, now)
      && (realized == 0 ==> after.moves == db.moves && after.journals == db.journals && after.audit[..|after.audit| - 1] == db.audit)
      && (realized != 0 ==>
            && PostsFx(db, after, fxId, first.account, realized, date, found, actor, now)
            && AddsRow(db, after.(audit := after.audit[..|after.audit| - 1]), "account_move", fxId, "POST", actor, now))
  {
    hide *;
    ReconcileAdds(h, db, id, fxId, date, found, actor, account, currency, items, now, after);
    var t, settled := ReconcileIs(h, db, id, fxId, date, found, actor, account, currency, items, now);
    FirstOf(h, db, id, fxId, date, found, actor, account, currency, items, now, t, settled);
    SettledIs(h, db, id, fxId, date, found, actor, account, currency, items, now, t, settled);
    RealizedIs(db, id, date, actor, account, currency, items, t);
    LogsAfter(h, settled, after, id, "RECONCILE", actor, now);
    SameFx(db, settled, after, fxId, LineAt(db, items[0].line).account, t.debitFunctional - t.creditFunctional, date, found, actor, now);
    SameOthers(db, settled, after);
  }

  /** The move for a realised difference: posted in the configured journal and in the period found, by the actor. */
  ghost predicate PostsFx(db: Db, after: Db, fxId: Id, own: Id, realized: Amount, date: Date, found: Option<Id>, actor: Id, now: nat) {
    && db.config.Some? && found.Some? && fxId !in db.moves && fxId in after.moves
    && PostsOne(db, after, fxId, Entry(db.config.value.fxJournal, found.value, date, None, Some(actor), Some(actor), now, after.moves[fxId].lines))
    && FxPair(after.moves[fxId].lines, own, realized, date, db.config.value)
  }

  /** after is before with one more row in the log, and other reconciliations. */
  lemma LogsAfter(h: Hashers, before: Db, after: Db, id: Id, action: string, actor: Id, now: nat)
    requires after == Logged(h, before, "account_reconciliation", id, action, actor, "", now).(reconciliations := after.reconciliations)
    ensures LogsLast(after, "account_reconciliation", id, action, actor, now)
    ensures after.audit[..|after.audit| - 1] == before.audit
    ensures after == before.(audit := after.audit, reconciliations := after.reconciliations)
    ensures after == Logged(h, before, "account_reconciliation", id, action, actor, "", now) ==> after.reconciliations == before.reconciliations
  {
  }

  lemma SameFx(db: Db, settled: Db, after: Db, fxId: Id, own: Id, realized: Amount, date: Date, found: Option<Id>, actor: Id, now: nat)
    requires after == settled.(audit := after.audit, reconciliations := after.reconciliations)
    ensures PostsFx(db, settled, fxId, own, realized, date, found, actor, now) ==> PostsFx(db, after, fxId, own, realized, date, found, actor, now)
  {
    hide IsRowOf, FxPair;
  }

  lemma SameOthers(db: Db, settled: Db, after: Db)
    requires after == settled.(audit := after.audit, reconciliations := after.reconciliations)
    ensures OthersKept(db, settled) ==> OthersKept(db, after)
  {
  }

  /** Accounts, years, periods, configuration and events stay. */
  ghost predicate OthersKept(db: Db, after: Db) {
    && after.accounts == db.accounts && after.years == db.years && after.periods == db.periods && after.config == db.config
    && after.events == db.events
  }

  lemma FirstOf(h: Hashers, db: Db, id: Id, fxId: Id, date: Date, found: Option<Id>, actor: Id, account: Id, currency: string,
                items: seq<Allocation>, now: nat, t: Totals, settled: Db)
    requires Settles(h, db, id, fxId, date, found, actor, account, currency, items, now, t, settled)
    ensures CheckReconcile(db, id, date, actor, account, currency, items) == Ok(t)
    ensures items != [] && HasLine(db, items[0].line)
  {
    hide CheckAllocations, SettleFx, Allocate;
  }

  /** The tables once the difference is settled. */
  lemma SettledIs(h: Hashers, db: Db, id: Id, fxId: Id, date: Date, found: Option<Id>, actor: Id, account: Id, currency: string,
                  items: seq<Allocation>, now: nat, t: Totals, settled: Db)
    requires Settles(h, db, id, fxId, date, found, actor, account, currency, items, now, t, settled)
    requires items != [] && HasLine(db, items[0].line)
    ensures var realized, first := t.debitFunctional - t.creditFunctional, LineAt(db, items[0].line);
      && settled.reconciliations == db.reconciliations[id := Reconciliation(date, first.account, first.currency,
                                                                            if realized == 0 then None else Some(fxId), items)]
      && OthersKept(db, settled)
      && (realized == 0 ==> settled.moves == db.moves && settled.journals == db.journals && settled.audit == db.audit)
      && (realized != 0 ==>
            && PostsFx(db, settled, fxId, first.account, realized, date, found, actor, now)
            && AddsRow(db, settled, "account_move", fxId, "POST", actor, now))
  {
    hide CheckReconcile, CheckAllocations, SettleFx, Allocate, FxPair, IsRowOf, AddsRow;
    var r := NewReconciliation(db, fxId, date, t, items);
    SettleWrites(h, Entered(db, id, r), r.account, t.debitFunctional - t.creditFunctional, date, found, actor, fxId, now, settled);
    SameRow(Entered(db, id, r), settled, db, settled, "account_move", fxId, "POST", actor, now);
  }

  /** Whether a row is added is seen from the log alone. */
  lemma SameRow(db: Db, after: Db, db': Db, after': Db, entityType: string, entity: Id, action: string, actor: Id, at: int)
    requires db.audit == db'.audit && after.audit == after'.audit
    ensures AddsRow(db, after, entityType, entity, action, actor, at) ==> AddsRow(db', after', entityType, entity, action, actor, at)
  {
  }

  lemma RealizedIs(db: Db, id: Id, date: Date, actor: Id, account: Id, currency: string, items: seq<Allocation>, t: Totals)
    requires CheckReconcile(db, id, date, actor, account, currency, items) == Ok(t)
    ensures SumSeq(items, SignedPart(db)) == t.debitFunctional - t.creditFunctional
  {
    TotalsAre(db, date, account, currency, items, |items|, t);
    assert items[..|items|] == items;
  }

  /** The last row of the log. */
  ghost predicate LogsLast(db: Db, entityType: string, entity: Id, action: string, actor: Id, at: int) {
    && db.audit != []
    && var row := db.audit[|db.audit| - 1];
       && row.entityType == entityType && row.actor == actor
       && row.fields.entity == entity && row.fields.action == action && row.fields.at == at
  }

  // Undoing.

  /** A reconciliation of a sound state is undone exactly with an id and an actor, if it is there and has no FX move or one that can be
      reversed now. */
  lemma UnreconcileCommits(h: Hashers, db: Db, id: Id, reversalId: Id, date: Date, found: Option<Id>, actor: Id, now: nat)
    requires Inv(h, db)
    ensures Unreconcile(h, db, id, reversalId, date, found, actor, now).Ok? <==>
            && id != 0 && actor != 0 && id in db.reconciliations
            && (db.reconciliations[id].fxMove.Some? ==>
                  Reversible(db, db.reconciliations[id].fxMove.value, reversalId) && found.Some? && PeriodTakes(db, found.value, date))
  {
    hide *;
    UndoChecks(h, db, id, reversalId, date, found, actor, now);
    if id in db.reconciliations && id != 0 && actor != 0 {
      var r := db.reconciliations[id];
      Releasable(h, db, id);
      UndoIs(h, db, id, reversalId, date, found, actor, now);
      var restored := db.(reconciled := Release(db.reconciled, r.items).value);
      UndoFxCommits(h, db, restored, r.fxMove, reversalId, date, found, actor, now);
    }
  }

  lemma UndoChecks(h: Hashers, db: Db, id: Id, reversalId: Id, date: Date, found: Option<Id>, actor: Id, now: nat)
    ensures Unreconcile(h, db, id, reversalId, date, found, actor, now).Ok? ==> id != 0 && actor != 0 && id in db.reconciliations
  {
    hide Release, UndoFx;
  }

  lemma Releasable(h: Hashers, db: Db, id: Id)
    requires Inv(h, db) && id in db.reconciliations
    ensures Release(db.reconciled, db.reconciliations[id].items).Ok?
  {
    LiveReconciliationReleases(db, id);
  }

  lemma UndoFxCommits(h: Hashers, db: Db, restored: Db, fxMove: Option<Id>, reversalId: Id, date: Date, found: Option<Id>, actor: Id, now: nat)
    requires restored == db.(reconciled := restored.reconciled)
    ensures UndoFx(h, restored, fxMove, reversalId, date, found, actor, now).Ok? <==>
            (fxMove.Some? ==> Reversible(db, fxMove.value, reversalId) && found.Some? && PeriodTakes(db, found.value, date))
  {
    hide ReverseFxMove, Reversible;
    if fxMove.Some? {
      FxReversalCommits(h, restored, fxMove.value, reversalId, date, found, actor, now);
      SameReversal(db, restored, fxMove.value, reversalId);
    }
  }

  lemma SameReversal(db: Db, restored: Db, original: Id, id: Id)
    requires restored == db.(reconciled := restored.reconciled)
    ensures Reversible(restored, original, id) <==> Reversible(db, original, id)
  {
    hide SequenceName;
  }

  /** It drops the reconciliation, takes every item off the reconciled amount of its line, and logs that last. Without an FX move it writes nothing
      else; with one it also posts and logs the reversal of that move, in its journal and without matching keys. */
  lemma UnreconcileWrites(h: Hashers, db: Db, id: Id, reversalId: Id, date: Date, found: Option<Id>, actor: Id, now: nat, after: Db)
    requires Inv(h, db) && Unreconcile(h, db, id, reversalId, date, found, actor, now) == Ok(after)
    ensures id in db.reconciliations && id !in after.reconciliations
    ensures forall k :: k in db.reconciliations && k != id ==> k in after.reconciliations && after.reconciliations[k] == db.reconciliations[k]
    ensures after.reconciliations.Keys <= db.reconciliations.Keys
    ensures forall l :: Reconciled(after, l) == Reconciled(db, l) - AllocatedBy(db.reconciliations[id].items, l)
    ensures OthersKept(db, after) && LogsLast(after, "account_reconciliation", id, "UNRECONCILE", actor, now)
    ensures var fx := db.reconciliations[id].fxMove;
      && (fx.None? ==> after.moves == db.moves && after.journals == db.journals && after.audit[..|after.audit| - 1] == db.audit)
      && (fx.Some? ==>
            && PostsUndo(db, after, fx.value, reversalId, date, found, actor, now)
            && AddsRow(db, after.(audit := after.audit[..|after.audit| - 1]), "account_move", reversalId, "REVERSE", actor, now))
  {
    hide *;
    UndoSubtracts(h, db, id, reversalId, date, found, actor, now, after);
    var restored, settled := UndoneIs(h, db, id, reversalId, date, found, actor, now, after);
    UndoFxWrites(h, db, restored, db.reconciliations[id].fxMove, reversalId, date, found, actor, now, settled);
    LogsAfter(h, settled, after, id, "UNRECONCILE", actor, now);
    if db.reconciliations[id].fxMove.Some? {
      SameUndo(db, settled, after, db.reconciliations[id].fxMove.value, reversalId, date, found, actor, now);
      SameRow(db, settled, db, after.(audit := after.audit[..|after.audit| - 1]), "account_move", reversalId, "REVERSE", actor, now);
    }
    SameOthers(db, settled, after);
  }

  /** The reversal of the FX move: posted in the journal of that move and in the period found, by the actor, without matching keys. */
  ghost predicate PostsUndo(db: Db, after: Db, fx: Id, reversalId: Id, date: Date, found: Option<Id>, actor: Id, now: nat) {
    && fx in db.moves && reversalId !in db.moves && reversalId in after.moves && found.Some?
    && PostsOne(db, after, reversalId,
                Entry(db.moves[fx].journal, found.value, date, Some(fx), Some(actor), None, now, after.moves[reversalId].lines))
    && Undoes(db.moves[fx].lines, after.moves[reversalId].lines, date, false)
  }

  lemma SameUndo(db: Db, settled: Db, after: Db, fx: Id, reversalId: Id, date: Date, found: Option<Id>, actor: Id, now: nat)
    requires after.moves == settled.moves && after.journals == settled.journals
    ensures PostsUndo(db, settled, fx, reversalId, date, found, actor, now) ==> PostsUndo(db, after, fx, reversalId, date, found, actor, now)
  {
    hide IsRowOf, Undoes;
  }

  lemma UndoneIs(h: Hashers, db: Db, id: Id, reversalId: Id, date: Date, found: Option<Id>, actor: Id, now: nat, after: Db)
    returns (restored: Db, settled: Db)
    requires Unreconcile(h, db, id, reversalId, date, found, actor, now) == Ok(after)
    ensures id in db.reconciliations && restored == db.(reconciled := restored.reconciled)
    ensures UndoFx(h, restored, db.reconciliations[id].fxMove, reversalId, date, found, actor, now) == Ok(settled)
    ensures after == Logged(h, settled, "account_reconciliation", id, "UNRECONCILE", actor, "", now).(reconciliations := after.reconciliations)
  {
    hide UndoFx, Release;
    restored := db.(reconciled := Release(db.reconciled, db.reconciliations[id].items).value);
    settled := UndoFx(h, restored, db.reconciliations[id].fxMove, reversalId, date, found, actor, now).value;
  }

  /** The tables once the FX move is reversed, before the last row is logged and the reconciliation dropped. */
  lemma UndoFxWrites(h: Hashers, db: Db, restored: Db, fxMove: Option<Id>, reversalId: Id, date: Date, found: Option<Id>, actor: Id, now: nat, settled: Db)
    requires restored == db.(reconciled := restored.reconciled)
    requires UndoFx(h, restored, fxMove, reversalId, date, found, actor, now) == Ok(settled)
    ensures OthersKept(db, settled)
    ensures fxMove.None? ==> settled.moves == db.moves && settled.journals == db.journals && settled.audit == db.audit
    ensures fxMove.Some? ==>
              && PostsUndo(db, settled, fxMove.value, reversalId, date, found, actor, now)
              && AddsRow(db, settled, "account_move", reversalId, "REVERSE", actor, now)
  {
    hide ReverseFxMove, IsRowOf, Undoes, AddsRow, AccountsKnown, NumberFree;
    if fxMove.Some? {
      FxReversalWrites(h, restored, fxMove.value, reversalId, date, found, actor, now, settled);
      FxReversalCommits(h, restored, fxMove.value, reversalId, date, found, actor, now);
      SameRow(restored, settled, db, settled, "account_move", reversalId, "REVERSE", actor, now);
    }
  }
}
