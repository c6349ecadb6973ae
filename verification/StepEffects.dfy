/** What a step does besides its purpose: which tables it leaves alone, where it posts, and what it logs about its postings. */
module StepEffects {
  import opened Ledger
  import opened MoveNames
  import opened AuditChain
  import opened Tables
  import opened Steps
  import opened PostingKeeps
  import opened OperationsKeep
  import opened Runs

  predicate IsDraft(db: Db, m: Id) {
    m in db.moves && db.moves[m].state == Draft
  }

  /** Drafts may leave, by posting or deletion, but none appears or changes. */
  ghost predicate DraftsKept(db: Db, after: Db) {
    forall m :: IsDraft(after, m) ==> IsDraft(db, m) && after.moves[m] == db.moves[m]
  }

  ghost predicate NewlyPosted(db: Db, after: Db, m: Id) {
    IsPosted(after, m) && !IsPosted(db, m)
  }

  ghost predicate IsOpen(db: Db, p: Id) {
    p in db.periods && db.periods[p].state == Open
  }

  ghost predicate TakesPosting(db: Db, p: Id, date: Date) {
    IsOpen(db, p) && Covers(db.periods[p], date)
  }

  /** Everything the step posts goes into periods that were open and cover its date. */
  ghost predicate PostsIntoOpen(db: Db, after: Db) {
    forall m :: NewlyPosted(db, after, m) ==> TakesPosting(db, after.moves[m].period, after.moves[m].date)
  }

  predicate IsRow(r: AuditRow, entity: Id, action: string, actor: Id) {
    r.fields.entity == entity && r.fields.action == action && r.actor == actor
  }

  ghost predicate HasRow(db: Db, entity: Id, action: string, actor: Id) {
    exists i :: 0 <= i < |db.audit| && IsRow(db.audit[i], entity, action, actor)
  }

  /** A row about the posting of m, or about the reversal of the move that m reverses, by the actor recorded on m. */
  ghost predicate IsAudited(db: Db, m: Id) {
    && m in db.moves && db.moves[m].postedBy.Some?
    && var actor := db.moves[m].postedBy.value;
       || HasRow(db, m, "POST", actor) || HasRow(db, m, "INGEST_POST", actor) || HasRow(db, m, "REVERSE", actor)
       || (db.moves[m].reverses.Some? && HasRow(db, db.moves[m].reverses.value, "REVERSE", actor))
  }

  ghost predicate PostsAudited(db: Db, after: Db) {
    forall m :: NewlyPosted(db, after, m) ==> IsAudited(after, m)
  }

  /** The name of the row is the prefix of its journal with its number. */
  ghost predicate NamedFrom(db: Db, row: Move) {
    row.journal in db.journals && row.name == SequenceName(db.journals[row.journal].prefix, row.number)
  }

  ghost predicate PostsNamed(db: Db, after: Db) {
    forall m :: NewlyPosted(db, after, m) ==> NamedFrom(db, after.moves[m])
  }

  predicate PrefixesKept(db: Db, after: Db) {
    forall j :: j in after.journals ==> j in db.journals && after.journals[j].prefix == db.journals[j].prefix
  }

  ghost predicate Frames(db: Db, after: Db) {
    DraftsKept(db, after) && after.events == db.events && after.accounts == db.accounts
  }

  ghost predicate Effects(db: Db, after: Db) {
    Frames(db, after) && PostsIntoOpen(db, after) && PostsAudited(db, after) && PostsNamed(db, after)
  }

  lemma AuditedStays(db: Db, after: Db, m: Id)
    requires db.audit <= after.audit && IsAudited(db, m) && m in after.moves && after.moves[m] == db.moves[m]
    ensures IsAudited(after, m)
  {
    forall entity, action, actor | HasRow(db, entity, action, actor)
      ensures HasRow(after, entity, action, actor)
    {
      var i :| 0 <= i < |db.audit| && IsRow(db.audit[i], entity, action, actor);
      assert after.audit[i] == db.audit[i];
    }
  }

  // One posting.

  /** The action that a transaction logs fits the move it posts. */
  predicate Logs(id: Id, e: Entry, entity: Id, action: string) {
    || (entity == id && (action == "POST" || action == "INGEST_POST" || action == "REVERSE"))
    || (e.reverses == Some(entity) && action == "REVERSE")
  }

  lemma PostRowPosts(h: Hashers, db: Db, id: Id, e: Entry, posted: Db)
    requires PostRow(h, db, id, e) == Ok(posted)
    ensures forall m :: NewlyPosted(db, posted, m) ==> m == id
    ensures IsPosted(posted, id) && posted.moves[id].period == e.period && posted.moves[id].date == e.date && posted.periods == db.periods
    ensures posted.moves[id].postedBy == e.postedBy && posted.moves[id].reverses == e.reverses
    ensures Frames(db, posted) && posted.audit == db.audit
    ensures NamedFrom(db, posted.moves[id]) && PrefixesKept(db, posted)
  {
  }

  lemma LoggedPosting(h: Hashers, db: Db, id: Id, e: Entry, posted: Db, entity: Id, action: string, actor: Id, at: int)
    requires PostRow(h, db, id, e) == Ok(posted) && e.postedBy == Some(actor) && Logs(id, e, entity, action)
    ensures var after := Logged(h, posted, "account_move", entity, action, actor, "", at);
            && Frames(db, after) && PostsAudited(db, after) && PostsNamed(db, after) && (TakesPosting(db, e.period, e.date) ==> PostsIntoOpen(db, after))
            && (forall m :: NewlyPosted(db, after, m) ==> m == id) && after.moves == posted.moves && db.audit <= after.audit
  {
    var after := Logged(h, posted, "account_move", entity, action, actor, "", at);
    PostRowPosts(h, db, id, e, posted);
    hide PostRow;
    assert IsRow(after.audit[|after.audit| - 1], entity, action, actor);
    assert HasRow(after, entity, action, actor);
  }

  /** What surrounds the posting in a transaction does not touch moves, periods, keys or accounts and only adds to the log. */
  lemma EffectsFramed(db: Db, start: Db, settled: Db, after: Db)
    requires start == db.(reconciled := start.reconciled, reconciliations := start.reconciliations) && Effects(start, settled)
    requires after.moves == settled.moves && settled.audit <= after.audit && after.events == settled.events && after.accounts == settled.accounts
    ensures Effects(db, after)
  {
    hide IsAudited, SequenceName;
    forall m | NewlyPosted(db, after, m)
      ensures IsAudited(after, m) && TakesPosting(db, after.moves[m].period, after.moves[m].date) && NamedFrom(db, after.moves[m])
    {
      assert NewlyPosted(start, settled, m) && NamedFrom(start, settled.moves[m]);
      AuditedStays(settled, after, m);
    }
    forall m | IsDraft(after, m)
      ensures IsDraft(db, m) && after.moves[m] == db.moves[m]
    {
      assert IsDraft(settled, m) && IsDraft(start, m);
    }
  }

  lemma NothingPosted(db: Db)
    ensures Effects(db, db)
  {
  }

  // Every transaction.

  lemma PostDraftEffects(h: Hashers, db: Db, move: Loaded, actor: Id, now: nat, after: Db)
    requires PostDraft(h, db, move, actor, now) == Ok(after)
    ensures Effects(db, after)
  {
    hide PostRow, Frames, PostsAudited, PostsNamed, PostsIntoOpen, LinesHold;
    var row := db.moves[move.id];
    var e := Entry(row.journal, row.period, row.date, row.reverses, Some(actor), row.createdBy, now, move.lines);
    LoggedPosting(h, db, move.id, e, PostRow(h, db, move.id, e).value, move.id, "POST", actor, now);
  }

  lemma PostEventEffects(h: Hashers, db: Db, key: string, id: Id, journal: Id, period: Id, date: Date, now: nat,
                         lines: seq<Line>, after: Db)
    requires PostEvent(h, db, key, id, journal, period, date, now, lines) == Ok(after)
    ensures PostsIntoOpen(db, after) && PostsAudited(db, after) && PostsNamed(db, after) && DraftsKept(db, after)
    ensures key !in db.events && after.events == db.events[key := id] && after.accounts == db.accounts
    ensures id in after.moves && id !in db.moves
  {
    hide PostRow, PostsAudited, PostsNamed, PostsIntoOpen, DraftsKept, ReferencesHold, NamedFrom;
    var e := Entry(journal, period, date, None, Some(0), None, now, Redated(lines, date));
    var posted := PostRow(h, db, id, e).value;
    var logged := Logged(h, posted, "account_move", id, "INGEST_POST", 0, "", now);
    PostRowPosts(h, db, id, e, posted);
    LoggedPosting(h, db, id, e, posted, id, "INGEST_POST", 0, now);
    KeyAdded(db, logged, key, id);
  }

  lemma KeyAdded(db: Db, logged: Db, key: string, id: Id)
    ensures PostsIntoOpen(db, logged) ==> PostsIntoOpen(db, WithEvent(logged, key, id))
    ensures PostsAudited(db, logged) ==> PostsAudited(db, WithEvent(logged, key, id))
    ensures PostsNamed(db, logged) ==> PostsNamed(db, WithEvent(logged, key, id))
    ensures DraftsKept(db, logged) ==> DraftsKept(db, WithEvent(logged, key, id))
  {
    hide IsAudited, NamedFrom;
    var after := WithEvent(logged, key, id);
    forall m | PostsAudited(db, logged) && NewlyPosted(db, after, m)
      ensures IsAudited(after, m)
    {
      assert NewlyPosted(db, logged, m);
      AuditedStays(logged, after, m);
    }
    assert forall m :: NewlyPosted(db, after, m) ==> NewlyPosted(db, logged, m);
    assert forall m :: IsDraft(after, m) ==> IsDraft(logged, m);
  }

  lemma ReverseMoveEffects(h: Hashers, db: Db, original: Id, id: Id, period: Id, date: Date, actor: Id, now: nat, after: Db)
    requires ReverseMove(h, db, original, id, period, date, actor, now) == Ok(after)
    ensures Effects(db, after)
  {
    hide PostRow, Frames, PostsAudited, PostsNamed, PostsIntoOpen;
    var e := Entry(db.moves[original].journal, period, date, Some(original), Some(actor), None, now,
                   Mirrored(db.moves[original].lines, date, true));
    LoggedPosting(h, db, id, e, PostRow(h, db, id, e).value, original, "REVERSE", actor, now);
  }

  lemma SettleFxEffects(h: Hashers, db: Db, account: Id, realized: Amount, date: Date, found: Option<Id>, actor: Id,
                        fxId: Id, now: nat, after: Db)
    requires SettleFx(h, db, account, realized, date, found, actor, fxId, now) == Ok(after)
    ensures Effects(db, after) && db.audit <= after.audit
  {
    hide PostRow, Frames, PostsAudited, PostsNamed, PostsIntoOpen;
    if realized != 0 {
      var config := db.config.value;
      var e := Entry(config.fxJournal, found.value, date, None, Some(actor), Some(actor), now,
                     FxLines(account, realized, date, config));
      LoggedPosting(h, db, fxId, e, PostRow(h, db, fxId, e).value, fxId, "POST", actor, now);
    } else {
      NothingPosted(db);
    }
  }

  lemma UndoFxEffects(h: Hashers, db: Db, fxMove: Option<Id>, id: Id, date: Date, found: Option<Id>, actor: Id, now: nat, after: Db)
    requires UndoFx(h, db, fxMove, id, date, found, actor, now) == Ok(after)
    ensures Effects(db, after) && db.audit <= after.audit
  {
    hide PostRow, Frames, PostsAudited, PostsNamed, PostsIntoOpen;
    if fxMove.Some? {
      var original := fxMove.value;
      var e := Entry(db.moves[original].journal, found.value, date, Some(original), Some(actor), None, now,
                     Mirrored(db.moves[original].lines, date, false));
      LoggedPosting(h, db, id, e, PostRow(h, db, id, e).value, id, "REVERSE", actor, now);
    } else {
      NothingPosted(db);
    }
  }

  lemma ReconcileEffects(h: Hashers, db: Db, id: Id, fxId: Id, date: Date, found: Option<Id>, actor: Id, account: Id,
                         currency: string, items: seq<Allocation>,
                         now: nat, after: Db)
    requires Reconcile(h, db, id, fxId, date, found, actor, account, currency, items, now) == Ok(after)
    ensures Effects(db, after)
  {
    hide Reconcile, CheckReconcile, CheckAllocations, Allocate, SettleFx, Effects;
    var t, settled := ReconcileIs(h, db, id, fxId, date, found, actor, account, currency, items, now);
    var r := NewReconciliation(db, fxId, date, t, items);
    SettleFxEffects(h, Entered(db, id, r), r.account, t.debitFunctional - t.creditFunctional, date, found, actor, fxId, now, settled);
    EffectsFramed(db, Entered(db, id, r), settled, after);
  }

  lemma UnreconcileEffects(h: Hashers, db: Db, id: Id, reversalId: Id, date: Date, found: Option<Id>, actor: Id, now: nat, after: Db)
    requires Unreconcile(h, db, id, reversalId, date, found, actor, now) == Ok(after)
    ensures Effects(db, after)
  {
    hide UndoFx, Release, Effects;
    var r := db.reconciliations[id];
    var restored := db.(reconciled := Release(db.reconciled, r.items).value);
    var settled := UndoFx(h, restored, r.fxMove, reversalId, date, found, actor, now).value;
    UndoFxEffects(h, restored, r.fxMove, reversalId, date, found, actor, now, settled);
    EffectsFramed(db, restored, settled, after);
  }

  lemma SystemMoveEffects(h: Hashers, db: Db, id: Id, journal: Id, period: Id, date: Date, actor: Id, now: nat, lines: seq<Line>, after: Db)
    requires SystemMove(h, db, id, journal, period, date, actor, now, lines) == Ok(after)
    ensures Frames(db, after) && PostsAudited(db, after) && PostsNamed(db, after) && PrefixesKept(db, after) && db.audit <= after.audit
    ensures forall m :: NewlyPosted(db, after, m) ==> m == id && after.moves[m].period == period
    ensures forall m :: IsPosted(db, m) ==> IsPosted(after, m) && after.moves[m] == db.moves[m]
  {
    if lines != [] {
      var e := Entry(journal, period, date, None, Some(actor), Some(actor), now, lines);
      var posted := PostRow(h, db, id, e).value;
      LoggedPosting(h, db, id, e, posted, id, "POST", actor, now);
      PostRowPosts(h, db, id, e, posted);
    }
  }

  lemma CloseEffects(h: Hashers, db: Db, y: Id, journal: Id, retained: Id, actor: Id, closingId: Id, openingId: Id, now: nat,
                     periodRows: seq<Id>, resultRows: seq<Id>, openingRows: seq<Group>, after: Db)
    requires PeriodsOf(db, y, periodRows)
    requires CloseYear(h, db, y, journal, retained, actor, closingId, openingId, now, periodRows, resultRows, openingRows) == Ok(after)
    ensures Frames(db, after) && PostsAudited(db, after) && PostsNamed(db, after)
  {
    hide PrepareClose, WriteClose, SystemMove, OpeningLines, ClosingLines, PeriodsOf, IsAudited, SequenceName;
    PreparedIsHardClosed(db, y, journal, retained, actor, periodRows);
    var s := PrepareClose(db, y, journal, retained, actor, periodRows).value;
    var closed, lines, finished :=
      WriteCloseIs(h, db, y, journal, s, actor, closingId, openingId, now, resultRows, openingRows, after);
    var asOf := db.years[y].end;
    var closing := ClosingLines(db, asOf, s.retained, s.currency, resultRows);
    SystemMoveEffects(h, db, closingId, journal, s.closingPeriod, asOf, actor, now, closing, closed);
    SystemMoveEffects(h, closed, openingId, journal, s.openingPeriod, db.years[s.successor].start, actor, now, lines, finished);
    forall m | NewlyPosted(db, after, m)
      ensures IsAudited(after, m) && NamedFrom(db, after.moves[m])
    {
      if IsPosted(closed, m) {
        assert NewlyPosted(db, closed, m);
        AuditedStays(closed, after, m);
      } else {
        assert NewlyPosted(closed, finished, m) && NamedFrom(closed, finished.moves[m]);
        AuditedStays(finished, after, m);
      }
    }
  }

  predicate ChangesAccounts(op: Op) {
    op.CreateAccountOp? || op.UpdateAccountOp?
  }

  predicate IsPosting(op: Op) {
    op.PostDraftOp? || op.PostEventOp? || op.ReverseOp? || op.ReconcileOp? || op.UnreconcileOp? || op.CloseYearOp?
  }

  lemma SameMovesEffects(db: Db, after: Db)
    requires forall m :: IsPosted(after, m) ==> IsPosted(db, m)
    ensures PostsIntoOpen(db, after) && PostsAudited(db, after) && PostsNamed(db, after)
    ensures after.moves == db.moves ==> DraftsKept(db, after)
  {
  }

  lemma QuietEffects(h: Hashers, db: Db, op: Op, after: Db)
    requires Legal(db, op) && Apply(h, db, op) == Ok(after) && !IsPosting(op)
    ensures after.events == db.events && PostsIntoOpen(db, after) && PostsAudited(db, after) && PostsNamed(db, after)
    ensures !ChangesAccounts(op) ==> after.accounts == db.accounts
    ensures !op.SaveDraftOp? ==> DraftsKept(db, after)
  {
    hide PostDraft, PostEvent, ReverseMove, Reconcile, Unreconcile, CloseYear, PeriodsOf, LoadedFrom, Descendants, PostsIntoOpen, PostsAudited, PostsNamed,
      YearFits, PeriodsFit, CodeTaken, HasPostedLines, ParentHolds, Balanced, ReferencesHold, Redated;
    SameMovesEffects(db, after);
  }

  /** A step other than a save leaves the remaining drafts as they are, a step other than an ingestion leaves the keys, and a step
      that is not about accounts leaves the accounts. Only a year close posts into a period that is not open. Every posting is logged and
      named after its journal. */
  lemma StepHasEffects(h: Hashers, db: Db, op: Op, after: Db)
    requires Legal(db, op) && Apply(h, db, op) == Ok(after)
    ensures !op.SaveDraftOp? ==> DraftsKept(db, after)
    ensures !op.PostEventOp? ==> after.events == db.events
    ensures !ChangesAccounts(op) ==> after.accounts == db.accounts
    ensures !op.CloseYearOp? ==> PostsIntoOpen(db, after)
    ensures PostsAudited(db, after) && PostsNamed(db, after)
  {
    hide SaveDraft, DeleteDraft, PostDraft, PostEvent, ReverseMove, Reconcile, Unreconcile, SetPeriodState, CreateYear, CloseYear,
      CreateJournal, UpdateJournal, Configure, CreateAccount, UpdateAccount, PeriodsOf, LoadedFrom, DraftsKept, PostsIntoOpen, PostsAudited,
      PostsNamed;
    match op
    case PostDraftOp(move, actor, now) => PostDraftEffects(h, db, move, actor, now, after);
    case PostEventOp(key, id, journal, period, date, now, lines) =>
      PostEventEffects(h, db, key, id, journal, period, date, now, lines, after);
    case ReverseOp(original, id, period, date, actor, now) => ReverseMoveEffects(h, db, original, id, period, date, actor, now, after);
    case ReconcileOp(id, fxId, date, found, actor, account, currency, items, now) =>
      ReconcileEffects(h, db, id, fxId, date, found, actor, account, currency, items, now, after);
    case UnreconcileOp(id, reversalId, date, found, actor, now) => UnreconcileEffects(h, db, id, reversalId, date, found, actor, now, after);
    case CloseYearOp(id, journal, retained, actor, closingId, openingId, now, periodRows, resultRows, openingRows) =>
      CloseEffects(h, db, id, journal, retained, actor, closingId, openingId, now, periodRows, resultRows, openingRows, after);
    case _ => QuietEffects(h, db, op, after);
  }
}
