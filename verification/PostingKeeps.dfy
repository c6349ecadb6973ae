/** Drafts, postings and reversals keep the invariant and extend the state. */
module PostingKeeps {
  import opened Sums
  import opened Ledger
  import opened AuditChain
  import opened Tables
  import opened Steps
  import opened Invariants
  import opened Allocations
  import opened Hierarchy

  /** Everything but the bookkeeping of allocations. */
  ghost predicate Core(h: Hashers, db: Db) {
    && SoundMoves(db) && GapFree(db) && Chained(h, db) && SoundReversals(db) && SoundEvents(db)
    && SoundAudit(h, db) && SoundYears(db) && SoundHierarchy(db.accounts)
  }

  ghost predicate Inv(h: Hashers, db: Db) {
    Core(h, db) && SoundAllocations(db)
  }

  // Steps shared by transactions.

  lemma PostRowKeepsCore(h: Hashers, db: Db, id: Id, e: Entry)
    requires Core(h, db) && EntryFits(db, id, e) && PostRow(h, db, id, e).Ok?
    ensures Core(h, PostRow(h, db, id, e).value)
    ensures Extends(db, PostRow(h, db, id, e).value)
    ensures IsPosted(PostRow(h, db, id, e).value, id)
  {
    hide SoundMoves, GapFree, Chained, SoundReversals, SoundYears, SoundHierarchy, PostRow;
    PostRowKeepsMoves(h, db, id, e);
    PostRowKeepsNumbers(h, db, id, e);
    PostRowKeepsChain(h, db, id, e);
    assert e.reverses != Some(id);
    PostRowKeepsReversals(h, db, id, e);
    PostRowExtends(h, db, id, e);
    YearsMoved(db, PostRow(h, db, id, e).value);
  }

  predicate SameNumbering(a: Journal, b: Journal) {
    a.next == b.next
  }

  /** The same moves; accounts and periods may be added, and journals that have not numbered anything. */
  ghost predicate SameMoves(db: Db, after: Db) {
    && after.moves == db.moves
    && db.accounts.Keys <= after.accounts.Keys && db.periods.Keys <= after.periods.Keys
    && db.journals.Keys <= after.journals.Keys
    && (forall j :: j in db.journals ==> SameNumbering(db.journals[j], after.journals[j]))
    && (forall j :: j in after.journals && j !in db.journals ==> after.journals[j].next == 1)
  }

  lemma MovesMoved(db: Db, after: Db)
    requires SoundMoves(db) && SameMoves(db, after)
    ensures SoundMoves(after)
  {
    forall m | m in after.moves
      ensures SoundMove(after, m)
    {
      assert SoundMove(db, m);
    }
  }

  lemma NumbersMoved(db: Db, after: Db)
    requires GapFree(db) && SameMoves(db, after)
    ensures GapFree(after)
  {
    hide PrintsNumber;
    forall m | m in after.moves && IsPosted(after, m)
      ensures WithinNumbers(after, m)
    {
      assert IsPosted(db, m) && WithinNumbers(db, m);
    }
    forall j, n: nat | j in after.journals && 1 <= n < after.journals[j].next
      ensures HasNumber(after, j, n)
    {
      assert HasNumber(db, j, n);
      var m :| Numbered(db, j, n, m);
      assert Numbered(after, j, n, m);
    }
  }

  /** Both states have the same posted moves. */
  ghost predicate SamePosted(db: Db, after: Db) {
    && (forall m :: IsPosted(db, m) <==> IsPosted(after, m))
    && (forall m :: IsPosted(db, m) && IsPosted(after, m) ==> after.moves[m] == db.moves[m])
  }

  lemma ChainMoved(h: Hashers, db: Db, after: Db)
    requires Chained(h, db) && SamePosted(db, after)
    ensures Chained(h, after)
  {
    hide HashBelow;
    forall m | m in after.moves && IsPosted(after, m)
      ensures ChainedAt(h, after, m)
    {
      assert IsPosted(db, m) && ChainedAt(h, db, m);
      HashBelowSame(db, after, db.moves[m].journal, db.moves[m].number);
    }
  }

  lemma ReversalsMoved(db: Db, after: Db)
    requires SoundReversals(db) && after.moves == db.moves
    ensures SoundReversals(after)
  {
    forall m, o | Reverses(after, m, o)
      ensures MirrorsPosted(after, m, o)
    {
      assert Reverses(db, m, o) && MirrorsPosted(db, m, o);
    }
    forall m, k, o | Reverses(after, m, o) && Reverses(after, k, o)
      ensures m == k
    {
      assert Reverses(db, m, o) && Reverses(db, k, o);
    }
  }

  lemma YearsMoved(db: Db, after: Db)
    requires SoundYears(db) && after.years == db.years && after.periods == db.periods
    ensures SoundYears(after)
  {
    forall y | y in after.years && after.years[y].closed
      ensures AllHardClosed(after, y)
    {
      assert AllHardClosed(db, y);
      YearUntouched(db, after, y);
    }
  }

  /** A transaction that leaves the moves alone answers only for the tables it changes. */
  lemma CoreMoved(h: Hashers, db: Db, after: Db)
    requires Core(h, db) && SameMoves(db, after)
    requires SoundEvents(after) && SoundAudit(h, after) && SoundYears(after) && SoundHierarchy(after.accounts)
    ensures Core(h, after)
  {
    hide SoundMoves, GapFree, Chained, SoundReversals, SoundEvents, SoundAudit, SoundYears, SoundHierarchy;
    MovesMoved(db, after);
    NumbersMoved(db, after);
    ChainMoved(h, db, after);
    ReversalsMoved(db, after);
  }

  lemma EventsMoved(db: Db, after: Db)
    requires SoundEvents(db) && after.moves == db.moves && after.events == db.events
    ensures SoundEvents(after)
  {
    forall k | k in after.events
      ensures IsPosted(after, after.events[k])
    {
      assert IsPosted(db, db.events[k]);
    }
  }

  lemma LoggedSound(h: Hashers, db: Db, entityType: string, entity: Id, action: string, actor: Id, payload: string, at: int)
    requires SoundAudit(h, db) && '|' !in action
    ensures SoundAudit(h, Logged(h, db, entityType, entity, action, actor, payload, at))
  {
    AppendedVerified(h.audit, db.audit, entityType, entity, action, actor, payload, at);
  }

  lemma LoggedKeepsCore(h: Hashers, db: Db, entityType: string, entity: Id, action: string, actor: Id, payload: string, at: int)
    requires Core(h, db) && '|' !in action
    ensures Core(h, Logged(h, db, entityType, entity, action, actor, payload, at))
    ensures Extends(db, Logged(h, db, entityType, entity, action, actor, payload, at))
  {
    var after := Logged(h, db, entityType, entity, action, actor, payload, at);
    LoggedSound(h, db, entityType, entity, action, actor, payload, at);
    EventsMoved(db, after);
    YearsMoved(db, after);
    CoreMoved(h, db, after);
  }

  lemma PostedAndLogged(h: Hashers, db: Db, id: Id, e: Entry, entityType: string, entity: Id, action: string, actor: Id, at: int)
    requires Core(h, db) && EntryFits(db, id, e) && PostRow(h, db, id, e).Ok? && '|' !in action
    ensures var after := Logged(h, PostRow(h, db, id, e).value, entityType, entity, action, actor, "", at);
            Core(h, after) && Extends(db, after) && IsPosted(after, id) && (SoundAllocations(db) ==> SoundAllocations(after))
  {
    hide Core;
    var posted := PostRow(h, db, id, e).value;
    PostRowKeepsCore(h, db, id, e);
    LoggedKeepsCore(h, posted, entityType, entity, action, actor, "", at);
    ExtendsTransitive(db, posted, Logged(h, posted, entityType, entity, action, actor, "", at));
    if SoundAllocations(db) {
      AllocationsFramed(db, Logged(h, posted, entityType, entity, action, actor, "", at));
    }
  }

  // Drafts and postings.

  /** The posted rows and all other tables are as before. */
  ghost predicate OnlyDraftsChange(db: Db, after: Db) {
    after == db.(moves := after.moves) && SamePosted(db, after)
  }

  lemma DraftsKeepCore(h: Hashers, db: Db, after: Db)
    requires Core(h, db) && OnlyDraftsChange(db, after)
    requires forall m :: m in after.moves && after.moves[m].state != Posted ==> SoundMove(after, m)
    ensures Core(h, after) && Extends(db, after)
  {
    hide GapFree, Chained, SoundReversals, SoundMoves, SoundHierarchy, SoundYears, SoundMove;
    DraftsKeepMoves(db, after);
    DraftsKeepNumbers(db, after);
    ChainMoved(h, db, after);
    DraftsKeepReversals(db, after);
    YearsMoved(db, after);
  }

  lemma DraftsKeepMoves(db: Db, after: Db)
    requires SoundMoves(db) && OnlyDraftsChange(db, after)
    requires forall m :: m in after.moves && after.moves[m].state != Posted ==> SoundMove(after, m)
    ensures SoundMoves(after)
  {
    forall m | m in after.moves
      ensures SoundMove(after, m)
    {
      if IsPosted(after, m) {
        assert IsPosted(db, m) && SoundMove(db, m);
      }
    }
  }

  lemma DraftsKeepReversals(db: Db, after: Db)
    requires SoundReversals(db) && OnlyDraftsChange(db, after) && SoundMoves(after)
    ensures SoundReversals(after)
  {
    forall m, o | Reverses(after, m, o)
      ensures Reverses(db, m, o) && MirrorsPosted(after, m, o)
    {
      assert SoundMove(after, m) && IsPosted(db, m);
      assert Reverses(db, m, o) && MirrorsPosted(db, m, o);
    }
  }

  lemma DraftsKeepNumbers(db: Db, after: Db)
    requires GapFree(db)
    requires OnlyDraftsChange(db, after)
    ensures GapFree(after)
  {
    hide PrintsNumber;
    forall m | m in after.moves && IsPosted(after, m)
      ensures WithinNumbers(after, m)
    {
      assert WithinNumbers(db, m);
    }
    forall j, n: nat | j in after.journals && 1 <= n < after.journals[j].next
      ensures HasNumber(after, j, n)
    {
      assert HasNumber(db, j, n);
      var m :| Numbered(db, j, n, m);
      assert Numbered(after, j, n, m);
    }
  }

  lemma {:induction false} RedatedBalanced(lines: seq<Line>, date: Date)
    ensures SumSeq(Redated(lines, date), Net) == SumSeq(lines, Net)
  {
    if lines != [] {
      var n := |lines| - 1;
      RedatedBalanced(lines[..n], date);
      assert Redated(lines, date)[..n] == Redated(lines[..n], date);
    }
  }

  lemma RedatedSound(lines: seq<Line>, date: Date)
    requires Balanced(lines)
    ensures Balanced(Redated(lines, date))
  {
    RedatedBalanced(lines, date);
    forall i | 0 <= i < |lines|
      ensures SoundLine(Redated(lines, date)[i])
    {
      assert SoundLine(lines[i]);
    }
  }

  lemma SaveDraftKeeps(h: Hashers, db: Db, id: Id, journal: Id, period: Id, date: Date, createdBy: Option<Id>, now: nat, lines: seq<Line>)
    requires Inv(h, db) && SaveDraft(db, id, journal, period, date, createdBy, now, lines).Ok?
    ensures Inv(h, SaveDraft(db, id, journal, period, date, createdBy, now, lines).value)
    ensures Extends(db, SaveDraft(db, id, journal, period, date, createdBy, now, lines).value)
  {
    hide GapFree, Chained, SoundReversals, SoundEvents, SoundAudit, SoundYears, SoundHierarchy, SoundAllocations;
    var after := SaveDraft(db, id, journal, period, date, createdBy, now, lines).value;
    RedatedSound(lines, date);
    forall m | m in after.moves && after.moves[m].state != Posted
      ensures SoundMove(after, m)
    {
      assert m != id ==> SoundMove(db, m);
    }
    DraftsKeepCore(h, db, after);
    AllocationsFramed(db, after);
  }

  lemma DeleteDraftKeeps(h: Hashers, db: Db, id: Id)
    requires Inv(h, db) && DeleteDraft(db, id).Ok?
    ensures Inv(h, DeleteDraft(db, id).value) && Extends(db, DeleteDraft(db, id).value)
  {
    hide GapFree, Chained, SoundReversals, SoundEvents, SoundAudit, SoundYears, SoundHierarchy, SoundAllocations;
    var after := DeleteDraft(db, id).value;
    forall m | m in after.moves && after.moves[m].state != Posted
      ensures SoundMove(after, m)
    {
      assert SoundMove(db, m);
    }
    DraftsKeepCore(h, db, after);
    AllocationsFramed(db, after);
  }

  /** A loaded move that carries the stamp of the stored draft carries its lines. */
  ghost predicate LoadedFrom(db: Db, move: Loaded) {
    && move.updatedAt != 0
    && (move.id in db.moves && db.moves[move.id].state == Draft && db.moves[move.id].updatedAt == move.updatedAt ==>
          move.lines == db.moves[move.id].lines && move.createdBy == db.moves[move.id].createdBy)
  }

  lemma PostDraftKeeps(h: Hashers, db: Db, move: Loaded, actor: Id, now: nat)
    requires Inv(h, db) && LoadedFrom(db, move) && PostDraft(h, db, move, actor, now).Ok?
    ensures Inv(h, PostDraft(h, db, move, actor, now).value) && Extends(db, PostDraft(h, db, move, actor, now).value)
  {
    hide GapFree, Chained, SoundReversals, SoundEvents, SoundAudit, SoundYears, SoundHierarchy, SoundAllocations, Extends;
    var row := db.moves[move.id];
    assert SoundMove(db, move.id);
    var e := Entry(row.journal, row.period, row.date, row.reverses, Some(actor), row.createdBy, now, move.lines);
    PostedAndLogged(h, db, move.id, e, "account_move", move.id, "POST", actor, now);
  }

  lemma PostEventKeeps(h: Hashers, db: Db, key: string, id: Id, journal: Id, period: Id, date: Date, now: nat, lines: seq<Line>)
    requires Inv(h, db) && PostEvent(h, db, key, id, journal, period, date, now, lines).Ok?
    ensures Inv(h, PostEvent(h, db, key, id, journal, period, date, now, lines).value)
    ensures Extends(db, PostEvent(h, db, key, id, journal, period, date, now, lines).value)
  {
    hide GapFree, Chained, SoundReversals, SoundEvents, SoundAudit, SoundYears, SoundHierarchy, SoundAllocations, Extends;
    var e := Entry(journal, period, date, None, Some(0), None, now, Redated(lines, date));
    var logged := Logged(h, PostRow(h, db, id, e).value, "account_move", id, "INGEST_POST", 0, "", now);
    RedatedSound(lines, date);
    PostedAndLogged(h, db, id, e, "account_move", id, "INGEST_POST", 0, now);
    EventAdded(h, logged, key, id);
    ExtendsTransitive(db, logged, WithEvent(logged, key, id));
  }

  lemma EventSound(db: Db, key: string, id: Id)
    requires SoundEvents(db) && IsPosted(db, id)
    ensures SoundEvents(WithEvent(db, key, id))
  {
    forall k | k in WithEvent(db, key, id).events
      ensures IsPosted(db, WithEvent(db, key, id).events[k])
    {
      assert k != key ==> IsPosted(db, db.events[k]);
    }
  }

  lemma EventExtends(db: Db, key: string, id: Id)
    requires key !in db.events
    ensures Extends(db, WithEvent(db, key, id))
  {
  }

  lemma EventAdded(h: Hashers, db: Db, key: string, id: Id)
    requires Inv(h, db) && IsPosted(db, id) && key !in db.events
    ensures Inv(h, WithEvent(db, key, id)) && Extends(db, WithEvent(db, key, id))
  {
    hide SoundMoves, GapFree, Chained, SoundReversals, SoundYears, SoundHierarchy, SoundAllocations, SoundEvents;
    EventSound(db, key, id);
    EventExtends(db, key, id);
    YearsMoved(db, WithEvent(db, key, id));
    CoreMoved(h, db, WithEvent(db, key, id));
    AllocationsFramed(db, WithEvent(db, key, id));
  }

  // Reversals.

  ghost predicate SameAllocations(a: Db, b: Db) {
    a.reconciled == b.reconciled && a.reconciliations == b.reconciliations
  }

  lemma MirrorEntryFits(db: Db, original: Id, id: Id, e: Entry, keepMatching: bool)
    requires SoundMoves(db) && IsPosted(db, original) && !HasReversal(db, original) && id !in db.moves
    requires e.reverses == Some(original) && e.lines == Mirrored(db.moves[original].lines, e.date, keepMatching)
    ensures EntryFits(db, id, e)
  {
    assert SoundMove(db, original);
    MirrorBalanced(db.moves[original].lines, e.lines);
  }

  lemma ReverseMoveKeeps(h: Hashers, db: Db, original: Id, id: Id, period: Id, date: Date, actor: Id, now: nat)
    requires Inv(h, db) && ReverseMove(h, db, original, id, period, date, actor, now).Ok?
    ensures Inv(h, ReverseMove(h, db, original, id, period, date, actor, now).value)
    ensures Extends(db, ReverseMove(h, db, original, id, period, date, actor, now).value)
  {
    hide GapFree, Chained, SoundReversals, SoundEvents, SoundAudit, SoundYears, SoundHierarchy, SoundAllocations, Extends;
    var e := Entry(db.moves[original].journal, period, date, Some(original), Some(actor), None, now,
                   Mirrored(db.moves[original].lines, date, true));
    MirrorEntryFits(db, original, id, e, true);
    PostedAndLogged(h, db, id, e, "account_move", original, "REVERSE", actor, now);
  }

  function FxReversalEntry(db: Db, original: Id, period: Id, date: Date, actor: Id, now: nat): Entry
    requires original in db.moves
  {
    Entry(db.moves[original].journal, period, date, Some(original), Some(actor), None, now, Mirrored(db.moves[original].lines, date, false))
  }

  lemma ReverseFxMoveIs(h: Hashers, db: Db, original: Id, id: Id, date: Date, found: Option<Id>, actor: Id, now: nat, after: Db)
    requires ReverseFxMove(h, db, original, id, date, found, actor, now) == Ok(after)
    ensures original in db.moves && IsPosted(db, original) && !HasReversal(db, original) && id !in db.moves && found.Some?
    ensures var posted := PostRow(h, db, id, FxReversalEntry(db, original, found.value, date, actor, now));
            posted.Ok? && after == Logged(h, posted.value, "account_move", id, "REVERSE", actor, "", now)
    ensures SameAllocations(db, after)
  {
    hide HasReversal, NameTaken, ReferencesHold, PreviousHash, Mirrored, Appended;
  }

  lemma FxReversalFits(h: Hashers, db: Db, original: Id, id: Id, period: Id, date: Date, actor: Id, now: nat)
    requires Core(h, db) && original in db.moves && IsPosted(db, original) && !HasReversal(db, original) && id !in db.moves
    ensures EntryFits(db, id, FxReversalEntry(db, original, period, date, actor, now))
  {
    hide HasReversal, SoundMoves, GapFree, Chained, SoundReversals, SoundEvents, SoundAudit, SoundYears, SoundHierarchy, EntryFits;
    MirrorEntryFits(db, original, id, FxReversalEntry(db, original, period, date, actor, now), false);
  }

  lemma ReverseFxMoveKeeps(h: Hashers, db: Db, original: Id, id: Id, date: Date, found: Option<Id>, actor: Id, now: nat)
    requires Core(h, db) && ReverseFxMove(h, db, original, id, date, found, actor, now).Ok?
    ensures Core(h, ReverseFxMove(h, db, original, id, date, found, actor, now).value)
    ensures Extends(db, ReverseFxMove(h, db, original, id, date, found, actor, now).value)
    ensures SameAllocations(db, ReverseFxMove(h, db, original, id, date, found, actor, now).value)
  {
    hide *;
    var after := ReverseFxMove(h, db, original, id, date, found, actor, now).value;
    ReverseFxMoveIs(h, db, original, id, date, found, actor, now, after);
    FxReversalFits(h, db, original, id, found.value, date, actor, now);
    PostedAndLogged(h, db, id, FxReversalEntry(db, original, found.value, date, actor, now), "account_move", id, "REVERSE", actor, now);
  }
}
