/** Saving, deleting, posting, ingesting and reversing, written out on the tables: exactly when each commits, and every field it
    writes. */
module PostingOutcomes {
  import opened Ledger
  import opened MoveNames
  import opened Tables
  import opened Steps

  // What posting needs and leaves behind.

  ghost predicate PeriodTakes(db: Db, p: Id, date: Date) {
    p in db.periods && db.periods[p].start <= date <= db.periods[p].end && db.periods[p].state == Open
  }

  ghost predicate AccountsKnown(db: Db, lines: seq<Line>) {
    forall k :: 0 <= k < |lines| ==> lines[k].account in db.accounts
  }

  /** The journal has a positive next number, and no posted move of any journal carries the name printed from it. */
  ghost predicate NumberFree(db: Db, j: Id) {
    && j in db.journals && db.journals[j].next >= 1
    && forall m :: m in db.moves && db.moves[m].state == Posted ==>
         db.moves[m].name != SequenceName(db.journals[j].prefix, db.journals[j].next)
  }

  /** Move id is written as posted with the fields of e, under the next number of its journal; no other row of the two tables changes. */
  ghost predicate PostsOne(db: Db, after: Db, id: Id, e: Entry) {
    && e.journal in db.journals && id in after.moves
    && after.moves == db.moves[id := after.moves[id]]
    && after.journals == db.journals[e.journal := Journal(db.journals[e.journal].prefix, db.journals[e.journal].next + 1, db.journals[e.journal].active)]
    && IsRowOf(after.moves[id], db.journals[e.journal], e)
  }

  ghost predicate IsRowOf(row: Move, j: Journal, e: Entry) {
    && j.next >= 1 && row.number == j.next && row.name == SequenceName(j.prefix, j.next)
    && row.journal == e.journal && row.period == e.period && row.date == e.date && row.state == Posted
    && row.reverses == e.reverses && row.postedBy == e.postedBy && row.createdBy == e.createdBy && row.updatedAt == e.now
    && row.lines == e.lines
  }

  /** The log gains one row. */
  ghost predicate AddsRow(db: Db, after: Db, entityType: string, entity: Id, action: string, actor: Id, at: int) {
    && |after.audit| == |db.audit| + 1 && after.audit[..|db.audit|] == db.audit
    && var row := after.audit[|db.audit|];
       && row.entityType == entityType && row.actor == actor
       && row.fields.entity == entity && row.fields.action == action && row.fields.at == at
  }

  /** Of the tables only moves, journals and the log differ. */
  ghost predicate OnlyPosts(db: Db, after: Db) {
    && after.accounts == db.accounts && after.years == db.years && after.periods == db.periods && after.config == db.config
    && after.reconciled == db.reconciled && after.reconciliations == db.reconciliations && after.events == db.events
  }

  lemma RowPosts(h: Hashers, db: Db, id: Id, e: Entry, posted: Db)
    requires PostRow(h, db, id, e) == Ok(posted)
    ensures PostsOne(db, posted, id, e) && OnlyPosts(db, posted) && posted.audit == db.audit
  {
    hide PreviousHash, NameTaken, ReferencesHold, SequenceName;
  }

  lemma PostingLogged(h: Hashers, db: Db, id: Id, e: Entry, posted: Db, entity: Id, action: string, actor: Id, at: int)
    requires PostRow(h, db, id, e) == Ok(posted)
    ensures var after := Logged(h, posted, "account_move", entity, action, actor, "", at);
            PostsOne(db, after, id, e) && OnlyPosts(db, after) && AddsRow(db, after, "account_move", entity, action, actor, at)
  {
    RowPosts(h, db, id, e, posted);
    hide PostRow, IsRowOf;
  }

  lemma RowFits(h: Hashers, db: Db, id: Id, e: Entry)
    ensures PostRow(h, db, id, e).Ok? <==> NumberFree(db, e.journal) && e.period in db.periods && AccountsKnown(db, e.lines)
  {
    hide PreviousHash, SequenceName;
  }

  lemma InsertFits(h: Hashers, db: Db, id: Id, e: Entry)
    ensures InsertPosted(h, db, id, e).Ok? <==>
            id !in db.moves && NumberFree(db, e.journal) && e.period in db.periods && AccountsKnown(db, e.lines)
    ensures InsertPosted(h, db, id, e).Ok? ==> InsertPosted(h, db, id, e) == PostRow(h, db, id, e)
  {
    RowFits(h, db, id, e);
    hide PostRow, SequenceName, AccountsKnown;
  }

  lemma LockIs(db: Db, p: Id, date: Date)
    ensures LockOpenPeriod(db, p, date).Ok? <==> PeriodTakes(db, p, date)
  {
  }

  // Drafts.

  /** A save commits exactly for balanced lines on known accounts, a known journal and period, and an id that is new or a draft. */
  lemma SaveCommits(db: Db, id: Id, journal: Id, period: Id, date: Date, createdBy: Option<Id>, now: nat, lines: seq<Line>)
    ensures SaveDraft(db, id, journal, period, date, createdBy, now, lines).Ok? <==>
            && Balanced(lines) && (id in db.moves ==> db.moves[id].state == Draft)
            && journal in db.journals && period in db.periods && AccountsKnown(db, lines)
  {
    hide Balanced;
  }

  /** It writes that one row: the first creator named stays, and every line takes the date of the move. */
  lemma SaveWrites(db: Db, id: Id, journal: Id, period: Id, date: Date, createdBy: Option<Id>, now: nat, lines: seq<Line>, after: Db)
    requires SaveDraft(db, id, journal, period, date, createdBy, now, lines) == Ok(after)
    ensures id in after.moves && after == db.(moves := db.moves[id := after.moves[id]])
    ensures var row := after.moves[id];
            && row.journal == journal && row.period == period && row.date == date && row.state == Draft && row.updatedAt == now
            && row.name == "" && row.reverses == None && row.hash == "" && row.postedBy == None
            && row.createdBy == (if id in db.moves && db.moves[id].createdBy.Some? then db.moves[id].createdBy else createdBy)
            && |row.lines| == |lines|
            && forall k :: 0 <= k < |lines| ==>
                 row.lines[k] == Line(lines[k].account, lines[k].partner, lines[k].costCenter, lines[k].debit, lines[k].credit,
                                      lines[k].amountCurrency, lines[k].currency, lines[k].matching, date)
  {
    hide Balanced, ReferencesHold;
  }

  /** A delete commits exactly for a draft, and takes that row away. */
  lemma DeleteOutcome(db: Db, id: Id)
    ensures DeleteDraft(db, id).Ok? <==> id in db.moves && db.moves[id].state == Draft
    ensures DeleteDraft(db, id).Ok? ==>
              var after := DeleteDraft(db, id).value;
              && after == db.(moves := after.moves) && id !in after.moves
              && forall m :: m in db.moves && m != id ==> m in after.moves && after.moves[m] == db.moves[m]
  {
  }

  /** Nothing that the post relies on has changed since the move was loaded. A stamp of 0 stands for a move loaded without one. */
  ghost predicate Unchanged(db: Db, move: Loaded) {
    && move.id in db.moves && db.moves[move.id].state == Draft
    && db.moves[move.id].journal == move.journal && db.moves[move.id].period == move.period && db.moves[move.id].date == move.date
    && (move.updatedAt == 0 || db.moves[move.id].updatedAt == move.updatedAt)
  }

  /** A loaded draft is posted exactly if it is balanced, the stored row is the one loaded, its period is open on its date, its accounts are
      there and the next number of its journal is free. */
  lemma PostCommits(h: Hashers, db: Db, move: Loaded, actor: Id, now: nat)
    ensures PostDraft(h, db, move, actor, now).Ok? <==>
            && move.state == Draft && Balanced(move.lines) && Unchanged(db, move)
            && PeriodTakes(db, move.period, move.date) && AccountsKnown(db, move.lines) && NumberFree(db, move.journal)
  {
    LockIs(db, move.period, move.date);
    if move.id in db.moves {
      RowFits(h, db, move.id, PostedEntry(db.moves[move.id], actor, now, move.lines));
    }
    hide PostRow, Balanced, NumberFree, LockOpenPeriod;
  }

  function PostedEntry(row: Move, actor: Id, now: nat, lines: seq<Line>): Entry {
    Entry(row.journal, row.period, row.date, row.reverses, Some(actor), row.createdBy, now, lines)
  }

  /** It turns the draft into a posted row with the lines that were loaded, by the actor, and logs it. */
  lemma PostWrites(h: Hashers, db: Db, move: Loaded, actor: Id, now: nat, after: Db)
    requires PostDraft(h, db, move, actor, now) == Ok(after)
    ensures move.id in db.moves
    ensures PostsOne(db, after, move.id, Entry(move.journal, move.period, move.date, db.moves[move.id].reverses, Some(actor),
                                               db.moves[move.id].createdBy, now, move.lines))
    ensures OnlyPosts(db, after) && AddsRow(db, after, "account_move", move.id, "POST", actor, now)
  {
    var e := PostedEntry(db.moves[move.id], actor, now, move.lines);
    PostingLogged(h, db, move.id, e, PostRow(h, db, move.id, e).value, move.id, "POST", actor, now);
    hide PostRow, Balanced, PostsOne, OnlyPosts, AddsRow;
  }

  // Events.

  /** An ingested event is posted exactly under a new key and a new id, with balanced lines on known accounts, in an open period that covers
      its date, if the next number of its journal is free. */
  lemma EventCommits(h: Hashers, db: Db, key: string, id: Id, journal: Id, period: Id, date: Date, now: nat, lines: seq<Line>)
    ensures PostEvent(h, db, key, id, journal, period, date, now, lines).Ok? <==>
            && key != "" && key !in db.events && id !in db.moves && Balanced(lines)
            && PeriodTakes(db, period, date) && AccountsKnown(db, lines) && NumberFree(db, journal)
  {
    LockIs(db, period, date);
    InsertFits(h, db, id, Entry(journal, period, date, None, Some(0), None, now, Redated(lines, date)));
    assert AccountsKnown(db, Redated(lines, date)) <==> AccountsKnown(db, lines) by {
      forall k | 0 <= k < |lines|
        ensures Redated(lines, date)[k].account == lines[k].account
      {
      }
    }
    hide InsertPosted, Balanced, LockOpenPeriod, Redated;
  }

  /** It posts one row by the system actor on the date of the event, and names it under the key. */
  lemma EventWrites(h: Hashers, db: Db, key: string, id: Id, journal: Id, period: Id, date: Date, now: nat, lines: seq<Line>, after: Db)
    requires PostEvent(h, db, key, id, journal, period, date, now, lines) == Ok(after)
    ensures PostsOne(db, after, id, Entry(journal, period, date, None, Some(0), None, now, Redated(lines, date)))
    ensures after.events == db.events[key := id] && OnlyPosts(db, after.(events := db.events))
    ensures AddsRow(db, after, "account_move", id, "INGEST_POST", 0, now)
  {
    var e := Entry(journal, period, date, None, Some(0), None, now, Redated(lines, date));
    InsertFits(h, db, id, e);
    PostingLogged(h, db, id, e, PostRow(h, db, id, e).value, id, "INGEST_POST", 0, now);
    hide PostRow, InsertPosted, Balanced, IsRowOf, ReferencesHold;
  }

  // Reversals.

  /** Every line with its sides exchanged and its foreign amount negated, on the date of the reversal. Account, partner, cost centre and currency
      stay; the matching key stays unless it is dropped. */
  ghost predicate Undoes(original: seq<Line>, reversal: seq<Line>, date: Date, keepMatching: bool) {
    && |reversal| == |original|
    && forall k :: 0 <= k < |original| ==>
         reversal[k] == Line(original[k].account, original[k].partner, original[k].costCenter, original[k].credit, original[k].debit,
                             -original[k].amountCurrency, original[k].currency, if keepMatching then original[k].matching else "", date)
  }

  ghost predicate Reversible(db: Db, original: Id, id: Id) {
    && original in db.moves && db.moves[original].state == Posted && |db.moves[original].lines| >= 2
    && (forall m :: m in db.moves ==> db.moves[m].reverses != Some(original))
    && id !in db.moves && AccountsKnown(db, db.moves[original].lines) && NumberFree(db, db.moves[original].journal)
  }

  lemma MirroredKnown(db: Db, lines: seq<Line>, date: Date, keepMatching: bool)
    ensures AccountsKnown(db, Mirrored(lines, date, keepMatching)) <==> AccountsKnown(db, lines)
    ensures Undoes(lines, Mirrored(lines, date, keepMatching), date, keepMatching)
  {
    forall k | 0 <= k < |lines|
      ensures Mirrored(lines, date, keepMatching)[k].account == lines[k].account
    {
    }
  }

  /** A move is reversed exactly if it is posted with at least two lines and not reversed yet, under a new id, in an open period that covers the
      date of the reversal, if the next number of its own journal is free. */
  lemma ReversalCommits(h: Hashers, db: Db, original: Id, id: Id, period: Id, date: Date, actor: Id, now: nat)
    ensures ReverseMove(h, db, original, id, period, date, actor, now).Ok? <==> Reversible(db, original, id) && PeriodTakes(db, period, date)
  {
    LockIs(db, period, date);
    if original in db.moves {
      MirroredKnown(db, db.moves[original].lines, date, true);
      InsertFits(h, db, id, Entry(db.moves[original].journal, period, date, Some(original), Some(actor), None, now,
                                  Mirrored(db.moves[original].lines, date, true)));
    }
    hide InsertPosted, Mirrored, LockOpenPeriod, AccountsKnown;
  }

  /** It posts the undoing lines in the journal of the original, by the actor, and logs that under the id of the original. */
  lemma ReversalWrites(h: Hashers, db: Db, original: Id, id: Id, period: Id, date: Date, actor: Id, now: nat, after: Db)
    requires ReverseMove(h, db, original, id, period, date, actor, now) == Ok(after)
    ensures original in db.moves && id in after.moves
    ensures PostsOne(db, after, id, Entry(db.moves[original].journal, period, date, Some(original), Some(actor), None, now, after.moves[id].lines))
    ensures Undoes(db.moves[original].lines, after.moves[id].lines, date, true)
    ensures OnlyPosts(db, after) && AddsRow(db, after, "account_move", original, "REVERSE", actor, now)
  {
    var e := Entry(db.moves[original].journal, period, date, Some(original), Some(actor), None, now, Mirrored(db.moves[original].lines, date, true));
    InsertFits(h, db, id, e);
    MirroredKnown(db, db.moves[original].lines, date, true);
    PostingLogged(h, db, id, e, PostRow(h, db, id, e).value, original, "REVERSE", actor, now);
    hide PostRow, InsertPosted, Mirrored, AccountsKnown, Undoes, OnlyPosts, AddsRow;
  }

  /** The reversal of an FX move on undo is the same, in the period found for its date. */
  lemma FxReversalCommits(h: Hashers, db: Db, original: Id, id: Id, date: Date, found: Option<Id>, actor: Id, now: nat)
    ensures ReverseFxMove(h, db, original, id, date, found, actor, now).Ok? <==>
            Reversible(db, original, id) && found.Some? && PeriodTakes(db, found.value, date)
  {
    if found.Some? {
      LockIs(db, found.value, date);
    }
    if original in db.moves && found.Some? {
      MirroredKnown(db, db.moves[original].lines, date, false);
      InsertFits(h, db, id, Entry(db.moves[original].journal, found.value, date, Some(original), Some(actor), None, now,
                                  Mirrored(db.moves[original].lines, date, false)));
    }
    hide InsertPosted, Mirrored, LockOpenPeriod, AccountsKnown;
  }

  /** It drops the matching keys and is logged under its own id. */
  lemma FxReversalWrites(h: Hashers, db: Db, original: Id, id: Id, date: Date, found: Option<Id>, actor: Id, now: nat, after: Db)
    requires ReverseFxMove(h, db, original, id, date, found, actor, now) == Ok(after)
    ensures original in db.moves && id in after.moves && found.Some?
    ensures PostsOne(db, after, id,
                     Entry(db.moves[original].journal, found.value, date, Some(original), Some(actor), None, now, after.moves[id].lines))
    ensures Undoes(db.moves[original].lines, after.moves[id].lines, date, false)
    ensures OnlyPosts(db, after) && AddsRow(db, after, "account_move", id, "REVERSE", actor, now)
  {
    var e := Entry(db.moves[original].journal, found.value, date, Some(original), Some(actor), None, now, Mirrored(db.moves[original].lines, date, false));
    InsertFits(h, db, id, e);
    MirroredKnown(db, db.moves[original].lines, date, false);
    PostingLogged(h, db, id, e, PostRow(h, db, id, e).value, id, "REVERSE", actor, now);
    hide PostRow, InsertPosted, Mirrored, AccountsKnown, Undoes, OnlyPosts, AddsRow;
  }
}
