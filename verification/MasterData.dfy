/** Accounts, years, periods, journals and the configuration: exactly when a change commits, and what the rows hold over a run. */
module MasterData {
  import opened Ledger
  import opened Tables
  import opened Steps
  import opened Hierarchy
  import opened PostingKeeps
  import opened OperationsKeep
  import opened Runs
  import opened StepEffects
  import opened PostingOutcomes
  import opened ReconcileOutcomes
  import opened CloseOutcomes

  // Single changes.

  /** The state of a period can be set exactly while its year is there and open and it is not hard closed, or is in that state already.
      Then it has that state, and no other field, row or table changes. */
  lemma PeriodStateOutcome(db: Db, p: Id, state: PeriodState)
    ensures SetPeriodState(db, p, state).Ok? <==>
            && p in db.periods && db.periods[p].year in db.years && !db.years[db.periods[p].year].closed
            && (db.periods[p].state != HardClosed || db.periods[p].state == state)
    ensures SetPeriodState(db, p, state).Ok? ==>
              var was := db.periods[p];
              SetPeriodState(db, p, state).value == db.(periods := db.periods[p := Period(was.year, was.number, was.start, was.end, state)])
  {
    if SetPeriodState(db, p, state).Ok? && db.periods[p].state == state {
      assert db.periods[p := db.periods[p]] == db.periods;
    }
  }

  /** A year is created exactly as an open one under a new id and number, with twelve open periods of its own under new ids and different
      numbers. */
  lemma YearOutcome(db: Db, id: Id, year: Year, periods: map<Id, Period>)
    ensures CreateYear(db, id, year, periods).Ok? <==>
            && id !in db.years && !year.closed && (forall y :: y in db.years ==> db.years[y].number != year.number)
            && |periods| == 12
            && (forall p :: p in periods ==> p !in db.periods && periods[p].year == id && periods[p].state == Open)
            && (forall p, q :: p in periods && q in periods && p != q ==> periods[p].number != periods[q].number)
    ensures CreateYear(db, id, year, periods).Ok? ==>
              CreateYear(db, id, year, periods).value == db.(years := db.years[id := year], periods := db.periods + periods)
  {
    if CreateYear(db, id, year, periods).Ok? {
      forall p, q | p in periods && q in periods && p != q
        ensures periods[p].number != periods[q].number
      {
        assert !SamePeriodKey(periods[p], periods[q]);
      }
    }
  }

  /** Journals can be created under new ids, and changed at any time; numbers start at 1 and run on. */
  lemma JournalOutcome(db: Db, id: Id, prefix: string, active: bool)
    ensures CreateJournal(db, id, prefix).Ok? <==> id !in db.journals
    ensures CreateJournal(db, id, prefix).Ok? ==>
              CreateJournal(db, id, prefix).value == db.(journals := db.journals[id := Journal(prefix, 1, true)])
    ensures UpdateJournal(db, id, prefix, active).Ok? <==> id in db.journals
    ensures UpdateJournal(db, id, prefix, active).Ok? ==>
              UpdateJournal(db, id, prefix, active).value == db.(journals := db.journals[id := Journal(prefix, db.journals[id].next, active)])
  {
  }

  /** A configuration can be entered exactly while there is none, with known accounts and journal. */
  lemma ConfigurationOutcome(db: Db, config: Config)
    ensures Configure(db, config).Ok? <==>
            && db.config == None && config.retained in db.accounts && config.gain in db.accounts && config.loss in db.accounts
            && config.fxJournal in db.journals
    ensures Configure(db, config).Ok? ==> Configure(db, config).value == db.(config := Some(config))
  {
  }

  /** No other account has the code of the row, and its parent is there. */
  ghost predicate RowFits(db: Db, id: Id, row: Account) {
    && (forall a :: a in db.accounts && a != id ==> db.accounts[a].code != row.code)
    && (row.parent.Some? ==> row.parent.value in db.accounts)
  }

  lemma CreateAccountOutcome(db: Db, id: Id, row: Account)
    ensures CreateAccount(db, id, row).Ok? <==> id !in db.accounts && RowFits(db, id, row)
    ensures CreateAccount(db, id, row).Ok? ==> CreateAccount(db, id, row).value == db.(accounts := db.accounts[id := row])
  {
  }

  /** In a sound hierarchy an account can be changed exactly if it is there, the row fits, no account becomes its own ancestor, and code and type
      stay or no posted line names the account. */
  lemma UpdateAccountOutcome(db: Db, id: Id, row: Account)
    requires SoundHierarchy(db.accounts)
    ensures UpdateAccount(db, id, row).Ok? <==>
            && id in db.accounts && RowFits(db, id, row) && Acyclic(ParentMap(db.accounts[id := row]))
            && ((row.code == db.accounts[id].code && row.kind == db.accounts[id].kind)
                || forall m, i :: m in db.moves && db.moves[m].state != Draft && 0 <= i < |db.moves[m].lines| ==>
                     db.moves[m].lines[i].account != id)
    ensures UpdateAccount(db, id, row).Ok? ==> UpdateAccount(db, id, row).value == db.(accounts := db.accounts[id := row])
    ensures id in db.accounts ==>
              (UpdateAccount(db, id, row) == Err(WouldCreateCycle) <==> !Acyclic(ParentMap(db.accounts[id := row])))
  {
    if id in db.accounts {
      TestIsExact(db.accounts, id, row);
    }
    hide Acyclic, ParentMap, Descendants;
  }

  // Over a run.

  /** A part of a master data row that transactions write as a whole. */
  datatype Cell = AccountCell(account: Id) | StateCell(period: Id) | JournalCell(journal: Id) | ConfigCell

  datatype Content = AccountIs(row: Account) | StateIs(state: PeriodState) | JournalIs(prefix: string, active: bool) | ConfigIs(config: Config)

  function Stored(db: Db, cell: Cell): Option<Content> {
    match cell
    case AccountCell(a) => if a in db.accounts then Some(AccountIs(db.accounts[a])) else None
    case StateCell(p) => if p in db.periods then Some(StateIs(db.periods[p].state)) else None
    case JournalCell(j) => if j in db.journals then Some(JournalIs(db.journals[j].prefix, db.journals[j].active)) else None
    case ConfigCell => if db.config.Some? then Some(ConfigIs(db.config.value)) else None
  }

  /** What a transaction asks to be written to a cell. */
  function Asked(op: Op, cell: Cell): Option<Content> {
    match cell
    case AccountCell(a) =>
      if (op.CreateAccountOp? || op.UpdateAccountOp?) && op.id == a then Some(AccountIs(op.row)) else None
    case StateCell(p) =>
      if op.CreateYearOp? && p in op.periods then Some(StateIs(Open))
      else if op.PeriodStateOp? && op.id == p then Some(StateIs(op.state)) else None
    case JournalCell(j) =>
      if op.CreateJournalOp? && op.id == j then Some(JournalIs(op.prefix, true))
      else if op.UpdateJournalOp? && op.id == j then Some(JournalIs(op.prefix, op.active)) else None
    case ConfigCell => if op.ConfigureOp? then Some(ConfigIs(op.config)) else None
  }

  /** No cell changes: accounts, periods and configuration are the same, and journals up to their next numbers. */
  ghost predicate CellsKept(db: Db, after: Db) {
    && after.accounts == db.accounts && after.periods == db.periods && after.config == db.config
    && after.journals.Keys == db.journals.Keys
    && forall j :: j in db.journals ==> after.journals[j].prefix == db.journals[j].prefix && after.journals[j].active == db.journals[j].active
  }

  lemma PostsKeepsCells(db: Db, after: Db, id: Id, e: Entry)
    requires PostsOne(db, after, id, e)
    requires after.accounts == db.accounts && after.periods == db.periods && after.config == db.config
    ensures CellsKept(db, after)
  {
    hide IsRowOf;
  }

  lemma CellsKeptTwice(db: Db, mid: Db, after: Db)
    requires CellsKept(db, mid) && CellsKept(mid, after)
    ensures CellsKept(db, after)
  {
  }

  lemma ReconcileCells(h: Hashers, db: Db, id: Id, fxId: Id, date: Date, found: Option<Id>, actor: Id, account: Id, currency: string,
                       items: seq<Allocation>, now: nat, after: Db)
    requires Reconcile(h, db, id, fxId, date, found, actor, account, currency, items, now) == Ok(after)
    ensures CellsKept(db, after)
  {
    hide Reconcile, AddsRow, LogsLast, FxPair;
    ReconcileWrites(h, db, id, fxId, date, found, actor, account, currency, items, now, after);
    if after.journals != db.journals {
      PostsKeepsCells(db, after, fxId, Entry(db.config.value.fxJournal, found.value, date, None, Some(actor), Some(actor), now, after.moves[fxId].lines));
    }
  }

  lemma UnreconcileCells(h: Hashers, db: Db, id: Id, reversalId: Id, date: Date, found: Option<Id>, actor: Id, now: nat, after: Db)
    requires Unreconcile(h, db, id, reversalId, date, found, actor, now) == Ok(after)
    ensures CellsKept(db, after)
  {
    hide Unreconcile, UndoFx, AddsRow, Undoes, PostsOne;
    var restored, settled := UndoneIs(h, db, id, reversalId, date, found, actor, now, after);
    var fx := db.reconciliations[id].fxMove;
    UndoFxWrites(h, db, restored, fx, reversalId, date, found, actor, now, settled);
    if fx.Some? {
      PostsKeepsCells(db, settled, reversalId,
                      Entry(db.moves[fx.value].journal, found.value, date, Some(fx.value), Some(actor), None, now, settled.moves[reversalId].lines));
    }
  }

  lemma SystemMoveCells(h: Hashers, db: Db, id: Id, journal: Id, period: Id, date: Date, actor: Id, now: nat, lines: seq<Line>, after: Db)
    requires SystemMove(h, db, id, journal, period, date, actor, now, lines) == Ok(after)
    ensures CellsKept(db, after)
  {
    if lines != [] {
      var e := Entry(journal, period, date, None, Some(actor), Some(actor), now, lines);
      InsertFits(h, db, id, e);
      PostingLogged(h, db, id, e, PostRow(h, db, id, e).value, id, "POST", actor, now);
      hide InsertPosted, PostRow, Balanced, NumberFree, AccountsKnown, AddsRow, PostsOne, CellsKept;
      PostsKeepsCells(db, after, id, e);
    }
  }

  lemma CloseCells(h: Hashers, db: Db, y: Id, journal: Id, retained: Id, actor: Id, closingId: Id, openingId: Id, now: nat,
                   periodRows: seq<Id>, resultRows: seq<Id>, openingRows: seq<Group>, after: Db)
    requires PeriodsOf(db, y, periodRows)
    requires CloseYear(h, db, y, journal, retained, actor, closingId, openingId, now, periodRows, resultRows, openingRows) == Ok(after)
    ensures CellsKept(db, after)
  {
    hide *;
    var s := CloseHas(h, db, y, journal, retained, actor, closingId, openingId, now, periodRows, resultRows, openingRows, after);
    var closed, lines, finished := WriteCloseIs(h, db, y, journal, s, actor, closingId, openingId, now, resultRows, openingRows, after);
    ClosesIs(h, db, y, journal, s, actor, closingId, openingId, now, resultRows, openingRows, closed, lines, finished);
    var asOf := db.years[y].end;
    SystemMoveCells(h, db, closingId, journal, s.closingPeriod, asOf, actor, now, ClosingLines(db, asOf, s.retained, s.currency, resultRows), closed);
    SystemMoveCells(h, closed, openingId, journal, s.openingPeriod, db.years[s.successor].start, actor, now, lines, finished);
    MarkKeepsCells(h, finished, y, actor, now, after);
    CellsKeptTwice(db, closed, finished);
    CellsKeptTwice(db, finished, after);
  }

  lemma MarkKeepsCells(h: Hashers, finished: Db, y: Id, actor: Id, now: nat, after: Db)
    requires after == YearClosed(Logged(h, finished, "fiscal_year", y, "CLOSE", actor, "", now), y)
    ensures CellsKept(finished, after)
  {
  }

  lemma PostDraftCells(h: Hashers, db: Db, move: Loaded, actor: Id, now: nat, after: Db)
    requires PostDraft(h, db, move, actor, now) == Ok(after)
    ensures CellsKept(db, after)
  {
    hide *;
    PostWrites(h, db, move, actor, now, after);
    SameMasterData(db, after);
    PostsKeepsCells(db, after, move.id, Entry(move.journal, move.period, move.date, db.moves[move.id].reverses, Some(actor),
                                              db.moves[move.id].createdBy, now, move.lines));
  }

  lemma PostEventCells(h: Hashers, db: Db, key: string, id: Id, journal: Id, period: Id, date: Date, now: nat, lines: seq<Line>, after: Db)
    requires PostEvent(h, db, key, id, journal, period, date, now, lines) == Ok(after)
    ensures CellsKept(db, after)
  {
    hide *;
    EventWrites(h, db, key, id, journal, period, date, now, lines, after);
    SameMasterData(db, after.(events := db.events));
    PostsKeepsCells(db, after, id, Entry(journal, period, date, None, Some(0), None, now, Redated(lines, date)));
  }

  lemma ReversalCells(h: Hashers, db: Db, original: Id, id: Id, period: Id, date: Date, actor: Id, now: nat, after: Db)
    requires ReverseMove(h, db, original, id, period, date, actor, now) == Ok(after)
    ensures CellsKept(db, after)
  {
    hide *;
    ReversalWrites(h, db, original, id, period, date, actor, now, after);
    SameMasterData(db, after);
    PostsKeepsCells(db, after, id, Entry(db.moves[original].journal, period, date, Some(original), Some(actor), None, now, after.moves[id].lines));
  }

  lemma SameMasterData(db: Db, after: Db)
    requires OnlyPosts(db, after)
    ensures after.accounts == db.accounts && after.periods == db.periods && after.config == db.config
  {
  }

  lemma PostingCells(h: Hashers, db: Db, op: Op, after: Db)
    requires Legal(db, op) && Apply(h, db, op) == Ok(after) && IsPosting(op)
    ensures CellsKept(db, after)
  {
    hide PostDraft, PostEvent, ReverseMove, Reconcile, Unreconcile, CloseYear, PeriodsOf, LoadedFrom, LooksUp, CellsKept;
    match op
    case PostDraftOp(move, actor, now) => PostDraftCells(h, db, move, actor, now, after);
    case PostEventOp(key, id, journal, period, date, now, lines) => PostEventCells(h, db, key, id, journal, period, date, now, lines, after);
    case ReverseOp(original, id, period, date, actor, now) => ReversalCells(h, db, original, id, period, date, actor, now, after);
    case ReconcileOp(id, fxId, date, found, actor, account, currency, items, now) =>
      ReconcileCells(h, db, id, fxId, date, found, actor, account, currency, items, now, after);
    case UnreconcileOp(id, reversalId, date, found, actor, now) => UnreconcileCells(h, db, id, reversalId, date, found, actor, now, after);
    case CloseYearOp(id, journal, retained, actor, closingId, openingId, now, periodRows, resultRows, openingRows) =>
      CloseCells(h, db, id, journal, retained, actor, closingId, openingId, now, periodRows, resultRows, openingRows, after);
  }

  lemma NothingAsked(op: Op, cell: Cell)
    requires IsPosting(op) || op.SaveDraftOp? || op.DeleteDraftOp?
    ensures Asked(op, cell) == None
  {
  }

  lemma StoredKept(db: Db, after: Db, cell: Cell)
    requires CellsKept(db, after)
    ensures Stored(after, cell) == Stored(db, cell)
  {
  }

  lemma DraftsKeepCells(h: Hashers, db: Db, op: Op, after: Db)
    requires Legal(db, op) && Apply(h, db, op) == Ok(after) && (op.SaveDraftOp? || op.DeleteDraftOp?)
    ensures CellsKept(db, after)
  {
    hide Balanced, ReferencesHold, Redated;
  }

  lemma AccountIsWritten(db: Db, id: Id, row: Account, after: Db)
    requires CreateAccount(db, id, row) == Ok(after) || UpdateAccount(db, id, row) == Ok(after)
    ensures after == db.(accounts := db.accounts[id := row])
  {
    hide CodeTaken, HasPostedLines, ParentHolds, Descendants;
  }

  lemma YearIsWritten(db: Db, id: Id, year: Year, periods: map<Id, Period>, after: Db, cell: Cell)
    requires CreateYear(db, id, year, periods) == Ok(after)
    ensures Stored(after, cell) == if cell.StateCell? && cell.period in periods then Some(StateIs(Open)) else Stored(db, cell)
  {
    YearOutcome(db, id, year, periods);
    hide CreateYear;
  }

  lemma StateIsWritten(db: Db, p: Id, state: PeriodState, after: Db, cell: Cell)
    requires SetPeriodState(db, p, state) == Ok(after)
    ensures Stored(after, cell) == if cell == StateCell(p) then Some(StateIs(state)) else Stored(db, cell)
  {
    PeriodStateOutcome(db, p, state);
    hide SetPeriodState;
  }

  lemma JournalIsWritten(db: Db, id: Id, prefix: string, active: bool, after: Db, cell: Cell)
    requires (CreateJournal(db, id, prefix) == Ok(after) && active) || UpdateJournal(db, id, prefix, active) == Ok(after)
    ensures Stored(after, cell) == if cell == JournalCell(id) then Some(JournalIs(prefix, active)) else Stored(db, cell)
  {
    JournalOutcome(db, id, prefix, active);
    hide CreateJournal, UpdateJournal;
  }

  lemma ConfigIsWritten(db: Db, config: Config, after: Db, cell: Cell)
    requires Configure(db, config) == Ok(after)
    ensures Stored(after, cell) == if cell.ConfigCell? then Some(ConfigIs(config)) else Stored(db, cell)
  {
    ConfigurationOutcome(db, config);
    hide Configure;
  }

  /** Changes of master data. */
  lemma ChangeIsAsked(h: Hashers, db: Db, op: Op, after: Db, cell: Cell)
    requires Legal(db, op) && Apply(h, db, op) == Ok(after) && !IsPosting(op) && !op.SaveDraftOp? && !op.DeleteDraftOp?
    ensures Stored(after, cell) == if Asked(op, cell).Some? then Asked(op, cell) else Stored(db, cell)
  {
    hide Legal, CreateAccount, UpdateAccount, CreateYear, SetPeriodState, CreateJournal, UpdateJournal, Configure, Stored;
    match op
    case CreateAccountOp(id, row) => AccountChangeAsked(db, id, row, after, cell);
    case UpdateAccountOp(id, row) => AccountChangeAsked(db, id, row, after, cell);
    case CreateYearOp(id, year, periods) => YearIsWritten(db, id, year, periods, after, cell);
    case PeriodStateOp(id, state) => StateIsWritten(db, id, state, after, cell);
    case CreateJournalOp(id, prefix) => JournalIsWritten(db, id, prefix, true, after, cell);
    case UpdateJournalOp(id, prefix, active) => JournalIsWritten(db, id, prefix, active, after, cell);
    case ConfigureOp(config) => ConfigIsWritten(db, config, after, cell);
  }

  lemma AccountChangeAsked(db: Db, id: Id, row: Account, after: Db, cell: Cell)
    requires CreateAccount(db, id, row) == Ok(after) || UpdateAccount(db, id, row) == Ok(after)
    ensures Stored(after, cell) == if cell == AccountCell(id) then Some(AccountIs(row)) else Stored(db, cell)
  {
    AccountIsWritten(db, id, row, after);
    hide CreateAccount, UpdateAccount;
  }

  /** A transaction that commits writes to a cell what it asks for and leaves all other cells alone. */
  lemma StepWritesAsked(h: Hashers, db: Db, op: Op, after: Db, cell: Cell)
    requires Legal(db, op) && Apply(h, db, op) == Ok(after)
    ensures Stored(after, cell) == if Asked(op, cell).Some? then Asked(op, cell) else Stored(db, cell)
  {
    hide Legal, Apply, Stored, Asked, CellsKept;
    if IsPosting(op) {
      PostingCells(h, db, op, after);
      NothingAsked(op, cell);
      StoredKept(db, after, cell);
    } else if op.SaveDraftOp? || op.DeleteDraftOp? {
      DraftsKeepCells(h, db, op, after);
      NothingAsked(op, cell);
      StoredKept(db, after, cell);
    } else {
      ChangeIsAsked(h, db, op, after, cell);
    }
  }

  /** Transaction number k of the run commits and asks for content in the cell. */
  ghost predicate WritesAt(h: Hashers, states: seq<Db>, ops: seq<Op>, k: nat, cell: Cell, content: Content) {
    k < |ops| && k < |states| && Legal(states[k], ops[k]) && Apply(h, states[k], ops[k]).Ok? && Asked(ops[k], cell) == Some(content)
  }

  /** Over every run an account, the state of a period, the prefix and activity of a journal and the configuration are what the last committed
      transaction that asked for them asked for. */
  lemma {:induction false} StoredIsLastAsked(h: Hashers, states: seq<Db>, ops: seq<Op>, i: nat, cell: Cell) returns (k: nat)
    requires Run(h, states, ops) && i < |states| && Stored(states[i], cell).Some?
    ensures k < i && WritesAt(h, states, ops, k, cell, Stored(states[i], cell).value)
    ensures forall n, content :: k < n < i ==> !WritesAt(h, states, ops, n, cell, content)
  {
    hide Legal, Apply, Stored, Asked;
    NothingStored(cell);
    assert i > 0;
    var db, op := states[i - 1], ops[i - 1];
    assert Legal(db, op) && states[i] == Step(h, db, op);
    if Apply(h, db, op).Ok? {
      StepWritesAsked(h, db, op, states[i], cell);
    }
    if Apply(h, db, op).Ok? && Asked(op, cell).Some? {
      k := i - 1;
    } else {
      k := StoredIsLastAsked(h, states, ops, i - 1, cell);
      forall n, content | k < n < i
        ensures !WritesAt(h, states, ops, n, cell, content)
      {
      }
    }
  }

  lemma NothingStored(cell: Cell)
    ensures Stored(EMPTY, cell) == None
  {
  }

  /** In every reachable state no two accounts share a code. */
  lemma {:induction false} CodesStayUnique(h: Hashers, states: seq<Db>, ops: seq<Op>, i: nat, a: Id, b: Id)
    requires Run(h, states, ops) && i < |states| && a in states[i].accounts && b in states[i].accounts
    requires states[i].accounts[a].code == states[i].accounts[b].code
    ensures a == b
  {
    hide Legal, Apply;
    if i > 0 {
      var db, op := states[i - 1], ops[i - 1];
      assert Legal(db, op) && states[i] == Step(h, db, op);
      if Apply(h, db, op).Ok? && ChangesAccounts(op) {
        OneCodeWritten(h, db, op, states[i]);
      } else if Apply(h, db, op).Ok? {
        StepHasEffects(h, db, op, states[i]);
      }
      if a in db.accounts && b in db.accounts && db.accounts[a].code == db.accounts[b].code {
        CodesStayUnique(h, states, ops, i - 1, a, b);
      }
    }
  }

  lemma OneCodeWritten(h: Hashers, db: Db, op: Op, after: Db)
    requires Legal(db, op) && Apply(h, db, op) == Ok(after) && ChangesAccounts(op)
    ensures after.accounts == db.accounts[op.id := op.row]
    ensures forall a :: a in db.accounts && a != op.id ==> db.accounts[a].code != op.row.code
  {
    hide Descendants, HasPostedLines, ParentHolds;
  }
}
