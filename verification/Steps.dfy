/** The committed effect of every transaction on the tables, or its error. A failed transaction has no effect. */
module Steps {
  import opened Sums
  import opened Ledger
  import opened Rounding
  import opened MoveNames
  import opened Hashing
  import opened Tables

  // Posting.

  /** What a transaction brings to the row it posts. */
  datatype Entry = Entry(
    journal: Id,
    period: Id,
    date: Date,
    reverses: Option<Id>,
    postedBy: Option<Id>,
    createdBy: Option<Id>,
    now: nat,
    lines: seq<Line>)

  ghost function PostedRow(h: Hashers, db: Db, id: Id, e: Entry): Move
    requires e.journal in db.journals && db.journals[e.journal].next >= 1
  {
    var name := SequenceName(db.journals[e.journal].prefix, db.journals[e.journal].next);
    Move(name, db.journals[e.journal].next, e.journal, e.period, e.date, Posted, e.reverses,
         h.seal(MoveRecord(id, name, e.date, e.journal, e.lines, PreviousHash(db, e.journal))),
         e.postedBy, e.createdBy, e.now, e.lines)
  }

  /** Take the next number of the journal, link the hash to the newest move and write the row. */
  ghost function PostRow(h: Hashers, db: Db, id: Id, e: Entry): Result<Db> {
    var _ :- Need(e.journal in db.journals, JournalNotFound);
    var j := db.journals[e.journal];
    var _ :- Need(j.next >= 1, BadSequence);
    var row := PostedRow(h, db, id, e);
    var _ :- Need(ReferencesHold(db, e.journal, e.period, e.lines) && !NameTaken(db, row.name), ConstraintViolated);
    Ok(db.(journals := db.journals[e.journal := j.(next := j.next + 1)], moves := db.moves[id := row]))
  }

  /** GetNextSequenceWithLock and nextSequence: the journal has to be there with a sound number. */
  function NextSequence(db: Db, journal: Id): Result<string> {
    var _ :- Need(journal in db.journals, JournalNotFound);
    var _ :- Need(db.journals[journal].next >= 1, BadSequence);
    Ok(SequenceName(db.journals[journal].prefix, db.journals[journal].next))
  }

  /** A row that has to be new. */
  ghost function InsertPosted(h: Hashers, db: Db, id: Id, e: Entry): Result<Db> {
    var _ :- NextSequence(db, e.journal);
    var _ :- Need(id !in db.moves, ConstraintViolated);
    PostRow(h, db, id, e)
  }

  // Drafts.

  ghost function DraftRow(db: Db, id: Id, journal: Id, period: Id, date: Date, createdBy: Option<Id>, now: nat, lines: seq<Line>): Move {
    var creator := if id in db.moves && db.moves[id].createdBy.Some? then db.moves[id].createdBy else createdBy;
    Move("", 0, journal, period, date, Draft, None, "", None, creator, now, lines)
  }

  function Redated(lines: seq<Line>, date: Date): seq<Line> {
    seq(|lines|, i requires 0 <= i < |lines| => lines[i].(date := date))
  }

  /** SaveDraftMove, on lines that the use cases date like the move. */
  ghost function SaveDraft(db: Db, id: Id, journal: Id, period: Id, date: Date, createdBy: Option<Id>, now: nat,
                           lines: seq<Line>): Result<Db> {
    var _ :- Need(Balanced(lines), InvalidMove);
    var _ :- Need(id !in db.moves || db.moves[id].state == Draft, MoveAlreadyPosted);
    var _ :- Need(ReferencesHold(db, journal, period, lines), ConstraintViolated);
    Ok(db.(moves := db.moves[id := DraftRow(db, id, journal, period, date, createdBy, now, Redated(lines, date))]))
  }

  /** DeleteDraftMove */
  ghost function DeleteDraft(db: Db, id: Id): Result<Db> {
    var _ :- Need(id in db.moves, MoveNotFound);
    var _ :- Need(db.moves[id].state == Draft, MoveAlreadyPosted);
    Ok(db.(moves := db.moves - {id}))
  }

  /** A move as a use case holds it between reading and posting. */
  datatype Loaded = Loaded(
    id: Id,
    journal: Id,
    period: Id,
    date: Date,
    state: MoveState,
    createdBy: Option<Id>,
    updatedAt: nat,
    lines: seq<Line>)

  /** PostMoveAtomic: post the draft that was loaded, if it has not changed since. */
  ghost function PostDraft(h: Hashers, db: Db, move: Loaded, actor: Id, now: nat): Result<Db> {
    var _ :- Need(move.state == Draft, MoveAlreadyPosted);
    var _ :- Need(Balanced(move.lines), InvalidMove);
    var _ :- LockOpenPeriod(db, move.period, move.date);
    var _ :- Need(move.id in db.moves, MoveNotFound);
    var row := db.moves[move.id];
    var _ :- Need(row.state == Draft, MoveAlreadyPosted);
    var _ :- Need(row.journal == move.journal && row.period == move.period && row.date == move.date, MoveChanged);
    var _ :- Need(move.updatedAt == 0 || move.updatedAt == row.updatedAt, MoveChanged);
    var _ :- Need(LinesHold(db, move.lines), ConstraintViolated);
    var posted :- PostRow(h, db, move.id,
      Entry(row.journal, row.period, row.date, row.reverses, Some(actor), row.createdBy, now, move.lines));
    Ok(Logged(h, posted, "account_move", move.id, "POST", actor, "", now))
  }

  /** The key of an ingested event is recorded with its move. */
  function WithEvent(db: Db, key: string, id: Id): Db {
    db.(events := db.events[key := id])
  }

  /** PostNewMoveWithEventAtomic: a new move and its idempotency key in one transaction. */
  ghost function PostEvent(h: Hashers, db: Db, key: string, id: Id, journal: Id, period: Id, date: Date, now: nat,
                           lines: seq<Line>): Result<Db> {
    var _ :- Need(key != "", InvalidRequest);
    var _ :- Need(Balanced(lines), InvalidMove);
    var _ :- LockOpenPeriod(db, period, date);
    var _ :- Need(id !in db.moves && ReferencesHold(db, journal, period, lines), ConstraintViolated);
    var posted :- InsertPosted(h, db, id, Entry(journal, period, date, None, Some(0), None, now, Redated(lines, date)));
    var _ :- Need(key !in db.events, ConstraintViolated);
    Ok(WithEvent(Logged(h, posted, "account_move", id, "INGEST_POST", 0, "", now), key, id))
  }

  // Reversal.

  predicate HasReversal(db: Db, original: Id) {
    exists m :: m in db.moves && db.moves[m].reverses == Some(original)
  }

  function Mirrored(lines: seq<Line>, date: Date, keepMatching: bool): (r: seq<Line>)
    ensures MirrorImage(lines, r)
    ensures forall i :: 0 <= i < |r| ==> r[i].date == date
  {
    seq(|lines|, i requires 0 <= i < |lines| => Mirror(lines[i], date, if keepMatching then lines[i].matching else ""))
  }

  /** ReverseMoveAtomic */
  ghost function ReverseMove(h: Hashers, db: Db, original: Id, id: Id, period: Id, date: Date, actor: Id, now: nat): Result<Db> {
    var _ :- Need(original in db.moves, MoveNotFound);
    var _ :- Need(db.moves[original].state == Posted, CannotReverseUnposted);
    var _ :- Need(!HasReversal(db, original), MoveAlreadyReversed);
    var _ :- LockOpenPeriod(db, period, date);
    var _ :- NextSequence(db, db.moves[original].journal);
    var _ :- Need(|db.moves[original].lines| >= 2, InvalidMove);
    var posted :- InsertPosted(h, db, id,
      Entry(db.moves[original].journal, period, date, Some(original), Some(actor), None, now,
            Mirrored(db.moves[original].lines, date, true)));
    Ok(Logged(h, posted, "account_move", original, "REVERSE", actor, "", now))
  }

  /** reversePostedMoveInTransaction, with the period that its query found. */
  ghost function ReverseFxMove(h: Hashers, db: Db, original: Id, id: Id, date: Date, found: Option<Id>, actor: Id, now: nat): Result<Db> {
    var _ :- Need(original in db.moves, MoveNotFound);
    var _ :- Need(db.moves[original].state == Posted, CannotReverseUnposted);
    var _ :- Need(!HasReversal(db, original), MoveAlreadyReversed);
    var _ :- Need(found.Some?, PeriodNotFound);
    var _ :- LockOpenPeriod(db, found.value, date);
    var _ :- NextSequence(db, db.moves[original].journal);
    var _ :- Need(|db.moves[original].lines| >= 2, InvalidMove);
    var posted :- InsertPosted(h, db, id,
      Entry(db.moves[original].journal, found.value, date, Some(original), Some(actor), None, now,
            Mirrored(db.moves[original].lines, date, false)));
    Ok(Logged(h, posted, "account_move", id, "REVERSE", actor, "", now))
  }

  // Reconciliation.

  /** The amount of a line that can be reconciled: its foreign amount, or its net where there is none. */
  function Capacity(l: Line): nat {
    if l.amountCurrency == 0 then Abs(l.debit - l.credit) else Abs(l.amountCurrency)
  }

  function FunctionalCapacity(l: Line): nat {
    Abs(l.debit - l.credit)
  }

  /** The functional-currency part of an allocation. */
  function FunctionalPart(l: Line, amount: Amount): Amount
    requires amount == Capacity(l) || Capacity(l) > 0
  {
    if amount == Capacity(l) then FunctionalCapacity(l)
    else ProRata(FunctionalCapacity(l), amount, Capacity(l))
  }

  datatype Totals = Totals(debitForeign: Amount, creditForeign: Amount, debitFunctional: Amount, creditFunctional: Amount)

  function Count(t: Totals, l: Line, amount: Amount): Totals
    requires amount == Capacity(l) || Capacity(l) > 0
  {
    if l.debit > l.credit then
      t.(debitForeign := t.debitForeign + amount, debitFunctional := t.debitFunctional + FunctionalPart(l, amount))
    else
      t.(creditForeign := t.creditForeign + amount, creditFunctional := t.creditFunctional + FunctionalPart(l, amount))
  }

  predicate Mentions(items: seq<Allocation>, l: LineId) {
    exists k :: 0 <= k < |items| && items[k].line == l
  }

  /** The tests on allocation number i, in the order of the loop. */
  function CheckAllocation(db: Db, date: Date, account: Id, currency: string, items: seq<Allocation>, i: nat): (r: Result<Line>)
    requires i < |items|
    requires i > 0 ==> HasLine(db, items[0].line)
    ensures r.Ok? ==> HasLine(db, items[i].line) && r.value == LineAt(db, items[i].line)
    ensures r.Ok? ==> 0 < items[i].amount <= Capacity(r.value)
  {
    var a := items[i];
    var _ :- Need(a.amount > 0, InvalidRequest);
    var _ :- Need(!Mentions(items[..i], a.line), InvalidRequest);
    var _ :- Need(HasLine(db, a.line), LineNotFound);
    var line := LineAt(db, a.line);
    var _ :- Need(line.account in db.accounts, LineNotFound);
    var owner := db.accounts[line.account];
    var _ :- Need(IsPosted(db, a.line.move) && owner.active && owner.reconcilable, NotReconcilable);
    var _ :- Need(date >= line.date, AllocationRejected);
    var _ :- Need(account == 0 || account == line.account, AllocationRejected);
    var _ :- Need(currency == "" || currency == line.currency, AllocationRejected);
    var first := LineAt(db, items[0].line);
    var _ :- Need(first.account == line.account && first.currency == line.currency, AllocationRejected);
    var _ :- Need(a.amount <= Capacity(line) - Reconciled(db, a.line), AllocationRejected);
    Ok(line)
  }

  /** The loop over the first n allocations. */
  function CheckAllocations(db: Db, date: Date, account: Id, currency: string, items: seq<Allocation>, n: nat): (r: Result<Totals>)
    requires n <= |items|
    ensures r.Ok? ==> forall i :: 0 <= i < n ==> HasLine(db, items[i].line) && items[i].amount > 0
    ensures r.Ok? ==> forall i {:trigger CheckAllocation(db, date, account, currency, items, i)} :: 0 <= i < n ==>
                        CheckAllocation(db, date, account, currency, items, i).Ok?
  {
    if n == 0 then Ok(Totals(0, 0, 0, 0)) else
    var t :- CheckAllocations(db, date, account, currency, items, n - 1);
    var line :- CheckAllocation(db, date, account, currency, items, n - 1);
    Ok(Count(t, line, items[n - 1].amount))
  }

  /** Each item raises the reconciled amount of its line. */
  function Allocate(reconciled: map<LineId, nat>, items: seq<Allocation>): map<LineId, nat>
    requires forall i :: 0 <= i < |items| ==> items[i].amount > 0
  {
    if items == [] then reconciled else
    var before := Allocate(reconciled, items[..|items| - 1]);
    var a := items[|items| - 1];
    before[a.line := ValueAt(before, a.line) + a.amount]
  }

  function FxLine(account: Id, currency: string, date: Date, debit: Amount, credit: Amount): Line {
    Line(account, None, None, debit, credit, 0, currency, "", date)
  }

  /** The two lines of a realised FX move: the reconciled account against loss or gain. */
  function FxLines(account: Id, realized: Amount, date: Date, config: Config): seq<Line> {
    var amount := Abs(realized);
    if realized > 0 then
      [FxLine(account, config.currency, date, 0, amount), FxLine(config.loss, config.currency, date, amount, 0)]
    else
      [FxLine(account, config.currency, date, amount, 0), FxLine(config.gain, config.currency, date, 0, amount)]
  }

  predicate ActiveOfKind(db: Db, a: Id, kind: AccountType) {
    a in db.accounts && db.accounts[a].active && db.accounts[a].kind == kind
  }

  /** postRealizedFXMove, with the period that its query found. */
  ghost function PostFxMove(h: Hashers, db: Db, account: Id, realized: Amount, date: Date, found: Option<Id>, actor: Id, id: Id, now: nat,
                            config: Config): Result<Db>
  {
    var _ :- Need(found.Some?, PeriodNotFound);
    var _ :- LockOpenPeriod(db, found.value, date);
    var _ :- Need(config.fxJournal in db.journals, JournalNotFound);
    var _ :- Need(db.journals[config.fxJournal].active, JournalInactive);
    var _ :- Need(ActiveOfKind(db, config.gain, Income) && ActiveOfKind(db, config.loss, Expense), BadFxAccounts);
    var _ :- Need(Abs(realized) != 0, AllocationRejected);
    var posted :- InsertPosted(h, db, id,
      Entry(config.fxJournal, found.value, date, None, Some(actor), Some(actor), now, FxLines(account, realized, date, config)));
    Ok(Logged(h, posted, "account_move", id, "POST", actor, "", now))
  }

  /** Everything ReconcileMoveLines checks before it writes. */
  function CheckReconcile(db: Db, id: Id, date: Date, actor: Id, account: Id, currency: string, items: seq<Allocation>): (r: Result<Totals>)
    ensures r.Ok? ==> |items| >= 2 && id !in db.reconciliations
    ensures r.Ok? ==> CheckAllocations(db, date, account, currency, items, |items|) == r
  {
    var _ :- Need(actor != 0 && |items| >= 2, InvalidRequest);
    var t :- CheckAllocations(db, date, account, currency, items, |items|);
    var _ :- Need(t.debitForeign == t.creditForeign, AllocationRejected);
    var _ :- Need(t.debitForeign != 0, AllocationRejected);
    var _ :- Need(id !in db.reconciliations, ConstraintViolated);
    Ok(t)
  }

  /** The reconciliation with its items, and the reconciled amounts they add to. */
  function Entered(db: Db, id: Id, r: Reconciliation): Db
    requires forall i :: 0 <= i < |r.items| ==> r.items[i].amount > 0
  {
    db.(reconciled := Allocate(db.reconciled, r.items), reconciliations := db.reconciliations[id := r])
  }

  function NewReconciliation(db: Db, fxId: Id, date: Date, t: Totals, items: seq<Allocation>): Reconciliation
    requires items != [] && HasLine(db, items[0].line)
  {
    var first := LineAt(db, items[0].line);
    Reconciliation(date, first.account, first.currency, if t.debitFunctional == t.creditFunctional then None else Some(fxId), items)
  }

  /** The realised difference is posted only when there is one. */
  ghost function SettleFx(h: Hashers, db: Db, account: Id, realized: Amount, date: Date, found: Option<Id>, actor: Id,
                          fxId: Id, now: nat): Result<Db> {
    if realized == 0 then Ok(db)
    else if db.config.None? then Err(ConfigurationMissing)
    else PostFxMove(h, db, account, realized, date, found, actor, fxId, now, db.config.value)
  }

  /** ReconcileMoveLines */
  ghost function Reconcile(h: Hashers, db: Db, id: Id, fxId: Id, date: Date, found: Option<Id>, actor: Id, account: Id, currency: string,
                           items: seq<Allocation>, now: nat): Result<Db>
  {
    var t :- CheckReconcile(db, id, date, actor, account, currency, items);
    var r := NewReconciliation(db, fxId, date, t, items);
    var settled :- SettleFx(h, Entered(db, id, r), r.account, t.debitFunctional - t.creditFunctional, date, found, actor, fxId, now);
    Ok(Logged(h, settled, "account_reconciliation", id, "RECONCILE", actor, "", now))
  }

  /** Each item lowers the reconciled amount of its line, which has to hold at least that much. */
  function Release(reconciled: map<LineId, nat>, items: seq<Allocation>): Result<map<LineId, nat>> {
    if items == [] then Ok(reconciled) else
    var before :- Release(reconciled, items[..|items| - 1]);
    var a := items[|items| - 1];
    var _ :- Need(a.line in before && before[a.line] >= a.amount, Inconsistent);
    Ok(before[a.line := before[a.line] - a.amount])
  }

  ghost function UndoFx(h: Hashers, db: Db, fxMove: Option<Id>, reversalId: Id, date: Date, found: Option<Id>, actor: Id,
                        now: nat): Result<Db> {
    if fxMove.None? then Ok(db) else ReverseFxMove(h, db, fxMove.value, reversalId, date, found, actor, now)
  }

  function Dropped(db: Db, id: Id): Db {
    db.(reconciliations := db.reconciliations - {id})
  }

  /** UnreconcileMoveLines */
  ghost function Unreconcile(h: Hashers, db: Db, id: Id, reversalId: Id, date: Date, found: Option<Id>, actor: Id, now: nat): Result<Db> {
    var _ :- Need(id != 0 && actor != 0, InvalidRequest);
    var _ :- Need(id in db.reconciliations, ReconciliationNotFound);
    var r := db.reconciliations[id];
    var released :- Release(db.reconciled, r.items);
    var settled :- UndoFx(h, db.(reconciled := released), r.fxMove, reversalId, date, found, actor, now);
    Ok(Dropped(Logged(h, settled, "account_reconciliation", id, "UNRECONCILE", actor, "", now), id))
  }

  // Periods.

  function ValidTransition(from: PeriodState, to: PeriodState): bool {
    match from
    case Open => to != Open
    case SoftClosed => to != SoftClosed
    case HardClosed => false
  }

  function WithPeriodState(db: Db, p: Id, state: PeriodState): Db
    requires p in db.periods
  {
    db.(periods := db.periods[p := db.periods[p].(state := state)])
  }

  /** UpdatePeriodState */
  ghost function SetPeriodState(db: Db, p: Id, state: PeriodState): Result<Db> {
    var _ :- Need(p in db.periods && db.periods[p].year in db.years, PeriodNotFound);
    var _ :- Need(!db.years[db.periods[p].year].closed, PeriodClosed);
    if db.periods[p].state == state then Ok(db) else
    var _ :- Need(ValidTransition(db.periods[p].state, state), InvalidTransition);
    Ok(WithPeriodState(db, p, state))
  }

  // Master data.

  predicate SamePeriodKey(a: Period, b: Period) {
    a.year == b.year && a.number == b.number
  }

  /** Twelve open periods of the year, with ids and numbers of their own. */
  ghost predicate PeriodsFit(db: Db, id: Id, periods: map<Id, Period>) {
    && |periods| == 12
    && (forall p :: p in periods ==> p !in db.periods && periods[p].year == id && periods[p].state == Open)
    && (forall p, q :: p in periods && q in periods && SamePeriodKey(periods[p], periods[q]) ==> p == q)
  }

  ghost predicate YearFits(db: Db, id: Id, year: Year) {
    id !in db.years && !year.closed && forall y :: y in db.years ==> db.years[y].number != year.number
  }

  function WithYear(db: Db, id: Id, year: Year, periods: map<Id, Period>): Db {
    db.(years := db.years[id := year], periods := db.periods + periods)
  }

  /** CreateFiscalYear, with its twelve open periods. */
  ghost function CreateYear(db: Db, id: Id, year: Year, periods: map<Id, Period>): Result<Db> {
    var _ :- Need(YearFits(db, id, year) && PeriodsFit(db, id, periods), ConstraintViolated);
    Ok(WithYear(db, id, year, periods))
  }

  /** CreateJournal: numbering starts at 1. */
  ghost function CreateJournal(db: Db, id: Id, prefix: string): Result<Db> {
    var _ :- Need(id !in db.journals, ConstraintViolated);
    Ok(db.(journals := db.journals[id := Journal(prefix, 1, true)]))
  }

  /** UpdateJournal: a journal may get another prefix at any time; its numbers run on. */
  ghost function UpdateJournal(db: Db, id: Id, prefix: string, active: bool): Result<Db> {
    var _ :- Need(id in db.journals, JournalNotFound);
    Ok(db.(journals := db.journals[id := db.journals[id].(prefix := prefix, active := active)]))
  }

  predicate ConfigHolds(db: Db, config: Config) {
    config.retained in db.accounts && config.gain in db.accounts && config.loss in db.accounts && config.fxJournal in db.journals
  }

  /** UpdateAccountingConfiguration always inserts a row, and a unique index lets the table have only one. */
  ghost function Configure(db: Db, config: Config): Result<Db> {
    var _ :- Need(db.config.None?, ConstraintViolated);
    var _ :- Need(ConfigHolds(db, config), ConstraintViolated);
    Ok(db.(config := Some(config)))
  }

  predicate CodeTaken(db: Db, id: Id, code: string) {
    exists a :: a in db.accounts && a != id && db.accounts[a].code == code
  }

  predicate ParentHolds(db: Db, account: Account) {
    account.parent.None? || account.parent.value in db.accounts
  }

  /** CreateAccount */
  ghost function CreateAccount(db: Db, id: Id, account: Account): Result<Db> {
    var _ :- Need(id !in db.accounts && !CodeTaken(db, id, account.code) && ParentHolds(db, account), ConstraintViolated);
    Ok(db.(accounts := db.accounts[id := account]))
  }

  ghost function Children(accounts: map<Id, Account>, of: set<Id>): set<Id> {
    set a | a in accounts && accounts[a].parent.Some? && accounts[a].parent.value in of
  }

  /** The recursive query for descendants: add children until there are no new ones. */
  ghost function Descendants(accounts: map<Id, Account>, found: set<Id>): set<Id>
    decreases accounts.Keys - found
  {
    var more := Children(accounts, found) - found;
    if more == {} then found else
    var x :| x in more;
    assert x in accounts.Keys - found;
    Descendants(accounts, found + more)
  }

  predicate HasPostedLines(db: Db, account: Id) {
    exists m, i :: m in db.moves && db.moves[m].state != Draft && 0 <= i < |db.moves[m].lines|
      && db.moves[m].lines[i].account == account
  }

  /** UpdateAccount */
  ghost function UpdateAccount(db: Db, id: Id, account: Account): Result<Db> {
    var _ :- Need(account.parent.None? || account.parent.value !in Descendants(db.accounts, {id}), WouldCreateCycle);
    var _ :- Need(id in db.accounts, AccountNotFound);
    var _ :- Need((db.accounts[id].code == account.code && db.accounts[id].kind == account.kind) || !HasPostedLines(db, id),
                  AccountHasPostedMoves);
    var _ :- Need(!CodeTaken(db, id, account.code) && ParentHolds(db, account), ConstraintViolated);
    Ok(db.(accounts := db.accounts[id := account]))
  }

  // Year close.

  predicate InYear(db: Db, y: Id, p: Id) {
    p in db.periods && db.periods[p].year == y
  }

  ghost function PeriodSet(db: Db, y: Id): set<Id> {
    set p | p in db.periods && InYear(db, y, p)
  }

  /** The periods of a year as the locking query lists them, by number. */
  ghost predicate PeriodsOf(db: Db, y: Id, rows: seq<Id>) {
    && Lists(rows, PeriodSet(db, y))
    && (forall i :: 0 <= i < |rows| ==> InYear(db, y, rows[i]))
    && forall i, j :: 0 <= i < j < |rows| ==> NumberedBefore(db, rows[i], rows[j])
  }

  predicate NumberedBefore(db: Db, p: Id, q: Id) {
    p in db.periods && q in db.periods && db.periods[p].number <= db.periods[q].number
  }

  /** The income and expense accounts with lines dated up to a day: the groups of fiscalClosingLines. */
  ghost function ResultGroups(db: Db, asOf: Date): set<Id> {
    set a | a in db.accounts && (db.accounts[a].kind == Income || db.accounts[a].kind == Expense) && HasLineUpTo(db, asOf, a)
  }

  ghost predicate HasLineUpTo(db: Db, asOf: Date, a: Id) {
    exists m, i :: m in PostedUpTo(db, asOf) && 0 <= i < |db.moves[m].lines| && db.moves[m].lines[i].account == a
  }

  ghost function PostedUpTo(db: Db, asOf: Date): set<Id> {
    set m | m in db.moves && db.moves[m].state == Posted && db.moves[m].date <= asOf
  }

  /** The debit net of an account over the posted moves up to a day. */
  ghost function NetUpTo(db: Db, asOf: Date, a: Id): Amount {
    LedgerSum(db.moves, PostedUpTo(db, asOf), On(a, Net))
  }

  /** An account and a currency: one group of fiscalOpeningLines. */
  datatype Group = Group(account: Id, currency: string)

  function GroupOf(l: Line): Group { Group(l.account, l.currency) }

  function InGroup(g: Group, v: Line -> int): Line -> int {
    Select(GroupOf, g, v)
  }

  function Foreign(l: Line): Amount { l.amountCurrency }

  ghost function GroupNet(db: Db, asOf: Date, g: Group): Amount {
    LedgerSum(db.moves, PostedUpTo(db, asOf), InGroup(g, Net))
  }

  ghost function GroupForeign(db: Db, asOf: Date, g: Group): Amount {
    LedgerSum(db.moves, PostedUpTo(db, asOf), InGroup(g, Foreign))
  }

  predicate OnBalanceSheet(kind: AccountType) {
    kind == Asset || kind == Liability || kind == Equity
  }

  ghost predicate OpeningGroup(db: Db, asOf: Date, g: Group) {
    && g.account in db.accounts && OnBalanceSheet(db.accounts[g.account].kind)
    && (exists m, i :: m in PostedUpTo(db, asOf) && 0 <= i < |db.moves[m].lines|
          && GroupOf(db.moves[m].lines[i]) == g)
    && (GroupNet(db, asOf, g) != 0 || GroupForeign(db, asOf, g) != 0)
  }

  /** The answer of the opening query, in some order. */
  ghost predicate OpeningRows(db: Db, asOf: Date, rows: seq<Group>) {
    && (forall i, j :: 0 <= i < j < |rows| ==> rows[i] != rows[j])
    && (forall g :: g in rows <==> OpeningGroup(db, asOf, g))
  }

  function Side(account: Id, currency: string, date: Date, net: Amount, foreign: Amount): Line {
    Line(account, None, None, if net > 0 then net else 0, if net > 0 then 0 else -net, foreign, currency, "", date)
  }

  /** The lines that sweep the first n accounts, without the retained earnings line. */
  ghost function SweepLines(db: Db, asOf: Date, currency: string, rows: seq<Id>): seq<Line> {
    if rows == [] then [] else
    var before := SweepLines(db, asOf, currency, rows[..|rows| - 1]);
    var a := rows[|rows| - 1];
    var balance := NetUpTo(db, asOf, a);
    if balance == 0 then before else before + [Side(a, currency, asOf, -balance, 0)]
  }

  ghost function NetsUpTo(db: Db, asOf: Date): Id -> Amount {
    (a: Id) => NetUpTo(db, asOf, a)
  }

  ghost function Swept(db: Db, asOf: Date, rows: seq<Id>): Amount {
    SumSeq(rows, NetsUpTo(db, asOf))
  }

  /** fiscalClosingLines */
  ghost function ClosingLines(db: Db, asOf: Date, retained: Id, currency: string, rows: seq<Id>): seq<Line> {
    var total := Swept(db, asOf, rows);
    SweepLines(db, asOf, currency, rows)
      + (if total == 0 then [] else [Side(retained, currency, asOf, total, 0)])
  }

  ghost function GroupLine(db: Db, asOf: Date, g: Group): Line {
    Side(g.account, g.currency, asOf + 1, GroupNet(db, asOf, g), GroupForeign(db, asOf, g))
  }

  ghost function GroupLines(db: Db, asOf: Date, rows: seq<Group>): seq<Line> {
    seq(|rows|, i requires 0 <= i < |rows| => GroupLine(db, asOf, rows[i]))
  }

  ghost predicate ForeignMissing(db: Db, asOf: Date, currency: string, g: Group) {
    g.currency != currency && GroupForeign(db, asOf, g) == 0 && GroupNet(db, asOf, g) != 0
  }

  /** fiscalOpeningLines */
  ghost function OpeningLines(db: Db, asOf: Date, currency: string, rows: seq<Group>): Result<seq<Line>> {
    var _ :- Need(forall i :: 0 <= i < |rows| ==> !ForeignMissing(db, asOf, currency, rows[i]), ForeignAmountMissing);
    var lines := GroupLines(db, asOf, rows);
    var _ :- Need(SumSeq(lines, Debit) == SumSeq(lines, Credit), OpeningUnbalanced);
    Ok(lines)
  }

  /** insertSystemMove, skipped when there are no lines. */
  ghost function SystemMove(h: Hashers, db: Db, id: Id, journal: Id, period: Id, date: Date, actor: Id, now: nat,
                            lines: seq<Line>): Result<Db> {
    if lines == [] then Ok(db) else
    var _ :- Need(Balanced(lines), InvalidMove);
    var posted :- InsertPosted(h, db, id, Entry(journal, period, date, None, Some(actor), Some(actor), now, lines));
    Ok(Logged(h, posted, "account_move", id, "POST", actor, "", now))
  }

  predicate IsSuccessor(db: Db, y: Id, next: Id) {
    next in db.years && y in db.years && db.years[next].number == db.years[y].number + 1 && !db.years[next].closed
  }

  predicate IsOpeningPeriod(db: Db, next: Id, p: Id) {
    && next in db.years && p in db.periods && db.periods[p].year == next && db.periods[p].number == 1
    && Covers(db.periods[p], db.years[next].start) && db.periods[p].state == Open
  }

  predicate DraftsRemain(db: Db, year: Year) {
    exists m :: m in db.moves && year.start <= db.moves[m].date <= year.end && db.moves[m].state == Draft
  }

  predicate HardClosedAt(db: Db, rows: seq<Id>, i: nat)
    requires i < |rows| && rows[i] in db.periods
  {
    db.periods[rows[i]].number == i + 1 && db.periods[rows[i]].state == HardClosed
  }

  /** Everything CloseFiscalYear reads before it writes. */
  datatype CloseSetup = CloseSetup(closingPeriod: Id, successor: Id, openingPeriod: Id, retained: Id, currency: string)

  ghost function PrepareClose(db: Db, y: Id, journal: Id, retained: Id, actor: Id, periodRows: seq<Id>): Result<CloseSetup>
    requires PeriodsOf(db, y, periodRows)
  {
    var _ :- Need(y != 0 && journal != 0 && actor != 0, InvalidRequest);
    var _ :- Need(y in db.years, YearNotFound);
    var year := db.years[y];
    var _ :- Need(!year.closed, YearNotClosable);
    var _ :- Need(|periodRows| == 12, YearNotClosable);
    var _ :- Need(forall i :: 0 <= i < 12 ==> HardClosedAt(db, periodRows, i), YearNotClosable);
    var closing := periodRows[11];
    var _ :- Need(db.periods[closing].end == year.end, YearNotClosable);
    var _ :- Need(!DraftsRemain(db, year), YearNotClosable);
    var _ :- Need(exists next :: IsSuccessor(db, y, next), YearNotClosable);
    var next :| IsSuccessor(db, y, next);
    var _ :- Need(db.years[next].start == year.end + 1, YearNotClosable);
    var _ :- Need(exists p :: IsOpeningPeriod(db, next, p), YearNotClosable);
    var opening :| IsOpeningPeriod(db, next, opening);
    var _ :- Need(retained != 0 || db.config.Some?, ConfigurationMissing);
    var r := if retained == 0 then db.config.value.retained else retained;
    var _ :- Need(journal in db.journals, JournalNotFound);
    var _ :- Need(db.journals[journal].active, JournalInactive);
    var _ :- Need(r in db.accounts, AccountNotFound);
    var _ :- Need(ActiveOfKind(db, r, Equity), BadClosingSetup);
    var _ :- Need(db.config.Some?, ConfigurationMissing);
    Ok(CloseSetup(closing, next, opening, r, db.config.value.currency))
  }

  function YearClosed(db: Db, y: Id): Db {
    if y in db.years then db.(years := db.years[y := db.years[y].(closed := true)]) else db
  }

  /** The part of CloseFiscalYear that writes, from the closing move to the state of the year. */
  ghost function WriteClose(h: Hashers, db: Db, y: Id, journal: Id, s: CloseSetup, actor: Id, closingId: Id, openingId: Id, now: nat,
                            resultRows: seq<Id>, openingRows: seq<Group>): Result<Db>
    requires y in db.years && s.successor in db.years
  {
    var asOf := db.years[y].end;
    var closed :- SystemMove(h, db, closingId, journal, s.closingPeriod, asOf, actor, now,
                             ClosingLines(db, asOf, s.retained, s.currency, resultRows));
    var lines :- OpeningLines(closed, asOf, s.currency, openingRows);
    var finished :- SystemMove(h, closed, openingId, journal, s.openingPeriod, db.years[s.successor].start, actor, now, lines);
    Ok(YearClosed(Logged(h, finished, "fiscal_year", y, "CLOSE", actor, "", now), y))
  }

  /** CloseFiscalYear. The three row lists are the answers of its queries. */
  ghost function CloseYear(h: Hashers, db: Db, y: Id, journal: Id, retained: Id, actor: Id, closingId: Id, openingId: Id, now: nat,
                           periodRows: seq<Id>, resultRows: seq<Id>, openingRows: seq<Group>): Result<Db>
    requires PeriodsOf(db, y, periodRows)
  {
    var s :- PrepareClose(db, y, journal, retained, actor, periodRows);
    WriteClose(h, db, y, journal, s, actor, closingId, openingId, now, resultRows, openingRows)
  }
}
