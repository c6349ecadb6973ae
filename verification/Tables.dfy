/** The accounting tables and the queries that the operations on them share. */
module Tables {
  import opened Ledger
  import opened Text
  import opened Hashing
  import opened AuditChain

  datatype PeriodState = Open | SoftClosed | HardClosed

  datatype Year = Year(number: int, start: Date, end: Date, closed: bool)

  datatype Period = Period(year: Id, number: int, start: Date, end: Date, state: PeriodState)

  datatype Journal = Journal(prefix: string, next: int, active: bool)

  datatype Config = Config(retained: Id, gain: Id, loss: Id, fxJournal: Id, currency: string)

  datatype Allocation = Allocation(line: LineId, amount: Amount)

  datatype Reconciliation = Reconciliation(
    date: Date,
    account: Id,
    currency: string,
    fxMove: Option<Id>,
    items: seq<Allocation>)

  datatype Db = Db(
    accounts: map<Id, Account>,
    years: map<Id, Year>,
    periods: map<Id, Period>,
    journals: map<Id, Journal>,
    config: Option<Config>,
    moves: map<Id, Move>,
    reconciled: map<LineId, nat>,
    reconciliations: map<Id, Reconciliation>,
    events: map<string, Id>,
    audit: seq<AuditRow>)

  const EMPTY := Db(map[], map[], map[], map[], None, map[], map[], map[], map[], [])

  /** The two uses of SHA-256. */
  datatype Hashers = Hashers(seal: MoveRecord -> string, audit: Hashed -> string)

  datatype Error =
    | InvalidRequest
    | InvalidMove
    | MoveNotFound
    | MoveAlreadyPosted
    | MoveChanged
    | ActorMissing
    | CreatorMissing
    | MakerChecksOwn
    | CannotReverseUnposted
    | MoveAlreadyReversed
    | PeriodNotFound
    | PeriodClosed
    | InvalidTransition
    | JournalNotFound
    | JournalInactive
    | BadSequence
    | ConstraintViolated
    | LineNotFound
    | NotReconcilable
    | AllocationRejected
    | Inconsistent
    | ConfigurationMissing
    | BadFxAccounts
    | ReconciliationNotFound
    | YearNotFound
    | YearNotClosable
    | AccountNotFound
    | BadClosingSetup
    | ForeignAmountMissing
    | OpeningUnbalanced
    | AccountHasPostedMoves
    | WouldCreateCycle

  datatype Result<+T> = Ok(value: T) | Err(error: Error) {
    predicate IsFailure() { Err? }

    function PropagateFailure<U>(): Result<U>
      requires Err?
    {
      Err(error)
    }

    function Extract(): T
      requires Ok?
    {
      value
    }
  }

  /** Go on only if the condition holds. */
  function Need(condition: bool, error: Error): (r: Result<()>)
    ensures r.Ok? <==> condition
  {
    if condition then Ok(()) else Err(error)
  }

  // Moves and their lines.

  predicate IsPosted(db: Db, m: Id) {
    m in db.moves && db.moves[m].state == Posted
  }

  ghost function PostedIds(db: Db): set<Id> {
    set m | m in db.moves && db.moves[m].state == Posted
  }

  predicate HasLine(db: Db, l: LineId) {
    l.move in db.moves && l.pos < |db.moves[l.move].lines|
  }

  function LineAt(db: Db, l: LineId): Line
    requires HasLine(db, l)
  {
    db.moves[l.move].lines[l.pos]
  }

  function ValueAt(reconciled: map<LineId, nat>, l: LineId): nat {
    if l in reconciled then reconciled[l] else 0
  }

  /** The reconciled_amount column; it defaults to 0. */
  function Reconciled(db: Db, l: LineId): nat {
    ValueAt(db.reconciled, l)
  }

  // Periods.

  predicate Covers(p: Period, date: Date) {
    p.start <= date <= p.end
  }

  /** Of the periods that cover the date, none starts later than p. */
  predicate IsPeriodOf(db: Db, date: Date, p: Id) {
    && p in db.periods && Covers(db.periods[p], date)
    && forall q :: q in db.periods && Covers(db.periods[q], date) ==> db.periods[q].start <= db.periods[p].start
  }

  /** What the query for the period of a date may answer. Between covering periods with the same start it leaves the choice open. */
  predicate LooksUp(db: Db, date: Date, found: Option<Id>) {
    match found
    case None => forall q :: q in db.periods ==> !Covers(db.periods[q], date)
    case Some(p) => IsPeriodOf(db, date, p)
  }

  /** lockOpenPeriod */
  function LockOpenPeriod(db: Db, p: Id, date: Date): Result<()> {
    if p !in db.periods || !Covers(db.periods[p], date) then Err(PeriodNotFound)
    else Need(db.periods[p].state == Open, PeriodClosed)
  }

  // Journals: numbers and hashes.

  predicate InJournal(db: Db, j: Id, m: Id) {
    m in db.moves && db.moves[m].journal == j && db.moves[m].state != Draft
  }

  /** Of the posted moves of the journal, m has the name that sorts last. */
  predicate IsNewest(db: Db, j: Id, m: Id) {
    && InJournal(db, j, m)
    && forall k :: k in db.moves && InJournal(db, j, k) && k != m ==> Before(db.moves[k].name, db.moves[m].name)
  }

  /** previousPostedMoveHash */
  ghost function PreviousHash(db: Db, j: Id): string {
    if exists m :: IsNewest(db, j, m) then
      var m :| IsNewest(db, j, m);
      db.moves[m].hash
    else ""
  }

  predicate NameTaken(db: Db, name: string) {
    exists m :: m in db.moves && db.moves[m].state == Posted && db.moves[m].name == name
  }

  // Foreign keys of a move and its lines.

  predicate ReferencesHold(db: Db, journal: Id, period: Id, lines: seq<Line>) {
    journal in db.journals && period in db.periods && LinesHold(db, lines)
  }

  predicate LinesHold(db: Db, lines: seq<Line>) {
    forall i :: 0 <= i < |lines| ==> lines[i].account in db.accounts
  }

  function Logged(h: Hashers, db: Db, entityType: string, entity: Id, action: string, actor: Id, payload: string, at: int): Db {
    db.(audit := Appended(h.audit, db.audit, entityType, entity, action, actor, payload, at))
  }
}
