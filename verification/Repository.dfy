/** The repository: the tables as fields, one transaction a method. A method that fails leaves every table as it was. */
module Repository {
  import opened Ledger
  import opened AuditChain
  import opened Tables
  import opened Steps
  import opened Invariants
  import opened PostingKeeps
  import opened OperationsKeep
  import opened Runs
  import opened Transactions

  /** The outcome of a transaction with a specified effect: all of it, or the specified error and nothing else. */
  ghost predicate Did(before: Db, effect: Result<Db>, r: Result<()>, after: Db) {
    match effect
    case Ok(value) => r == Ok(()) && after == value
    case Err(error) => r == Err(error) && after == before
  }

  class PostgresRepository {
    const hashers: Hashers
    var accounts: map<Id, Account>
    var years: map<Id, Year>
    var periods: map<Id, Period>
    var journals: map<Id, Journal>
    var config: Option<Config>
    var moves: map<Id, Move>
    var reconciled: map<LineId, nat>
    var reconciliations: map<Id, Reconciliation>
    var events: map<string, Id>
    var audit: seq<AuditRow>

    constructor (hashers: Hashers)
      ensures this.hashers == hashers && Tables() == EMPTY
    {
      this.hashers := hashers;
      accounts, years, periods, journals, config := map[], map[], map[], map[], None;
      moves, reconciled, reconciliations, events, audit := map[], map[], map[], map[], [];
    }

    ghost function Tables(): Db
      reads this
    {
      Db(accounts, years, periods, journals, config, moves, reconciled, reconciliations, events, audit)
    }

    method Begin() returns (tx: Db)
      ensures tx == Tables()
    {
      tx := Db(accounts, years, periods, journals, config, moves, reconciled, reconciliations, events, audit);
    }

    method Commit(tx: Db)
      modifies this
      ensures Tables() == tx
    {
      accounts, years, periods, journals, config := tx.accounts, tx.years, tx.periods, tx.journals, tx.config;
      moves, reconciled, reconciliations := tx.moves, tx.reconciled, tx.reconciliations;
      events, audit := tx.events, tx.audit;
    }

    // Moves.

    method SaveDraftMove(id: Id, journal: Id, period: Id, date: Date, createdBy: Option<Id>, now: nat, lines: seq<Line>) returns (r: Result<()>)
      modifies this
      ensures Did(old(Tables()), SaveDraft(old(Tables()), id, journal, period, date, createdBy, now, lines), r, Tables())
    {
      hide Balanced;
      var offence := ValidateBalance(lines);
      if offence.Some? {
        return Err(InvalidMove);
      }
      var tx := Begin();
      if id in tx.moves && tx.moves[id].state != Draft {
        return Err(MoveAlreadyPosted);
      }
      if !ReferencesHold(tx, journal, period, lines) {
        return Err(ConstraintViolated);
      }
      var creator := createdBy;
      if id in tx.moves && tx.moves[id].createdBy.Some? {
        creator := tx.moves[id].createdBy;
      }
      var dated := DateLines(lines, date);
      tx := tx.(moves := tx.moves[id := Move("", 0, journal, period, date, Draft, None, "", None, creator, now, dated)]);
      Commit(tx);
      return Ok(());
    }

    /** The use cases build the lines of a draft with the date of its move. */
    static method DateLines(lines: seq<Line>, date: Date) returns (dated: seq<Line>)
      ensures dated == Redated(lines, date)
    {
      dated := [];
      for i := 0 to |lines|
        invariant |dated| == i && forall k :: 0 <= k < i ==> dated[k] == lines[k].(date := date)
      {
        dated := dated + [lines[i].(date := date)];
      }
    }

    method DeleteDraftMove(id: Id) returns (r: Result<()>)
      modifies this
      ensures Did(old(Tables()), DeleteDraft(old(Tables()), id), r, Tables())
    {
      var tx := Begin();
      if id !in tx.moves {
        return Err(MoveNotFound);
      }
      if tx.moves[id].state != Draft {
        return Err(MoveAlreadyPosted);
      }
      tx := tx.(moves := tx.moves - {id});
      Commit(tx);
      return Ok(());
    }

    method PostMoveAtomic(move: Loaded, actor: Id, now: nat) returns (r: Result<()>)
      modifies this
      ensures Did(old(Tables()), PostDraft(hashers, old(Tables()), move, actor, now), r, Tables())
    {
      hide Balanced, PostRow, LinesHold;
      if move.state != Draft {
        return Err(MoveAlreadyPosted);
      }
      var offence := ValidateBalance(move.lines);
      if offence.Some? {
        return Err(InvalidMove);
      }
      var tx := Begin();
      var open := LockOpenPeriod(tx, move.period, move.date);
      if open.Err? {
        return Err(open.error);
      }
      if move.id !in tx.moves {
        return Err(MoveNotFound);
      }
      var row := tx.moves[move.id];
      if row.state != Draft {
        return Err(MoveAlreadyPosted);
      }
      if row.journal != move.journal || row.period != move.period || row.date != move.date {
        return Err(MoveChanged);
      }
      if move.updatedAt != 0 && move.updatedAt != row.updatedAt {
        return Err(MoveChanged);
      }
      if !LinesHold(tx, move.lines) {
        return Err(ConstraintViolated);
      }
      var e := Entry(row.journal, row.period, row.date, row.reverses, Some(actor), row.createdBy, now, move.lines);
      var posted := PostInTransaction(hashers, tx, move.id, e);
      if posted.Err? {
        return Err(posted.error);
      }
      Commit(Logged(hashers, posted.value, "account_move", move.id, "POST", actor, "", now));
      return Ok(());
    }

    method PostNewMoveWithEventAtomic(key: string, id: Id, journal: Id, period: Id, date: Date, now: nat, lines: seq<Line>) returns (r: Result<()>)
      modifies this
      ensures Did(old(Tables()), PostEvent(hashers, old(Tables()), key, id, journal, period, date, now, lines), r, Tables())
    {
      hide Balanced, InsertPosted, ReferencesHold;
      if key == "" {
        return Err(InvalidRequest);
      }
      var offence := ValidateBalance(lines);
      if offence.Some? {
        return Err(InvalidMove);
      }
      var tx := Begin();
      var open := LockOpenPeriod(tx, period, date);
      if open.Err? {
        return Err(open.error);
      }
      if id in tx.moves || !ReferencesHold(tx, journal, period, lines) {
        return Err(ConstraintViolated);
      }
      var dated := DateLines(lines, date);
      var posted := InsertInTransaction(hashers, tx, id, Entry(journal, period, date, None, Some(0), None, now, dated));
      if posted.Err? {
        return Err(posted.error);
      }
      var logged := Logged(hashers, posted.value, "account_move", id, "INGEST_POST", 0, "", now);
      if key in tx.events {
        return Err(ConstraintViolated);
      }
      Commit(WithEvent(logged, key, id));
      return Ok(());
    }

    method ReverseMoveAtomic(original: Id, id: Id, period: Id, date: Date, actor: Id, now: nat) returns (r: Result<()>)
      modifies this
      ensures Did(old(Tables()), ReverseMove(hashers, old(Tables()), original, id, period, date, actor, now), r, Tables())
    {
      hide InsertPosted, Mirrored;
      var tx := Begin();
      if original !in tx.moves {
        return Err(MoveNotFound);
      }
      if tx.moves[original].state != Posted {
        return Err(CannotReverseUnposted);
      }
      if HasReversal(tx, original) {
        return Err(MoveAlreadyReversed);
      }
      var open := LockOpenPeriod(tx, period, date);
      if open.Err? {
        return Err(open.error);
      }
      var journal := tx.moves[original].journal;
      var name := NextSequence(tx, journal);
      if name.Err? {
        return Err(name.error);
      }
      if |tx.moves[original].lines| < 2 {
        return Err(InvalidMove);
      }
      var lines := MirrorLines(tx.moves[original].lines, date, true);
      var posted := InsertInTransaction(hashers, tx, id, Entry(journal, period, date, Some(original), Some(actor), None, now, lines));
      if posted.Err? {
        return Err(posted.error);
      }
      Commit(Logged(hashers, posted.value, "account_move", original, "REVERSE", actor, "", now));
      return Ok(());
    }

    // Reconciliation.

    method ReconcileMoveLines(id: Id, fxId: Id, date: Date, actor: Id, account: Id, currency: string, items: seq<Allocation>, now: nat)
      returns (r: Result<()>, ghost found: Option<Id>)
      modifies this
      ensures LooksUp(old(Tables()), date, found)
      ensures Did(old(Tables()), Reconcile(hashers, old(Tables()), id, fxId, date, found, actor, account, currency, items, now), r, Tables())
    {
      hide Reconcile, LooksUp;
      var tx := Begin();
      var entered, answer := EnterReconciliation(hashers, tx, id, fxId, date, actor, account, currency, items, now);
      found := answer;
      if entered.Err? {
        return Err(entered.error), found;
      }
      Commit(entered.value);
      return Ok(()), found;
    }

    method UnreconcileMoveLines(id: Id, reversalId: Id, date: Date, actor: Id, now: nat) returns (r: Result<()>, ghost found: Option<Id>)
      modifies this
      ensures LooksUp(old(Tables()), date, found)
      ensures Did(old(Tables()), Unreconcile(hashers, old(Tables()), id, reversalId, date, found, actor, now), r, Tables())
    {
      hide Unreconcile, LooksUp;
      var tx := Begin();
      var undone, answer := UndoReconciliation(hashers, tx, id, reversalId, date, actor, now);
      found := answer;
      if undone.Err? {
        return Err(undone.error), found;
      }
      Commit(undone.value);
      return Ok(()), found;
    }

    // Periods and years.

    method UpdatePeriodState(id: Id, state: PeriodState) returns (r: Result<()>)
      modifies this
      ensures Did(old(Tables()), SetPeriodState(old(Tables()), id, state), r, Tables())
      ensures r.Ok? ==>
                id in old(Tables()).periods &&
                var was := old(Tables()).periods[id];
                Tables() == old(Tables()).(periods := old(Tables()).periods[id := Period(was.year, was.number, was.start, was.end, state)])
    {
      var tx := Begin();
      if id !in tx.periods || tx.periods[id].year !in tx.years {
        return Err(PeriodNotFound);
      }
      if tx.years[tx.periods[id].year].closed {
        return Err(PeriodClosed);
      }
      var current := tx.periods[id].state;
      if current == state {
        assert tx.periods[id := tx.periods[id]] == tx.periods;
        return Ok(());
      }
      match current {
        case Open =>
          if state != SoftClosed && state != HardClosed {
            return Err(InvalidTransition);
          }
        case SoftClosed =>
          if state != Open && state != HardClosed {
            return Err(InvalidTransition);
          }
        case HardClosed =>
          return Err(InvalidTransition);
      }
      tx := tx.(periods := tx.periods[id := tx.periods[id].(state := state)]);
      Commit(tx);
      return Ok(());
    }

    /** The three row lists are the answers of the queries on periods, results and balance sheet groups. */
    method CloseFiscalYear(y: Id, journal: Id, retained: Id, actor: Id, closingId: Id, openingId: Id, now: nat,
                           periodRows: seq<Id>, results: seq<ResultRow>, sheet: seq<SheetRow>) returns (r: Result<()>)
      requires YearKeys(Tables()) && PeriodsOf(Tables(), y, periodRows)
      requires forall s :: PrepareClose(Tables(), y, journal, retained, actor, periodRows) == Ok(s) ==>
                 y in Tables().years && BalanceAnswers(hashers, Tables(), y, journal, s, actor, closingId, now, results, sheet)
      modifies this
      ensures Did(old(Tables()),
                  CloseYear(hashers, old(Tables()), y, journal, retained, actor, closingId, openingId, now, periodRows,
                            ResultAccountsOf(results), SheetGroupsOf(sheet)), r, Tables())
    {
      hide PrepareClose, WriteClose, YearKeys, PeriodsOf, BalanceAnswers;
      var tx := Begin();
      var setup := ReadCloseSetup(tx, y, journal, retained, actor, periodRows);
      if setup.Err? {
        return Err(setup.error);
      }
      PreparedIsHardClosed(tx, y, journal, retained, actor, periodRows);
      var written := WriteYearClose(hashers, tx, y, journal, setup.value, actor, closingId, openingId, now, results, sheet);
      if written.Err? {
        return Err(written.error);
      }
      Commit(written.value);
      return Ok(());
    }

    // Accounts.

    method CreateAccount(id: Id, row: Account) returns (r: Result<()>)
      modifies this
      ensures Did(old(Tables()), Steps.CreateAccount(old(Tables()), id, row), r, Tables())
    {
      var tx := Begin();
      if id in tx.accounts || CodeTaken(tx, id, row.code) || !ParentHolds(tx, row) {
        return Err(ConstraintViolated);
      }
      tx := tx.(accounts := tx.accounts[id := row]);
      Commit(tx);
      return Ok(());
    }

    method UpdateAccount(id: Id, row: Account) returns (r: Result<()>)
      modifies this
      ensures Did(old(Tables()), Steps.UpdateAccount(old(Tables()), id, row), r, Tables())
    {
      hide Steps.UpdateAccount;
      var tx := Begin();
      var changed := ChangeAccount(tx, id, row);
      if changed.Err? {
        return Err(changed.error);
      }
      Commit(changed.value);
      return Ok(());
    }
  }

  /** A method of the repository is a step of a run: it keeps the invariant and extends the tables. */
  lemma MethodIsStep(h: Hashers, before: Db, op: Op, r: Result<()>, after: Db)
    requires Legal(before, op) && Did(before, Apply(h, before, op), r, after)
    ensures after == Step(h, before, op)
    ensures Inv(h, before) ==> Inv(h, after) && Extends(before, after)
  {
    hide Inv, Apply, Legal, Extends;
    ExtendsItself(before);
    if r.Ok? && Inv(h, before) {
      StepKeeps(h, before, op, after);
    }
  }
}
