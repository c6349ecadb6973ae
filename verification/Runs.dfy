/** Runs: any sequence of transactions from the empty database, each committed in full or without effect. */
module Runs {
  import opened Ledger
  import opened Tables
  import opened Steps
  import opened Invariants
  import opened Allocations
  import opened Hierarchy
  import opened PostingKeeps
  import opened OperationsKeep

  datatype Op =
    | SaveDraftOp(id: Id, journal: Id, period: Id, date: Date, createdBy: Option<Id>, now: nat, lines: seq<Line>)
    | DeleteDraftOp(id: Id)
    | PostDraftOp(move: Loaded, actor: Id, now: nat)
    | PostEventOp(key: string, id: Id, journal: Id, period: Id, date: Date, now: nat, lines: seq<Line>)
    | ReverseOp(original: Id, id: Id, period: Id, date: Date, actor: Id, now: nat)
    | ReconcileOp(id: Id, fxId: Id, date: Date, found: Option<Id>, actor: Id, account: Id, currency: string, items: seq<Allocation>, now: nat)
    | UnreconcileOp(id: Id, reversalId: Id, date: Date, found: Option<Id>, actor: Id, now: nat)
    | PeriodStateOp(id: Id, state: PeriodState)
    | CreateYearOp(id: Id, year: Year, periods: map<Id, Period>)
    | CloseYearOp(id: Id, journal: Id, retained: Id, actor: Id, closingId: Id, openingId: Id, now: nat,
                  periodRows: seq<Id>, resultRows: seq<Id>, openingRows: seq<Group>)
    | CreateJournalOp(id: Id, prefix: string)
    | UpdateJournalOp(id: Id, prefix: string, active: bool)
    | CreateAccountOp(id: Id, row: Account)
    | UpdateAccountOp(id: Id, row: Account)
    | ConfigureOp(config: Config)

  /** What an operation holds from earlier reads: a loaded draft with its stamp, and the answers of its queries. */
  ghost predicate Legal(db: Db, op: Op) {
    match op
    case PostDraftOp(move, _, _) => LoadedFrom(db, move)
    case ReconcileOp(_, _, date, found, _, _, _, _, _) => LooksUp(db, date, found)
    case UnreconcileOp(_, _, date, found, _, _) => LooksUp(db, date, found)
    case CloseYearOp(id, _, _, _, _, _, _, periodRows, _, _) => PeriodsOf(db, id, periodRows)
    case _ => true
  }

  ghost function Apply(h: Hashers, db: Db, op: Op): Result<Db>
    requires Legal(db, op)
  {
    match op
    case SaveDraftOp(id, journal, period, date, createdBy, now, lines) => SaveDraft(db, id, journal, period, date, createdBy, now, lines)
    case DeleteDraftOp(id) => DeleteDraft(db, id)
    case PostDraftOp(move, actor, now) => PostDraft(h, db, move, actor, now)
    case PostEventOp(key, id, journal, period, date, now, lines) => PostEvent(h, db, key, id, journal, period, date, now, lines)
    case ReverseOp(original, id, period, date, actor, now) => ReverseMove(h, db, original, id, period, date, actor, now)
    case ReconcileOp(id, fxId, date, found, actor, account, currency, items, now) =>
      Reconcile(h, db, id, fxId, date, found, actor, account, currency, items, now)
    case UnreconcileOp(id, reversalId, date, found, actor, now) => Unreconcile(h, db, id, reversalId, date, found, actor, now)
    case PeriodStateOp(id, state) => SetPeriodState(db, id, state)
    case CreateYearOp(id, year, periods) => CreateYear(db, id, year, periods)
    case CloseYearOp(id, journal, retained, actor, closingId, openingId, now, periodRows, resultRows, openingRows) =>
      CloseYear(h, db, id, journal, retained, actor, closingId, openingId, now, periodRows, resultRows, openingRows)
    case CreateJournalOp(id, prefix) => CreateJournal(db, id, prefix)
    case UpdateJournalOp(id, prefix, active) => UpdateJournal(db, id, prefix, active)
    case CreateAccountOp(id, account) => CreateAccount(db, id, account)
    case UpdateAccountOp(id, account) => UpdateAccount(db, id, account)
    case ConfigureOp(config) => Configure(db, config)
  }

  /** A failed transaction rolls back. */
  ghost function Step(h: Hashers, db: Db, op: Op): Db
    requires Legal(db, op)
  {
    var r := Apply(h, db, op);
    if r.Ok? then r.value else db
  }

  /** The operation may run on these tables and commits with those. */
  ghost predicate Commits(h: Hashers, db: Db, op: Op, after: Db) {
    Legal(db, op) && Apply(h, db, op) == Ok(after)
  }

  lemma StepKeeps(h: Hashers, db: Db, op: Op, after: Db)
    requires Inv(h, db) && Legal(db, op) && Apply(h, db, op) == Ok(after)
    ensures Inv(h, after) && Extends(db, after)
  {
    hide Inv, Extends, SaveDraft, DeleteDraft, PostDraft, PostEvent, ReverseMove, Reconcile, Unreconcile, SetPeriodState,
      CreateYear, CloseYear, CreateJournal, UpdateJournal, Configure, CreateAccount, UpdateAccount, PeriodsOf, LoadedFrom;
    match op
    case SaveDraftOp(id, journal, period, date, createdBy, now, lines) =>
      SaveDraftKeeps(h, db, id, journal, period, date, createdBy, now, lines);
    case DeleteDraftOp(id) => DeleteDraftKeeps(h, db, id);
    case PostDraftOp(move, actor, now) => PostDraftKeeps(h, db, move, actor, now);
    case PostEventOp(key, id, journal, period, date, now, lines) =>
      PostEventKeeps(h, db, key, id, journal, period, date, now, lines);
    case ReverseOp(original, id, period, date, actor, now) =>
      ReverseMoveKeeps(h, db, original, id, period, date, actor, now);
    case ReconcileOp(id, fxId, date, found, actor, account, currency, items, now) =>
      ReconcileKeeps(h, db, id, fxId, date, found, actor, account, currency, items, now);
    case UnreconcileOp(id, reversalId, date, found, actor, now) => UnreconcileKeeps(h, db, id, reversalId, date, found, actor, now);
    case PeriodStateOp(id, state) => PeriodStateKeeps(h, db, id, state, after);
    case CreateYearOp(id, year, periods) => CreateYearKeeps(h, db, id, year, periods, after);
    case CloseYearOp(id, journal, retained, actor, closingId, openingId, now, periodRows, resultRows, openingRows) =>
      CloseYearKeeps(h, db, id, journal, retained, actor, closingId, openingId, now, periodRows, resultRows, openingRows, after);
    case CreateJournalOp(id, prefix) => CreateJournalKeeps(h, db, id, prefix, after);
    case UpdateJournalOp(id, prefix, active) => UpdateJournalKeeps(h, db, id, prefix, active, after);
    case CreateAccountOp(id, account) => CreateAccountKeeps(h, db, id, account, after);
    case UpdateAccountOp(id, account) => UpdateAccountKeeps(h, db, id, account, after);
    case ConfigureOp(config) => ConfigureKeeps(h, db, config, after);
  }

  lemma CreateAccountKeeps(h: Hashers, db: Db, id: Id, account: Account, after: Db)
    requires Inv(h, db) && CreateAccount(db, id, account) == Ok(after)
    ensures Inv(h, after) && Extends(db, after)
  {
    hide SoundMoves, GapFree, Chained, SoundReversals, SoundEvents, SoundAudit, SoundYears, SoundAllocations, Extends, SoundHierarchy;
    CreateKeepsHierarchy(db, id, account);
    AccountsChange(h, db, after);
  }

  lemma UpdateAccountKeeps(h: Hashers, db: Db, id: Id, account: Account, after: Db)
    requires Inv(h, db) && UpdateAccount(db, id, account) == Ok(after)
    ensures Inv(h, after) && Extends(db, after)
  {
    hide SoundMoves, GapFree, Chained, SoundReversals, SoundEvents, SoundAudit, SoundYears, SoundAllocations, Extends, SoundHierarchy;
    UpdateKeepsHierarchy(db, id, account);
    AccountsChange(h, db, after);
  }

  // Runs.

  ghost predicate Run(h: Hashers, states: seq<Db>, ops: seq<Op>) {
    && |states| == |ops| + 1
    && states[0] == EMPTY
    && forall i :: 0 <= i < |ops| ==> Legal(states[i], ops[i]) && states[i + 1] == Step(h, states[i], ops[i])
  }

  lemma EmptySound(h: Hashers)
    ensures Inv(h, EMPTY)
  {
    assert Ranks(ParentMap(EMPTY.accounts), Ranking((x: Id) => 0, 0));
    forall l
      ensures Reconciled(EMPTY, l) == AllocatedTo(EMPTY.reconciliations, l) && WithinCapacity(EMPTY, l)
    {
      assert EMPTY.reconciliations.Keys == {};
    }
  }

  /** Every state of every run satisfies the invariant, and later states extend earlier ones. */
  lemma {:induction false} RunKeeps(h: Hashers, states: seq<Db>, ops: seq<Op>, i: nat, j: nat)
    requires Run(h, states, ops) && i <= j < |states|
    ensures Inv(h, states[i]) && Inv(h, states[j]) && Extends(states[i], states[j])
    decreases j
  {
    hide Inv, Extends, Legal, Apply;
    if j == 0 {
      EmptySound(h);
      ExtendsItself(states[0]);
    } else {
      RunKeeps(h, states, ops, if i < j then i else j - 1, j - 1);
      RunStep(h, states, ops, j - 1);
      if i < j {
        ExtendsTransitive(states[i], states[j - 1], states[j]);
      } else {
        ExtendsItself(states[j]);
      }
    }
  }

  lemma RunStep(h: Hashers, states: seq<Db>, ops: seq<Op>, i: nat)
    requires Run(h, states, ops) && i < |ops| && Inv(h, states[i])
    ensures Inv(h, states[i + 1]) && Extends(states[i], states[i + 1])
  {
    hide Inv, Extends, Apply, Legal;
    assert Legal(states[i], ops[i]) && states[i + 1] == Step(h, states[i], ops[i]);
    var r := Apply(h, states[i], ops[i]);
    if r.Ok? {
      StepKeeps(h, states[i], ops[i], r.value);
    } else {
      ExtendsItself(states[i]);
    }
  }
}
