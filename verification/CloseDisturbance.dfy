/** A year close that fails because others post between its two balance queries: exactly when that can happen. */
module CloseDisturbance {
  import opened Sums
  import opened Ledger
  import opened Text
  import opened MoveNames
  import opened Tables
  import opened Steps
  import opened Invariants
  import opened PostingKeeps
  import opened OperationsKeep
  import opened Runs
  import opened StepEffects
  import opened LedgerHistory
  import opened YearClose
  import opened CloseRace
  import opened Ingest

  // Fresh keys and texts.

  lemma {:induction false} FreshId(ids: set<Id>) returns (n: Id)
    ensures forall m: Id :: m >= n ==> m !in ids
  {
    if ids == {} {
      n := 0;
    } else {
      var x :| x in ids;
      var rest := FreshId(ids - {x});
      n := if x < rest then rest else x + 1;
      forall m: Id | m >= n
        ensures m !in ids
      {
        assert m !in ids - {x};
      }
    }
  }

  ghost predicate Injective(f: nat -> string) {
    forall a, b :: f(a) == f(b) ==> a == b
  }

  /** Only finitely many numbers print as a text of a finite set. */
  lemma {:induction false} FreshPrinted(f: nat -> string, taken: set<string>) returns (n: nat)
    requires Injective(f)
    ensures forall m: nat :: m >= n ==> f(m) !in taken
  {
    if taken == {} {
      n := 0;
    } else {
      var x :| x in taken;
      var rest := FreshPrinted(f, taken - {x});
      n := rest;
      if k: nat :| f(k) == x {
        n := if k < rest then rest else k + 1;
      }
      forall m: nat | m >= n
        ensures f(m) !in taken
      {
        assert f(m) !in taken - {x};
      }
    }
  }

  lemma DecimalInjective()
    ensures Injective(Decimal)
  {
    forall a, b | Decimal(a) == Decimal(b)
      ensures a == b
    {
      PaddedInjective(a, b, 1);
    }
  }

  /** The first name of a journal whose prefix is a number. */
  function FirstName(n: nat): string {
    SequenceName(Decimal(n), 1)
  }

  lemma FirstNameInjective()
    ensures Injective(FirstName)
  {
    hide PadTo;
    forall a, b | FirstName(a) == FirstName(b)
      ensures a == b
    {
      PartsOfName(a);
      PartsOfName(b);
      PaddedInjective(a, b, 1);
    }
  }

  lemma PartsOfName(n: nat)
    ensures |FirstName(n)| == |Decimal(n)| + |PadTo(1, 5)| && FirstName(n)[..|Decimal(n)|] == Decimal(n)
  {
    hide PadTo;
  }

  // A posting up to the day.

  /** What the others need for it: ids, a code, a prefix and a key that are free, and an open period with a day in it. */
  datatype Plan = Plan(account: Id, code: string, journal: Id, prefix: string, key: string, move: Id, period: Id, day: Date)

  function ResultAccount(code: string): Account {
    Account(code, Income, CreditNormal, None, false, true, false, false, NoActivity)
  }

  function EventOf(x: Plan, retained: Id, currency: string): seq<Line> {
    EventLines(retained, x.account, 1, 1, currency, x.day)
  }

  ghost predicate IsFree(db: Db, x: Plan) {
    && x.account !in db.accounts && !CodeTaken(db, x.account, x.code) && x.journal !in db.journals
    && !NameTaken(db, SequenceName(x.prefix, 1)) && x.key != "" && x.key !in db.events && x.move !in db.moves
    && TakesPosting(db, x.period, x.day)
  }

  ghost function WithAccount(db: Db, x: Plan): Db {
    db.(accounts := db.accounts[x.account := ResultAccount(x.code)])
  }

  ghost function WithJournal(db: Db, x: Plan): Db {
    var with := WithAccount(db, x);
    with.(journals := with.journals[x.journal := Journal(x.prefix, 1, true)])
  }

  /** The three transactions: a new income account, a new journal, and an event that credits the one against retained earnings. */
  function PlanOps(x: Plan, retained: Id, currency: string): seq<Op> {
    [CreateAccountOp(x.account, ResultAccount(x.code)), CreateJournalOp(x.journal, x.prefix),
     PostEventOp(x.key, x.move, x.journal, x.period, x.day, 1, EventOf(x, retained, currency))]
  }

  ghost function EntryOf(x: Plan, retained: Id, currency: string): Entry {
    Entry(x.journal, x.period, x.day, None, Some(0), None, 1, EventOf(x, retained, currency))
  }

  /** What PostEvent asks for before it takes the row. */
  lemma EventFits(db: Db, x: Plan, retained: Id, currency: string)
    requires IsFree(db, x) && retained in db.accounts
    ensures var start := WithJournal(db, x);
            && LockOpenPeriod(start, x.period, x.day).Ok? && NextSequence(start, x.journal).Ok?
            && ReferencesHold(start, x.journal, x.period, EventOf(x, retained, currency))
            && !NameTaken(start, SequenceName(x.prefix, 1))
    ensures Balanced(EventOf(x, retained, currency)) && Redated(EventOf(x, retained, currency), x.day) == EventOf(x, retained, currency)
  {
    EventLinesBalanced(retained, x.account, 1, 1, currency, x.day);
    assert NameTaken(WithJournal(db, x), SequenceName(x.prefix, 1)) == NameTaken(db, SequenceName(x.prefix, 1));
    hide SequenceName, CodeTaken, Balanced, NameTaken;
  }

  lemma RowCommits(h: Hashers, db: Db, x: Plan, retained: Id, currency: string) returns (posted: Db)
    requires IsFree(db, x) && retained in db.accounts
    ensures PostRow(h, WithJournal(db, x), x.move, EntryOf(x, retained, currency)) == Ok(posted)
    ensures PlanDone(db, x, retained, currency, posted) && posted.events == db.events
  {
    EventFits(db, x, retained, currency);
    hide PreviousHash, NameTaken, SequenceName, CodeTaken, ReferencesHold, EventOf, LockOpenPeriod, Balanced, Redated;
    posted := PostRow(h, WithJournal(db, x), x.move, EntryOf(x, retained, currency)).value;
  }

  lemma EventCommits(h: Hashers, db: Db, x: Plan, retained: Id, currency: string) returns (after: Db)
    requires IsFree(db, x) && retained in db.accounts
    ensures PostEvent(h, WithJournal(db, x), x.key, x.move, x.journal, x.period, x.day, 1, EventOf(x, retained, currency)) == Ok(after)
    ensures PlanDone(db, x, retained, currency, after)
  {
    EventFits(db, x, retained, currency);
    var posted := RowCommits(h, db, x, retained, currency);
    hide PostRow, NameTaken, SequenceName, CodeTaken, ReferencesHold, EventOf, LockOpenPeriod, Balanced, Redated, NextSequence, TakesPosting;
    after := WithEvent(Logged(h, posted, "account_move", x.move, "INGEST_POST", 0, "", 1), x.key, x.move);
  }

  /** What the three transactions leave. */
  ghost predicate PlanDone(db: Db, x: Plan, retained: Id, currency: string, after: Db) {
    && Posts(db, after, x.move, EventOf(x, retained, currency)) && after.moves[x.move].date == x.day
    && after.moves[x.move].name == SequenceName(x.prefix, 1)
    && after.accounts == db.accounts[x.account := ResultAccount(x.code)]
    && after.journals == db.journals[x.journal := Journal(x.prefix, 2, true)]
    && after.periods == db.periods && after.years == db.years
  }

  lemma SetupCommits(h: Hashers, db: Db, x: Plan)
    requires IsFree(db, x)
    ensures CreateAccount(db, x.account, ResultAccount(x.code)) == Ok(WithAccount(db, x))
    ensures CreateJournal(WithAccount(db, x), x.journal, x.prefix) == Ok(WithJournal(db, x))
  {
    hide CodeTaken, NameTaken;
  }

  lemma PlanSteps(h: Hashers, db: Db, x: Plan, retained: Id, currency: string, after: Db)
    requires CreateAccount(db, x.account, ResultAccount(x.code)) == Ok(WithAccount(db, x))
    requires CreateJournal(WithAccount(db, x), x.journal, x.prefix) == Ok(WithJournal(db, x))
    requires PostEvent(h, WithJournal(db, x), x.key, x.move, x.journal, x.period, x.day, 1, EventOf(x, retained, currency)) == Ok(after)
    ensures var ops := PlanOps(x, retained, currency);
            && Commits(h, db, ops[0], WithAccount(db, x)) && Commits(h, WithAccount(db, x), ops[1], WithJournal(db, x))
            && Commits(h, WithJournal(db, x), ops[2], after)
  {
    hide PostEvent, CreateAccount, CreateJournal, WithAccount, WithJournal, EventOf, ResultAccount;
  }

  lemma PlanIsPath(h: Hashers, db: Db, x: Plan, retained: Id, currency: string) returns (states: seq<Db>)
    requires IsFree(db, x) && retained in db.accounts
    ensures |states| == 4 && Path(h, states, PlanOps(x, retained, currency)) && states[0] == db
    ensures states[1] == WithAccount(db, x) && states[2] == WithJournal(db, x) && PlanDone(db, x, retained, currency, states[3])
  {
    hide *;
    var after := EventCommits(h, db, x, retained, currency);
    SetupCommits(h, db, x);
    PlanSteps(h, db, x, retained, currency, after);
    states := [db, WithAccount(db, x), WithJournal(db, x), after];
    PlanLength(x, retained, currency);
    ThreeSteps(h, states, PlanOps(x, retained, currency));
  }

  lemma PlanLength(x: Plan, retained: Id, currency: string)
    ensures |PlanOps(x, retained, currency)| == 3
  {
  }

  lemma ThreeSteps(h: Hashers, states: seq<Db>, ops: seq<Op>)
    requires |states| == 4 && |ops| == 3
    requires Commits(h, states[0], ops[0], states[1]) && Commits(h, states[1], ops[1], states[2]) && Commits(h, states[2], ops[2], states[3])
    ensures Path(h, states, ops)
  {
    hide Legal, Apply;
  }

  // What the posting does to the balances of the year.

  lemma TwoLines(a: Line, b: Line, f: Line -> int)
    ensures SumSeq([a, b], f) == f(a) + f(b)
  {
    assert [a, b][..1] == [a] && [a][..0] == [] && SumSeq([a][..0], f) == 0;
    assert SumSeq([a], f) == SumSeq([a][..0], f) + f(a);
  }

  lemma SumAfterEarlier(db: Db, after: Db, asOf: Date, id: Id, lines: seq<Line>, f: Line -> int)
    requires Posts(db, after, id, lines) && after.moves[id].date <= asOf
    ensures LedgerSum(after.moves, PostedUpTo(after, asOf), f) == LedgerSum(db.moves, PostedUpTo(db, asOf), f) + SumSeq(lines, f)
  {
    assert PostedUpTo(after, asOf) == PostedUpTo(db, asOf) + {id};
    LedgerSumInsert(db.moves, after.moves, PostedUpTo(db, asOf), id, f);
  }

  lemma EventOn(x: Plan, retained: Id, currency: string, a: Id)
    requires a != retained
    ensures SumSeq(EventOf(x, retained, currency), On(a, Net)) == if a == x.account then -1 else 0
  {
    var lines := EventOf(x, retained, currency);
    TwoLines(lines[0], lines[1], On(a, Net));
    OnAt(lines[0], a);
    OnAt(lines[1], a);
  }

  lemma LinesHaveAccounts(db: Db, asOf: Date, a: Id)
    requires SoundMoves(db) && HasLineUpTo(db, asOf, a)
    ensures a in db.accounts
  {
    var m, i :| m in PostedUpTo(db, asOf) && 0 <= i < |db.moves[m].lines| && db.moves[m].lines[i].account == a;
    assert SoundMove(db, m);
  }

  lemma NewAccountEmpty(db: Db, asOf: Date, a: Id)
    requires SoundMoves(db) && a !in db.accounts
    ensures NetUpTo(db, asOf, a) == 0
  {
    hide SoundMoves, HasLineUpTo, NetUpTo;
    if HasLineUpTo(db, asOf, a) {
      LinesHaveAccounts(db, asOf, a);
    } else {
      NoLinesNoNet(db, asOf, a);
    }
  }

  lemma NetShifts(db: Db, x: Plan, retained: Id, currency: string, after: Db, asOf: Date, a: Id)
    requires PlanDone(db, x, retained, currency, after) && x.day <= asOf && a != retained
    ensures NetUpTo(after, asOf, a) == NetUpTo(db, asOf, a) - if a == x.account then 1 else 0
  {
    hide LedgerSum, PostedUpTo, On, EventOf;
    SumAfterEarlier(db, after, asOf, x.move, EventOf(x, retained, currency), On(a, Net));
    EventOn(x, retained, currency, a);
  }

  lemma ResultAccountAdded(db: Db, x: Plan, retained: Id, currency: string, after: Db)
    requires PlanDone(db, x, retained, currency, after) && x.account !in db.accounts
    requires retained in db.accounts && db.accounts[retained].kind == Equity
    ensures ResultAccounts(after) == ResultAccounts(db) + {x.account} && x.account !in ResultAccounts(db)
    ensures retained !in ResultAccounts(after) && x.account != retained
  {
    hide Posts, EventOf, SequenceName;
  }

  /** The result of the year is one unit less. */
  lemma ResultShifts(db: Db, x: Plan, retained: Id, currency: string, after: Db, asOf: Date)
    requires SoundMoves(db) && PlanDone(db, x, retained, currency, after) && x.account !in db.accounts && x.day <= asOf
    requires retained in db.accounts && db.accounts[retained].kind == Equity
    ensures ResultAccounts(after) == ResultAccounts(db) + {x.account} && retained !in ResultAccounts(after)
    ensures YearResult(after, asOf) == YearResult(db, asOf) - 1
  {
    hide PlanDone, SoundMoves, NetUpTo, ResultAccounts, SumSet;
    var results := ResultAccounts(db);
    ResultAccountAdded(db, x, retained, currency, after);
    NewAccountEmpty(db, asOf, x.account);
    NetShifts(db, x, retained, currency, after, asOf, x.account);
    forall a | a in results
      ensures NetsUpTo(after, asOf)(a) == NetsUpTo(db, asOf)(a)
    {
      NetShifts(db, x, retained, currency, after, asOf, a);
    }
    SumSetSame(results, NetsUpTo(after, asOf), NetsUpTo(db, asOf));
    SumSetAdd(results, x.account, NetsUpTo(after, asOf));
  }

  /** Groups of other currencies stay as they are. */
  lemma GroupStays(db: Db, x: Plan, retained: Id, currency: string, after: Db, asOf: Date, g: Group)
    requires PlanDone(db, x, retained, currency, after) && x.day <= asOf && g.currency != currency
    ensures GroupNet(after, asOf, g) == GroupNet(db, asOf, g) && GroupForeign(after, asOf, g) == GroupForeign(db, asOf, g)
  {
    var lines := EventOf(x, retained, currency);
    TwoLines(lines[0], lines[1], InGroup(g, Net));
    TwoLines(lines[0], lines[1], InGroup(g, Foreign));
    assert GroupOf(lines[0]) != g && GroupOf(lines[1]) != g;
    hide LedgerSum, PostedUpTo, EventOf;
    SumAfterEarlier(db, after, asOf, x.move, lines, InGroup(g, Net));
    SumAfterEarlier(db, after, asOf, x.move, lines, InGroup(g, Foreign));
  }

  // The close on top of it.

  lemma {:induction false} Listing<T(!new)>(all: set<T>) returns (rows: seq<T>)
    ensures Lists(rows, all)
  {
    if all == {} {
      rows := [];
    } else {
      var x :| x in all;
      var rest := Listing(all - {x});
      rows := rest + [x];
    }
  }

  lemma OpeningListed(db: Db, asOf: Date) returns (rows: seq<Group>)
    ensures OpeningRows(db, asOf, rows)
  {
    hide OpeningGroup, SheetGroups;
    forall g | OpeningGroup(db, asOf, g)
      ensures g in SheetGroups(db, asOf)
    {
      OpeningGroupOnSheet(db, asOf, g);
    }
    rows := Listing(set g | g in SheetGroups(db, asOf) && OpeningGroup(db, asOf, g));
  }

  /** The name under which the close will post, and its key, are left free. */
  ghost predicate KeepsClear(db: Db, x: Plan, id: Id, journal: Id) {
    && x.move != id
    && (journal in db.journals && db.journals[journal].next >= 0 ==>
          SequenceName(x.prefix, 1) != SequenceName(db.journals[journal].prefix, db.journals[journal].next))
  }

  lemma ClosingStillCommits(h: Hashers, db: Db, x: Plan, retained: Id, currency: string, after: Db, id: Id, journal: Id, period: Id,
                            asOf: Date, actor: Id, now: nat, lines: seq<Line>)
    requires PlanDone(db, x, retained, currency, after) && x.journal !in db.journals && KeepsClear(db, x, id, journal)
    requires SystemMove(h, db, id, journal, period, asOf, actor, now, lines).Ok?
    ensures SystemMove(h, after, id, journal, period, asOf, actor, now, lines).Ok?
  {
    if lines != [] {
      var name := SequenceName(db.journals[journal].prefix, db.journals[journal].next);
      assert NameTaken(after, name) ==> NameTaken(db, name);
      assert LinesHold(after, lines);
    }
    hide PreviousHash, SequenceName, NameTaken, Balanced, LinesHold, EventOf;
  }

  /** A close whose first query saw db and whose other statements see between. */
  ghost predicate FailsUnbalanced(h: Hashers, db: Db, between: Db, id: Id, journal: Id, asOf: Date, actor: Id, now: nat, s: CloseSetup,
                                  rows: seq<Id>)
  {
    exists closed, openingRows ::
      && SystemMove(h, between, id, journal, s.closingPeriod, asOf, actor, now, ClosingLines(db, asOf, s.retained, s.currency, rows)) == Ok(closed)
      && OpeningRows(closed, asOf, openingRows)
      && OpeningLines(closed, asOf, s.currency, openingRows) == Err(OpeningUnbalanced)
  }

  lemma NoForeignMissing(db: Db, x: Plan, between: Db, closed: Db, asOf: Date, retained: Id, currency: string, rows: seq<Id>,
                         openingRows: seq<Group>, g: Group)
    requires PlanDone(db, x, retained, currency, between) && x.account !in db.accounts && x.day <= asOf
    requires Lists(rows, ResultGroups(db, asOf)) && closed.accounts == between.accounts
    requires ClosingPosted(between, closed, asOf, ClosingLines(db, asOf, retained, currency, rows))
    requires OpeningRows(closed, asOf, openingRows) && g in openingRows && !LacksForeign(db, asOf, currency, g)
    ensures !ForeignMissing(closed, asOf, currency, g)
  {
    hide GroupNet, GroupForeign, ClosingPosted, ClosingLines, Lists, YearResult, OpeningRows, Posts, EventOf;
    OpensIffLeft(closed, asOf, openingRows, g);
    if g.currency != currency {
      assert OnSheet(db, g);
      GroupAfterLines(db, between, closed, asOf, retained, currency, rows, g);
      GroupStays(db, x, retained, currency, between, asOf, g);
    }
  }

  lemma DisturbedFails(h: Hashers, db: Db, x: Plan, between: Db, id: Id, journal: Id, asOf: Date, actor: Id, now: nat, s: CloseSetup,
                       rows: seq<Id>)
    requires Inv(h, db) && Inv(h, between) && PlanDone(db, x, s.retained, s.currency, between)
    requires x.account !in db.accounts && x.journal !in db.journals && x.day <= asOf && KeepsClear(db, x, id, journal)
    requires s.retained in db.accounts && db.accounts[s.retained].kind == Equity && Lists(rows, ResultGroups(db, asOf))
    requires SystemMove(h, db, id, journal, s.closingPeriod, asOf, actor, now, ClosingLines(db, asOf, s.retained, s.currency, rows)).Ok?
    requires forall g :: !LacksForeign(db, asOf, s.currency, g)
    ensures FailsUnbalanced(h, db, between, id, journal, asOf, actor, now, s, rows)
  {
    var closing := ClosingLines(db, asOf, s.retained, s.currency, rows);
    ClosingStillCommits(h, db, x, s.retained, s.currency, between, id, journal, s.closingPeriod, asOf, actor, now, closing);
    MovesAreSound(h, db);
    ResultShifts(db, x, s.retained, s.currency, between, asOf);
    RowsInResults(db, asOf, rows);
    hide *;
    var closed := SystemMove(h, between, id, journal, s.closingPeriod, asOf, actor, now, closing).value;
    var openingRows := OpeningListed(closed, asOf);
    SystemMovePosted(h, between, id, journal, s.closingPeriod, asOf, actor, now, closing, closed);
    forall g | g in openingRows
      ensures !ForeignMissing(closed, asOf, s.currency, g)
    {
      NoForeignMissing(db, x, between, closed, asOf, s.retained, s.currency, rows, openingRows, g);
    }
    CloseSeesTwoStates(h, db, between, id, journal, s.closingPeriod, asOf, actor, now, s.retained, s.currency, rows, closed, openingRows);
    FailureShown(h, db, between, id, journal, asOf, actor, now, s, rows, closed, openingRows);
  }

  lemma RowsInResults(db: Db, asOf: Date, rows: seq<Id>)
    requires Lists(rows, ResultGroups(db, asOf))
    ensures forall a :: a in rows ==> a in ResultAccounts(db)
  {
    hide HasLineUpTo;
  }

  lemma FailureShown(h: Hashers, db: Db, between: Db, id: Id, journal: Id, asOf: Date, actor: Id, now: nat, s: CloseSetup, rows: seq<Id>,
                     closed: Db, openingRows: seq<Group>)
    requires SystemMove(h, between, id, journal, s.closingPeriod, asOf, actor, now, ClosingLines(db, asOf, s.retained, s.currency, rows)) == Ok(closed)
    requires OpeningRows(closed, asOf, openingRows) && OpeningLines(closed, asOf, s.currency, openingRows) == Err(OpeningUnbalanced)
    ensures FailsUnbalanced(h, db, between, id, journal, asOf, actor, now, s, rows)
  {
    hide SystemMove, ClosingLines, OpeningRows, OpeningLines;
  }

  // Exactly when it can happen.

  /** What others may do while the close is under way: anything that leaves years and periods alone and retained earnings an equity
      account. A close of another year, a new year and a change of a period state are not among it. */
  ghost predicate Meanwhile(h: Hashers, db: Db, retained: Id, states: seq<Db>, ops: seq<Op>) {
    Path(h, states, ops) && states[0] == db && forall n :: 0 <= n < |states| ==> Beside(db, states[n], retained)
  }

  ghost predicate Beside(db: Db, now: Db, retained: Id) {
    && now.years == db.years && now.periods == db.periods
    && retained in now.accounts && now.accounts[retained].kind == Equity
  }

  lemma CloseChangesYears(h: Hashers, db: Db, op: Op, after: Db)
    requires op.CloseYearOp? && Legal(db, op) && Apply(h, db, op) == Ok(after)
    ensures after.years != db.years
  {
    hide PrepareClose, WriteClose, PeriodsOf, AllHardClosed;
    var y, rows := op.id, op.periodRows;
    PreparedIsHardClosed(db, y, op.journal, op.retained, op.actor, rows);
    var s := PrepareClose(db, y, op.journal, op.retained, op.actor, rows).value;
    CloseMarks(h, db, y, op.journal, s, op.actor, op.closingId, op.openingId, op.now, op.resultRows, op.openingRows, after);
  }

  lemma CloseMarks(h: Hashers, db: Db, y: Id, journal: Id, s: CloseSetup, actor: Id, closingId: Id, openingId: Id, now: nat,
                   resultRows: seq<Id>, openingRows: seq<Group>, after: Db)
    requires y in db.years && s.successor in db.years && !db.years[y].closed
    requires WriteClose(h, db, y, journal, s, actor, closingId, openingId, now, resultRows, openingRows) == Ok(after)
    ensures after.years != db.years
  {
    hide WriteClose, SystemMove, OpeningLines, ClosingLines;
    var closed, lines, finished := WriteCloseIs(h, db, y, journal, s, actor, closingId, openingId, now, resultRows, openingRows, after);
    var asOf := db.years[y].end;
    SystemMoveYears(h, db, closingId, journal, s.closingPeriod, asOf, actor, now, ClosingLines(db, asOf, s.retained, s.currency, resultRows), closed);
    SystemMoveYears(h, closed, openingId, journal, s.openingPeriod, db.years[s.successor].start, actor, now, lines, finished);
    assert after.years[y].closed;
  }

  lemma SamePeriodsReach(db: Db, now: Db, asOf: Date)
    requires now.periods == db.periods
    ensures ReachesBack(now, asOf) <==> ReachesBack(db, asOf)
  {
    assert forall p, day :: TakesPosting(now, p, day) <==> TakesPosting(db, p, day);
  }

  lemma MeanwhileIsQuiet(h: Hashers, db: Db, retained: Id, states: seq<Db>, ops: seq<Op>, asOf: Date)
    requires Meanwhile(h, db, retained, states, ops) && !ReachesBack(db, asOf)
    ensures Quiet(states, ops, asOf)
  {
    hide ReachesBack, Legal, Apply;
    forall n | 0 <= n < |ops|
      ensures (ops[n].CloseYearOp? ==> states[n + 1] == states[n]) && !ReachesBack(states[n], asOf)
    {
      assert Beside(db, states[n], retained) && Beside(db, states[n + 1], retained);
      SamePeriodsReach(db, states[n], asOf);
      assert Legal(states[n], ops[n]) && states[n + 1] == Step(h, states[n], ops[n]);
      var r := Apply(h, states[n], ops[n]);
      if ops[n].CloseYearOp? && r.Ok? {
        CloseChangesYears(h, states[n], ops[n], r.value);
      }
    }
  }

  /** Without an open period that reaches back nothing the others do makes the close fail as unbalanced. */
  lemma NeverUnbalanced(h: Hashers, db: Db, states: seq<Db>, ops: seq<Op>, id: Id, journal: Id, asOf: Date, actor: Id, now: nat,
                        s: CloseSetup, rows: seq<Id>)
    requires Inv(h, db) && Meanwhile(h, db, s.retained, states, ops) && !ReachesBack(db, asOf) && Lists(rows, ResultGroups(db, asOf))
    ensures !FailsUnbalanced(h, db, states[|ops|], id, journal, asOf, actor, now, s, rows)
  {
    MeanwhileIsQuiet(h, db, s.retained, states, ops, asOf);
    assert Beside(db, states[|ops|], s.retained);
    assert s.retained !in ResultAccounts(states[|ops|]);
    hide Inv, ReachesBack, Quiet, Path, SystemMove, ClosingLines, OpeningRows, OpeningLines, ResultGroups, Lists, ResultAccounts, NetUpTo;
    forall closed, openingRows |
      && SystemMove(h, states[|ops|], id, journal, s.closingPeriod, asOf, actor, now, ClosingLines(db, asOf, s.retained, s.currency, rows)) == Ok(closed)
      && OpeningRows(closed, asOf, openingRows)
      ensures OpeningLines(closed, asOf, s.currency, openingRows) != Err(OpeningUnbalanced)
    {
      QuietCloseBalances(h, states, ops, id, journal, s.closingPeriod, asOf, actor, now, s.retained, s.currency, rows, closed, openingRows);
    }
  }

  lemma FreePlan(db: Db, period: Id, day: Date, id: Id, journal: Id) returns (x: Plan)
    requires TakesPosting(db, period, day)
    ensures IsFree(db, x) && KeepsClear(db, x, id, journal) && x.day == day
  {
    var account := FreshId(db.accounts.Keys);
    var newJournal := FreshId(db.journals.Keys);
    var move := FreshId(db.moves.Keys + {id});
    DecimalInjective();
    FirstNameInjective();
    var codes := set a | a in db.accounts :: db.accounts[a].code;
    var names := set m | m in db.moves :: db.moves[m].name;
    if journal in db.journals && db.journals[journal].next >= 0 {
      names := names + {SequenceName(db.journals[journal].prefix, db.journals[journal].next)};
    }
    var code := FreshPrinted(Decimal, codes);
    var number := FreshPrinted(FirstName, names);
    var key := FreshPrinted(Decimal, db.events.Keys);
    x := Plan(account, Decimal(code), newJournal, Decimal(number), Decimal(key), move, period, day);
    assert move !in db.moves.Keys + {id};
    assert FirstName(number) !in names && Decimal(code) !in codes;
    hide SequenceName, Decimal, TakesPosting, Injective;
    assert FirstName(number) == SequenceName(x.prefix, 1);
  }

  lemma PlanIsMeanwhile(h: Hashers, db: Db, x: Plan, retained: Id, currency: string) returns (states: seq<Db>)
    requires IsFree(db, x) && retained in db.accounts && db.accounts[retained].kind == Equity
    ensures |states| == 4 && Meanwhile(h, db, retained, states, PlanOps(x, retained, currency))
    ensures PlanDone(db, x, retained, currency, states[3])
  {
    states := PlanIsPath(h, db, x, retained, currency);
    hide Path, SequenceName, EventOf, NameTaken, CodeTaken;
    assert x.account != retained;
    forall n | 0 <= n < |states|
      ensures Beside(db, states[n], retained)
    {
    }
  }

  /** Something that others do between the two queries makes the close fail as unbalanced. */
  ghost predicate CanFailUnbalanced(h: Hashers, db: Db, id: Id, journal: Id, asOf: Date, actor: Id, now: nat, s: CloseSetup, rows: seq<Id>) {
    exists states, ops :: Meanwhile(h, db, s.retained, states, ops)
      && FailsUnbalanced(h, db, states[|ops|], id, journal, asOf, actor, now, s, rows)
  }

  lemma PlanFails(h: Hashers, db: Db, x: Plan, states: seq<Db>, id: Id, journal: Id, asOf: Date, actor: Id, now: nat, s: CloseSetup,
                  rows: seq<Id>)
    requires Inv(h, db) && |states| == 4 && IsFree(db, x) && x.day <= asOf && KeepsClear(db, x, id, journal)
    requires Meanwhile(h, db, s.retained, states, PlanOps(x, s.retained, s.currency)) && PlanDone(db, x, s.retained, s.currency, states[3])
    requires s.retained in db.accounts && db.accounts[s.retained].kind == Equity && Lists(rows, ResultGroups(db, asOf))
    requires SystemMove(h, db, id, journal, s.closingPeriod, asOf, actor, now, ClosingLines(db, asOf, s.retained, s.currency, rows)).Ok?
    requires forall g :: !LacksForeign(db, asOf, s.currency, g)
    ensures FailsUnbalanced(h, db, states[3], id, journal, asOf, actor, now, s, rows)
  {
    hide Inv, SystemMove, ClosingLines, LacksForeign, ResultGroups, Lists, FailsUnbalanced, Path, PlanDone, KeepsClear;
    PathKeeps(h, states, PlanOps(x, s.retained, s.currency), 3);
    DisturbedFails(h, db, x, states[3], id, journal, asOf, actor, now, s, rows);
  }

  lemma OpenBefore(db: Db, asOf: Date) returns (p: Id, day: Date)
    requires ReachesBack(db, asOf)
    ensures TakesPosting(db, p, day) && day <= asOf
  {
    p, day :| TakesPosting(db, p, day) && day <= asOf;
  }

  lemma FailureReached(h: Hashers, db: Db, id: Id, journal: Id, asOf: Date, actor: Id, now: nat, s: CloseSetup, rows: seq<Id>,
                       states: seq<Db>, ops: seq<Op>)
    requires Meanwhile(h, db, s.retained, states, ops) && |states| == 4
    requires FailsUnbalanced(h, db, states[3], id, journal, asOf, actor, now, s, rows)
    ensures CanFailUnbalanced(h, db, id, journal, asOf, actor, now, s, rows)
  {
    hide FailsUnbalanced, Beside, Legal, Apply, Step;
    assert |ops| == 3;
  }

  lemma ReachedBackFails(h: Hashers, db: Db, id: Id, journal: Id, asOf: Date, actor: Id, now: nat, s: CloseSetup, rows: seq<Id>)
    requires Inv(h, db) && ReachesBack(db, asOf) && Lists(rows, ResultGroups(db, asOf))
    requires s.retained in db.accounts && db.accounts[s.retained].kind == Equity
    requires SystemMove(h, db, id, journal, s.closingPeriod, asOf, actor, now, ClosingLines(db, asOf, s.retained, s.currency, rows)).Ok?
    requires forall g :: !LacksForeign(db, asOf, s.currency, g)
    ensures CanFailUnbalanced(h, db, id, journal, asOf, actor, now, s, rows)
  {
    hide *;
    var p, day := OpenBefore(db, asOf);
    var x := FreePlan(db, p, day, id, journal);
    var states := PlanIsMeanwhile(h, db, x, s.retained, s.currency);
    PlanFails(h, db, x, states, id, journal, asOf, actor, now, s, rows);
    FailureReached(h, db, id, journal, asOf, actor, now, s, rows, states, PlanOps(x, s.retained, s.currency));
  }

  lemma NotReachedBackHolds(h: Hashers, db: Db, id: Id, journal: Id, asOf: Date, actor: Id, now: nat, s: CloseSetup, rows: seq<Id>)
    requires Inv(h, db) && !ReachesBack(db, asOf) && Lists(rows, ResultGroups(db, asOf))
    ensures !CanFailUnbalanced(h, db, id, journal, asOf, actor, now, s, rows)
  {
    hide Inv, ReachesBack, FailsUnbalanced, ResultGroups, Lists;
    forall states, ops | Meanwhile(h, db, s.retained, states, ops)
      ensures !FailsUnbalanced(h, db, states[|ops|], id, journal, asOf, actor, now, s, rows)
    {
      NeverUnbalanced(h, db, states, ops, id, journal, asOf, actor, now, s, rows);
    }
  }

  /** A year close that is prepared, whose closing move would commit and for which no group lacks a foreign amount, can fail as
      unbalanced because of what others commit between its two queries exactly when some open period covers a day up to the year end. */
  lemma UnbalancedIffReachedBack(h: Hashers, db: Db, y: Id, journal: Id, retained: Id, actor: Id, closingId: Id, now: nat,
                                 periodRows: seq<Id>, resultRows: seq<Id>, s: CloseSetup)
    requires Inv(h, db) && PeriodsOf(db, y, periodRows) && PrepareClose(db, y, journal, retained, actor, periodRows) == Ok(s)
    requires y in db.years && Lists(resultRows, ResultGroups(db, db.years[y].end))
    requires SystemMove(h, db, closingId, journal, s.closingPeriod, db.years[y].end, actor, now,
                        ClosingLines(db, db.years[y].end, s.retained, s.currency, resultRows)).Ok?
    requires forall g :: !LacksForeign(db, db.years[y].end, s.currency, g)
    ensures CanFailUnbalanced(h, db, closingId, journal, db.years[y].end, actor, now, s, resultRows) <==> ReachesBack(db, db.years[y].end)
  {
    PreparedIsHardClosed(db, y, journal, retained, actor, periodRows);
    hide Inv, PrepareClose, SystemMove, ClosingLines, LacksForeign, PeriodsOf, ResultGroups, Lists, CanFailUnbalanced, AllHardClosed,
      ReachesBack;
    if ReachesBack(db, db.years[y].end) {
      ReachedBackFails(h, db, closingId, journal, db.years[y].end, actor, now, s, resultRows);
    } else {
      NotReachedBackHolds(h, db, closingId, journal, db.years[y].end, actor, now, s, resultRows);
    }
  }
}
