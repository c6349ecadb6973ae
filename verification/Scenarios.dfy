/** A small ledger that is ready for its first entries, and the run that sets it up. */
module Scenarios {
  import opened Ledger
  import opened Tables
  import opened Steps
  import opened Runs

  const YEAR := Year(1, 0, 359, false)
  const PERIODS := map p: nat | 1 <= p <= 12 :: Period(1, p, 30 * (p - 1), 30 * p - 1, Open)

  function WithFirst(a: Account): Db {
    EMPTY.(accounts := map[1 := a])
  }

  function WithBoth(a: Account, b: Account): Db {
    EMPTY.(accounts := map[1 := a, 2 := b])
  }

  function WithYearAdded(a: Account, b: Account): Db {
    WithBoth(a, b).(years := map[1 := YEAR], periods := PERIODS)
  }

  /** Two accounts, a year of twelve open periods of thirty days, and a journal. */
  function Ready(a: Account, b: Account): Db {
    WithYearAdded(a, b).(journals := map[1 := Journal("J", 1, true)])
  }

  function FirstNumbers(n: nat): (s: set<nat>)
    ensures |s| == n
    ensures forall p :: p in s <==> 1 <= p <= n
  {
    if n == 0 then {} else FirstNumbers(n - 1) + {n}
  }

  lemma TwelveKeys()
    ensures |PERIODS| == 12
  {
    assert PERIODS.Keys == FirstNumbers(12);
    assert |PERIODS| == |PERIODS.Keys|;
  }

  lemma TwelvePeriods(db: Db)
    requires db.periods == map[]
    ensures PeriodsFit(db, 1, PERIODS)
  {
    TwelveKeys();
    hide FirstNumbers;
    forall p, q | p in PERIODS && q in PERIODS && SamePeriodKey(PERIODS[p], PERIODS[q])
      ensures p == q
    {
    }
  }

  lemma SetupSteps(a: Account, b: Account)
    requires a.code != b.code && a.parent.None? && b.parent.None?
    ensures CreateAccount(EMPTY, 1, a) == Ok(WithFirst(a))
    ensures CreateAccount(WithFirst(a), 2, b) == Ok(WithBoth(a, b))
    ensures CreateJournal(WithYearAdded(a, b), 1, "J") == Ok(Ready(a, b))
  {
    hide PERIODS;
  }

  lemma YearStep(a: Account, b: Account)
    ensures CreateYear(WithBoth(a, b), 1, YEAR, PERIODS) == Ok(WithYearAdded(a, b))
  {
    TwelvePeriods(WithBoth(a, b));
    hide PeriodsFit, PERIODS;
    assert WithBoth(a, b).periods + PERIODS == PERIODS;
  }

  lemma AccountCommits(h: Hashers, db: Db, id: Id, row: Account, after: Db)
    requires CreateAccount(db, id, row) == Ok(after)
    ensures Commits(h, db, CreateAccountOp(id, row), after)
  {
    hide CreateAccount;
  }

  lemma YearCommits(h: Hashers, db: Db, id: Id, year: Year, periods: map<Id, Period>, after: Db)
    requires CreateYear(db, id, year, periods) == Ok(after)
    ensures Commits(h, db, CreateYearOp(id, year, periods), after)
  {
    hide CreateYear;
  }

  lemma JournalCommits(h: Hashers, db: Db, id: Id, prefix: string, after: Db)
    requires CreateJournal(db, id, prefix) == Ok(after)
    ensures Commits(h, db, CreateJournalOp(id, prefix), after)
  {
    hide CreateJournal;
  }

  lemma RunFromEmpty(h: Hashers)
    ensures Run(h, [EMPTY], [])
  {
  }

  /** One more committed transaction makes a longer run. */
  lemma RunExtends(h: Hashers, states: seq<Db>, ops: seq<Op>, op: Op, after: Db) returns (longer: seq<Db>, more: seq<Op>)
    requires Run(h, states, ops) && |states| == |ops| + 1 && Commits(h, states[|ops|], op, after)
    ensures Run(h, longer, more) && |longer| == |more| + 1 && longer[|more|] == after
  {
    hide Legal, Apply;
    longer, more := states + [after], ops + [op];
    forall i | 0 <= i < |more|
      ensures Legal(longer[i], more[i]) && longer[i + 1] == Step(h, longer[i], more[i])
    {
      assert i < |ops| ==> longer[i] == states[i] && more[i] == ops[i];
    }
  }

  /** A run gets there. */
  lemma ReadyIsReached(h: Hashers, a: Account, b: Account) returns (states: seq<Db>, ops: seq<Op>)
    requires a.code != b.code && a.parent.None? && b.parent.None?
    ensures Run(h, states, ops) && |states| == |ops| + 1 && states[|ops|] == Ready(a, b)
  {
    hide *;
    SetupSteps(a, b);
    YearStep(a, b);
    AccountCommits(h, EMPTY, 1, a, WithFirst(a));
    AccountCommits(h, WithFirst(a), 2, b, WithBoth(a, b));
    YearCommits(h, WithBoth(a, b), 1, YEAR, PERIODS, WithYearAdded(a, b));
    JournalCommits(h, WithYearAdded(a, b), 1, "J", Ready(a, b));
    RunFromEmpty(h);
    states, ops := RunExtends(h, [EMPTY], [], CreateAccountOp(1, a), WithFirst(a));
    states, ops := RunExtends(h, states, ops, CreateAccountOp(2, b), WithBoth(a, b));
    states, ops := RunExtends(h, states, ops, CreateYearOp(1, YEAR, PERIODS), WithYearAdded(a, b));
    states, ops := RunExtends(h, states, ops, CreateJournalOp(1, "J"), Ready(a, b));
  }
}
