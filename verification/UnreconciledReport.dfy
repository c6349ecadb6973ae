/** A run whose cash flow statement does not reconcile: capital paid in cash on an account of operating activity. */
module UnreconciledReport {
  import opened Sums
  import opened Ledger
  import opened Tables
  import opened Steps
  import opened Invariants
  import opened Runs
  import opened ReportQueries
  import opened Statements
  import opened CashFlow
  import opened Scenarios

  const TILL := Account("1", Asset, DebitNormal, None, false, true, true, false, NoActivity)
  const CAPITAL := Account("2", Equity, CreditNormal, None, false, true, false, false, Operating)

  function Ten(account: Id, debit: Amount, credit: Amount): Line {
    Line(account, None, None, debit, credit, 0, "SAR", "", 0)
  }

  const PAID_IN := [Ten(1, 10, 0), Ten(2, 0, 10)]

  lemma PaidInSums(f: Line -> int)
    ensures SumSeq(PAID_IN, f) == f(Ten(1, 10, 0)) + f(Ten(2, 0, 10))
  {
    assert PAID_IN[..1] == [Ten(1, 10, 0)] && PAID_IN[..1][..0] == [] && SumSeq(PAID_IN[..1][..0], f) == 0;
    assert SumSeq(PAID_IN[..1], f) == SumSeq(PAID_IN[..1][..0], f) + f(Ten(1, 10, 0));
  }

  /** The cash counts in full, and nothing is shown against it. */
  lemma PaidInResidual(accounts: map<Id, Account>)
    requires accounts == map[1 := TILL, 2 := CAPITAL]
    ensures Residual(accounts, PAID_IN) == 10 && !HasUnclassified(accounts, PAID_IN) && |Activities(accounts, PAID_IN)| == 1
  {
    PaidInSums(WeightedNet(accounts));
    assert IsCounterpart(accounts, PAID_IN, 1) && accounts[PAID_IN[1].account].activity == Operating;
    assert Activities(accounts, PAID_IN) == {Operating};
    assert WeightOf(accounts)(1) == 1 && WeightOf(accounts)(2) == 0;
    assert Net(Ten(1, 10, 0)) == 10;
  }

  /** The ledger with this one posting. */
  ghost predicate OnePosted(db: Db) {
    && db.accounts == map[1 := TILL, 2 := CAPITAL] && db.moves.Keys == {5}
    && db.moves[5].state == Posted && db.moves[5].date == 0 && db.moves[5].lines == PAID_IN
  }

  lemma PaidInCommits(h: Hashers) returns (after: Db)
    ensures PostEvent(h, Ready(TILL, CAPITAL), "K", 5, 1, 1, 0, 1, PAID_IN) == Ok(after) && OnePosted(after)
  {
    var db := Ready(TILL, CAPITAL);
    PaidInSums(Net);
    assert Redated(PAID_IN, 0) == PAID_IN;
    assert 1 in db.periods && Covers(db.periods[1], 0) && db.periods[1].state == Open;
    hide PreviousHash, NameTaken;
    assert forall name :: !NameTaken(db, name) by { NoNames(db); }
    after := PostEvent(h, db, "K", 5, 1, 1, 0, 1, PAID_IN).value;
  }

  lemma NoNames(db: Db)
    requires db.moves == map[]
    ensures forall name :: !NameTaken(db, name)
  {
  }

  lemma DifferenceIsTen(db: Db)
    requires OnePosted(db)
    ensures SumSet(PostedBetween(db, 0, 29), Residuals(db)) == 10 && !SomeMixed(db, 0, 29)
  {
    PaidInResidual(db.accounts);
    hide Residual, HasUnclassified, Activities, CashOf;
    var none: set<Id> := {};
    assert PostedBetween(db, 0, 29) == none + {5};
    SumSetAdd(none, 5, Residuals(db));
  }

  lemma PaidInIsStep(h: Hashers) returns (after: Db)
    ensures Commits(h, Ready(TILL, CAPITAL), PostEventOp("K", 5, 1, 1, 0, 1, PAID_IN), after) && OnePosted(after)
  {
    after := PaidInCommits(h);
    hide Ready, TILL, CAPITAL, PAID_IN, PostEvent, OnePosted;
  }

  lemma ReadyHere(h: Hashers) returns (states: seq<Db>, ops: seq<Op>)
    ensures Run(h, states, ops) && |states| == |ops| + 1 && states[|ops|] == Ready(TILL, CAPITAL)
  {
    assert TILL.code[0] != CAPITAL.code[0];
    hide Ready, Run;
    states, ops := ReadyIsReached(h, TILL, CAPITAL);
  }

  /** In this run the statement of the first month can be made, and its reconciliation difference is the ten that came in. */
  lemma ReportDoesNotReconcile(h: Hashers) returns (states: seq<Db>, ops: seq<Op>)
    ensures Run(h, states, ops) && |states| == |ops| + 1 && !SomeMixed(states[|ops|], 0, 29)
    ensures SumSet(PostedBetween(states[|ops|], 0, 29), Residuals(states[|ops|])) == 10
    ensures forall rows, movements ::
              TrialRows(states[|ops|], 0, 29, rows) && MovementRows(states[|ops|], 0, 29, movements) ==>
              SumSeq(rows, IndirectShare(states[|ops|].accounts)) - NetIncome(states[|ops|], 0, 29) - SumSeq(movements, Placed) == 10
  {
    hide *;
    var after := PaidInIsStep(h);
    states, ops := ReadyHere(h);
    states, ops := RunExtends(h, states, ops, PostEventOp("K", 5, 1, 1, 0, 1, PAID_IN), after);
    DifferenceIsTen(after);
    LastIsSound(h, states, ops);
    AnswersDiffer(h, after);
  }

  lemma LastIsSound(h: Hashers, states: seq<Db>, ops: seq<Op>)
    requires Run(h, states, ops) && |states| == |ops| + 1
    ensures SoundMoves(states[|ops|])
  {
    hide Run, GapFree, Chained, SoundReversals, SoundEvents, SoundAudit, SoundYears;
    RunKeeps(h, states, ops, |ops|, |ops|);
  }

  lemma AnswersDiffer(h: Hashers, db: Db)
    requires SoundMoves(db) && SumSet(PostedBetween(db, 0, 29), Residuals(db)) == 10 && !SomeMixed(db, 0, 29)
    ensures forall rows, movements :: TrialRows(db, 0, 29, rows) && MovementRows(db, 0, 29, movements) ==>
              SumSeq(rows, IndirectShare(db.accounts)) - NetIncome(db, 0, 29) - SumSeq(movements, Placed) == 10
  {
    hide *;
    forall rows, movements | TrialRows(db, 0, 29, rows) && MovementRows(db, 0, 29, movements)
      ensures SumSeq(rows, IndirectShare(db.accounts)) - NetIncome(db, 0, 29) - SumSeq(movements, Placed) == 10
    {
      FailsOnMixedActivities(db, 0, 29, movements);
      DifferenceIsResiduals(db, 0, 29, rows, movements);
    }
  }
}
