/** The year close reads its balances twice. What others commit in between, and when that makes the close fail. */
module CloseRace {
  import opened Sums
  import opened Ledger
  import opened Tables
  import opened Steps
  import opened Invariants
  import opened PostingKeeps
  import opened OperationsKeep
  import opened Runs
  import opened StepEffects
  import opened AccountHistory
  import opened YearClose

  /** Each query sees what is committed when it runs. If others commit postings up to the year end between the two, the closing lines
      are posted beside them, the results keep what was added in between, and the opening lines fail as unbalanced exactly when the
      result of the year has changed and no group lacks a foreign amount. */
  lemma CloseSeesTwoStates(h: Hashers, db: Db, between: Db, id: Id, journal: Id, period: Id, asOf: Date, actor: Id, now: nat,
                           retained: Id, currency: string, rows: seq<Id>, closed: Db, openingRows: seq<Group>)
    requires Inv(h, between) && Lists(rows, ResultGroups(db, asOf))
    requires (forall a :: a in rows ==> a in ResultAccounts(between)) && retained !in ResultAccounts(between)
    requires SystemMove(h, between, id, journal, period, asOf, actor, now, ClosingLines(db, asOf, retained, currency, rows)) == Ok(closed)
    requires OpeningRows(closed, asOf, openingRows)
    ensures forall a :: a in ResultAccounts(between) ==>
              NetUpTo(closed, asOf, a) == NetUpTo(between, asOf, a) - TakenOff(db, asOf, rows)(a)
    ensures OpeningLines(closed, asOf, currency, openingRows) == Err(OpeningUnbalanced) <==>
            YearResult(between, asOf) != YearResult(db, asOf) && !exists g :: g in openingRows && ForeignMissing(closed, asOf, currency, g)
  {
    hide *;
    var closing := ClosingLines(db, asOf, retained, currency, rows);
    SystemMovePosted(h, between, id, journal, period, asOf, actor, now, closing, closed);
    ClosedMovesSound(h, db, between, id, journal, period, asOf, actor, now, retained, currency, rows, closed);
    forall a | a in ResultAccounts(between)
      ensures NetUpTo(closed, asOf, a) == NetUpTo(between, asOf, a) - TakenOff(db, asOf, rows)(a)
    {
      ResultAfterClosing(db, between, closed, asOf, retained, currency, rows, a);
    }
    RowsWithin(rows, ResultGroups(db, asOf), ResultAccounts(between));
    ResultLeft(db, between, closed, asOf, rows);
    OpeningDifference(closed, asOf, currency, openingRows);
  }

  lemma RowsWithin<T(!new)>(rows: seq<T>, all: set<T>, others: set<T>)
    requires Lists(rows, all) && forall x :: x in rows ==> x in others
    ensures all <= others
  {
    assert forall x :: x in all ==> x in rows;
  }

  lemma TakenOffAt(db: Db, asOf: Date, rows: seq<Id>, groups: set<Id>, a: Id)
    requires Lists(rows, groups)
    ensures TakenOff(db, asOf, rows)(a) == if a in groups then NetsUpTo(db, asOf)(a) else 0
  {
    hide NetUpTo;
    assert a in rows <==> a in groups;
  }

  lemma TakenOffTotal(db: Db, asOf: Date, rows: seq<Id>, results: set<Id>)
    requires Lists(rows, ResultGroups(db, asOf)) && ResultGroups(db, asOf) <= results
    ensures SumSet(results, TakenOff(db, asOf, rows)) == YearResult(db, asOf)
  {
    SweptIsWholeResult(db, asOf, rows);
    hide NetUpTo, TakenOff, NetsUpTo, ResultGroups, YearResult, SumSet, SumSeq, Lists;
    var groups := ResultGroups(db, asOf);
    forall a
      ensures TakenOff(db, asOf, rows)(a) == if a in groups then NetsUpTo(db, asOf)(a) else 0
    {
      TakenOffAt(db, asOf, rows, groups, a);
    }
    SumListed(rows, groups, NetsUpTo(db, asOf));
    SumSetSame(groups, TakenOff(db, asOf, rows), NetsUpTo(db, asOf));
    SumSetZero(results - groups, TakenOff(db, asOf, rows));
    SumSetUnion(groups, results - groups, TakenOff(db, asOf, rows));
    assert groups + (results - groups) == results;
  }

  lemma ResultLeft(db: Db, between: Db, closed: Db, asOf: Date, rows: seq<Id>)
    requires Lists(rows, ResultGroups(db, asOf)) && ResultGroups(db, asOf) <= ResultAccounts(between)
    requires closed.accounts == between.accounts
    requires forall a :: a in ResultAccounts(between) ==>
               NetUpTo(closed, asOf, a) == NetUpTo(between, asOf, a) - TakenOff(db, asOf, rows)(a)
    ensures YearResult(closed, asOf) == YearResult(between, asOf) - YearResult(db, asOf)
  {
    hide NetUpTo, TakenOff, Lists;
    var results := ResultAccounts(between);
    assert ResultAccounts(closed) == results;
    TakenOffTotal(db, asOf, rows, results);
    var difference: Id -> int := (a: Id) => NetsUpTo(between, asOf)(a) + -1 * TakenOff(db, asOf, rows)(a);
    SumSetLinear(results, NetsUpTo(between, asOf), TakenOff(db, asOf, rows), difference, -1);
    SumSetSame(results, NetsUpTo(closed, asOf), difference);
  }

  // What others commit in between.

  /** Transactions of others, one after the other from any state. */
  ghost predicate Path(h: Hashers, states: seq<Db>, ops: seq<Op>) {
    && |states| == |ops| + 1
    && forall i :: 0 <= i < |ops| ==> Legal(states[i], ops[i]) && states[i + 1] == Step(h, states[i], ops[i])
  }

  lemma {:induction false} PathKeeps(h: Hashers, states: seq<Db>, ops: seq<Op>, k: nat)
    requires Path(h, states, ops) && Inv(h, states[0]) && k < |states|
    ensures Inv(h, states[k]) && Extends(states[0], states[k])
  {
    hide Inv, Extends, Legal, Apply, Step;
    if k == 0 {
      ExtendsItself(states[0]);
    } else {
      PathKeeps(h, states, ops, k - 1);
      PathStep(h, states, ops, k - 1);
      ExtendsTransitive(states[0], states[k - 1], states[k]);
    }
  }

  lemma PathStep(h: Hashers, states: seq<Db>, ops: seq<Op>, i: nat)
    requires Path(h, states, ops) && i < |ops| && Inv(h, states[i])
    ensures Inv(h, states[i + 1]) && Extends(states[i], states[i + 1])
  {
    hide Inv, Extends, Apply, Legal;
    assert Legal(states[i], ops[i]) && states[i + 1] == Step(h, states[i], ops[i]);
    var r := Apply(h, states[i], ops[i]);
    if r.Ok? {
      StepKeeps(h, states[i], ops[i], r.value);
    } else {
      ExtendsItself(states[i]);
    }
  }

  lemma {:induction false} PathKeepsIdentity(h: Hashers, states: seq<Db>, ops: seq<Op>, k: nat, a: Id)
    requires Path(h, states, ops) && Inv(h, states[0]) && k < |states| && HasPostedLines(states[0], a)
    ensures HasPostedLines(states[k], a) && a in states[0].accounts && a in states[k].accounts
    ensures SameIdentity(states[0].accounts[a], states[k].accounts[a])
  {
    hide Inv, Extends, Legal, Apply, HasPostedLines;
    PathKeeps(h, states, ops, k);
    PostedLinesStay(states[0], states[k], a) by { MovesAreSound(h, states[0]); }
    if k > 0 {
      PathKeepsIdentity(h, states, ops, k - 1, a);
      assert Legal(states[k - 1], ops[k - 1]) && states[k] == Step(h, states[k - 1], ops[k - 1]);
      var r := Apply(h, states[k - 1], ops[k - 1]);
      if r.Ok? {
        StepKeepsIdentity(h, states[k - 1], ops[k - 1], r.value, a);
      }
    }
  }

  lemma MovesAreSound(h: Hashers, db: Db)
    requires Inv(h, db)
    ensures SoundMoves(db)
  {
  }

  /** Some open period covers a day up to this one. */
  ghost predicate ReachesBack(db: Db, asOf: Date) {
    exists p, day :: TakesPosting(db, p, day) && day <= asOf
  }

  /** A step other than a year close posts nothing up to a day that no open period reaches back to. */
  lemma StepPostsLater(h: Hashers, db: Db, op: Op, after: Db, asOf: Date)
    requires Legal(db, op) && Apply(h, db, op) == Ok(after) && Extends(db, after) && !op.CloseYearOp? && !ReachesBack(db, asOf)
    ensures PostedUpTo(after, asOf) == PostedUpTo(db, asOf)
  {
    hide Apply, Legal, Extends;
    StepHasEffects(h, db, op, after);
    forall m
      ensures m in PostedUpTo(after, asOf) <==> m in PostedUpTo(db, asOf)
    {
      PostedStaysPosted(db, after, m);
      if NewlyPosted(db, after, m) {
        assert TakesPosting(db, after.moves[m].period, after.moves[m].date);
      }
    }
  }

  lemma PostedStaysPosted(db: Db, after: Db, m: Id)
    requires Extends(db, after)
    ensures IsPosted(db, m) ==> IsPosted(after, m) && after.moves[m] == db.moves[m]
  {
  }

  /** No year is closed on the path, and no open period reaches back to the day. */
  ghost predicate Quiet(states: seq<Db>, ops: seq<Op>, asOf: Date)
    requires |states| == |ops| + 1
  {
    forall n :: 0 <= n < |ops| ==> (ops[n].CloseYearOp? ==> states[n + 1] == states[n]) && !ReachesBack(states[n], asOf)
  }

  lemma {:induction false} NothingPostedUpTo(h: Hashers, states: seq<Db>, ops: seq<Op>, k: nat, asOf: Date)
    requires Path(h, states, ops) && Inv(h, states[0]) && k < |states| && Quiet(states, ops, asOf)
    ensures PostedUpTo(states[k], asOf) == PostedUpTo(states[0], asOf)
  {
    hide Inv, Apply, Legal, Extends, ReachesBack, PostedUpTo;
    if k > 0 {
      NothingPostedUpTo(h, states, ops, k - 1, asOf);
      PathKeeps(h, states, ops, k - 1);
      PathStep(h, states, ops, k - 1);
      assert Legal(states[k - 1], ops[k - 1]) && states[k] == Step(h, states[k - 1], ops[k - 1]);
      var r := Apply(h, states[k - 1], ops[k - 1]);
      if r.Ok? && !ops[k - 1].CloseYearOp? {
        StepPostsLater(h, states[k - 1], ops[k - 1], r.value, asOf);
      }
    }
  }

  lemma SameRowsUpTo(db: Db, after: Db, asOf: Date)
    requires Extends(db, after) && PostedUpTo(after, asOf) == PostedUpTo(db, asOf)
    ensures forall m :: m in PostedUpTo(db, asOf) ==> m in after.moves && after.moves[m] == db.moves[m]
  {
    hide Extends;
    forall m | m in PostedUpTo(db, asOf)
      ensures m in after.moves && after.moves[m] == db.moves[m]
    {
      PostedStaysPosted(db, after, m);
    }
  }

  lemma HasPostedLine(db: Db, asOf: Date, a: Id)
    requires HasLineUpTo(db, asOf, a)
    ensures HasPostedLines(db, a)
  {
  }

  lemma SameLinesUpTo(db: Db, after: Db, asOf: Date, a: Id)
    requires PostedUpTo(after, asOf) == PostedUpTo(db, asOf)
    requires forall m :: m in PostedUpTo(db, asOf) ==> m in after.moves && after.moves[m] == db.moves[m]
    ensures HasLineUpTo(after, asOf, a) <==> HasLineUpTo(db, asOf, a)
  {
  }

  /** Accounts may come and change type in between, but not those with posted lines. */
  lemma SameResultGroups(h: Hashers, states: seq<Db>, ops: seq<Op>, asOf: Date)
    requires |states| == |ops| + 1 && Path(h, states, ops) && Inv(h, states[0]) && Quiet(states, ops, asOf)
    ensures ResultGroups(states[|ops|], asOf) == ResultGroups(states[0], asOf)
  {
    var k := |ops|;
    hide Path, Quiet, PostedUpTo, HasLineUpTo, HasPostedLines, Inv, Extends;
    NothingPostedUpTo(h, states, ops, k, asOf);
    PathKeeps(h, states, ops, k);
    SameRowsUpTo(states[0], states[k], asOf);
    forall a
      ensures a in ResultGroups(states[k], asOf) <==> a in ResultGroups(states[0], asOf)
    {
      SameLinesUpTo(states[0], states[k], asOf, a);
      if HasLineUpTo(states[0], asOf, a) {
        HasPostedLine(states[0], asOf, a);
        PathKeepsIdentity(h, states, ops, k, a);
      }
    }
  }

  lemma SameResult(db: Db, after: Db, asOf: Date, rows: seq<Id>)
    requires Lists(rows, ResultGroups(db, asOf)) && ResultGroups(after, asOf) == ResultGroups(db, asOf)
    requires forall a :: NetUpTo(after, asOf, a) == NetUpTo(db, asOf, a)
    ensures YearResult(after, asOf) == YearResult(db, asOf)
  {
    SweptIsWholeResult(db, asOf, rows);
    SweptIsWholeResult(after, asOf, rows);
    hide NetUpTo, ResultGroups;
    SumSeqSame(rows, NetsUpTo(after, asOf), NetsUpTo(db, asOf));
  }

  lemma ResultsLeftZero(db: Db, between: Db, asOf: Date, rows: seq<Id>, a: Id)
    requires Lists(rows, ResultGroups(db, asOf)) && ResultGroups(between, asOf) == ResultGroups(db, asOf)
    requires NetUpTo(between, asOf, a) == NetUpTo(db, asOf, a) && a in ResultAccounts(between)
    ensures NetUpTo(between, asOf, a) - TakenOff(db, asOf, rows)(a) == 0
  {
    hide NetUpTo, HasLineUpTo;
    if a !in rows {
      NoLinesNoNet(between, asOf, a);
    }
  }

  lemma RowsAreResults(db: Db, between: Db, asOf: Date, rows: seq<Id>)
    requires Lists(rows, ResultGroups(db, asOf)) && ResultGroups(between, asOf) == ResultGroups(db, asOf)
    ensures forall a :: a in rows ==> a in ResultAccounts(between)
  {
    hide HasLineUpTo;
  }

  lemma QuietStates(h: Hashers, states: seq<Db>, ops: seq<Op>, asOf: Date)
    requires |states| == |ops| + 1 && Path(h, states, ops) && Inv(h, states[0]) && Quiet(states, ops, asOf)
    ensures Inv(h, states[|ops|]) && ResultGroups(states[|ops|], asOf) == ResultGroups(states[0], asOf)
    ensures forall a :: NetUpTo(states[|ops|], asOf, a) == NetUpTo(states[0], asOf, a)
  {
    hide *;
    PathKeeps(h, states, ops, |ops|);
    NothingPostedUpTo(h, states, ops, |ops|, asOf);
    SameResultGroups(h, states, ops, asOf);
    SameRowsUpTo(states[0], states[|ops|], asOf);
    forall a
      ensures NetUpTo(states[|ops|], asOf, a) == NetUpTo(states[0], asOf, a)
    {
      SameNetUpTo(states[0], states[|ops|], asOf, a);
    }
  }

  /** A state between with the same results is as good as the state that the first query saw. */
  lemma SameResultsBalance(h: Hashers, db: Db, between: Db, id: Id, journal: Id, period: Id, asOf: Date, actor: Id, now: nat,
                           retained: Id, currency: string, rows: seq<Id>, closed: Db, openingRows: seq<Group>)
    requires Inv(h, between) && Lists(rows, ResultGroups(db, asOf)) && retained !in ResultAccounts(between)
    requires ResultGroups(between, asOf) == ResultGroups(db, asOf) && forall a :: NetUpTo(between, asOf, a) == NetUpTo(db, asOf, a)
    requires SystemMove(h, between, id, journal, period, asOf, actor, now, ClosingLines(db, asOf, retained, currency, rows)) == Ok(closed)
    requires OpeningRows(closed, asOf, openingRows)
    ensures forall a :: a in ResultAccounts(between) ==> NetUpTo(closed, asOf, a) == 0
    ensures OpeningLines(closed, asOf, currency, openingRows) != Err(OpeningUnbalanced)
  {
    hide *;
    RowsAreResults(db, between, asOf, rows);
    SameResult(db, between, asOf, rows);
    CloseSeesTwoStates(h, db, between, id, journal, period, asOf, actor, now, retained, currency, rows, closed, openingRows);
    forall a | a in ResultAccounts(between)
      ensures NetUpTo(closed, asOf, a) == 0
    {
      ResultsLeftZero(db, between, asOf, rows, a);
    }
  }

  /** Whatever else others commit between the two queries: if no open period reaches back to the year end and no other year is closed
      meanwhile, the close is as if both queries had seen one state, and its opening lines are not unbalanced. */
  lemma QuietCloseBalances(h: Hashers, states: seq<Db>, ops: seq<Op>, id: Id, journal: Id, period: Id, asOf: Date,
                           actor: Id, now: nat, retained: Id, currency: string, rows: seq<Id>, closed: Db, openingRows: seq<Group>)
    requires |states| == |ops| + 1 && Path(h, states, ops) && Inv(h, states[0]) && Quiet(states, ops, asOf)
    requires Lists(rows, ResultGroups(states[0], asOf)) && retained !in ResultAccounts(states[|ops|])
    requires SystemMove(h, states[|ops|], id, journal, period, asOf, actor, now, ClosingLines(states[0], asOf, retained, currency, rows)) == Ok(closed)
    requires OpeningRows(closed, asOf, openingRows)
    ensures forall a :: a in ResultAccounts(states[|ops|]) ==> NetUpTo(closed, asOf, a) == 0
    ensures OpeningLines(closed, asOf, currency, openingRows) != Err(OpeningUnbalanced)
  {
    hide *;
    QuietStates(h, states, ops, asOf);
    SameResultsBalance(h, states[0], states[|ops|], id, journal, period, asOf, actor, now, retained, currency, rows, closed, openingRows);
  }
}
