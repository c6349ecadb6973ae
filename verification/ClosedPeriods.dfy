/** Closed means closed: what can still be posted into a hard-closed period. */
module ClosedPeriods {
  import opened Ledger
  import opened Tables
  import opened Steps
  import opened Invariants
  import opened PostingKeeps
  import opened OperationsKeep
  import opened Runs
  import opened StepEffects

  /** A year close posts its closing move into the last, hard-closed period of its year, and nothing else into closed periods. */
  lemma ClosePosts(h: Hashers, db: Db, y: Id, journal: Id, retained: Id, actor: Id, closingId: Id, openingId: Id, now: nat,
                   periodRows: seq<Id>, resultRows: seq<Id>, openingRows: seq<Group>, after: Db, m: Id)
    requires PeriodsOf(db, y, periodRows)
    requires CloseYear(h, db, y, journal, retained, actor, closingId, openingId, now, periodRows, resultRows, openingRows) == Ok(after)
    requires NewlyPosted(db, after, m) && !IsOpen(db, after.moves[m].period)
    ensures m == closingId && InYear(db, y, after.moves[m].period)
    ensures y in db.years && !db.years[y].closed && y in after.years && after.years[y].closed
  {
    hide PrepareClose, WriteClose, AllHardClosed, SystemMove, OpeningLines, ClosingLines;
    PreparedIsHardClosed(db, y, journal, retained, actor, periodRows);
    var s := PrepareClose(db, y, journal, retained, actor, periodRows).value;
    var closed, lines, finished :=
      WriteCloseIs(h, db, y, journal, s, actor, closingId, openingId, now, resultRows, openingRows, after);
    var asOf := db.years[y].end;
    var closing := ClosingLines(db, asOf, s.retained, s.currency, resultRows);
    SystemMoveEffects(h, db, closingId, journal, s.closingPeriod, asOf, actor, now, closing, closed);
    SystemMoveEffects(h, closed, openingId, journal, s.openingPeriod, db.years[s.successor].start, actor, now, lines, finished);
    SystemMoveYears(h, db, closingId, journal, s.closingPeriod, asOf, actor, now, closing, closed);
    SystemMoveYears(h, closed, openingId, journal, s.openingPeriod, db.years[s.successor].start, actor, now, lines, finished);
  }

  /** One step posts into a hard-closed period only as the closing move of that period's year, which it closes. */
  lemma StepIntoHardClosed(h: Hashers, db: Db, op: Op, after: Db, m: Id)
    requires Legal(db, op) && Apply(h, db, op) == Ok(after)
    requires NewlyPosted(db, after, m) && !IsOpen(db, after.moves[m].period)
    ensures op.CloseYearOp? && m == op.closingId && InYear(db, op.id, after.moves[m].period)
    ensures op.id in db.years && !db.years[op.id].closed && op.id in after.years && after.years[op.id].closed
  {
    hide Apply, Legal;
    StepHasEffects(h, db, op, after);
    if op.CloseYearOp? {
      CloseStepPosts(h, db, op, after, m);
    }
  }

  lemma CloseStepPosts(h: Hashers, db: Db, op: Op, after: Db, m: Id)
    requires op.CloseYearOp? && Legal(db, op) && Apply(h, db, op) == Ok(after)
    requires NewlyPosted(db, after, m) && !IsOpen(db, after.moves[m].period)
    ensures m == op.closingId && InYear(db, op.id, after.moves[m].period)
    ensures op.id in db.years && !db.years[op.id].closed && op.id in after.years && after.years[op.id].closed
  {
    hide CloseYear, PeriodsOf;
    ClosePosts(h, db, op.id, op.journal, op.retained, op.actor, op.closingId, op.openingId, op.now, op.periodRows, op.resultRows,
               op.openingRows, after, m);
  }

  ghost predicate AddedTo(db: Db, after: Db, p: Id, m: Id) {
    NewlyPosted(db, after, m) && after.moves[m].period == p
  }

  lemma PeriodStays(h: Hashers, states: seq<Db>, ops: seq<Op>, i: nat, j: nat, p: Id)
    requires Run(h, states, ops) && i <= j < |states| && p in states[i].periods && states[i].periods[p].state == HardClosed
    ensures p in states[j].periods && states[j].periods[p] == states[i].periods[p]
  {
    hide Inv, Run;
    RunKeeps(h, states, ops, i, j);
  }

  lemma MoveStays(h: Hashers, states: seq<Db>, ops: seq<Op>, i: nat, m: Id)
    requires Run(h, states, ops) && |states| == |ops| + 1 && i < |ops|
    ensures IsPosted(states[i], m) ==> IsPosted(states[i + 1], m) && states[i + 1].moves[m] == states[i].moves[m]
  {
    hide Inv, Run;
    RunKeeps(h, states, ops, i, i + 1);
  }

  lemma YearStays(h: Hashers, states: seq<Db>, ops: seq<Op>, i: nat, y: Id)
    requires Run(h, states, ops) && |states| == |ops| + 1 && i < |ops|
    ensures y in states[i].years && states[i].years[y].closed ==> y in states[i + 1].years && states[i + 1].years[y] == states[i].years[y]
  {
    hide Inv, Run;
    RunKeeps(h, states, ops, i, i + 1);
  }

  /** Once a period is hard closed it gains at most one move over the rest of the run: the closing move of its year,
      which is then closed for good. */
  lemma {:induction false} HardClosedGainsOneMove(h: Hashers, states: seq<Db>, ops: seq<Op>, i: nat, j: nat, p: Id, m: Id, k: Id)
    requires Run(h, states, ops) && |states| == |ops| + 1 && i <= j < |states|
    requires p in states[i].periods && states[i].periods[p].state == HardClosed
    requires AddedTo(states[i], states[j], p, m) && AddedTo(states[i], states[j], p, k)
    ensures m == k
    ensures p in states[j].periods && states[j].periods[p] == states[i].periods[p]
    ensures states[j].periods[p].year in states[j].years && states[j].years[states[j].periods[p].year].closed
    ensures exists n :: i <= n < j && ops[n].CloseYearOp? && ops[n].id == states[i].periods[p].year && ops[n].closingId == m
    decreases j
  {
    hide Inv, Apply, Legal, Run, Extends;
    assert i < j;
    PeriodStays(h, states, ops, i, j, p);
    PeriodStays(h, states, ops, i, j - 1, p);
    MoveStays(h, states, ops, j - 1, m);
    MoveStays(h, states, ops, j - 1, k);
    YearStays(h, states, ops, j - 1, states[i].periods[p].year);
    var db := states[j - 1];
    if IsPosted(db, m) && IsPosted(db, k) {
      HardClosedGainsOneMove(h, states, ops, i, j - 1, p, m, k);
    } else {
      var newest := if IsPosted(db, m) then k else m;
      LastStepCloses(h, states, ops, j - 1, p, newest);
      var other := if IsPosted(db, m) then m else k;
      if IsPosted(db, other) {
        HardClosedGainsOneMove(h, states, ops, i, j - 1, p, other, other);
        assert false;
      } else {
        LastStepCloses(h, states, ops, j - 1, p, other);
      }
    }
  }

  lemma LastStepCloses(h: Hashers, states: seq<Db>, ops: seq<Op>, n: nat, p: Id, m: Id)
    requires Run(h, states, ops) && n < |ops|
    requires p in states[n].periods && states[n].periods[p].state == HardClosed && AddedTo(states[n], states[n + 1], p, m)
    ensures ops[n].CloseYearOp? && ops[n].closingId == m && ops[n].id == states[n].periods[p].year
    ensures var y := states[n].periods[p].year;
            y in states[n].years && !states[n].years[y].closed && y in states[n + 1].years && states[n + 1].years[y].closed
  {
    hide Apply;
    assert Legal(states[n], ops[n]) && states[n + 1] == Step(h, states[n], ops[n]);
    StepIntoHardClosed(h, states[n], ops[n], states[n + 1], m);
  }

  /** Hard-closed periods and closed years are terminal, and a closed year has twelve periods, all hard closed. */
  lemma ClosedIsTerminal(h: Hashers, states: seq<Db>, ops: seq<Op>, i: nat, j: nat)
    requires Run(h, states, ops) && i <= j < |states|
    ensures forall p :: p in states[i].periods && states[i].periods[p].state == HardClosed ==>
              p in states[j].periods && states[j].periods[p] == states[i].periods[p]
    ensures forall y :: y in states[i].years && states[i].years[y].closed ==> y in states[j].years && states[j].years[y] == states[i].years[y]
    ensures forall y :: y in states[j].years && states[j].years[y].closed ==> AllHardClosed(states[j], y)
  {
    RunKeeps(h, states, ops, i, j);
  }
}
