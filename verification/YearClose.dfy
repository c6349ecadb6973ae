/** The year close: what its closing move achieves, and when its opening move is accepted. */
module YearClose {
  import opened Sums
  import opened Ledger
  import opened Tables
  import opened Steps
  import opened Invariants
  import opened Allocations
  import opened PostingKeeps
  import opened OperationsKeep
  import opened LedgerHistory

  ghost function ResultAccounts(db: Db): set<Id> {
    set a | a in db.accounts && IsResult(db.accounts[a].kind)
  }

  // The closing lines.

  ghost predicate AllNonZero(lines: seq<Line>) {
    forall i :: 0 <= i < |lines| ==> SoundLine(lines[i]) && Net(lines[i]) != 0
  }

  lemma SideOf(account: Id, currency: string, date: Date, net: Amount, foreign: Amount)
    ensures Net(Side(account, currency, date, net, foreign)) == net
    ensures net != 0 ==> SoundLine(Side(account, currency, date, net, foreign))
  {
  }

  lemma SumSnoc(lines: seq<Line>, l: Line, f: Line -> int)
    ensures SumSeq(lines + [l], f) == SumSeq(lines, f) + f(l)
  {
    assert (lines + [l])[..|lines|] == lines;
  }

  lemma {:induction false} SweepNet(db: Db, asOf: Date, currency: string, rows: seq<Id>)
    ensures SumSeq(SweepLines(db, asOf, currency, rows), Net) == -Swept(db, asOf, rows)
    ensures AllNonZero(SweepLines(db, asOf, currency, rows))
  {
    hide NetUpTo, Side, SumSeq, Swept;
    NothingSwept(db, asOf);
    if rows != [] {
      var n := |rows| - 1;
      SweepNet(db, asOf, currency, rows[..n]);
      SweptSnoc(db, asOf, rows);
      var line := Side(rows[n], currency, asOf, -NetUpTo(db, asOf, rows[n]), 0);
      SideOf(rows[n], currency, asOf, -NetUpTo(db, asOf, rows[n]), 0);
      SumSnoc(SweepLines(db, asOf, currency, rows[..n]), line, Net);
    }
  }

  lemma NothingSwept(db: Db, asOf: Date)
    ensures Swept(db, asOf, []) == 0 && SumSeq([], Net) == 0
  {
  }

  lemma SweptSnoc(db: Db, asOf: Date, rows: seq<Id>)
    requires rows != []
    ensures Swept(db, asOf, rows) == Swept(db, asOf, rows[..|rows| - 1]) + NetUpTo(db, asOf, rows[|rows| - 1])
  {
    hide NetUpTo;
  }

  /** The closing lines are balanced whenever there are any: validation of the closing move cannot fail. */
  lemma ClosingLinesBalanced(db: Db, asOf: Date, retained: Id, currency: string, rows: seq<Id>)
    ensures ClosingLines(db, asOf, retained, currency, rows) == [] || Balanced(ClosingLines(db, asOf, retained, currency, rows))
  {
    hide NetUpTo, Side, SweepLines, Swept;
    var sweep, total := SweepLines(db, asOf, currency, rows), Swept(db, asOf, rows);
    SweepNet(db, asOf, currency, rows);
    var last := Side(retained, currency, asOf, total, 0);
    SideOf(retained, currency, asOf, total, 0);
    SumSnoc(sweep, last, Net);
    ClosingLinesAre(db, asOf, retained, currency, rows);
    if |sweep| == 1 {
      assert sweep[..0] == [] && SumSeq(sweep[..0], Net) == 0;
      assert SumSeq(sweep, Net) == Net(sweep[0]);
    }
  }

  lemma ClosingLinesAre(db: Db, asOf: Date, retained: Id, currency: string, rows: seq<Id>)
    ensures ClosingLines(db, asOf, retained, currency, rows) ==
            if Swept(db, asOf, rows) == 0 then SweepLines(db, asOf, currency, rows)
            else SweepLines(db, asOf, currency, rows) + [Side(retained, currency, asOf, Swept(db, asOf, rows), 0)]
  {
    hide Swept, SweepLines, Side;
  }

  // What the closing move achieves.

  lemma SideOn(account: Id, currency: string, date: Date, net: Amount, a: Id)
    ensures On(a, Net)(Side(account, currency, date, net, 0)) == if account == a then net else 0
  {
    SideOf(account, currency, date, net, 0);
    assert AccountOf(Side(account, currency, date, net, 0)) == account;
  }

  lemma {:induction false} SweepAt(db: Db, asOf: Date, currency: string, rows: seq<Id>, a: Id)
    requires forall i, j :: 0 <= i < j < |rows| ==> rows[i] != rows[j]
    ensures SumSeq(SweepLines(db, asOf, currency, rows), On(a, Net)) == if a in rows then -NetUpTo(db, asOf, a) else 0
  {
    hide NetUpTo, Side, On, SumSeq;
    if rows != [] {
      var n := |rows| - 1;
      assert rows == rows[..n] + [rows[n]];
      SweepAt(db, asOf, currency, rows[..n], a);
      var line := Side(rows[n], currency, asOf, -NetUpTo(db, asOf, rows[n]), 0);
      SumSnoc(SweepLines(db, asOf, currency, rows[..n]), line, On(a, Net));
      SideOn(rows[n], currency, asOf, -NetUpTo(db, asOf, rows[n]), a);
    } else {
      SumSeqZero<Line>([], On(a, Net));
    }
  }

  lemma NoLinesNoNet(db: Db, asOf: Date, a: Id)
    requires !HasLineUpTo(db, asOf, a)
    ensures NetUpTo(db, asOf, a) == 0
  {
    forall m | m in PostedUpTo(db, asOf)
      ensures MoveSum(db.moves, On(a, Net))(m) == 0
    {
      forall i | 0 <= i < |db.moves[m].lines|
        ensures On(a, Net)(db.moves[m].lines[i]) == 0
      {
        assert db.moves[m].lines[i].account != a;
        OnAt(db.moves[m].lines[i], a);
      }
      SumSeqZero(db.moves[m].lines, On(a, Net));
    }
    SumSetZero(PostedUpTo(db, asOf), MoveSum(db.moves, On(a, Net)));
  }

  /** after is db with the closing lines posted on the day asOf, if there are any. */
  ghost predicate ClosingPosted(db: Db, after: Db, asOf: Date, lines: seq<Line>) {
    && (lines == [] ==> after.moves == db.moves)
    && (lines != [] ==> exists id :: PostedOn(db, after, id, asOf, lines))
  }

  ghost predicate PostedOn(db: Db, after: Db, id: Id, date: Date, lines: seq<Line>) {
    Posts(db, after, id, lines) && after.moves[id].date == date
  }

  lemma SumAfterPosting(db: Db, after: Db, asOf: Date, lines: seq<Line>, f: Line -> int)
    requires ClosingPosted(db, after, asOf, lines)
    ensures LedgerSum(after.moves, PostedUpTo(after, asOf), f) == LedgerSum(db.moves, PostedUpTo(db, asOf), f) + SumSeq(lines, f)
  {
    if lines == [] {
      assert PostedUpTo(after, asOf) == PostedUpTo(db, asOf);
    } else {
      var id :| PostedOn(db, after, id, asOf, lines);
      assert PostedUpTo(after, asOf) == PostedUpTo(db, asOf) + {id};
      LedgerSumInsert(db.moves, after.moves, PostedUpTo(db, asOf), id, f);
    }
  }

  /** What the closing lines take off an account: what it held when they were read. */
  ghost function TakenOff(db: Db, asOf: Date, rows: seq<Id>): Id -> int {
    (a: Id) => if a in rows then NetUpTo(db, asOf, a) else 0
  }

  lemma ResultAfterClosing(db: Db, between: Db, after: Db, asOf: Date, retained: Id, currency: string, rows: seq<Id>, a: Id)
    requires Lists(rows, ResultGroups(db, asOf)) && a != retained
    requires ClosingPosted(between, after, asOf, ClosingLines(db, asOf, retained, currency, rows))
    ensures NetUpTo(after, asOf, a) == NetUpTo(between, asOf, a) - TakenOff(db, asOf, rows)(a)
  {
    hide LedgerSum, SweepLines, Swept, ClosingLines, SumSeq, On, Side, ClosingPosted, PostedUpTo, HasLineUpTo;
    var sweep, total := SweepLines(db, asOf, currency, rows), Swept(db, asOf, rows);
    ClosingLinesAre(db, asOf, retained, currency, rows);
    SumAfterPosting(between, after, asOf, ClosingLines(db, asOf, retained, currency, rows), On(a, Net));
    SweepAt(db, asOf, currency, rows, a);
    var last := Side(retained, currency, asOf, total, 0);
    SumSnoc(sweep, last, On(a, Net));
    SideOn(retained, currency, asOf, total, a);
  }

  /** After the closing move every income and expense account nets to zero as of the year end. */
  lemma ResultsAreZero(db: Db, after: Db, asOf: Date, retained: Id, currency: string, rows: seq<Id>, a: Id)
    requires Lists(rows, ResultGroups(db, asOf))
    requires ActiveOfKind(db, retained, Equity)
    requires ClosingPosted(db, after, asOf, ClosingLines(db, asOf, retained, currency, rows))
    requires a in db.accounts && IsResult(db.accounts[a].kind)
    ensures NetUpTo(after, asOf, a) == 0
  {
    hide NetUpTo, ClosingLines, ClosingPosted, HasLineUpTo;
    ResultAfterClosing(db, db, after, asOf, retained, currency, rows, a);
    if a !in rows {
      NoLinesNoNet(db, asOf, a);
    }
  }

  /** Retained earnings moves by exactly the swept total. */
  lemma RetainedTakesResult(db: Db, after: Db, asOf: Date, retained: Id, currency: string, rows: seq<Id>)
    requires Lists(rows, ResultGroups(db, asOf))
    requires ActiveOfKind(db, retained, Equity)
    requires ClosingPosted(db, after, asOf, ClosingLines(db, asOf, retained, currency, rows))
    ensures NetUpTo(after, asOf, retained) == NetUpTo(db, asOf, retained) + SumSet(ResultAccounts(db), NetsUpTo(db, asOf))
  {
    hide LedgerSum, SweepLines, Swept, ClosingLines, SumSeq, On, Side, ClosingPosted, PostedUpTo, HasLineUpTo;
    var sweep, total := SweepLines(db, asOf, currency, rows), Swept(db, asOf, rows);
    ClosingLinesAre(db, asOf, retained, currency, rows);
    SumAfterPosting(db, after, asOf, ClosingLines(db, asOf, retained, currency, rows), On(retained, Net));
    assert retained !in rows;
    SweepAt(db, asOf, currency, rows, retained);
    var last := Side(retained, currency, asOf, total, 0);
    SumSnoc(sweep, last, On(retained, Net));
    SideOn(retained, currency, asOf, total, retained);
    SweptIsWholeResult(db, asOf, rows);
  }

  lemma SweptIsWholeResult(db: Db, asOf: Date, rows: seq<Id>)
    requires Lists(rows, ResultGroups(db, asOf))
    ensures Swept(db, asOf, rows) == SumSet(ResultAccounts(db), NetsUpTo(db, asOf))
  {
    var groups, rest := ResultGroups(db, asOf), ResultAccounts(db) - ResultGroups(db, asOf);
    SumListed(rows, groups, NetsUpTo(db, asOf));
    forall a | a in rest
      ensures NetsUpTo(db, asOf)(a) == 0
    {
      NoLinesNoNet(db, asOf, a);
    }
    SumSetZero(rest, NetsUpTo(db, asOf));
    SumSetUnion(groups, rest, NetsUpTo(db, asOf));
    assert groups + rest == ResultAccounts(db);
  }

  // The opening lines.

  ghost predicate InResult(db: Db, l: Line) {
    l.account in db.accounts && IsResult(db.accounts[l.account].kind)
  }

  /** All groups of balance sheet lines up to a day. */
  ghost function SheetGroups(db: Db, asOf: Date): set<Group> {
    set m, i | m in PostedUpTo(db, asOf) && 0 <= i < |db.moves[m].lines| && !InResult(db, db.moves[m].lines[i]) ::
      GroupOf(db.moves[m].lines[i])
  }

  ghost function GroupNets(db: Db, asOf: Date): Group -> int {
    (g: Group) => GroupNet(db, asOf, g)
  }

  lemma OpeningGroupOnSheet(db: Db, asOf: Date, g: Group)
    requires OpeningGroup(db, asOf, g)
    ensures g in SheetGroups(db, asOf)
  {
    hide GroupNet, GroupForeign;
    var m, i :| m in PostedUpTo(db, asOf) && 0 <= i < |db.moves[m].lines| && GroupOf(db.moves[m].lines[i]) == g;
    assert !InResult(db, db.moves[m].lines[i]);
  }

  /** The opening query leaves out only groups without a net. */
  lemma OpeningRowsNet(db: Db, asOf: Date, rows: seq<Group>)
    requires SoundMoves(db) && OpeningRows(db, asOf, rows)
    ensures SumSeq(rows, GroupNets(db, asOf)) == SumSet(SheetGroups(db, asOf), GroupNets(db, asOf))
  {
    hide GroupNet, GroupForeign, SheetGroups, SumSet, SumSeq, SoundMoves, OpeningGroup;
    var listed := set g | g in rows;
    var rest := SheetGroups(db, asOf) - listed;
    SumListed(rows, listed, GroupNets(db, asOf));
    forall g | g in listed
      ensures g in SheetGroups(db, asOf)
    {
      OpeningGroupOnSheet(db, asOf, g);
    }
    forall g | g in rest
      ensures GroupNets(db, asOf)(g) == 0
    {
      SheetGroupOpens(db, asOf, g);
    }
    SumSetZero(rest, GroupNets(db, asOf));
    SumSetUnion(listed, rest, GroupNets(db, asOf));
    assert listed + rest == SheetGroups(db, asOf);
  }

  lemma SheetGroupOpens(db: Db, asOf: Date, g: Group)
    requires SoundMoves(db) && g in SheetGroups(db, asOf)
    ensures OpeningGroup(db, asOf, g) || (GroupNet(db, asOf, g) == 0 && GroupForeign(db, asOf, g) == 0)
  {
    hide LedgerSum;
    var m, i :| m in PostedUpTo(db, asOf) && 0 <= i < |db.moves[m].lines| && !InResult(db, db.moves[m].lines[i])
      && GroupOf(db.moves[m].lines[i]) == g;
    assert SoundMove(db, m);
  }

  /** What the income and expense accounts amount to together. */
  ghost function YearResult(db: Db, asOf: Date): Amount {
    SumSet(ResultAccounts(db), NetsUpTo(db, asOf))
  }

  /** In a balanced ledger the balance sheet groups net to the negative of the result. */
  lemma SheetNetsCancel(db: Db, asOf: Date)
    requires SoundMoves(db)
    ensures SumSet(SheetGroups(db, asOf), GroupNets(db, asOf)) == -YearResult(db, asOf)
  {
    hide SheetGroups, ResultAccounts, SumSet, SoundMoves, PostedUpTo, LedgerSum, Weighted;
    var ids, groups, results := PostedUpTo(db, asOf), SheetGroups(db, asOf), ResultAccounts(db);
    PostedTotal(db, asOf);
    Regroup(db.moves, ids, GroupOf, groups, One, Net);
    Regroup(db.moves, ids, AccountOf, results, One, Net);
    forall g
      ensures Term(db.moves, ids, GroupOf, One, Net)(g) == GroupNets(db, asOf)(g)
    {
      assert One(g) == 1;
    }
    forall a
      ensures Term(db.moves, ids, AccountOf, One, Net)(a) == NetsUpTo(db, asOf)(a)
    {
      assert One(a) == 1;
    }
    SumSetSame(groups, Term(db.moves, ids, GroupOf, One, Net), GroupNets(db, asOf));
    SumSetSame(results, Term(db.moves, ids, AccountOf, One, Net), NetsUpTo(db, asOf));
    SplitTotal(db, asOf);
  }

  lemma PostedTotal(db: Db, asOf: Date)
    requires SoundMoves(db)
    ensures LedgerSum(db.moves, PostedUpTo(db, asOf), Net) == 0
  {
    forall m | m in PostedUpTo(db, asOf)
      ensures Balanced(db.moves[m].lines)
    {
      assert SoundMove(db, m);
    }
    BalancedTotal(db.moves, PostedUpTo(db, asOf));
  }

  lemma SplitTotal(db: Db, asOf: Date)
    requires SoundMoves(db)
    ensures LedgerSum(db.moves, PostedUpTo(db, asOf), Net) ==
            LedgerSum(db.moves, PostedUpTo(db, asOf), Weighted(GroupOf, SheetGroups(db, asOf), One, Net))
            + LedgerSum(db.moves, PostedUpTo(db, asOf), Weighted(AccountOf, ResultAccounts(db), One, Net))
  {
    hide SheetGroups, ResultAccounts, LedgerSum, SoundMoves;
    var ids := PostedUpTo(db, asOf);
    var onSheet := Weighted(GroupOf, SheetGroups(db, asOf), One, Net);
    var onResult := Weighted(AccountOf, ResultAccounts(db), One, Net);
    var both: Line -> int := (l: Line) => onSheet(l) + 1 * onResult(l);
    LedgerSumLinear(db.moves, ids, onSheet, onResult, both, 1);
    forall m, i | m in ids && m in db.moves && 0 <= i < |db.moves[m].lines|
      ensures Net(db.moves[m].lines[i]) == both(db.moves[m].lines[i])
    {
      LineOnOneSide(db, asOf, m, i);
    }
    LedgerSumSame(db.moves, ids, Net, both);
  }

  lemma LineOnOneSide(db: Db, asOf: Date, m: Id, i: nat)
    requires SoundMoves(db) && m in PostedUpTo(db, asOf) && i < |db.moves[m].lines|
    ensures var l := db.moves[m].lines[i];
            l.account in ResultAccounts(db) <==> GroupOf(l) !in SheetGroups(db, asOf)
  {
    var l := db.moves[m].lines[i];
    assert SoundMove(db, m);
    if GroupOf(l) in SheetGroups(db, asOf) {
      var k, j :| k in PostedUpTo(db, asOf) && 0 <= j < |db.moves[k].lines| && !InResult(db, db.moves[k].lines[j])
        && GroupOf(db.moves[k].lines[j]) == GroupOf(l);
    }
  }

  lemma {:induction false} GroupLinesNet(db: Db, asOf: Date, rows: seq<Group>)
    ensures SumSeq(GroupLines(db, asOf, rows), Net) == SumSeq(rows, GroupNets(db, asOf))
  {
    hide GroupNet, GroupForeign;
    if rows != [] {
      var n := |rows| - 1;
      GroupLinesNet(db, asOf, rows[..n]);
      assert GroupLines(db, asOf, rows)[..n] == GroupLines(db, asOf, rows[..n]);
      SideOf(rows[n].account, rows[n].currency, asOf + 1, GroupNet(db, asOf, rows[n]), GroupForeign(db, asOf, rows[n]));
    }
  }

  /** The opening lines are out of balance by exactly the result that has not been swept. */
  lemma OpeningDifference(db: Db, asOf: Date, currency: string, rows: seq<Group>)
    requires SoundMoves(db) && OpeningRows(db, asOf, rows)
    ensures SumSeq(GroupLines(db, asOf, rows), Net) == -YearResult(db, asOf)
    ensures OpeningLines(db, asOf, currency, rows) ==
            if exists g :: g in rows && ForeignMissing(db, asOf, currency, g) then Err(ForeignAmountMissing)
            else if YearResult(db, asOf) != 0 then Err(OpeningUnbalanced)
            else Ok(GroupLines(db, asOf, rows))
  {
    hide GroupNet, GroupForeign, NetUpTo, SheetGroups, YearResult;
    GroupLinesNet(db, asOf, rows);
    OpeningRowsNet(db, asOf, rows);
    SheetNetsCancel(db, asOf);
    NetIsDebitMinusCredit(GroupLines(db, asOf, rows));
  }

  /** Once the results are zero, the opening lines cannot be unbalanced. */
  lemma OpeningAlwaysBalances(db: Db, asOf: Date, currency: string, rows: seq<Group>)
    requires SoundMoves(db) && OpeningRows(db, asOf, rows)
    requires forall a :: a in ResultAccounts(db) ==> NetUpTo(db, asOf, a) == 0
    ensures OpeningLines(db, asOf, currency, rows) ==
            if exists g :: g in rows && ForeignMissing(db, asOf, currency, g) then Err(ForeignAmountMissing)
            else Ok(GroupLines(db, asOf, rows))
    ensures SumSeq(GroupLines(db, asOf, rows), Net) == 0
  {
    hide GroupNet, GroupForeign, NetUpTo, SheetGroups, OpeningLines, OpeningRows, GroupLines;
    SumSetZero(ResultAccounts(db), NetsUpTo(db, asOf));
    OpeningDifference(db, asOf, currency, rows);
  }

  /** Validation accepts the opening move exactly when no listed group has a zero net with a foreign amount left. */
  lemma OpeningValidates(db: Db, asOf: Date, rows: seq<Group>)
    requires rows != [] && SumSeq(GroupLines(db, asOf, rows), Net) == 0
    ensures Balanced(GroupLines(db, asOf, rows)) <==> forall g :: g in rows ==> GroupNet(db, asOf, g) != 0
  {
    hide GroupNet, GroupForeign;
    var lines := GroupLines(db, asOf, rows);
    forall i | 0 <= i < |rows|
      ensures Net(lines[i]) == GroupNet(db, asOf, rows[i]) && (SoundLine(lines[i]) <==> GroupNet(db, asOf, rows[i]) != 0)
    {
    }
    assert |rows| == 1 ==> lines[..0] == [] && SumSeq(lines, Net) == SumSeq(lines[..0], Net) + Net(lines[0]);
    if forall i :: 0 <= i < |rows| ==> GroupNet(db, asOf, rows[i]) != 0 {
      assert |rows| >= 2;
      assert Balanced(lines);
    } else {
      var i :| 0 <= i < |rows| && GroupNet(db, asOf, rows[i]) == 0;
      assert !SoundLine(lines[i]) && rows[i] in rows;
    }
  }

  // The groups after the closing move, from the tables before it.

  predicate OnSheet(db: Db, g: Group) {
    g.account in db.accounts && OnBalanceSheet(db.accounts[g.account].kind)
  }

  /** The net of a group once the result has been swept into retained earnings. */
  ghost function NetAfterClose(db: Db, asOf: Date, retained: Id, currency: string, g: Group): Amount {
    GroupNet(db, asOf, g) + if g == Group(retained, currency) then YearResult(db, asOf) else 0
  }

  lemma SideIn(account: Id, currency: string, date: Date, net: Amount, g: Group)
    ensures InGroup(g, Net)(Side(account, currency, date, net, 0)) == if g == Group(account, currency) then net else 0
    ensures InGroup(g, Foreign)(Side(account, currency, date, net, 0)) == 0
  {
    var l := Side(account, currency, date, net, 0);
    SideOf(account, currency, date, net, 0);
    assert GroupOf(l) == Group(account, currency) && Foreign(l) == 0;
  }

  lemma {:induction false} SweepIn(db: Db, asOf: Date, currency: string, rows: seq<Id>, g: Group)
    requires g.account !in rows
    ensures SumSeq(SweepLines(db, asOf, currency, rows), InGroup(g, Net)) == 0
    ensures SumSeq(SweepLines(db, asOf, currency, rows), InGroup(g, Foreign)) == 0
  {
    hide NetUpTo, Side, InGroup, SumSeq;
    if rows != [] {
      var n := |rows| - 1;
      assert rows == rows[..n] + [rows[n]];
      SweepIn(db, asOf, currency, rows[..n], g);
      var line := Side(rows[n], currency, asOf, -NetUpTo(db, asOf, rows[n]), 0);
      SumSnoc(SweepLines(db, asOf, currency, rows[..n]), line, InGroup(g, Net));
      SumSnoc(SweepLines(db, asOf, currency, rows[..n]), line, InGroup(g, Foreign));
      SideIn(rows[n], currency, asOf, -NetUpTo(db, asOf, rows[n]), g);
    } else {
      SumSeqZero<Line>([], InGroup(g, Net));
      SumSeqZero<Line>([], InGroup(g, Foreign));
    }
  }

  /** The closing lines change no balance sheet group but retained earnings in functional currency, and no foreign amount. */
  lemma GroupAfterLines(db: Db, between: Db, closed: Db, asOf: Date, retained: Id, currency: string, rows: seq<Id>, g: Group)
    requires Lists(rows, ResultGroups(db, asOf)) && OnSheet(db, g)
    requires ClosingPosted(between, closed, asOf, ClosingLines(db, asOf, retained, currency, rows))
    ensures GroupNet(closed, asOf, g) ==
            GroupNet(between, asOf, g) + if g == Group(retained, currency) then YearResult(db, asOf) else 0
    ensures GroupForeign(closed, asOf, g) == GroupForeign(between, asOf, g)
  {
    hide LedgerSum, SweepLines, Swept, ClosingLines, SumSeq, InGroup, Side, ClosingPosted, PostedUpTo, HasLineUpTo, NetsUpTo;
    var sweep, total := SweepLines(db, asOf, currency, rows), Swept(db, asOf, rows);
    ClosingLinesAre(db, asOf, retained, currency, rows);
    SumAfterPosting(between, closed, asOf, ClosingLines(db, asOf, retained, currency, rows), InGroup(g, Net));
    SumAfterPosting(between, closed, asOf, ClosingLines(db, asOf, retained, currency, rows), InGroup(g, Foreign));
    assert g.account !in rows;
    SweepIn(db, asOf, currency, rows, g);
    var last := Side(retained, currency, asOf, total, 0);
    SumSnoc(sweep, last, InGroup(g, Net));
    SumSnoc(sweep, last, InGroup(g, Foreign));
    SideIn(retained, currency, asOf, total, g);
    SweptIsWholeResult(db, asOf, rows);
  }

  /** The closing move changes no balance sheet group but retained earnings in functional currency, and no foreign amount. */
  lemma GroupAfterClose(db: Db, closed: Db, asOf: Date, retained: Id, currency: string, rows: seq<Id>, g: Group)
    requires Lists(rows, ResultGroups(db, asOf)) && OnSheet(db, g)
    requires ClosingPosted(db, closed, asOf, ClosingLines(db, asOf, retained, currency, rows))
    ensures GroupNet(closed, asOf, g) == NetAfterClose(db, asOf, retained, currency, g)
    ensures GroupForeign(closed, asOf, g) == GroupForeign(db, asOf, g)
  {
    hide GroupNet, GroupForeign, ClosingPosted, ClosingLines, Lists, YearResult;
    GroupAfterLines(db, db, closed, asOf, retained, currency, rows, g);
  }

  lemma NoLinesNoGroup(db: Db, asOf: Date, g: Group)
    requires forall m, i :: m in PostedUpTo(db, asOf) && 0 <= i < |db.moves[m].lines| ==> GroupOf(db.moves[m].lines[i]) != g
    ensures GroupNet(db, asOf, g) == 0 && GroupForeign(db, asOf, g) == 0
  {
    forall m | m in PostedUpTo(db, asOf)
      ensures MoveSum(db.moves, InGroup(g, Net))(m) == 0 && MoveSum(db.moves, InGroup(g, Foreign))(m) == 0
    {
      SumSeqZero(db.moves[m].lines, InGroup(g, Net));
      SumSeqZero(db.moves[m].lines, InGroup(g, Foreign));
    }
    SumSetZero(PostedUpTo(db, asOf), MoveSum(db.moves, InGroup(g, Net)));
    SumSetZero(PostedUpTo(db, asOf), MoveSum(db.moves, InGroup(g, Foreign)));
  }

  /** The opening query lists a balance sheet group exactly when it has a net or a foreign amount. */
  lemma OpensIffLeft(db: Db, asOf: Date, rows: seq<Group>, g: Group)
    requires OpeningRows(db, asOf, rows)
    ensures g in rows <==> OnSheet(db, g) && (GroupNet(db, asOf, g) != 0 || GroupForeign(db, asOf, g) != 0)
  {
    hide GroupNet, GroupForeign;
    assert g in rows <==> OpeningGroup(db, asOf, g);
    if GroupNet(db, asOf, g) != 0 || GroupForeign(db, asOf, g) != 0 {
      if forall m, i :: m in PostedUpTo(db, asOf) && 0 <= i < |db.moves[m].lines| ==> GroupOf(db.moves[m].lines[i]) != g {
        NoLinesNoGroup(db, asOf, g);
      }
    }
  }

  /** A foreign-currency group with a net but no foreign amount. */
  ghost predicate LacksForeign(db: Db, asOf: Date, currency: string, g: Group) {
    OnSheet(db, g) && g.currency != currency && GroupNet(db, asOf, g) != 0 && GroupForeign(db, asOf, g) == 0
  }

  /** A group with a foreign amount whose net will be zero once the result is swept. */
  ghost predicate LacksNet(db: Db, asOf: Date, retained: Id, currency: string, g: Group) {
    OnSheet(db, g) && NetAfterClose(db, asOf, retained, currency, g) == 0 && GroupForeign(db, asOf, g) != 0
  }

  lemma LackingIsListed(db: Db, closed: Db, asOf: Date, retained: Id, currency: string, rows: seq<Id>, openingRows: seq<Group>, g: Group)
    requires Lists(rows, ResultGroups(db, asOf)) && closed.accounts == db.accounts
    requires ClosingPosted(db, closed, asOf, ClosingLines(db, asOf, retained, currency, rows)) && OpeningRows(closed, asOf, openingRows)
    ensures LacksForeign(db, asOf, currency, g) <==> g in openingRows && ForeignMissing(closed, asOf, currency, g)
    ensures LacksNet(db, asOf, retained, currency, g) <==> g in openingRows && GroupNet(closed, asOf, g) == 0
  {
    hide GroupNet, GroupForeign, ClosingPosted, ClosingLines, Lists, OpeningRows, YearResult;
    OpensIffLeft(closed, asOf, openingRows, g);
    if OnSheet(db, g) {
      GroupAfterClose(db, closed, asOf, retained, currency, rows, g);
    }
  }

  // The transaction as a whole.

  lemma SystemMovePosted(h: Hashers, db: Db, id: Id, journal: Id, period: Id, date: Date, actor: Id, now: nat, lines: seq<Line>, after: Db)
    requires SystemMove(h, db, id, journal, period, date, actor, now, lines) == Ok(after)
    ensures ClosingPosted(db, after, date, lines) && after.accounts == db.accounts
  {
    if lines != [] {
      var e := Entry(journal, period, date, None, Some(actor), Some(actor), now, lines);
      hide PreviousHash, NameTaken, ReferencesHold, Balanced;
      assert after == Logged(h, PostRow(h, db, id, e).value, "account_move", id, "POST", actor, "", now);
      assert PostedOn(db, after, id, date, lines);
    }
  }

  lemma SameNetUpTo(db: Db, after: Db, asOf: Date, a: Id)
    requires PostedUpTo(after, asOf) == PostedUpTo(db, asOf)
    requires forall m :: m in PostedUpTo(db, asOf) ==> m in after.moves && after.moves[m] == db.moves[m]
    ensures NetUpTo(after, asOf, a) == NetUpTo(db, asOf, a)
  {
    SumSetSame(PostedUpTo(db, asOf), MoveSum(after.moves, On(a, Net)), MoveSum(db.moves, On(a, Net)));
  }

  lemma LaterMoveIgnored(db: Db, after: Db, date: Date, lines: seq<Line>, asOf: Date, a: Id)
    requires ClosingPosted(db, after, date, lines) && asOf < date
    ensures NetUpTo(after, asOf, a) == NetUpTo(db, asOf, a)
  {
    assert PostedUpTo(after, asOf) == PostedUpTo(db, asOf);
    hide NetUpTo;
    SameNetUpTo(db, after, asOf, a);
  }

  /** After a year close every income and expense account nets to zero as of the year end,
      and retained earnings has taken exactly their total. */
  lemma YearCloseSweeps(h: Hashers, db: Db, y: Id, journal: Id, retained: Id, actor: Id, closingId: Id, openingId: Id, now: nat,
                        periodRows: seq<Id>, resultRows: seq<Id>, openingRows: seq<Group>, after: Db, s: CloseSetup)
    requires PeriodsOf(db, y, periodRows) && PrepareClose(db, y, journal, retained, actor, periodRows) == Ok(s)
    requires y in db.years && Lists(resultRows, ResultGroups(db, db.years[y].end))
    requires CloseYear(h, db, y, journal, retained, actor, closingId, openingId, now, periodRows, resultRows, openingRows) == Ok(after)
    ensures forall a :: a in ResultAccounts(db) ==> NetUpTo(after, db.years[y].end, a) == 0
    ensures NetUpTo(after, db.years[y].end, s.retained) ==
            NetUpTo(db, db.years[y].end, s.retained) + SumSet(ResultAccounts(db), NetsUpTo(db, db.years[y].end))
  {
    hide PrepareClose, WriteClose, SystemMove, OpeningLines, ClosingLines, NetUpTo, AllHardClosed, ClosingPosted, Lists;
    PreparedIsHardClosed(db, y, journal, retained, actor, periodRows);
    var closed, lines, finished :=
      WriteCloseIs(h, db, y, journal, s, actor, closingId, openingId, now, resultRows, openingRows, after);
    var asOf := db.years[y].end;
    var closing := ClosingLines(db, asOf, s.retained, s.currency, resultRows);
    SystemMovePosted(h, db, closingId, journal, s.closingPeriod, asOf, actor, now, closing, closed);
    SystemMovePosted(h, closed, openingId, journal, s.openingPeriod, asOf + 1, actor, now, lines, finished);
    RetainedTakesResult(db, closed, asOf, s.retained, s.currency, resultRows);
    forall a
      ensures NetUpTo(after, asOf, a) == NetUpTo(closed, asOf, a)
    {
      LaterMoveIgnored(closed, finished, asOf + 1, lines, asOf, a);
      SameMovesSameNet(finished, after, asOf, a);
    }
    forall a | a in ResultAccounts(db)
      ensures NetUpTo(closed, asOf, a) == 0
    {
      ResultsAreZero(db, closed, asOf, s.retained, s.currency, resultRows, a);
    }
  }

  lemma SameMovesSameNet(db: Db, after: Db, asOf: Date, a: Id)
    requires after.moves == db.moves
    ensures NetUpTo(after, asOf, a) == NetUpTo(db, asOf, a)
  {
    assert PostedUpTo(after, asOf) == PostedUpTo(db, asOf);
  }

  /** Validation never rejects the closing move. */
  lemma ClosingNeverInvalid(h: Hashers, db: Db, id: Id, journal: Id, period: Id, asOf: Date, actor: Id, now: nat,
                            retained: Id, currency: string, rows: seq<Id>)
    ensures SystemMove(h, db, id, journal, period, asOf, actor, now, ClosingLines(db, asOf, retained, currency, rows)) != Err(InvalidMove)
  {
    ClosingLinesBalanced(db, asOf, retained, currency, rows);
    hide ClosingLines, Balanced, PostedRow, ReferencesHold, NameTaken;
  }

  /** How the opening half of a year close can fail on the figures, read from the tables before the call: never as unbalanced; for a
      missing foreign amount exactly when some group lacks it; as an invalid move exactly when, with no such group, some group lacks
      a net after the sweep. */
  lemma OpeningOutcome(h: Hashers, db: Db, y: Id, journal: Id, s: CloseSetup, actor: Id, closingId: Id, openingId: Id, now: nat,
                       resultRows: seq<Id>, openingRows: seq<Group>, closed: Db)
    requires Inv(h, db) && y in db.years && s.successor in db.years && ActiveOfKind(db, s.retained, Equity)
    requires Lists(resultRows, ResultGroups(db, db.years[y].end))
    requires SystemMove(h, db, closingId, journal, s.closingPeriod, db.years[y].end, actor, now,
                        ClosingLines(db, db.years[y].end, s.retained, s.currency, resultRows)) == Ok(closed)
    requires OpeningRows(closed, db.years[y].end, openingRows)
    ensures var r := WriteClose(h, db, y, journal, s, actor, closingId, openingId, now, resultRows, openingRows);
            && r != Err(OpeningUnbalanced)
            && (r == Err(ForeignAmountMissing) <==> exists g :: LacksForeign(db, db.years[y].end, s.currency, g))
            && (r == Err(InvalidMove) <==>
                (forall g :: !LacksForeign(db, db.years[y].end, s.currency, g))
                && exists g :: LacksNet(db, db.years[y].end, s.retained, s.currency, g))
  {
    hide *;
    var asOf := db.years[y].end;
    OpeningFigures(h, db, y, journal, s, actor, closingId, now, resultRows, openingRows, closed);
    AllLacking(h, db, y, journal, s, actor, closingId, now, resultRows, openingRows, closed);
    OpeningAccepted(closed, asOf, openingRows);
    OutcomeOfWrite(h, db, y, journal, s, actor, closingId, openingId, now, resultRows, openingRows, closed);
  }

  lemma OpeningAccepted(db: Db, asOf: Date, rows: seq<Group>)
    requires SumSeq(GroupLines(db, asOf, rows), Net) == 0
    ensures GroupLines(db, asOf, rows) != [] && !Balanced(GroupLines(db, asOf, rows)) <==> exists g :: g in rows && GroupNet(db, asOf, g) == 0
  {
    hide GroupNet, GroupLine, Balanced;
    if rows != [] {
      OpeningValidates(db, asOf, rows);
    }
  }

  lemma AllLacking(h: Hashers, db: Db, y: Id, journal: Id, s: CloseSetup, actor: Id, closingId: Id, now: nat,
                   resultRows: seq<Id>, openingRows: seq<Group>, closed: Db)
    requires y in db.years && Lists(resultRows, ResultGroups(db, db.years[y].end))
    requires SystemMove(h, db, closingId, journal, s.closingPeriod, db.years[y].end, actor, now,
                        ClosingLines(db, db.years[y].end, s.retained, s.currency, resultRows)) == Ok(closed)
    requires OpeningRows(closed, db.years[y].end, openingRows)
    ensures (exists g :: LacksForeign(db, db.years[y].end, s.currency, g))
            <==> exists g :: g in openingRows && ForeignMissing(closed, db.years[y].end, s.currency, g)
    ensures (exists g :: LacksNet(db, db.years[y].end, s.retained, s.currency, g))
            <==> exists g :: g in openingRows && GroupNet(closed, db.years[y].end, g) == 0
  {
    hide *;
    var asOf := db.years[y].end;
    SystemMovePosted(h, db, closingId, journal, s.closingPeriod, asOf, actor, now, ClosingLines(db, asOf, s.retained, s.currency, resultRows), closed);
    forall g
      ensures LacksForeign(db, asOf, s.currency, g) <==> g in openingRows && ForeignMissing(closed, asOf, s.currency, g)
      ensures LacksNet(db, asOf, s.retained, s.currency, g) <==> g in openingRows && GroupNet(closed, asOf, g) == 0
    {
      LackingIsListed(db, closed, asOf, s.retained, s.currency, resultRows, openingRows, g);
    }
  }

  /** After the closing move the errors of the close are those of the opening lines and of the opening move. */
  lemma OutcomeOfWrite(h: Hashers, db: Db, y: Id, journal: Id, s: CloseSetup, actor: Id, closingId: Id, openingId: Id, now: nat,
                       resultRows: seq<Id>, openingRows: seq<Group>, closed: Db)
    requires y in db.years && s.successor in db.years
    requires SystemMove(h, db, closingId, journal, s.closingPeriod, db.years[y].end, actor, now,
                        ClosingLines(db, db.years[y].end, s.retained, s.currency, resultRows)) == Ok(closed)
    ensures var r := WriteClose(h, db, y, journal, s, actor, closingId, openingId, now, resultRows, openingRows);
            match OpeningLines(closed, db.years[y].end, s.currency, openingRows)
            case Err(e) => r == Err(e)
            case Ok(lines) => r != Err(OpeningUnbalanced) && r != Err(ForeignAmountMissing)
                              && (r == Err(InvalidMove) <==> lines != [] && !Balanced(lines))
  {
    hide SystemMove, OpeningLines, ClosingLines, Balanced;
    match OpeningLines(closed, db.years[y].end, s.currency, openingRows)
    case Err(_) =>
    case Ok(lines) =>
      OutcomeOfOpening(h, closed, openingId, journal, s.openingPeriod, db.years[s.successor].start, actor, now, lines);
  }

  lemma OutcomeOfOpening(h: Hashers, db: Db, id: Id, journal: Id, period: Id, date: Date, actor: Id, now: nat, lines: seq<Line>)
    ensures var r := SystemMove(h, db, id, journal, period, date, actor, now, lines);
            && r != Err(OpeningUnbalanced) && r != Err(ForeignAmountMissing)
            && (r == Err(InvalidMove) <==> lines != [] && !Balanced(lines))
  {
    hide Balanced, PostedRow, ReferencesHold, NameTaken;
  }

  lemma OpeningFigures(h: Hashers, db: Db, y: Id, journal: Id, s: CloseSetup, actor: Id, closingId: Id, now: nat,
                       resultRows: seq<Id>, openingRows: seq<Group>, closed: Db)
    requires Inv(h, db) && y in db.years && ActiveOfKind(db, s.retained, Equity)
    requires Lists(resultRows, ResultGroups(db, db.years[y].end))
    requires SystemMove(h, db, closingId, journal, s.closingPeriod, db.years[y].end, actor, now,
                        ClosingLines(db, db.years[y].end, s.retained, s.currency, resultRows)) == Ok(closed)
    requires OpeningRows(closed, db.years[y].end, openingRows)
    ensures OpeningLines(closed, db.years[y].end, s.currency, openingRows) ==
            if exists g :: g in openingRows && ForeignMissing(closed, db.years[y].end, s.currency, g) then Err(ForeignAmountMissing)
            else Ok(GroupLines(closed, db.years[y].end, openingRows))
    ensures SumSeq(GroupLines(closed, db.years[y].end, openingRows), Net) == 0
  {
    hide Core, SystemMove, ClosingLines, NetUpTo, OpeningLines, Lists, OpeningRows, SoundAllocations, ClosingPosted;
    var asOf := db.years[y].end;
    var closing := ClosingLines(db, asOf, s.retained, s.currency, resultRows);
    SystemMovePosted(h, db, closingId, journal, s.closingPeriod, asOf, actor, now, closing, closed);
    ClosedMovesSound(h, db, db, closingId, journal, s.closingPeriod, asOf, actor, now, s.retained, s.currency, resultRows, closed);
    forall a | a in ResultAccounts(closed)
      ensures NetUpTo(closed, asOf, a) == 0
    {
      ResultsAreZero(db, closed, asOf, s.retained, s.currency, resultRows, a);
    }
    OpeningAlwaysBalances(closed, asOf, s.currency, openingRows);
  }

  lemma ClosedMovesSound(h: Hashers, db: Db, between: Db, id: Id, journal: Id, period: Id, asOf: Date, actor: Id, now: nat,
                         retained: Id, currency: string, rows: seq<Id>, closed: Db)
    requires Inv(h, between)
    requires SystemMove(h, between, id, journal, period, asOf, actor, now, ClosingLines(db, asOf, retained, currency, rows)) == Ok(closed)
    ensures SoundMoves(closed)
  {
    hide SystemMove, Extends, SoundAllocations, GapFree, Chained, SoundReversals, SoundEvents, SoundAudit, SoundYears, SoundMoves;
    SweepDated(db, asOf, currency, rows);
    SystemMoveKeeps(h, between, id, journal, period, asOf, actor, now, ClosingLines(db, asOf, retained, currency, rows), closed);
  }

  // What the opening move carries.

  lemma GroupLineIn(db: Db, asOf: Date, k: Group, g: Group)
    ensures InGroup(g, Net)(GroupLine(db, asOf, k)) == if k == g then GroupNet(db, asOf, g) else 0
    ensures InGroup(g, Foreign)(GroupLine(db, asOf, k)) == if k == g then GroupForeign(db, asOf, g) else 0
  {
    hide GroupNet, GroupForeign;
    var l := GroupLine(db, asOf, k);
    assert GroupOf(l) == k && Net(l) == l.debit - l.credit && Foreign(l) == l.amountCurrency;
  }

  lemma {:induction false} GroupLinesIn(db: Db, asOf: Date, rows: seq<Group>, g: Group)
    requires forall i, j :: 0 <= i < j < |rows| ==> rows[i] != rows[j]
    ensures SumSeq(GroupLines(db, asOf, rows), InGroup(g, Net)) == if g in rows then GroupNet(db, asOf, g) else 0
    ensures SumSeq(GroupLines(db, asOf, rows), InGroup(g, Foreign)) == if g in rows then GroupForeign(db, asOf, g) else 0
  {
    hide GroupNet, GroupForeign, GroupLine, InGroup;
    if rows != [] {
      var n := |rows| - 1;
      GroupLinesIn(db, asOf, rows[..n], g);
      assert GroupLines(db, asOf, rows)[..n] == GroupLines(db, asOf, rows[..n]);
      GroupLineIn(db, asOf, rows[n], g);
      assert rows == rows[..n] + [rows[n]];
    }
  }

  lemma LinesCarry(db: Db, asOf: Date, rows: seq<Group>, g: Group)
    requires OpeningRows(db, asOf, rows) && OnSheet(db, g)
    ensures SumSeq(GroupLines(db, asOf, rows), InGroup(g, Net)) == GroupNet(db, asOf, g)
    ensures SumSeq(GroupLines(db, asOf, rows), InGroup(g, Foreign)) == GroupForeign(db, asOf, g)
  {
    hide GroupNet, GroupForeign, GroupLines, OpeningGroup;
    GroupLinesIn(db, asOf, rows, g);
    OpensIffLeft(db, asOf, rows, g);
  }

  /** The opening move of a committed close carries the net and the foreign amount of every balance sheet group into the first period of
      the next year: as they were before the close, with the year's result added to retained earnings. */
  lemma OpeningCarriesBalances(h: Hashers, db: Db, y: Id, journal: Id, s: CloseSetup, actor: Id, closingId: Id, openingId: Id, now: nat,
                               resultRows: seq<Id>, openingRows: seq<Group>, closed: Db, after: Db, g: Group)
    requires y in db.years && s.successor in db.years && OnSheet(db, g)
    requires Lists(resultRows, ResultGroups(db, db.years[y].end))
    requires SystemMove(h, db, closingId, journal, s.closingPeriod, db.years[y].end, actor, now,
                        ClosingLines(db, db.years[y].end, s.retained, s.currency, resultRows)) == Ok(closed)
    requires OpeningRows(closed, db.years[y].end, openingRows) && openingRows != []
    requires WriteClose(h, db, y, journal, s, actor, closingId, openingId, now, resultRows, openingRows) == Ok(after)
    ensures IsPosted(after, openingId) && after.moves[openingId].period == s.openingPeriod
    ensures after.moves[openingId].date == db.years[s.successor].start
    ensures SumSeq(after.moves[openingId].lines, InGroup(g, Net)) == NetAfterClose(db, db.years[y].end, s.retained, s.currency, g)
    ensures SumSeq(after.moves[openingId].lines, InGroup(g, Foreign)) == GroupForeign(db, db.years[y].end, g)
  {
    hide SystemMove, ClosingLines, GroupNet, GroupForeign, OpeningRows, GroupLines, InGroup, SumSeq, Lists, NetAfterClose, ClosingPosted;
    var asOf := db.years[y].end;
    var closing := ClosingLines(db, asOf, s.retained, s.currency, resultRows);
    var lines := OpeningLines(closed, asOf, s.currency, openingRows).value;
    var finished := SystemMove(h, closed, openingId, journal, s.openingPeriod, db.years[s.successor].start, actor, now, lines).value;
    SystemMovePosted(h, db, closingId, journal, s.closingPeriod, asOf, actor, now, closing, closed);
    GroupAfterClose(db, closed, asOf, s.retained, s.currency, resultRows, g);
    LinesCarry(closed, asOf, openingRows, g);
    NotEmpty(closed, asOf, openingRows);
    SystemMoveRow(h, closed, openingId, journal, s.openingPeriod, db.years[s.successor].start, actor, now, lines, finished);
  }

  lemma NotEmpty(db: Db, asOf: Date, rows: seq<Group>)
    requires rows != []
    ensures GroupLines(db, asOf, rows) != []
  {
  }

  lemma SystemMoveRow(h: Hashers, db: Db, id: Id, journal: Id, period: Id, date: Date, actor: Id, now: nat, lines: seq<Line>, after: Db)
    requires SystemMove(h, db, id, journal, period, date, actor, now, lines) == Ok(after) && lines != []
    ensures IsPosted(after, id) && after.moves[id].period == period && after.moves[id].date == date && after.moves[id].lines == lines
  {
  }
}
