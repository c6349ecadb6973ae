/** The report queries as functions of the tables, and the exchange of a fold over accounts for a fold over moves. */
module ReportQueries {
  import opened Sums
  import opened Ledger
  import opened Tables
  import opened Invariants

  // Measures restricted to the date column of the lines.

  function UpTo(day: Date, v: Line -> int): Line -> int {
    (l: Line) => if l.date <= day then v(l) else 0
  }

  function Between(start: Date, end: Date, v: Line -> int): Line -> int {
    (l: Line) => if start <= l.date <= end then v(l) else 0
  }

  /** A sum over the lines of all posted moves. */
  ghost function PostedSum(db: Db, w: Line -> int): int {
    LedgerSum(db.moves, PostedIds(db), w)
  }

  datatype BalanceRow = BalanceRow(
    account: Id,
    initialDebit: Amount,
    initialCredit: Amount,
    periodDebit: Amount,
    periodCredit: Amount,
    endingDebit: Amount,
    endingCredit: Amount)

  function EndingDebit(r: BalanceRow): Amount { r.endingDebit }

  function EndingCredit(r: BalanceRow): Amount { r.endingCredit }

  function EndingNet(r: BalanceRow): Amount { r.endingDebit - r.endingCredit }

  function InitialNet(r: BalanceRow): Amount { r.initialDebit - r.initialCredit }

  function PeriodNet(r: BalanceRow): Amount { r.periodDebit - r.periodCredit }

  /** GetTrialBalanceData for one account */
  ghost function TrialRow(db: Db, from: Date, to: Date, a: Id): BalanceRow {
    var initialDebit, initialCredit := PostedSum(db, On(a, UpTo(from - 1, Debit))), PostedSum(db, On(a, UpTo(from - 1, Credit)));
    var periodDebit, periodCredit := PostedSum(db, On(a, Between(from, to, Debit))), PostedSum(db, On(a, Between(from, to, Credit)));
    BalanceRow(a, initialDebit, initialCredit, periodDebit, periodCredit, initialDebit + periodDebit, initialCredit + periodCredit)
  }

  function RowAccount(rows: seq<BalanceRow>, i: nat): Id
    requires i < |rows|
  {
    rows[i].account
  }

  function RowAccounts(rows: seq<BalanceRow>): seq<Id> {
    seq(|rows|, i requires 0 <= i < |rows| => RowAccount(rows, i))
  }

  /** GetTrialBalanceData: one row for every account, in some order. */
  ghost predicate TrialRows(db: Db, from: Date, to: Date, rows: seq<BalanceRow>) {
    && Lists(RowAccounts(rows), db.accounts.Keys)
    && forall i :: 0 <= i < |rows| ==> rows[i] == TrialRow(db, from, to, rows[i].account)
  }

  ghost predicate HasLineBy(db: Db, day: Date, a: Id) {
    exists m, i :: m in db.moves && 0 <= i < |db.moves[m].lines| && db.moves[m].lines[i].account == a && db.moves[m].lines[i].date <= day
  }

  ghost predicate HasPostedLineBy(db: Db, day: Date, a: Id) {
    exists m, i :: m in PostedIds(db) && 0 <= i < |db.moves[m].lines| && db.moves[m].lines[i].account == a && db.moves[m].lines[i].date <= day
  }

  /** The accounts that the as-of query returns: it loses those whose lines up to the day are all on drafts. */
  ghost function AsOfAccounts(db: Db, day: Date): set<Id> {
    set a | a in db.accounts && (!HasLineBy(db, day, a) || HasPostedLineBy(db, day, a))
  }

  ghost function AsOfRow(db: Db, day: Date, a: Id): BalanceRow {
    BalanceRow(a, 0, 0, 0, 0, PostedSum(db, On(a, UpTo(day, Debit))), PostedSum(db, On(a, UpTo(day, Credit))))
  }

  /** GetAccountBalancesAsOf */
  ghost predicate AsOfRows(db: Db, day: Date, rows: seq<BalanceRow>) {
    && Lists(RowAccounts(rows), AsOfAccounts(db, day))
    && forall i :: 0 <= i < |rows| ==> rows[i] == AsOfRow(db, day, rows[i].account)
  }

  // From accounts to moves.

  lemma PostedSumLinear(db: Db, f: Line -> int, g: Line -> int, h: Line -> int, k: int)
    requires forall l :: h(l) == f(l) + k * g(l)
    ensures PostedSum(db, h) == PostedSum(db, f) + k * PostedSum(db, g)
  {
    LedgerSumLinear(db.moves, PostedIds(db), f, g, h, k);
  }

  lemma PostedSumSame(db: Db, f: Line -> int, g: Line -> int)
    requires forall m, i :: m in PostedIds(db) && 0 <= i < |db.moves[m].lines| ==> f(db.moves[m].lines[i]) == g(db.moves[m].lines[i])
    ensures PostedSum(db, f) == PostedSum(db, g)
  {
    LedgerSumSame(db.moves, PostedIds(db), f, g);
  }

  lemma SplitAt(from: Date, to: Date, a: Id, v: Line -> int)
    requires from <= to
    ensures forall l :: On(a, UpTo(to, v))(l) == On(a, UpTo(from - 1, v))(l) + 1 * On(a, Between(from, to, v))(l)
  {
    forall l
      ensures On(a, UpTo(to, v))(l) == On(a, UpTo(from - 1, v))(l) + 1 * On(a, Between(from, to, v))(l)
    {
      if AccountOf(l) == a && l.date <= from - 1 {
        assert UpTo(to, v)(l) == v(l);
      }
    }
  }

  lemma NetOn(from: Date, to: Date, a: Id)
    ensures forall l :: On(a, Between(from, to, Net))(l) == On(a, Between(from, to, Debit))(l) + -1 * On(a, Between(from, to, Credit))(l)
    ensures forall l :: On(a, UpTo(to, Net))(l) == On(a, UpTo(to, Debit))(l) + -1 * On(a, UpTo(to, Credit))(l)
  {
    forall l
      ensures On(a, Between(from, to, Net))(l) == On(a, Between(from, to, Debit))(l) + -1 * On(a, Between(from, to, Credit))(l)
      ensures On(a, UpTo(to, Net))(l) == On(a, UpTo(to, Debit))(l) + -1 * On(a, UpTo(to, Credit))(l)
    {
      assert Net(l) == Debit(l) - Credit(l);
    }
  }

  lemma TrialRowNets(db: Db, from: Date, to: Date, a: Id)
    requires from <= to
    ensures PeriodNet(TrialRow(db, from, to, a)) == PostedSum(db, On(a, Between(from, to, Net)))
    ensures InitialNet(TrialRow(db, from, to, a)) == PostedSum(db, On(a, UpTo(from - 1, Net)))
    ensures EndingNet(TrialRow(db, from, to, a)) == PostedSum(db, On(a, UpTo(to, Net)))
    ensures TrialRow(db, from, to, a).endingDebit == PostedSum(db, On(a, UpTo(to, Debit)))
    ensures TrialRow(db, from, to, a).endingCredit == PostedSum(db, On(a, UpTo(to, Credit)))
  {
    hide PostedSum;
    NetOn(from, to, a);
    NetOn(from, from - 1, a);
    SplitAt(from, to, a, Debit);
    SplitAt(from, to, a, Credit);
    PostedSumLinear(db, On(a, Between(from, to, Debit)), On(a, Between(from, to, Credit)), On(a, Between(from, to, Net)), -1);
    PostedSumLinear(db, On(a, UpTo(from - 1, Debit)), On(a, UpTo(from - 1, Credit)), On(a, UpTo(from - 1, Net)), -1);
    PostedSumLinear(db, On(a, UpTo(from - 1, Debit)), On(a, Between(from, to, Debit)), On(a, UpTo(to, Debit)), 1);
    PostedSumLinear(db, On(a, UpTo(from - 1, Credit)), On(a, Between(from, to, Credit)), On(a, UpTo(to, Credit)), 1);
    PostedSumLinear(db, On(a, UpTo(to, Debit)), On(a, UpTo(to, Credit)), On(a, UpTo(to, Net)), -1);
  }

  /** Every account counts once. */
  function Plain(): Id -> int {
    (a: Id) => 1
  }

  lemma {:induction false} SumOverRows(rows: seq<BalanceRow>, f: BalanceRow -> int, g: Id -> int)
    requires forall i :: 0 <= i < |rows| ==> f(rows[i]) == g(rows[i].account)
    ensures SumSeq(rows, f) == SumSeq(RowAccounts(rows), g)
  {
    if rows != [] {
      var n := |rows| - 1;
      SumOverRows(rows[..n], f, g);
      assert RowAccounts(rows)[..n] == RowAccounts(rows[..n]);
    }
  }

  /** A weighted sum over rows is a weighted sum over the lines of the posted moves. */
  lemma RowsToMoves(db: Db, rows: seq<BalanceRow>, listed: set<Id>, f: BalanceRow -> int, weight: Id -> int, v: Line -> int)
    requires Lists(RowAccounts(rows), listed)
    requires forall i :: 0 <= i < |rows| ==> f(rows[i]) == weight(rows[i].account) * PostedSum(db, On(rows[i].account, v))
    ensures SumSeq(rows, f) == PostedSum(db, Weighted(AccountOf, listed, weight, v))
  {
    hide LedgerSum, SumSeq, SumSet, Lists, RowAccounts, PostedIds;
    var term := Term<Id>(db.moves, PostedIds(db), AccountOf, weight, v);
    forall i | 0 <= i < |rows|
      ensures f(rows[i]) == term(rows[i].account)
    {
    }
    SumOverRows(rows, f, term);
    SumListed(RowAccounts(rows), listed, term);
    Regroup<Id>(db.moves, PostedIds(db), AccountOf, listed, weight, v);
  }

  /** A fold over rows that takes a multiple of the net of each account is the same fold over posted lines. */
  lemma FigureOverLines(db: Db, from: Date, to: Date, rows: seq<BalanceRow>, f: BalanceRow -> int, weight: Id -> int, w: Line -> int)
    requires from <= to && TrialRows(db, from, to, rows)
    requires forall r: BalanceRow :: r.account in db.accounts ==> f(r) == weight(r.account) * PeriodNet(r)
    requires forall l: Line :: w(l) == if l.account in db.accounts then weight(l.account) * Between(from, to, Net)(l) else 0
    ensures SumSeq(rows, f) == PostedSum(db, w)
  {
    hide PostedSum, TrialRow, PeriodNet, Between;
    forall i | 0 <= i < |rows|
      ensures f(rows[i]) == weight(rows[i].account) * PostedSum(db, On(rows[i].account, Between(from, to, Net)))
    {
      TrialRowNets(db, from, to, rows[i].account);
      assert RowAccounts(rows)[i] in db.accounts.Keys;
    }
    RowsToMoves(db, rows, db.accounts.Keys, f, weight, Between(from, to, Net));
    var whole := Weighted(AccountOf, db.accounts.Keys, weight, Between(from, to, Net));
    forall l
      ensures whole(l) == w(l)
    {
      assert AccountOf(l) == l.account;
    }
    PostedSumSame(db, whole, w);
  }

  lemma BetweenNet(from: Date, to: Date, l: Line)
    ensures Between(from, to, Net)(l) == if from <= l.date <= to then l.debit - l.credit else 0
  {
    assert Net(l) == l.debit - l.credit;
  }

  /** Posted lines are on known accounts and carry the date of their balanced move. */
  lemma PostedLines(db: Db, m: Id)
    requires SoundMoves(db) && m in PostedIds(db)
    ensures Balanced(db.moves[m].lines)
    ensures forall i :: 0 <= i < |db.moves[m].lines| ==> db.moves[m].lines[i].date == db.moves[m].date && db.moves[m].lines[i].account in db.accounts
  {
    assert SoundMove(db, m);
  }

  lemma AllAccountsCovered(db: Db, weight: Id -> int, v: Line -> int, w: Line -> int)
    requires SoundMoves(db)
    requires forall l: Line :: l.account in db.accounts ==> w(l) == weight(l.account) * v(l)
    ensures PostedSum(db, Weighted(AccountOf, db.accounts.Keys, weight, v)) == PostedSum(db, w)
  {
    forall m: Id, i: nat | m in PostedIds(db) && i < |db.moves[m].lines|
      ensures Weighted(AccountOf, db.accounts.Keys, weight, v)(db.moves[m].lines[i]) == w(db.moves[m].lines[i])
    {
      PostedLines(db, m);
    }
    PostedSumSame(db, Weighted(AccountOf, db.accounts.Keys, weight, v), w);
  }

  /** Up to any day the posted lines net to nothing: a move is wholly in or wholly out. */
  lemma NetsToNothing(db: Db, day: Date)
    requires SoundMoves(db)
    ensures PostedSum(db, UpTo(day, Net)) == 0
  {
    forall m | m in PostedIds(db)
      ensures MoveSum(db.moves, UpTo(day, Net))(m) == 0
    {
      PostedLines(db, m);
      if db.moves[m].date <= day {
        SumSeqSame(db.moves[m].lines, UpTo(day, Net), Net);
      } else {
        SumSeqZero(db.moves[m].lines, UpTo(day, Net));
      }
    }
    SumSetZero(PostedIds(db), MoveSum(db.moves, UpTo(day, Net)));
  }

  /** An account the as-of query leaves out has a zero balance. */
  lemma LeftOutIsZero(db: Db, day: Date, a: Id, v: Line -> int)
    requires a in db.accounts && a !in AsOfAccounts(db, day)
    ensures PostedSum(db, On(a, UpTo(day, v))) == 0
  {
    forall m | m in PostedIds(db)
      ensures MoveSum(db.moves, On(a, UpTo(day, v)))(m) == 0
    {
      SumSeqZero(db.moves[m].lines, On(a, UpTo(day, v)));
    }
    SumSetZero(PostedIds(db), MoveSum(db.moves, On(a, UpTo(day, v))));
  }

  lemma AsOfCoversAll(db: Db, day: Date, weight: Id -> int, v: Line -> int)
    ensures PostedSum(db, Weighted(AccountOf, AsOfAccounts(db, day), weight, UpTo(day, v)))
            == PostedSum(db, Weighted(AccountOf, db.accounts.Keys, weight, UpTo(day, v)))
  {
    hide AsOfAccounts;
    var listed := AsOfAccounts(db, day) * db.accounts.Keys;
    var rest := db.accounts.Keys - listed;
    var term := Term<Id>(db.moves, PostedIds(db), AccountOf, weight, UpTo(day, v));
    forall a | a in rest
      ensures term(a) == 0
    {
      LeftOutIsZero(db, day, a, v);
    }
    SumSetZero(rest, term);
    SumSetUnion(listed, rest, term);
    AsOfAccountsKnown(db, day);
    assert listed == AsOfAccounts(db, day) && listed + rest == db.accounts.Keys;
    Regroup<Id>(db.moves, PostedIds(db), AccountOf, AsOfAccounts(db, day), weight, UpTo(day, v));
    Regroup<Id>(db.moves, PostedIds(db), AccountOf, db.accounts.Keys, weight, UpTo(day, v));
  }

  lemma AsOfAccountsKnown(db: Db, day: Date)
    ensures AsOfAccounts(db, day) <= db.accounts.Keys
  {
  }
}
