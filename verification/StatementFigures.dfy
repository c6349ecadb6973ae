/** The lists and totals of the income statement and the balance sheet, one by one: over rows and over the posted lines. */
module StatementFigures {
  import opened Sums
  import opened Ledger
  import opened Tables
  import opened ReportQueries
  import opened Statements

  // Lists.

  predicate IsOfKind(accounts: map<Id, Account>, row: BalanceRow, kind: AccountType) {
    row.account in accounts && accounts[row.account].kind == kind
  }

  /** The places in rows that a list was made from, in order: exactly those of one kind. */
  ghost predicate Picks(accounts: map<Id, Account>, rows: seq<BalanceRow>, kind: AccountType, at: seq<nat>) {
    AllOfKind(accounts, rows, kind, at) && Increasing(at) && NoneLeft(accounts, rows, kind, at)
  }

  ghost predicate AllOfKind(accounts: map<Id, Account>, rows: seq<BalanceRow>, kind: AccountType, at: seq<nat>) {
    forall k :: 0 <= k < |at| ==> at[k] < |rows| && IsOfKind(accounts, rows[at[k]], kind)
  }

  ghost predicate Increasing(at: seq<nat>) {
    forall j, k :: 0 <= j < k < |at| ==> at[j] < at[k]
  }

  ghost predicate NoneLeft(accounts: map<Id, Account>, rows: seq<BalanceRow>, kind: AccountType, at: seq<nat>) {
    forall i: nat :: i < |rows| && IsOfKind(accounts, rows[i], kind) ==> i in at
  }

  lemma OfKindNext(accounts: map<Id, Account>, rows: seq<BalanceRow>, kind: AccountType, before: seq<nat>)
    requires rows != [] && AllOfKind(accounts, rows[..|rows| - 1], kind, before)
    ensures AllOfKind(accounts, rows, kind, before)
    ensures IsOfKind(accounts, rows[|rows| - 1], kind) ==> AllOfKind(accounts, rows, kind, before + [|rows| - 1])
  {
    hide IsOfKind;
  }

  lemma IncreasingNext(accounts: map<Id, Account>, rows: seq<BalanceRow>, kind: AccountType, before: seq<nat>)
    requires rows != [] && AllOfKind(accounts, rows[..|rows| - 1], kind, before) && Increasing(before)
    ensures Increasing(before + [|rows| - 1])
  {
    hide IsOfKind;
  }

  lemma NoneLeftNext(accounts: map<Id, Account>, rows: seq<BalanceRow>, kind: AccountType, before: seq<nat>)
    requires rows != [] && NoneLeft(accounts, rows[..|rows| - 1], kind, before)
    ensures NoneLeft(accounts, rows, kind, if IsOfKind(accounts, rows[|rows| - 1], kind) then before + [|rows| - 1] else before)
  {
    hide IsOfKind;
    var n := |rows| - 1;
    forall i: nat | i < n && IsOfKind(accounts, rows[i], kind)
      ensures i in before
    {
      assert rows[..n][i] == rows[i];
    }
  }

  lemma PicksNext(accounts: map<Id, Account>, rows: seq<BalanceRow>, kind: AccountType, before: seq<nat>)
    requires rows != [] && Picks(accounts, rows[..|rows| - 1], kind, before)
    ensures Picks(accounts, rows, kind, if IsOfKind(accounts, rows[|rows| - 1], kind) then before + [|rows| - 1] else before)
  {
    hide AllOfKind, Increasing, NoneLeft, IsOfKind;
    OfKindNext(accounts, rows, kind, before);
    IncreasingNext(accounts, rows, kind, before);
    NoneLeftNext(accounts, rows, kind, before);
  }

  ghost predicate ListedAt(rows: seq<BalanceRow>, lines: seq<StatementLine>, at: seq<nat>, amount: BalanceRow -> Amount) {
    |lines| == |at| && forall k :: 0 <= k < |at| ==> at[k] < |rows| && lines[k] == StatementLine(rows[at[k]].account, amount(rows[at[k]]))
  }

  lemma ListedNext(rows: seq<BalanceRow>, lines: seq<StatementLine>, before: seq<nat>, amount: BalanceRow -> Amount)
    requires rows != [] && ListedAt(rows[..|rows| - 1], lines, before, amount)
    ensures ListedAt(rows, lines, before, amount)
    ensures ListedAt(rows, lines + [StatementLine(rows[|rows| - 1].account, amount(rows[|rows| - 1]))], before + [|rows| - 1], amount)
  {
  }

  /** A statement lists exactly the rows of its kind, in their order, each with its amount. */
  lemma {:induction false} ListsItsKind(accounts: map<Id, Account>, rows: seq<BalanceRow>, kind: AccountType, amount: BalanceRow -> Amount)
    returns (at: seq<nat>)
    ensures Picks(accounts, rows, kind, at) && ListedAt(rows, Statement(accounts, rows, kind, amount), at, amount)
  {
    hide Picks, ListedAt;
    if rows == [] {
      at := [];
      NothingListed(accounts, kind, amount);
    } else {
      var n := |rows| - 1;
      var before := ListsItsKind(accounts, rows[..n], kind, amount);
      PicksNext(accounts, rows, kind, before);
      ListedNext(rows, Statement(accounts, rows[..n], kind, amount), before, amount);
      at := if IsOfKind(accounts, rows[n], kind) then before + [n] else before;
    }
  }

  lemma NothingListed(accounts: map<Id, Account>, kind: AccountType, amount: BalanceRow -> Amount)
    ensures Picks(accounts, [], kind, []) && ListedAt([], Statement(accounts, [], kind, amount), [], amount)
  {
  }

  // Totals.

  function OfKind(accounts: map<Id, Account>, kind: AccountType, amount: BalanceRow -> Amount): BalanceRow -> int {
    (r: BalanceRow) => if r.account in accounts && accounts[r.account].kind == kind then amount(r) else 0
  }

  lemma {:induction false} TotalOfKind(accounts: map<Id, Account>, rows: seq<BalanceRow>, kind: AccountType, amount: BalanceRow -> Amount)
    ensures SumSeq(Statement(accounts, rows, kind, amount), AmountOf) == SumSeq(rows, OfKind(accounts, kind, amount))
  {
    if rows != [] {
      var n := |rows| - 1;
      TotalOfKind(accounts, rows[..n], kind, amount);
      StatementGrows(accounts, rows, n, kind, amount);
      assert rows[..n + 1] == rows;
    }
  }

  /** What posted lines credit to the accounts of one kind over a range. */
  function CreditedTo(accounts: map<Id, Account>, kind: AccountType, from: Date, to: Date): Line -> int {
    (l: Line) => if l.account in accounts && accounts[l.account].kind == kind && from <= l.date <= to then l.credit - l.debit else 0
  }

  lemma CreditedOver(db: Db, from: Date, to: Date, rows: seq<BalanceRow>, kind: AccountType)
    requires from <= to && TrialRows(db, from, to, rows)
    ensures SumSeq(rows, OfKind(db.accounts, kind, PeriodCreditNet)) == PostedSum(db, CreditedTo(db.accounts, kind, from, to))
    ensures SumSeq(rows, OfKind(db.accounts, kind, PeriodNet)) == -PostedSum(db, CreditedTo(db.accounts, kind, from, to))
  {
    hide PostedSum, TrialRows;
    var accounts := db.accounts;
    var weight: Id -> int := (a: Id) => if a in accounts && accounts[a].kind == kind then -1 else 0;
    forall l: Line
      ensures CreditedTo(accounts, kind, from, to)(l) == if l.account in accounts then weight(l.account) * Between(from, to, Net)(l) else 0
    {
      BetweenNet(from, to, l);
    }
    forall r: BalanceRow | r.account in accounts
      ensures OfKind(accounts, kind, PeriodCreditNet)(r) == weight(r.account) * PeriodNet(r)
    {
      assert PeriodCreditNet(r) == -PeriodNet(r);
    }
    FigureOverLines(db, from, to, rows, OfKind(accounts, kind, PeriodCreditNet), weight, CreditedTo(accounts, kind, from, to));
    var zero := (r: BalanceRow) => 0;
    SumSeqZero(rows, zero);
    forall i | 0 <= i < |rows|
      ensures OfKind(accounts, kind, PeriodNet)(rows[i]) == zero(rows[i]) + -1 * OfKind(accounts, kind, PeriodCreditNet)(rows[i])
    {
      assert PeriodCreditNet(rows[i]) == -PeriodNet(rows[i]);
    }
    SumSeqLinear(rows, zero, OfKind(accounts, kind, PeriodCreditNet), OfKind(accounts, kind, PeriodNet), -1);
  }

  /** Total revenue is what the posted lines of the range credit to income accounts, total expenses what they debit to expense accounts. */
  lemma IncomeTotals(db: Db, from: Date, to: Date, rows: seq<BalanceRow>, s: IncomeStatement)
    requires from <= to && TrialRows(db, from, to, rows) && IncomeOf(db.accounts, rows, s)
    ensures s.totalRevenue == PostedSum(db, CreditedTo(db.accounts, Income, from, to))
    ensures s.totalExpenses == -PostedSum(db, CreditedTo(db.accounts, Expense, from, to))
  {
    hide PostedSum, TrialRows, SumSeq, Statement;
    TotalOfKind(db.accounts, rows, Income, PeriodCreditNet);
    TotalOfKind(db.accounts, rows, Expense, PeriodNet);
    CreditedOver(db, from, to, rows, Income);
    CreditedOver(db, from, to, rows, Expense);
  }

  /** What posted lines up to a day leave on the accounts of one kind, on the normal side of each. */
  function NormalOf(accounts: map<Id, Account>, kind: AccountType, day: Date): Line -> int {
    (l: Line) =>
      if l.account in accounts && accounts[l.account].kind == kind && l.date <= day
      then if accounts[l.account].normal == CreditNormal then l.credit - l.debit else l.debit - l.credit
      else 0
  }

  lemma NormalOver(db: Db, day: Date, rows: seq<BalanceRow>, kind: AccountType)
    requires AsOfRows(db, day, rows)
    ensures SumSeq(rows, OfKind(db.accounts, kind, NormalAmount(db.accounts))) == PostedSum(db, NormalOf(db.accounts, kind, day))
  {
    hide PostedSum, AsOfAccounts, AsOfRow, UpTo, SumSeq, EndingNet;
    var accounts, share := db.accounts, OfKind(db.accounts, kind, NormalAmount(db.accounts));
    var weight: Id -> int :=
      (a: Id) => if a in accounts && accounts[a].kind == kind then (if accounts[a].normal == CreditNormal then -1 else 1) else 0;
    RowsKnown(db, day, rows);
    forall i | 0 <= i < |rows|
      ensures share(rows[i]) == weight(rows[i].account) * PostedSum(db, On(rows[i].account, UpTo(day, Net)))
    {
      AsOfRowNet(db, day, rows[i].account);
      assert weight(rows[i].account) == 0 || weight(rows[i].account) == 1 || weight(rows[i].account) == -1;
    }
    RowsToMoves(db, rows, AsOfAccounts(db, day), share, weight, UpTo(day, Net));
    AsOfCoversAll(db, day, weight, Net);
    WholeIs(db, day, kind, weight);
    PostedSumSame(db, Weighted<Id>(AccountOf, accounts.Keys, weight, UpTo(day, Net)), NormalOf(accounts, kind, day));
  }

  lemma WholeIs(db: Db, day: Date, kind: AccountType, weight: Id -> int)
    requires forall a :: a in db.accounts ==>
               weight(a) == if db.accounts[a].kind == kind then (if db.accounts[a].normal == CreditNormal then -1 else 1) else 0
    ensures forall l :: Weighted<Id>(AccountOf, db.accounts.Keys, weight, UpTo(day, Net))(l) == NormalOf(db.accounts, kind, day)(l)
  {
    hide UpTo;
    forall l
      ensures Weighted<Id>(AccountOf, db.accounts.Keys, weight, UpTo(day, Net))(l) == NormalOf(db.accounts, kind, day)(l)
    {
      UpToNet(day, l);
      assert AccountOf(l) == l.account;
    }
  }

  lemma UpToNet(day: Date, l: Line)
    ensures UpTo(day, Net)(l) == if l.date <= day then l.debit - l.credit else 0
  {
    assert Net(l) == l.debit - l.credit;
  }

  /** Total assets, liabilities and equity are what the posted lines so far leave on these accounts, each on its normal side; equity on the
      sheet also takes the result shown. */
  lemma SheetTotals(db: Db, day: Date, rows: seq<BalanceRow>, s: BalanceSheet)
    requires AsOfRows(db, day, rows) && SheetOf(db.accounts, rows, s.(totalEquity := s.totalEquity - s.income))
    ensures s.totalAssets == PostedSum(db, NormalOf(db.accounts, Asset, day))
    ensures s.totalLiabilities == PostedSum(db, NormalOf(db.accounts, Liability, day))
    ensures s.totalEquity == PostedSum(db, NormalOf(db.accounts, Equity, day)) + s.income
  {
    hide PostedSum, AsOfRows, SumSeq, Statement, NormalOf;
    TotalOfKind(db.accounts, rows, Asset, NormalAmount(db.accounts));
    TotalOfKind(db.accounts, rows, Liability, NormalAmount(db.accounts));
    TotalOfKind(db.accounts, rows, Equity, NormalAmount(db.accounts));
    NormalOver(db, day, rows, Asset);
    NormalOver(db, day, rows, Liability);
    NormalOver(db, day, rows, Equity);
  }
}
