/** Trial balance, income statement and balance sheet: loops over query rows that agree with folds over the posted moves. */
module Statements {
  import opened Sums
  import opened Ledger
  import opened Tables
  import opened Invariants
  import opened ReportQueries

  // Trial balance.

  lemma NoRows(rows: seq<BalanceRow>)
    ensures SumSeq(rows[..0], EndingDebit) == 0 && SumSeq(rows[..0], EndingCredit) == 0
  {
  }

  /** GenerateTrialBalanceUseCase: whatever the range, the totals are all posted debits and credits up to its end. */
  method TrialBalance(ghost db: Db, from: Date, to: Date, rows: seq<BalanceRow>) returns (r: Result<(Amount, Amount)>)
    requires SoundMoves(db) && (from <= to ==> TrialRows(db, from, to, rows))
    ensures r.Err? <==> from > to
    ensures r.Ok? ==> r.value == (PostedSum(db, UpTo(to, Debit)), PostedSum(db, UpTo(to, Credit)))
    ensures r.Ok? ==> r.value.0 == r.value.1
  {
    hide SoundMoves, TrialRows, PostedSum, SumSeq;
    if from > to {
      return Err(InvalidRequest);
    }
    var totalDebit, totalCredit := 0, 0;
    NoRows(rows);
    for i := 0 to |rows|
      invariant totalDebit == SumSeq(rows[..i], EndingDebit)
      invariant totalCredit == SumSeq(rows[..i], EndingCredit)
    {
      SumSeqGrows(rows, i, EndingDebit);
      SumSeqGrows(rows, i, EndingCredit);
      totalDebit := totalDebit + rows[i].endingDebit;
      totalCredit := totalCredit + rows[i].endingCredit;
    }
    assert rows[..|rows|] == rows;
    TrialTotals(db, from, to, rows);
    return Ok((totalDebit, totalCredit));
  }

  lemma TrialTotals(db: Db, from: Date, to: Date, rows: seq<BalanceRow>)
    requires SoundMoves(db) && from <= to && TrialRows(db, from, to, rows)
    ensures SumSeq(rows, EndingDebit) == PostedSum(db, UpTo(to, Debit))
    ensures SumSeq(rows, EndingCredit) == PostedSum(db, UpTo(to, Credit))
    ensures SumSeq(rows, EndingDebit) == SumSeq(rows, EndingCredit)
  {
    hide PostedSum, SoundMoves, TrialRow;
    forall i | 0 <= i < |rows|
      ensures EndingDebit(rows[i]) == Plain()(rows[i].account) * PostedSum(db, On(rows[i].account, UpTo(to, Debit)))
      ensures EndingCredit(rows[i]) == Plain()(rows[i].account) * PostedSum(db, On(rows[i].account, UpTo(to, Credit)))
    {
      TrialRowNets(db, from, to, rows[i].account);
    }
    RowsToMoves(db, rows, db.accounts.Keys, EndingDebit, Plain(), UpTo(to, Debit));
    RowsToMoves(db, rows, db.accounts.Keys, EndingCredit, Plain(), UpTo(to, Credit));
    AllAccountsCovered(db, Plain(), UpTo(to, Debit), UpTo(to, Debit));
    AllAccountsCovered(db, Plain(), UpTo(to, Credit), UpTo(to, Credit));
    NetsToNothing(db, to);
    NetOfUpTo(to);
    PostedSumLinear(db, UpTo(to, Debit), UpTo(to, Credit), UpTo(to, Net), -1);
  }

  lemma NetOfUpTo(day: Date)
    ensures forall l :: UpTo(day, Net)(l) == UpTo(day, Debit)(l) + -1 * UpTo(day, Credit)(l)
  {
    forall l
      ensures UpTo(day, Net)(l) == UpTo(day, Debit)(l) + -1 * UpTo(day, Credit)(l)
    {
      assert Net(l) == Debit(l) - Credit(l);
    }
  }

  /** The balances at the end of one range are the balances before the next. */
  lemma RangesJoin(db: Db, from: Date, to: Date, later: Date, a: Id)
    requires from <= to
    ensures TrialRow(db, to + 1, later, a).initialDebit == TrialRow(db, from, to, a).endingDebit
    ensures TrialRow(db, to + 1, later, a).initialCredit == TrialRow(db, from, to, a).endingCredit
  {
    TrialRowNets(db, from, to, a);
  }

  // Income statement.

  datatype StatementLine = StatementLine(account: Id, amount: Amount)

  function AmountOf(l: StatementLine): Amount { l.amount }

  datatype IncomeStatement = IncomeStatement(
    revenue: seq<StatementLine>,
    expenses: seq<StatementLine>,
    totalRevenue: Amount,
    totalExpenses: Amount,
    netIncome: Amount)

  predicate KnownAccounts(accounts: map<Id, Account>, rows: seq<BalanceRow>) {
    forall i :: 0 <= i < |rows| ==> rows[i].account in accounts
  }

  /** Income and expense accounts count once. */
  function ResultWeight(accounts: map<Id, Account>): Id -> int {
    (a: Id) => if a in accounts && IsResult(accounts[a].kind) then 1 else 0
  }

  function IncomeShare(accounts: map<Id, Account>): BalanceRow -> int {
    (r: BalanceRow) => if r.account in accounts && IsResult(accounts[r.account].kind) then r.periodCredit - r.periodDebit else 0
  }

  function Statement(accounts: map<Id, Account>, rows: seq<BalanceRow>, kind: AccountType,
                     amount: BalanceRow -> Amount): seq<StatementLine> {
    if rows == [] then [] else
    var before, row := Statement(accounts, rows[..|rows| - 1], kind, amount), rows[|rows| - 1];
    if row.account in accounts && accounts[row.account].kind == kind then before + [StatementLine(row.account, amount(row))] else before
  }

  function PeriodCreditNet(r: BalanceRow): Amount { r.periodCredit - r.periodDebit }

  lemma StatementGrows(accounts: map<Id, Account>, rows: seq<BalanceRow>, i: nat, kind: AccountType, amount: BalanceRow -> Amount)
    requires i < |rows|
    ensures Statement(accounts, rows[..i + 1], kind, amount) ==
            if rows[i].account in accounts && accounts[rows[i].account].kind == kind
            then Statement(accounts, rows[..i], kind, amount) + [StatementLine(rows[i].account, amount(rows[i]))]
            else Statement(accounts, rows[..i], kind, amount)
    ensures SumSeq(Statement(accounts, rows[..i + 1], kind, amount), AmountOf) ==
            SumSeq(Statement(accounts, rows[..i], kind, amount), AmountOf)
            + if rows[i].account in accounts && accounts[rows[i].account].kind == kind then amount(rows[i]) else 0
  {
    assert rows[..i + 1][..i] == rows[..i];
    var before := Statement(accounts, rows[..i], kind, amount);
    var line := StatementLine(rows[i].account, amount(rows[i]));
    assert (before + [line])[..|before|] == before;
  }

  /** The statement of some rows, before net income is set. */
  ghost predicate IncomeOf(accounts: map<Id, Account>, rows: seq<BalanceRow>, s: IncomeStatement) {
    && s.revenue == Statement(accounts, rows, Income, PeriodCreditNet)
    && s.expenses == Statement(accounts, rows, Expense, PeriodNet)
    && s.totalRevenue == SumSeq(s.revenue, AmountOf) && s.totalExpenses == SumSeq(s.expenses, AmountOf)
    && s.totalRevenue - s.totalExpenses == SumSeq(rows, IncomeShare(accounts))
  }

  lemma KindShare(accounts: map<Id, Account>, r: BalanceRow)
    requires r.account in accounts
    ensures IncomeShare(accounts)(r) == if IsResult(accounts[r.account].kind) then r.periodCredit - r.periodDebit else 0
  {
  }

  /** One row of the loop, by the type of its account. */
  method AddToIncome(accounts: map<Id, Account>, rows: seq<BalanceRow>, i: nat, s: IncomeStatement) returns (t: IncomeStatement)
    requires i < |rows| && rows[i].account in accounts && IncomeOf(accounts, rows[..i], s)
    ensures IncomeOf(accounts, rows[..i + 1], t)
  {
    hide Statement, SumSeq, IncomeShare;
    var row := rows[i];
    StatementGrows(accounts, rows, i, Income, PeriodCreditNet);
    StatementGrows(accounts, rows, i, Expense, PeriodNet);
    SumSeqGrows(rows, i, IncomeShare(accounts));
    KindShare(accounts, row);
    match accounts[row.account].kind
    case Income =>
      var amount := row.periodCredit - row.periodDebit;
      t := s.(revenue := s.revenue + [StatementLine(row.account, amount)], totalRevenue := s.totalRevenue + amount);
    case Expense =>
      var amount := row.periodDebit - row.periodCredit;
      t := s.(expenses := s.expenses + [StatementLine(row.account, amount)], totalExpenses := s.totalExpenses + amount);
    case _ => t := s;
  }

  /** GenerateIncomeStatementUseCase */
  method MakeIncomeStatement(accounts: map<Id, Account>, rows: seq<BalanceRow>) returns (r: Result<IncomeStatement>)
    ensures r.Ok? <==> KnownAccounts(accounts, rows)
    ensures r.Ok? ==> IncomeOf(accounts, rows, r.value) && r.value.netIncome == SumSeq(rows, IncomeShare(accounts))
  {
    var s := IncomeStatement([], [], 0, 0, 0);
    assert rows[..0] == [];
    for i := 0 to |rows|
      invariant forall k :: 0 <= k < i ==> rows[k].account in accounts
      invariant IncomeOf(accounts, rows[..i], s)
    {
      if rows[i].account !in accounts {
        return Err(AccountNotFound);
      }
      s := AddToIncome(accounts, rows, i, s);
    }
    assert rows[..|rows|] == rows;
    return Ok(s.(netIncome := s.totalRevenue - s.totalExpenses));
  }

  ghost function NetIncome(db: Db, from: Date, to: Date): Amount {
    -PostedSum(db, Weighted(AccountOf, db.accounts.Keys, ResultWeight(db.accounts), Between(from, to, Net)))
  }

  /** The net income of the statement is what the posted lines on income and expense accounts credited over the period. */
  lemma NetIncomeIs(db: Db, from: Date, to: Date, rows: seq<BalanceRow>)
    requires from <= to && TrialRows(db, from, to, rows)
    ensures SumSeq(rows, IncomeShare(db.accounts)) == NetIncome(db, from, to)
  {
    hide PostedSum, TrialRow;
    var share, kinds := IncomeShare(db.accounts), ResultWeight(db.accounts);
    var minus: BalanceRow -> int := (r: BalanceRow) => -share(r);
    forall i | 0 <= i < |rows|
      ensures minus(rows[i]) == kinds(rows[i].account) * PostedSum(db, On(rows[i].account, Between(from, to, Net)))
    {
      TrialRowNets(db, from, to, rows[i].account);
      assert kinds(rows[i].account) == 0 || kinds(rows[i].account) == 1;
    }
    RowsToMoves(db, rows, db.accounts.Keys, minus, kinds, Between(from, to, Net));
    var zero: BalanceRow -> int := (r: BalanceRow) => 0;
    SumSeqLinear(rows, zero, share, minus, -1);
    SumSeqZero(rows, zero);
  }

  // Balance sheet.

  datatype BalanceSheet = BalanceSheet(
    assets: seq<StatementLine>,
    liabilities: seq<StatementLine>,
    equity: seq<StatementLine>,
    totalAssets: Amount,
    totalLiabilities: Amount,
    totalEquity: Amount,
    income: Amount,
    difference: Amount)

  /** The balance of a row on the normal side of its account. */
  function NormalAmount(accounts: map<Id, Account>): BalanceRow -> Amount {
    (r: BalanceRow) =>
      if r.account in accounts && accounts[r.account].normal == CreditNormal then -EndingNet(r) else EndingNet(r)
  }

  /** A credit-normal asset, or a debit-normal liability or equity account. */
  predicate IsContra(account: Account) {
    || (account.kind == Asset && account.normal == CreditNormal)
    || ((account.kind == Liability || account.kind == Equity) && account.normal == DebitNormal)
  }

  function ContraWeight(accounts: map<Id, Account>): Id -> int {
    (a: Id) => if a in accounts && IsContra(accounts[a]) then 1 else 0
  }

  function SheetWeight(accounts: map<Id, Account>): Id -> int {
    (a: Id) => if a in accounts && IsContra(accounts[a]) then -1 else 1
  }

  /** What a row adds to assets - liabilities - equity - income. */
  function SheetShare(accounts: map<Id, Account>): BalanceRow -> int {
    (r: BalanceRow) => if r.account in accounts && IsContra(accounts[r.account]) then -EndingNet(r) else EndingNet(r)
  }

  function IncomeToDate(accounts: map<Id, Account>): BalanceRow -> int {
    (r: BalanceRow) => if r.account in accounts && IsResult(accounts[r.account].kind) then -EndingNet(r) else 0
  }

  /** The sheet of some rows, before income is added to equity. */
  ghost predicate SheetOf(accounts: map<Id, Account>, rows: seq<BalanceRow>, s: BalanceSheet) {
    && s.assets == Statement(accounts, rows, Asset, NormalAmount(accounts))
    && s.liabilities == Statement(accounts, rows, Liability, NormalAmount(accounts))
    && s.equity == Statement(accounts, rows, Equity, NormalAmount(accounts))
    && s.totalAssets == SumSeq(s.assets, AmountOf)
    && s.totalLiabilities == SumSeq(s.liabilities, AmountOf)
    && s.totalEquity == SumSeq(s.equity, AmountOf)
    && s.income == SumSeq(rows, IncomeToDate(accounts))
    && s.totalAssets - s.totalLiabilities - s.totalEquity - s.income == SumSeq(rows, SheetShare(accounts))
  }

  lemma SheetRow(accounts: map<Id, Account>, r: BalanceRow)
    requires r.account in accounts
    ensures NormalAmount(accounts)(r) == if accounts[r.account].normal == CreditNormal then -EndingNet(r) else EndingNet(r)
    ensures IncomeToDate(accounts)(r) == if IsResult(accounts[r.account].kind) then -EndingNet(r) else 0
    ensures SheetShare(accounts)(r) == if IsContra(accounts[r.account]) then -EndingNet(r) else EndingNet(r)
  {
  }

  /** One row of the loop, by the type of its account. */
  method AddToSheet(accounts: map<Id, Account>, rows: seq<BalanceRow>, i: nat, s: BalanceSheet) returns (t: BalanceSheet)
    requires i < |rows| && rows[i].account in accounts && SheetOf(accounts, rows[..i], s)
    ensures SheetOf(accounts, rows[..i + 1], t)
  {
    hide Statement, SumSeq, NormalAmount, SheetShare, IncomeToDate;
    var row := rows[i];
    var account := accounts[row.account];
    StatementGrows(accounts, rows, i, Asset, NormalAmount(accounts));
    StatementGrows(accounts, rows, i, Liability, NormalAmount(accounts));
    StatementGrows(accounts, rows, i, Equity, NormalAmount(accounts));
    SumSeqGrows(rows, i, SheetShare(accounts));
    SumSeqGrows(rows, i, IncomeToDate(accounts));
    SheetRow(accounts, row);
    t := s;
    match account.kind
    case Income => t := s.(income := s.income + (row.endingCredit - row.endingDebit));
    case Expense => t := s.(income := s.income - (row.endingDebit - row.endingCredit));
    case _ =>
      var amount := row.endingDebit - row.endingCredit;
      if account.normal == CreditNormal {
        amount := -amount;
      }
      var line := StatementLine(row.account, amount);
      match account.kind {
        case Asset => t := s.(assets := s.assets + [line], totalAssets := s.totalAssets + amount);
        case Liability => t := s.(liabilities := s.liabilities + [line], totalLiabilities := s.totalLiabilities + amount);
        case Equity => t := s.(equity := s.equity + [line], totalEquity := s.totalEquity + amount);
        case _ =>
      }
  }

  /** GenerateBalanceSheetUseCase */
  method MakeBalanceSheet(accounts: map<Id, Account>, rows: seq<BalanceRow>) returns (r: Result<BalanceSheet>)
    ensures r.Ok? <==> KnownAccounts(accounts, rows)
    ensures r.Ok? ==> SheetOf(accounts, rows, r.value.(totalEquity := r.value.totalEquity - r.value.income))
    ensures r.Ok? ==> r.value.difference == r.value.totalAssets - r.value.totalLiabilities - r.value.totalEquity
    ensures r.Ok? ==> r.value.difference == SumSeq(rows, SheetShare(accounts))
  {
    var s := BalanceSheet([], [], [], 0, 0, 0, 0, 0);
    assert rows[..0] == [];
    for i := 0 to |rows|
      invariant forall k :: 0 <= k < i ==> rows[k].account in accounts
      invariant SheetOf(accounts, rows[..i], s)
    {
      if rows[i].account !in accounts {
        return Err(AccountNotFound);
      }
      s := AddToSheet(accounts, rows, i, s);
    }
    assert rows[..|rows|] == rows;
    var totalEquity := s.totalEquity + s.income;
    return Ok(s.(totalEquity := totalEquity, difference := s.totalAssets - s.totalLiabilities - totalEquity));
  }

  ghost function ContraNet(db: Db, day: Date): Amount {
    PostedSum(db, Weighted(AccountOf, db.accounts.Keys, ContraWeight(db.accounts), UpTo(day, Net)))
  }

  lemma SheetWeights(db: Db, day: Date)
    ensures PostedSum(db, Weighted(AccountOf, db.accounts.Keys, SheetWeight(db.accounts), UpTo(day, Net)))
            == PostedSum(db, Weighted(AccountOf, db.accounts.Keys, Plain(), UpTo(day, Net))) - 2 * ContraNet(db, day)
  {
    hide PostedSum;
    var all, v := db.accounts.Keys, UpTo(day, Net);
    forall l
      ensures Weighted(AccountOf, all, SheetWeight(db.accounts), v)(l) ==
              Weighted(AccountOf, all, Plain(), v)(l) + -2 * Weighted(AccountOf, all, ContraWeight(db.accounts), v)(l)
    {
      hide UpTo;
      var a := AccountOf(l);
      assert SheetWeight(db.accounts)(a) == if ContraWeight(db.accounts)(a) == 1 then -1 else 1;
    }
    PostedSumLinear(db, Weighted(AccountOf, all, Plain(), v), Weighted(AccountOf, all, ContraWeight(db.accounts), v),
                    Weighted(AccountOf, all, SheetWeight(db.accounts), v), -2);
  }

  lemma SheetRows(db: Db, day: Date, rows: seq<BalanceRow>)
    requires AsOfRows(db, day, rows)
    ensures SumSeq(rows, SheetShare(db.accounts))
            == PostedSum(db, Weighted(AccountOf, AsOfAccounts(db, day), SheetWeight(db.accounts), UpTo(day, Net)))
  {
    hide PostedSum, AsOfAccounts;
    var weight := SheetWeight(db.accounts);
    RowsKnown(db, day, rows);
    forall i | 0 <= i < |rows|
      ensures SheetShare(db.accounts)(rows[i]) == weight(rows[i].account) * PostedSum(db, On(rows[i].account, UpTo(day, Net)))
    {
      AsOfRowNet(db, day, rows[i].account);
      assert weight(rows[i].account) == 1 || weight(rows[i].account) == -1;
    }
    RowsToMoves(db, rows, AsOfAccounts(db, day), SheetShare(db.accounts), weight, UpTo(day, Net));
  }

  /** For every ledger of balanced posted moves, a balance sheet is off by minus twice the net of the contra accounts. */
  lemma SheetDifference(db: Db, day: Date, rows: seq<BalanceRow>)
    requires SoundMoves(db) && AsOfRows(db, day, rows)
    ensures KnownAccounts(db.accounts, rows)
    ensures SumSeq(rows, SheetShare(db.accounts)) == -2 * ContraNet(db, day)
  {
    RowsKnown(db, day, rows);
    SheetRows(db, day, rows);
    AsOfCoversAll(db, day, SheetWeight(db.accounts), Net);
    SheetWeights(db, day);
    assert forall l: Line :: l.account in db.accounts ==> UpTo(day, Net)(l) == Plain()(l.account) * UpTo(day, Net)(l);
    hide PostedSum, SoundMoves, AsOfRows, Weighted, SumSeq;
    AllAccountsCovered(db, Plain(), UpTo(day, Net), UpTo(day, Net));
    NetsToNothing(db, day);
  }

  lemma RowsKnown(db: Db, day: Date, rows: seq<BalanceRow>)
    requires AsOfRows(db, day, rows)
    ensures KnownAccounts(db.accounts, rows)
  {
    forall i | 0 <= i < |rows|
      ensures rows[i].account in db.accounts
    {
      assert RowAccounts(rows)[i] in AsOfAccounts(db, day);
    }
  }

  lemma AsOfRowNet(db: Db, day: Date, a: Id)
    ensures EndingNet(AsOfRow(db, day, a)) == PostedSum(db, On(a, UpTo(day, Net)))
  {
    NetOn(day, day, a);
    PostedSumLinear(db, On(a, UpTo(day, Debit)), On(a, UpTo(day, Credit)), On(a, UpTo(day, Net)), -1);
  }

  /** Where normal balances match account types, every balance sheet balances. */
  lemma SheetBalances(db: Db, day: Date, rows: seq<BalanceRow>)
    requires SoundMoves(db) && AsOfRows(db, day, rows)
    requires forall a :: a in db.accounts ==> !IsContra(db.accounts[a])
    ensures SumSeq(rows, SheetShare(db.accounts)) == 0
  {
    SheetDifference(db, day, rows);
    hide SheetShare, SumSeq, SoundMoves, AsOfRows;
    forall m | m in PostedIds(db)
      ensures MoveSum(db.moves, Weighted(AccountOf, db.accounts.Keys, ContraWeight(db.accounts), UpTo(day, Net)))(m) == 0
    {
      NoContra(db, day, db.moves[m].lines);
    }
    SumSetZero(PostedIds(db), MoveSum(db.moves, Weighted(AccountOf, db.accounts.Keys, ContraWeight(db.accounts), UpTo(day, Net))));
  }

  lemma NoContra(db: Db, day: Date, lines: seq<Line>)
    requires forall a :: a in db.accounts ==> !IsContra(db.accounts[a])
    ensures SumSeq(lines, Weighted(AccountOf, db.accounts.Keys, ContraWeight(db.accounts), UpTo(day, Net))) == 0
  {
    SumSeqZero(lines, Weighted(AccountOf, db.accounts.Keys, ContraWeight(db.accounts), UpTo(day, Net)));
  }

  ghost function ResultToDate(db: Db, day: Date): Amount {
    -PostedSum(db, Weighted(AccountOf, db.accounts.Keys, ResultWeight(db.accounts), UpTo(day, Net)))
  }

  /** The result shown on a balance sheet is the result of all posted lines so far. */
  lemma SheetResult(db: Db, day: Date, rows: seq<BalanceRow>)
    requires AsOfRows(db, day, rows)
    ensures SumSeq(rows, IncomeToDate(db.accounts)) == ResultToDate(db, day)
  {
    hide PostedSum;
    var share, kinds := IncomeToDate(db.accounts), ResultWeight(db.accounts);
    var minus: BalanceRow -> int := (r: BalanceRow) => -share(r);
    forall i | 0 <= i < |rows|
      ensures minus(rows[i]) == kinds(rows[i].account) * PostedSum(db, On(rows[i].account, UpTo(day, Net)))
    {
      AsOfRowNet(db, day, rows[i].account);
    }
    RowsToMoves(db, rows, AsOfAccounts(db, day), minus, kinds, UpTo(day, Net));
    AsOfCoversAll(db, day, kinds, Net);
    var zero: BalanceRow -> int := (r: BalanceRow) => 0;
    SumSeqLinear(rows, zero, share, minus, -1);
    SumSeqZero(rows, zero);
  }

  /** The net income of a period is the growth of the result on the balance sheet over it. */
  lemma IncomeIsGrowthOfResult(db: Db, from: Date, to: Date)
    requires from <= to
    ensures NetIncome(db, from, to) == ResultToDate(db, to) - ResultToDate(db, from - 1)
  {
    hide PostedSum;
    var all, kinds := db.accounts.Keys, ResultWeight(db.accounts);
    forall l
      ensures Weighted(AccountOf, all, kinds, UpTo(to, Net))(l) ==
              Weighted(AccountOf, all, kinds, UpTo(from - 1, Net))(l) + 1 * Weighted(AccountOf, all, kinds, Between(from, to, Net))(l)
    {
      assert UpTo(to, Net)(l) == UpTo(from - 1, Net)(l) + Between(from, to, Net)(l);
    }
    PostedSumLinear(db, Weighted(AccountOf, all, kinds, UpTo(from - 1, Net)), Weighted(AccountOf, all, kinds, Between(from, to, Net)),
                    Weighted(AccountOf, all, kinds, UpTo(to, Net)), 1);
  }
}
