/** The indirect cash flow statement: its reconciliation difference as a sum over moves, and the moves that leave none. */
module CashFlow {
  import opened Sums
  import opened Ledger
  import opened Tables
  import opened Invariants
  import opened ReportQueries
  import opened Statements

  // The classified cash movements.

  predicate IsCash(accounts: map<Id, Account>, l: Line) {
    l.account in accounts && accounts[l.account].cashEquivalent
  }

  function CashNet(accounts: map<Id, Account>): Line -> int {
    (l: Line) => if IsCash(accounts, l) then Net(l) else 0
  }

  function CashOf(accounts: map<Id, Account>, lines: seq<Line>): Amount {
    SumSeq(lines, CashNet(accounts))
  }

  predicate IsClassified(activity: Activity) {
    activity == Operating || activity == Investing || activity == Financing
  }

  /** Line i is a counterpart of cash. */
  predicate IsCounterpart(accounts: map<Id, Account>, lines: seq<Line>, i: int) {
    0 <= i < |lines| && lines[i].account in accounts && !accounts[lines[i].account].cashEquivalent
  }

  /** The classified activities of the counterparts, each once. */
  ghost function Activities(accounts: map<Id, Account>, lines: seq<Line>): set<Activity> {
    set i | 0 <= i < |lines| && IsCounterpart(accounts, lines, i) && IsClassified(accounts[lines[i].account].activity) ::
      accounts[lines[i].account].activity
  }

  /** Some counterpart has no classified activity. */
  ghost predicate HasUnclassified(accounts: map<Id, Account>, lines: seq<Line>) {
    exists i :: IsCounterpart(accounts, lines, i) && !IsClassified(accounts[lines[i].account].activity)
  }

  datatype Movement = Movement(move: Id, amount: Amount, activities: seq<Activity>, hasUnclassified: bool)

  ghost function PostedBetween(db: Db, from: Date, to: Date): set<Id> {
    set m | m in db.moves && db.moves[m].state == Posted && from <= db.moves[m].date <= to
  }

  ghost function CashMoves(db: Db, from: Date, to: Date): set<Id> {
    set m | m in PostedBetween(db, from, to) && CashOf(db.accounts, db.moves[m].lines) != 0
  }

  function MovementMove(rows: seq<Movement>, i: nat): Id
    requires i < |rows|
  {
    rows[i].move
  }

  function MovementMoves(rows: seq<Movement>): seq<Id> {
    seq(|rows|, i requires 0 <= i < |rows| => MovementMove(rows, i))
  }

  ghost predicate IsMovement(db: Db, row: Movement) {
    && row.move in db.moves
    && row.amount == CashOf(db.accounts, db.moves[row.move].lines)
    && Lists(row.activities, Activities(db.accounts, db.moves[row.move].lines))
    && (row.hasUnclassified <==> HasUnclassified(db.accounts, db.moves[row.move].lines))
  }

  /** GetCashFlowMovements */
  ghost predicate MovementRows(db: Db, from: Date, to: Date, rows: seq<Movement>) {
    && Lists(MovementMoves(rows), CashMoves(db, from, to))
    && forall i :: 0 <= i < |rows| ==> IsMovement(db, rows[i])
  }

  // The statement.

  datatype CashFlowStatement = CashFlowStatement(
    netIncome: Amount,
    nonCash: Amount,
    workingCapital: Amount,
    operating: Amount,
    investing: Amount,
    financing: Amount,
    unclassified: Amount,
    netChange: Amount,
    difference: Amount)

  /** What a row takes from the difference and what it adds to it, on top of net income. */
  function IndirectWeight(a: Account): int {
    if a.cashEquivalent then 1
    else (if a.activity == Operating && (a.kind == Asset || a.kind == Liability) then 1 else 0)
         - (if a.nonCashAdjustment then 1 else 0)
  }

  function IndirectShare(accounts: map<Id, Account>): BalanceRow -> int {
    (r: BalanceRow) => if r.account in accounts then IndirectWeight(accounts[r.account]) * PeriodNet(r) else 0
  }

  predicate CountsAsUnclassified(row: Movement) {
    row.hasUnclassified || row.activities == []
  }

  /** The movements the loop cannot place. */
  predicate Misplaced(row: Movement) {
    row.amount != 0 && !CountsAsUnclassified(row) && (|row.activities| != 1 || !IsClassified(row.activities[0]))
  }

  function Placed(row: Movement): Amount {
    if CountsAsUnclassified(row) || row.activities[0] != Operating then row.amount else 0
  }

  predicate NoneMisplaced(rows: seq<Movement>) {
    forall i :: 0 <= i < |rows| ==> !Misplaced(rows[i])
  }

  // The six figures, each as a fold of its own.

  /** The amount, where cash moved against accounts of this one activity. */
  function Under(activity: Activity): Movement -> int {
    (row: Movement) => if !row.hasUnclassified && row.activities == [activity] then row.amount else 0
  }

  /** The amount, where cash moved against an account without an activity, or against no account. */
  function WithoutActivity(row: Movement): Amount {
    if row.hasUnclassified || row.activities == [] then row.amount else 0
  }

  function CashShare(accounts: map<Id, Account>): BalanceRow -> int {
    (r: BalanceRow) => if r.account in accounts && accounts[r.account].cashEquivalent then r.periodDebit - r.periodCredit else 0
  }

  function NonCashShare(accounts: map<Id, Account>): BalanceRow -> int {
    (r: BalanceRow) =>
      if r.account in accounts && !accounts[r.account].cashEquivalent && accounts[r.account].nonCashAdjustment
      then r.periodDebit - r.periodCredit else 0
  }

  /** The decrease of operating assets and the increase of operating liabilities, other than cash. */
  function WorkingShare(accounts: map<Id, Account>): BalanceRow -> int {
    (r: BalanceRow) =>
      if r.account in accounts && !accounts[r.account].cashEquivalent && accounts[r.account].activity == Operating
         && (accounts[r.account].kind == Asset || accounts[r.account].kind == Liability)
      then r.periodCredit - r.periodDebit else 0
  }

  /** The first loop: cash, non-cash adjustments and working capital by account. */
  method IndirectParts(accounts: map<Id, Account>, rows: seq<BalanceRow>)
    returns (ok: bool, netChange: Amount, nonCash: Amount, workingCapital: Amount)
    ensures ok <==> KnownAccounts(accounts, rows)
    ensures ok ==> netChange == SumSeq(rows, CashShare(accounts)) && nonCash == SumSeq(rows, NonCashShare(accounts))
    ensures ok ==> workingCapital == SumSeq(rows, WorkingShare(accounts))
    ensures ok ==> netChange - nonCash - workingCapital == SumSeq(rows, IndirectShare(accounts))
  {
    netChange, nonCash, workingCapital := 0, 0, 0;
    for i := 0 to |rows|
      invariant forall k :: 0 <= k < i ==> rows[k].account in accounts
      invariant netChange == SumSeq(rows[..i], CashShare(accounts)) && nonCash == SumSeq(rows[..i], NonCashShare(accounts))
      invariant workingCapital == SumSeq(rows[..i], WorkingShare(accounts))
      invariant netChange - nonCash - workingCapital == SumSeq(rows[..i], IndirectShare(accounts))
    {
      var row := rows[i];
      if row.account !in accounts {
        return false, 0, 0, 0;
      }
      SumSeqGrows(rows, i, CashShare(accounts));
      SumSeqGrows(rows, i, NonCashShare(accounts));
      SumSeqGrows(rows, i, WorkingShare(accounts));
      SumSeqGrows(rows, i, IndirectShare(accounts));
      IndirectRow(accounts, row);
      var account, periodNet := accounts[row.account], row.periodDebit - row.periodCredit;
      if account.cashEquivalent {
        netChange := netChange + periodNet;
        continue;
      }
      if account.nonCashAdjustment {
        nonCash := nonCash + periodNet;
      }
      if account.activity != Operating {
        continue;
      }
      match account.kind
      case Asset => workingCapital := workingCapital - periodNet;
      case Liability => workingCapital := workingCapital + -periodNet;
      case _ =>
    }
    assert rows[..|rows|] == rows;
    ok := true;
  }

  lemma IndirectRow(accounts: map<Id, Account>, r: BalanceRow)
    requires r.account in accounts
    ensures var a := accounts[r.account];
            IndirectShare(accounts)(r) ==
            if a.cashEquivalent then PeriodNet(r)
            else (if a.activity == Operating && (a.kind == Asset || a.kind == Liability) then PeriodNet(r) else 0)
                 - (if a.nonCashAdjustment then PeriodNet(r) else 0)
  {
  }

  /** The second loop: cash movements by the activity of their counterparts. */
  method PlaceMovements(movements: seq<Movement>) returns (ok: bool, investing: Amount, financing: Amount, unclassified: Amount)
    ensures ok <==> NoneMisplaced(movements)
    ensures ok ==> investing == SumSeq(movements, Under(Investing)) && financing == SumSeq(movements, Under(Financing))
    ensures ok ==> unclassified == SumSeq(movements, WithoutActivity)
    ensures ok ==> investing + financing + unclassified == SumSeq(movements, Placed)
  {
    investing, financing, unclassified := 0, 0, 0;
    for i := 0 to |movements|
      invariant forall k :: 0 <= k < i ==> !Misplaced(movements[k])
      invariant investing == SumSeq(movements[..i], Under(Investing)) && financing == SumSeq(movements[..i], Under(Financing))
      invariant unclassified == SumSeq(movements[..i], WithoutActivity)
    {
      var row := movements[i];
      SumSeqGrows(movements, i, Under(Investing));
      SumSeqGrows(movements, i, Under(Financing));
      SumSeqGrows(movements, i, WithoutActivity);
      if row.amount == 0 {
        continue;
      }
      if row.hasUnclassified || |row.activities| == 0 {
        unclassified := unclassified + row.amount;
        continue;
      }
      if |row.activities| != 1 {
        assert Misplaced(row);
        return false, 0, 0, 0;
      }
      match row.activities[0]
      case Operating =>
      case Investing => investing := investing + row.amount;
      case Financing => financing := financing + row.amount;
      case _ =>
        assert Misplaced(row);
        return false, 0, 0, 0;
    }
    assert movements[..|movements|] == movements;
    PlacedSplits(movements);
    ok := true;
  }

  lemma {:induction false} PlacedSplits(rows: seq<Movement>)
    requires NoneMisplaced(rows)
    ensures SumSeq(rows, Placed) == SumSeq(rows, Under(Investing)) + SumSeq(rows, Under(Financing)) + SumSeq(rows, WithoutActivity)
  {
    if rows != [] {
      PlacedSplits(rows[..|rows| - 1]);
      assert !Misplaced(rows[|rows| - 1]);
    }
  }

  /** GenerateCashFlowUseCase, after the income statement. */
  method MakeCashFlow(accounts: map<Id, Account>, rows: seq<BalanceRow>, netIncome: Amount, movements: seq<Movement>)
    returns (r: Result<CashFlowStatement>)
    ensures r.Ok? <==> KnownAccounts(accounts, rows) && NoneMisplaced(movements)
    ensures r.Ok? ==> var s := r.value;
      && s.netIncome == netIncome
      && s.operating == netIncome + s.nonCash + s.workingCapital
      && s.difference == s.netChange - (s.operating + s.investing + s.financing + s.unclassified)
      && s.difference == SumSeq(rows, IndirectShare(accounts)) - netIncome - SumSeq(movements, Placed)
    ensures r.Ok? ==> var s := r.value;
      && s.netChange == SumSeq(rows, CashShare(accounts)) && s.nonCash == SumSeq(rows, NonCashShare(accounts))
      && s.workingCapital == SumSeq(rows, WorkingShare(accounts))
      && s.investing == SumSeq(movements, Under(Investing)) && s.financing == SumSeq(movements, Under(Financing))
      && s.unclassified == SumSeq(movements, WithoutActivity)
  {
    var known, netChange, nonCash, workingCapital := IndirectParts(accounts, rows);
    if !known {
      return Err(AccountNotFound);
    }
    var operating := netIncome + nonCash + workingCapital;
    var placed, investing, financing, unclassified := PlaceMovements(movements);
    if !placed {
      return Err(InvalidRequest);
    }
    var calculated := operating + investing + financing + unclassified;
    return Ok(CashFlowStatement(netIncome, nonCash, workingCapital, operating, investing, financing, unclassified, netChange,
                                netChange - calculated));
  }

  // The difference, move by move.

  /** What one unit on an account adds to the difference, net income included. */
  function Weight(a: Account): int {
    IndirectWeight(a) + if IsResult(a.kind) then 1 else 0
  }

  function WeightOf(accounts: map<Id, Account>): Id -> int {
    (a: Id) => if a in accounts then Weight(accounts[a]) else 0
  }

  function WeightedNet(accounts: map<Id, Account>): Line -> int {
    (l: Line) => WeightOf(accounts)(l.account) * Net(l)
  }

  /** The cash of the move is shown outside operating cash flow. */
  ghost predicate Counted(accounts: map<Id, Account>, lines: seq<Line>) {
    HasUnclassified(accounts, lines) || Operating !in Activities(accounts, lines)
  }

  ghost function Shown(accounts: map<Id, Account>, lines: seq<Line>): Amount {
    if Counted(accounts, lines) then CashOf(accounts, lines) else 0
  }

  /** What one move adds to the reconciliation difference. */
  ghost function Residual(accounts: map<Id, Account>, lines: seq<Line>): Amount {
    SumSeq(lines, WeightedNet(accounts)) - Shown(accounts, lines)
  }

  ghost function Residuals(db: Db): Id -> int {
    (m: Id) => if m in db.moves then Residual(db.accounts, db.moves[m].lines) else 0
  }

  ghost function Showns(db: Db): Id -> int {
    (m: Id) => if m in db.moves then Shown(db.accounts, db.moves[m].lines) else 0
  }

  lemma PlacedIsShown(db: Db, row: Movement)
    requires IsMovement(db, row) && row.amount != 0 && !Misplaced(row)
    ensures Placed(row) == Shown(db.accounts, db.moves[row.move].lines)
  {
    var lines := db.moves[row.move].lines;
    if !CountsAsUnclassified(row) {
      assert row.activities == [row.activities[0]];
      assert Operating in Activities(db.accounts, lines) <==> Operating in row.activities;
    } else if row.activities == [] {
      assert Operating !in row.activities;
    }
  }

  lemma {:induction false} SumOverMovements(rows: seq<Movement>, f: Movement -> int, g: Id -> int)
    requires forall i :: 0 <= i < |rows| ==> f(rows[i]) == g(rows[i].move)
    ensures SumSeq(rows, f) == SumSeq(MovementMoves(rows), g)
  {
    if rows != [] {
      var n := |rows| - 1;
      SumOverMovements(rows[..n], f, g);
      assert MovementMoves(rows)[..n] == MovementMoves(rows[..n]);
    }
  }

  lemma MovementsTotal(db: Db, from: Date, to: Date, rows: seq<Movement>)
    requires MovementRows(db, from, to, rows) && NoneMisplaced(rows)
    ensures SumSeq(rows, Placed) == SumSet(PostedBetween(db, from, to), Showns(db))
  {
    hide CashOf, Activities, HasUnclassified;
    var cash := CashMoves(db, from, to);
    var rest := PostedBetween(db, from, to) - cash;
    forall i | 0 <= i < |rows|
      ensures Placed(rows[i]) == Showns(db)(rows[i].move)
    {
      assert MovementMoves(rows)[i] in cash;
      PlacedIsShown(db, rows[i]);
    }
    SumOverMovements(rows, Placed, Showns(db));
    SumListed(MovementMoves(rows), cash, Showns(db));
    SumSetZero(rest, Showns(db));
    SumSetUnion(cash, rest, Showns(db));
    assert cash + rest == PostedBetween(db, from, to);
  }

  ghost function PeriodWeights(db: Db): Id -> int {
    (m: Id) => if m in db.moves then SumSeq(db.moves[m].lines, WeightedNet(db.accounts)) else 0
  }

  function WeightedBetween(db: Db, from: Date, to: Date): Line -> int {
    (l: Line) => if l.account in db.accounts && from <= l.date <= to then WeightedNet(db.accounts)(l) else 0
  }

  lemma WeightedBetweenIs(db: Db, from: Date, to: Date)
    ensures PostedSum(db, Weighted(AccountOf, db.accounts.Keys, WeightOf(db.accounts), Between(from, to, Net)))
            == PostedSum(db, WeightedBetween(db, from, to))
  {
    hide PostedSum;
    var w := Weighted(AccountOf, db.accounts.Keys, WeightOf(db.accounts), Between(from, to, Net));
    forall l
      ensures w(l) == WeightedBetween(db, from, to)(l)
    {
      assert AccountOf(l) == l.account;
      if l.account in db.accounts {
        assert w(l) == WeightOf(db.accounts)(l.account) * Between(from, to, Net)(l);
        if from <= l.date <= to {
          BetweenAt(db, from, to, l);
          assert WeightedNet(db.accounts)(l) == WeightOf(db.accounts)(l.account) * Net(l);
        } else {
          assert Between(from, to, Net)(l) == 0;
        }
      } else {
        assert w(l) == 0;
      }
    }
    PostedSumSame(db, w, WeightedBetween(db, from, to));
  }

  lemma BetweenAt(db: Db, from: Date, to: Date, l: Line)
    requires l.account in db.accounts
    ensures WeightedBetween(db, from, to)(l) == if from <= l.date <= to then WeightedNet(db.accounts)(l) else 0
  {
  }

  /** Moves outside the range have no lines in it; moves inside have all of theirs. */
  lemma WeightsByMove(db: Db, from: Date, to: Date)
    requires SoundMoves(db)
    ensures PostedSum(db, Weighted(AccountOf, db.accounts.Keys, WeightOf(db.accounts), Between(from, to, Net)))
            == SumSet(PostedBetween(db, from, to), PeriodWeights(db))
  {
    WeightedBetweenIs(db, from, to);
    hide Weighted, WeightedNet, WeightedBetween, SoundMoves;
    var w := WeightedBetween(db, from, to);
    var inside := PostedBetween(db, from, to);
    var outside := PostedIds(db) - inside;
    forall m | m in inside
      ensures MoveSum(db.moves, w)(m) == PeriodWeights(db)(m)
    {
      PostedLines(db, m);
      forall i | 0 <= i < |db.moves[m].lines|
        ensures w(db.moves[m].lines[i]) == WeightedNet(db.accounts)(db.moves[m].lines[i])
      {
        BetweenAt(db, from, to, db.moves[m].lines[i]);
      }
      SumSeqSame(db.moves[m].lines, w, WeightedNet(db.accounts));
    }
    forall m | m in outside
      ensures MoveSum(db.moves, w)(m) == 0
    {
      PostedLines(db, m);
      forall i | 0 <= i < |db.moves[m].lines|
        ensures w(db.moves[m].lines[i]) == 0
      {
        BetweenAt(db, from, to, db.moves[m].lines[i]);
      }
      SumSeqZero(db.moves[m].lines, w);
    }
    SumSetSame(inside, MoveSum(db.moves, w), PeriodWeights(db));
    SumSetZero(outside, MoveSum(db.moves, w));
    SumSetUnion(inside, outside, MoveSum(db.moves, w));
    assert inside + outside == PostedIds(db);
  }

  lemma SplitWeights(db: Db, from: Date, to: Date)
    ensures PostedSum(db, Weighted(AccountOf, db.accounts.Keys, WeightOf(db.accounts), Between(from, to, Net)))
            == PostedSum(db, Weighted(AccountOf, db.accounts.Keys, IndirectOf(db.accounts), Between(from, to, Net)))
               + PostedSum(db, Weighted(AccountOf, db.accounts.Keys, ResultWeight(db.accounts), Between(from, to, Net)))
  {
    hide PostedSum, Weighted, WeightOf, IndirectOf, ResultWeight, Between;
    var all, whole, indirect, result := db.accounts.Keys, WeightOf(db.accounts), IndirectOf(db.accounts), ResultWeight(db.accounts);
    var v := Between(from, to, Net);
    forall l
      ensures Weighted(AccountOf, all, whole, v)(l) == Weighted(AccountOf, all, indirect, v)(l) + 1 * Weighted(AccountOf, all, result, v)(l)
    {
      WeightSplits(db.accounts, AccountOf(l));
      WeightedSplits(all, whole, indirect, result, v, l);
    }
    PostedSumLinear(db, Weighted(AccountOf, all, indirect, v), Weighted(AccountOf, all, result, v), Weighted(AccountOf, all, whole, v), 1);
  }

  lemma WeightedSplits(keys: set<Id>, whole: Id -> int, indirect: Id -> int, result: Id -> int, v: Line -> int, l: Line)
    requires whole(AccountOf(l)) == indirect(AccountOf(l)) + result(AccountOf(l))
    ensures Weighted(AccountOf, keys, whole, v)(l) == Weighted(AccountOf, keys, indirect, v)(l) + Weighted(AccountOf, keys, result, v)(l)
  {
    Distribute(v(l), indirect(AccountOf(l)), result(AccountOf(l)));
  }

  lemma WeightSplits(accounts: map<Id, Account>, a: Id)
    ensures WeightOf(accounts)(a) == IndirectOf(accounts)(a) + ResultWeight(accounts)(a)
  {
  }

  lemma IndirectTotal(db: Db, from: Date, to: Date, rows: seq<BalanceRow>)
    requires from <= to && TrialRows(db, from, to, rows)
    ensures SumSeq(rows, IndirectShare(db.accounts)) - NetIncome(db, from, to)
            == PostedSum(db, Weighted(AccountOf, db.accounts.Keys, WeightOf(db.accounts), Between(from, to, Net)))
  {
    hide PostedSum, TrialRow, IndirectWeight, PeriodNet;
    forall i | 0 <= i < |rows|
      ensures IndirectShare(db.accounts)(rows[i])
              == IndirectOf(db.accounts)(rows[i].account) * PostedSum(db, On(rows[i].account, Between(from, to, Net)))
    {
      TrialRowNets(db, from, to, rows[i].account);
      assert RowAccounts(rows)[i] in db.accounts.Keys;
    }
    RowsToMoves(db, rows, db.accounts.Keys, IndirectShare(db.accounts), IndirectOf(db.accounts), Between(from, to, Net));
    SplitWeights(db, from, to);
  }

  function IndirectOf(accounts: map<Id, Account>): Id -> int {
    (a: Id) => if a in accounts then IndirectWeight(accounts[a]) else 0
  }

  /** For every ledger, the reconciliation difference is the sum of the residuals of the posted moves of the period. */
  lemma DifferenceIsResiduals(db: Db, from: Date, to: Date, rows: seq<BalanceRow>, movements: seq<Movement>)
    requires SoundMoves(db) && from <= to
    requires TrialRows(db, from, to, rows) && MovementRows(db, from, to, movements) && NoneMisplaced(movements)
    ensures SumSeq(rows, IndirectShare(db.accounts)) - NetIncome(db, from, to) - SumSeq(movements, Placed)
            == SumSet(PostedBetween(db, from, to), Residuals(db))
  {
    hide PostedSum, SoundMoves, TrialRows, MovementRows, NetIncome;
    IndirectTotal(db, from, to, rows);
    WeightsByMove(db, from, to);
    MovementsTotal(db, from, to, movements);
    SumSetLinear(PostedBetween(db, from, to), PeriodWeights(db), Showns(db), Residuals(db), -1);
  }

  /** Classified counterparts of several activities and no unclassified one. */
  ghost predicate IsMixed(db: Db, m: Id) {
    && m in db.moves && !HasUnclassified(db.accounts, db.moves[m].lines)
    && |Activities(db.accounts, db.moves[m].lines)| >= 2
  }

  ghost predicate SomeMixed(db: Db, from: Date, to: Date) {
    exists m :: m in CashMoves(db, from, to) && IsMixed(db, m)
  }

  /** The statement cannot be made exactly when a move with a cash movement is mixed. */
  lemma FailsOnMixedActivities(db: Db, from: Date, to: Date, movements: seq<Movement>)
    requires MovementRows(db, from, to, movements)
    ensures !NoneMisplaced(movements) <==> SomeMixed(db, from, to)
  {
    hide CashOf, Activities, HasUnclassified;
    forall i | 0 <= i < |movements|
      ensures movements[i].move in CashMoves(db, from, to)
      ensures Misplaced(movements[i]) <==> IsMixed(db, movements[i].move)
    {
      assert MovementMoves(movements)[i] in CashMoves(db, from, to);
      MisplacedIf(db, movements[i]);
    }
    forall m | m in CashMoves(db, from, to)
      ensures exists i :: 0 <= i < |movements| && movements[i].move == m
    {
      assert m in MovementMoves(movements);
      var i :| 0 <= i < |movements| && MovementMoves(movements)[i] == m;
    }
  }

  lemma MisplacedIf(db: Db, row: Movement)
    requires IsMovement(db, row) && row.amount != 0
    ensures Misplaced(row) <==> IsMixed(db, row.move)
  {
    var activities := Activities(db.accounts, db.moves[row.move].lines);
    ListedCount(row.activities, activities);
    if row.activities != [] {
      assert row.activities[0] in activities;
    }
  }

  // Moves without a residual.

  /** The weight that lets a line cancel: 1 on cash; elsewhere 1 for operating moves and 0 for moves shown apart. */
  ghost function Target(accounts: map<Id, Account>, lines: seq<Line>, l: Line): int {
    if IsCash(accounts, l) || !Counted(accounts, lines) then 1 else 0
  }

  ghost function Excess(accounts: map<Id, Account>, lines: seq<Line>): Line -> int {
    (l: Line) => (WeightOf(accounts)(l.account) - Target(accounts, lines, l)) * Net(l)
  }

  ghost function TargetNet(accounts: map<Id, Account>, lines: seq<Line>): Line -> int {
    (l: Line) => Target(accounts, lines, l) * Net(l)
  }

  lemma TargetTotal(accounts: map<Id, Account>, lines: seq<Line>)
    requires SumSeq(lines, Net) == 0
    ensures SumSeq(lines, TargetNet(accounts, lines)) == Shown(accounts, lines)
  {
    hide Counted;
    if Counted(accounts, lines) {
      SumSeqSame(lines, TargetNet(accounts, lines), CashNet(accounts));
    } else {
      SumSeqSame(lines, TargetNet(accounts, lines), Net);
    }
  }

  /** The residual of a balanced move is what its lines weigh beyond their targets. */
  lemma ResidualIsExcess(accounts: map<Id, Account>, lines: seq<Line>)
    requires SumSeq(lines, Net) == 0
    ensures Residual(accounts, lines) == SumSeq(lines, Excess(accounts, lines))
  {
    hide Counted, Target, WeightOf, Shown;
    TargetTotal(accounts, lines);
    forall i | 0 <= i < |lines|
      ensures Excess(accounts, lines)(lines[i]) == WeightedNet(accounts)(lines[i]) + -1 * TargetNet(accounts, lines)(lines[i])
    {
      Distribute(Net(lines[i]), WeightOf(accounts)(lines[i].account), -Target(accounts, lines, lines[i]));
    }
    SumSeqLinear(lines, WeightedNet(accounts), TargetNet(accounts, lines), Excess(accounts, lines), -1);
  }

  /** A cash account that is no income or expense account, or a counterpart that weighs as much as its move asks for. */
  ghost predicate OnTarget(accounts: map<Id, Account>, lines: seq<Line>, l: Line) {
    l.account in accounts && Weight(accounts[l.account]) == Target(accounts, lines, l)
  }

  lemma ExcessAt(accounts: map<Id, Account>, lines: seq<Line>, l: Line)
    requires l.account in accounts
    ensures OnTarget(accounts, lines, l) ==> Excess(accounts, lines)(l) == 0
    ensures !OnTarget(accounts, lines, l) ==> (Excess(accounts, lines)(l) == 0 <==> Net(l) == 0)
  {
    hide Target, Weight;
    assert WeightOf(accounts)(l.account) == Weight(accounts[l.account]);
    var gap := Weight(accounts[l.account]) - Target(accounts, lines, l);
    assert Excess(accounts, lines)(l) == gap * Net(l);
    if gap != 0 {
      NonZeroProduct(gap, Net(l));
    }
  }

  lemma OnTargetNoResidual(accounts: map<Id, Account>, lines: seq<Line>)
    requires SumSeq(lines, Net) == 0
    requires forall i :: 0 <= i < |lines| ==> OnTarget(accounts, lines, lines[i])
    ensures Residual(accounts, lines) == 0
  {
    ResidualIsExcess(accounts, lines);
    forall i | 0 <= i < |lines|
      ensures Excess(accounts, lines)(lines[i]) == 0
    {
      ExcessAt(accounts, lines, lines[i]);
    }
    hide Excess, Residual, OnTarget;
    SumSeqZero(lines, Excess(accounts, lines));
  }

  /** If one line is off its target the move has a residual exactly when that line has a net. */
  lemma OneLineOffTarget(accounts: map<Id, Account>, lines: seq<Line>, k: nat)
    requires SumSeq(lines, Net) == 0 && k < |lines| && lines[k].account in accounts && !OnTarget(accounts, lines, lines[k])
    requires forall i :: 0 <= i < |lines| && i != k ==> OnTarget(accounts, lines, lines[i])
    ensures Residual(accounts, lines) == 0 <==> Net(lines[k]) == 0
  {
    ResidualIsExcess(accounts, lines);
    var excess := Excess(accounts, lines);
    forall i | 0 <= i < |lines|
      ensures i != k ==> excess(lines[i]) == 0
      ensures i == k ==> (excess(lines[i]) == 0 <==> Net(lines[k]) == 0)
    {
      assert i != k ==> OnTarget(accounts, lines, lines[i]);
      ExcessAt(accounts, lines, lines[i]);
    }
    hide Excess, Residual, OnTarget;
    OneTerm(lines, excess, k);
  }

  lemma {:induction false} OneTerm(lines: seq<Line>, f: Line -> int, k: nat)
    requires k < |lines| && forall i :: 0 <= i < |lines| && i != k ==> f(lines[i]) == 0
    ensures SumSeq(lines, f) == f(lines[k])
  {
    var n := |lines| - 1;
    if k == n {
      SumSeqZero(lines[..n], f);
    } else {
      OneTerm(lines[..n], f, k);
    }
  }

  lemma NonZeroProduct(a: int, b: int)
    requires a != 0
    ensures a * b == 0 <==> b == 0
  {
  }

  // The shapes of moves that IAS 7 has in mind.

  predicate OnSheet(a: Account) { !IsResult(a.kind) }

  datatype Shape = OperatingShape | InvestingShape | FinancingShape | UnclassifiedShape | NonCashShape

  predicate Fits(a: Account, shape: Shape) {
    if a.cashEquivalent then OnSheet(a) && shape != NonCashShape else
    match shape
    case OperatingShape => a.activity == Operating && !a.nonCashAdjustment && a.kind != Equity
    case InvestingShape => a.activity == Investing && !a.nonCashAdjustment && OnSheet(a)
    case FinancingShape => a.activity == Financing && !a.nonCashAdjustment && OnSheet(a)
    case UnclassifiedShape => !IsClassified(a.activity) && !a.nonCashAdjustment && OnSheet(a)
    case NonCashShape => if a.nonCashAdjustment then IsResult(a.kind) else OnSheet(a) && a.activity != Operating
  }

  ghost predicate OfShape(accounts: map<Id, Account>, lines: seq<Line>, shape: Shape) {
    forall i :: 0 <= i < |lines| ==> lines[i].account in accounts && Fits(accounts[lines[i].account], shape)
  }

  lemma ShapeCounted(accounts: map<Id, Account>, lines: seq<Line>, shape: Shape, i: nat)
    requires OfShape(accounts, lines, shape) && i < |lines| && !accounts[lines[i].account].cashEquivalent
    ensures shape == OperatingShape ==> !Counted(accounts, lines)
    ensures shape == InvestingShape || shape == FinancingShape || shape == UnclassifiedShape ==> Counted(accounts, lines)
  {
    assert IsCounterpart(accounts, lines, i);
    if shape == OperatingShape {
      assert accounts[lines[i].account].activity in Activities(accounts, lines);
    }
  }

  /** A balanced move of one shape leaves no residual. */
  lemma ShapesReconcile(accounts: map<Id, Account>, lines: seq<Line>, shape: Shape)
    requires SumSeq(lines, Net) == 0 && OfShape(accounts, lines, shape)
    ensures Residual(accounts, lines) == 0
  {
    hide Counted;
    if shape == NonCashShape {
      forall i | 0 <= i < |lines|
        ensures WeightedNet(accounts)(lines[i]) == 0
      {
        assert WeightOf(accounts)(lines[i].account) == 0;
      }
      SumSeqZero(lines, WeightedNet(accounts));
      SumSeqZero(lines, CashNet(accounts));
    } else {
      forall i | 0 <= i < |lines|
        ensures OnTarget(accounts, lines, lines[i])
      {
        if !accounts[lines[i].account].cashEquivalent {
          ShapeCounted(accounts, lines, shape, i);
        }
      }
      OnTargetNoResidual(accounts, lines);
    }
  }

  ghost predicate HasShape(accounts: map<Id, Account>, lines: seq<Line>) {
    exists shape :: OfShape(accounts, lines, shape)
  }

  ghost predicate AllShaped(db: Db, from: Date, to: Date) {
    forall m :: m in PostedBetween(db, from, to) ==> HasShape(db.accounts, db.moves[m].lines)
  }

  /** The counterparts of one shape have one activity, or none. */
  lemma ShapeNotMixed(db: Db, m: Id, shape: Shape)
    requires m in db.moves && OfShape(db.accounts, db.moves[m].lines, shape) && shape != NonCashShape
    ensures !IsMixed(db, m)
  {
    var activities := Activities(db.accounts, db.moves[m].lines);
    var only := match shape case OperatingShape => Operating case InvestingShape => Investing case _ => Financing;
    forall activity | activity in activities
      ensures activity == only
    {
      var i :| 0 <= i < |db.moves[m].lines| && IsCounterpart(db.accounts, db.moves[m].lines, i)
        && db.accounts[db.moves[m].lines[i].account].activity == activity;
      assert Fits(db.accounts[db.moves[m].lines[i].account], shape);
    }
    assert activities <= {only};
    if |activities| >= 2 {
      SubsetSize(activities, {only});
    }
  }

  lemma SubsetSize<T>(a: set<T>, b: set<T>)
    requires a <= b
    ensures |a| <= |b|
  {
    assert b == a + (b - a);
  }

  lemma NonCashMovesNone(accounts: map<Id, Account>, lines: seq<Line>)
    requires OfShape(accounts, lines, NonCashShape)
    ensures CashOf(accounts, lines) == 0
  {
    SumSeqZero(lines, CashNet(accounts));
  }

  lemma ShapesPlaced(db: Db, from: Date, to: Date, movements: seq<Movement>)
    requires MovementRows(db, from, to, movements) && AllShaped(db, from, to)
    ensures NoneMisplaced(movements)
  {
    FailsOnMixedActivities(db, from, to, movements);
    hide IsMixed, CashOf, NoneMisplaced;
    forall m | m in CashMoves(db, from, to)
      ensures !IsMixed(db, m)
    {
      var shape :| OfShape(db.accounts, db.moves[m].lines, shape);
      if shape == NonCashShape {
        NonCashMovesNone(db.accounts, db.moves[m].lines);
      } else {
        ShapeNotMixed(db, m, shape);
      }
    }
  }

  /** If every posted move of the period has one of the shapes, every movement has a place and the statement reconciles. */
  lemma CashFlowReconciles(db: Db, from: Date, to: Date, rows: seq<BalanceRow>, movements: seq<Movement>)
    requires SoundMoves(db) && from <= to
    requires TrialRows(db, from, to, rows) && MovementRows(db, from, to, movements) && AllShaped(db, from, to)
    ensures NoneMisplaced(movements)
    ensures SumSeq(rows, IndirectShare(db.accounts)) - NetIncome(db, from, to) - SumSeq(movements, Placed) == 0
  {
    ShapesPlaced(db, from, to, movements);
    DifferenceIsResiduals(db, from, to, rows, movements);
    hide SumSeq, NetIncome, TrialRows, MovementRows, NoneMisplaced;
    forall m | m in PostedBetween(db, from, to)
      ensures Residuals(db)(m) == 0
    {
      assert SoundMove(db, m);
      var shape :| OfShape(db.accounts, db.moves[m].lines, shape);
      ShapesReconcile(db.accounts, db.moves[m].lines, shape);
    }
    SumSetZero(PostedBetween(db, from, to), Residuals(db));
  }

  // The six figures over the posted moves of the period.

  /** The move has lines off cash, and all of their accounts have this one activity. */
  ghost predicate OnlyUnder(accounts: map<Id, Account>, lines: seq<Line>, activity: Activity) {
    && (exists i :: 0 <= i < |lines| && lines[i].account in accounts && !accounts[lines[i].account].cashEquivalent)
    && (forall i :: 0 <= i < |lines| && lines[i].account in accounts && !accounts[lines[i].account].cashEquivalent ==>
          accounts[lines[i].account].activity == activity)
  }

  /** The move has a line off cash on an account without an activity, or no line off cash. */
  ghost predicate UnderNone(accounts: map<Id, Account>, lines: seq<Line>) {
    || (exists i :: 0 <= i < |lines| && lines[i].account in accounts && !accounts[lines[i].account].cashEquivalent
          && (accounts[lines[i].account].activity == NoActivity || accounts[lines[i].account].activity == Unclassified))
    || (forall i :: 0 <= i < |lines| && lines[i].account in accounts ==> accounts[lines[i].account].cashEquivalent)
  }

  lemma OnlyUnderIs(accounts: map<Id, Account>, lines: seq<Line>, activity: Activity)
    requires activity == Operating || activity == Investing || activity == Financing
    ensures OnlyUnder(accounts, lines, activity) <==> !HasUnclassified(accounts, lines) && Activities(accounts, lines) == {activity}
  {
    var activities := Activities(accounts, lines);
    if OnlyUnder(accounts, lines, activity) {
      var i :| 0 <= i < |lines| && lines[i].account in accounts && !accounts[lines[i].account].cashEquivalent;
      assert IsCounterpart(accounts, lines, i);
      assert activity in activities;
    }
    if activities == {activity} {
      assert activity in activities;
      forall i | IsCounterpart(accounts, lines, i) && IsClassified(accounts[lines[i].account].activity)
        ensures accounts[lines[i].account].activity == activity
      {
        assert accounts[lines[i].account].activity in activities;
      }
      forall i | 0 <= i < |lines| && lines[i].account in accounts && !accounts[lines[i].account].cashEquivalent
        ensures IsCounterpart(accounts, lines, i)
      {
      }
    }
  }

  lemma UnderNoneIs(accounts: map<Id, Account>, lines: seq<Line>)
    ensures UnderNone(accounts, lines) <==> HasUnclassified(accounts, lines) || Activities(accounts, lines) == {}
  {
    forall i | 0 <= i < |lines| && lines[i].account in accounts && !accounts[lines[i].account].cashEquivalent
      ensures IsCounterpart(accounts, lines, i)
      ensures IsClassified(accounts[lines[i].account].activity) ==> accounts[lines[i].account].activity in Activities(accounts, lines)
    {
    }
  }

  /** The cash of a move whose counterparts all have this one activity. */
  ghost function CashUnder(db: Db, activity: Activity): Id -> int {
    (m: Id) => if m in db.moves && OnlyUnder(db.accounts, db.moves[m].lines, activity) then CashOf(db.accounts, db.moves[m].lines) else 0
  }

  /** The cash of a move with a counterpart that has no activity, or with no counterpart. */
  ghost function CashWithout(db: Db): Id -> int {
    (m: Id) => if m in db.moves && UnderNone(db.accounts, db.moves[m].lines) then CashOf(db.accounts, db.moves[m].lines) else 0
  }

  lemma MovementFigures(db: Db, row: Movement, activity: Activity)
    requires IsMovement(db, row) && (activity == Investing || activity == Financing)
    ensures Under(activity)(row) == CashUnder(db, activity)(row.move)
    ensures WithoutActivity(row) == CashWithout(db)(row.move)
  {
    hide CashOf, HasUnclassified, OnlyUnder, UnderNone;
    OnlyUnderIs(db.accounts, db.moves[row.move].lines, activity);
    UnderNoneIs(db.accounts, db.moves[row.move].lines);
    var activities := Activities(db.accounts, db.moves[row.move].lines);
    hide Activities;
    ListedCount(row.activities, activities);
    if row.activities == [activity] {
      assert activities == {activity} by {
        assert forall a :: a in activities ==> a in row.activities;
        assert activity in row.activities;
      }
    } else {
      assert |row.activities| == 1 ==> row.activities[0] in activities;
    }
  }

  /** A sum over the listed movements is a sum over all posted moves of the period, as moves without cash add nothing. */
  lemma FigureOverMoves(db: Db, from: Date, to: Date, rows: seq<Movement>, f: Movement -> int, g: Id -> int)
    requires MovementRows(db, from, to, rows)
    requires forall i :: 0 <= i < |rows| ==> f(rows[i]) == g(rows[i].move)
    requires forall m :: m in PostedBetween(db, from, to) && CashOf(db.accounts, db.moves[m].lines) == 0 ==> g(m) == 0
    ensures SumSeq(rows, f) == SumSet(PostedBetween(db, from, to), g)
  {
    hide CashOf, IsMovement;
    var cash := CashMoves(db, from, to);
    var rest := PostedBetween(db, from, to) - cash;
    SumOverMovements(rows, f, g);
    SumListed(MovementMoves(rows), cash, g);
    SumSetZero(rest, g);
    SumSetUnion(cash, rest, g);
    assert cash + rest == PostedBetween(db, from, to);
  }

  lemma DirectFigures(db: Db, from: Date, to: Date, rows: seq<Movement>, activity: Activity)
    requires MovementRows(db, from, to, rows) && (activity == Investing || activity == Financing)
    ensures SumSeq(rows, Under(activity)) == SumSet(PostedBetween(db, from, to), CashUnder(db, activity))
    ensures SumSeq(rows, WithoutActivity) == SumSet(PostedBetween(db, from, to), CashWithout(db))
  {
    forall i | 0 <= i < |rows|
      ensures Under(activity)(rows[i]) == CashUnder(db, activity)(rows[i].move)
      ensures WithoutActivity(rows[i]) == CashWithout(db)(rows[i].move)
    {
      MovementFigures(db, rows[i], activity);
    }
    hide Activities, HasUnclassified, CashOf, Under, OnlyUnder, UnderNone;
    FigureOverMoves(db, from, to, rows, Under(activity), CashUnder(db, activity));
    FigureOverMoves(db, from, to, rows, WithoutActivity, CashWithout(db));
  }

  function CashLine(db: Db, from: Date, to: Date): Line -> int {
    (l: Line) =>
      if l.account in db.accounts && from <= l.date <= to && db.accounts[l.account].cashEquivalent then l.debit - l.credit else 0
  }

  function NonCashLine(db: Db, from: Date, to: Date): Line -> int {
    (l: Line) =>
      if l.account in db.accounts && from <= l.date <= to && !db.accounts[l.account].cashEquivalent && db.accounts[l.account].nonCashAdjustment
      then l.debit - l.credit else 0
  }

  function WorkingLine(db: Db, from: Date, to: Date): Line -> int {
    (l: Line) =>
      if l.account in db.accounts && from <= l.date <= to && !db.accounts[l.account].cashEquivalent
         && db.accounts[l.account].activity == Operating && (db.accounts[l.account].kind == Asset || db.accounts[l.account].kind == Liability)
      then l.credit - l.debit else 0
  }

  lemma CashFigure(db: Db, from: Date, to: Date, rows: seq<BalanceRow>)
    requires from <= to && TrialRows(db, from, to, rows)
    ensures SumSeq(rows, CashShare(db.accounts)) == PostedSum(db, CashLine(db, from, to))
  {
    hide PostedSum, TrialRows, SumSeq;
    var weight := (a: Id) => if a in db.accounts && db.accounts[a].cashEquivalent then 1 else 0;
    forall l: Line
      ensures CashLine(db, from, to)(l) == if l.account in db.accounts then weight(l.account) * Between(from, to, Net)(l) else 0
    {
      BetweenNet(from, to, l);
    }
    FigureOverLines(db, from, to, rows, CashShare(db.accounts), weight, CashLine(db, from, to));
  }

  lemma NonCashFigure(db: Db, from: Date, to: Date, rows: seq<BalanceRow>)
    requires from <= to && TrialRows(db, from, to, rows)
    ensures SumSeq(rows, NonCashShare(db.accounts)) == PostedSum(db, NonCashLine(db, from, to))
  {
    hide PostedSum, TrialRows, SumSeq;
    var weight := (a: Id) => if a in db.accounts && !db.accounts[a].cashEquivalent && db.accounts[a].nonCashAdjustment then 1 else 0;
    forall l: Line
      ensures NonCashLine(db, from, to)(l) == if l.account in db.accounts then weight(l.account) * Between(from, to, Net)(l) else 0
    {
      BetweenNet(from, to, l);
    }
    FigureOverLines(db, from, to, rows, NonCashShare(db.accounts), weight, NonCashLine(db, from, to));
  }

  lemma WorkingFigure(db: Db, from: Date, to: Date, rows: seq<BalanceRow>)
    requires from <= to && TrialRows(db, from, to, rows)
    ensures SumSeq(rows, WorkingShare(db.accounts)) == PostedSum(db, WorkingLine(db, from, to))
  {
    hide PostedSum, TrialRows, SumSeq;
    var weight := (a: Id) =>
      if a in db.accounts && !db.accounts[a].cashEquivalent && db.accounts[a].activity == Operating
         && (db.accounts[a].kind == Asset || db.accounts[a].kind == Liability) then -1 else 0;
    forall l: Line
      ensures WorkingLine(db, from, to)(l) == if l.account in db.accounts then weight(l.account) * Between(from, to, Net)(l) else 0
    {
      BetweenNet(from, to, l);
    }
    FigureOverLines(db, from, to, rows, WorkingShare(db.accounts), weight, WorkingLine(db, from, to));
  }

  lemma TrialAccountsKnown(db: Db, from: Date, to: Date, rows: seq<BalanceRow>)
    requires TrialRows(db, from, to, rows)
    ensures KnownAccounts(db.accounts, rows)
  {
    forall i | 0 <= i < |rows|
      ensures rows[i].account in db.accounts
    {
      assert RowAccounts(rows)[i] in db.accounts.Keys;
    }
  }

  /** GenerateCashFlowUseCase with its income statement, on the answers of its queries. It fails exactly on a bad range or a mixed cash
      move. Otherwise the difference it returns is the sum of the residuals of the posted moves of the period, and it is zero
      whenever these all have a shape. */
  method GenerateCashFlow(db: Db, from: Date, to: Date, rows: seq<BalanceRow>, incomeRows: seq<BalanceRow>, movements: seq<Movement>)
    returns (r: Result<CashFlowStatement>)
    requires SoundMoves(db) && TrialRows(db, from, to, rows) && TrialRows(db, from, to, incomeRows) && MovementRows(db, from, to, movements)
    ensures r.Ok? <==> from <= to && !SomeMixed(db, from, to)
    ensures r.Ok? ==> r.value.netIncome == NetIncome(db, from, to)
    ensures r.Ok? ==> r.value.difference == SumSet(PostedBetween(db, from, to), Residuals(db))
    ensures r.Ok? ==>
              && r.value.netChange == PostedSum(db, CashLine(db, from, to)) && r.value.nonCash == PostedSum(db, NonCashLine(db, from, to))
              && r.value.workingCapital == PostedSum(db, WorkingLine(db, from, to))
              && r.value.operating == r.value.netIncome + r.value.nonCash + r.value.workingCapital
              && r.value.investing == SumSet(PostedBetween(db, from, to), CashUnder(db, Investing))
              && r.value.financing == SumSet(PostedBetween(db, from, to), CashUnder(db, Financing))
              && r.value.unclassified == SumSet(PostedBetween(db, from, to), CashWithout(db))
    ensures r.Ok? ==>
              r.value.difference == r.value.netChange - (r.value.operating + r.value.investing + r.value.financing + r.value.unclassified)
    ensures from <= to && AllShaped(db, from, to) ==> r.Ok? && r.value.difference == 0
  {
    hide *;
    if from > to {
      return Err(InvalidRequest);
    }
    TrialAccountsKnown(db, from, to, rows);
    TrialAccountsKnown(db, from, to, incomeRows);
    FailsOnMixedActivities(db, from, to, movements);
    NetIncomeIs(db, from, to, incomeRows);
    var income := MakeIncomeStatement(db.accounts, incomeRows);
    match income
    case Err(error) => r := Err(error);
    case Ok(statement) =>
      r := MakeCashFlow(db.accounts, rows, statement.netIncome, movements);
      if r.Ok? {
        DifferenceIsResiduals(db, from, to, rows, movements);
        CashFigure(db, from, to, rows);
        NonCashFigure(db, from, to, rows);
        WorkingFigure(db, from, to, rows);
        DirectFigures(db, from, to, movements, Investing);
        DirectFigures(db, from, to, movements, Financing);
      }
      if AllShaped(db, from, to) {
        CashFlowReconciles(db, from, to, rows, movements);
      }
  }
}
