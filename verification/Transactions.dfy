/** The statements inside a transaction, on the tables it works on. Nothing is visible outside before the commit. */
module Transactions {
  import opened Sums
  import opened Ledger
  import opened Rounding
  import opened MoveNames
  import opened Hashing
  import opened Tables
  import opened Steps
  import opened ReconcileTotals
  import opened Invariants

  // Queries for the first row of an order.

  lemma {:induction false} LatestOf(periods: map<Id, Period>, ids: set<Id>) returns (p: Id)
    requires ids != {} && forall q :: q in ids ==> q in periods
    ensures p in ids && forall q :: q in ids ==> periods[q].start <= periods[p].start
    decreases ids
  {
    var one :| one in ids;
    var rest := ids - {one};
    p := one;
    if rest != {} {
      var latest := LatestOf(periods, rest);
      p := if periods[latest].start > periods[one].start then latest else one;
    }
    forall q | q in ids
      ensures periods[q].start <= periods[p].start
    {
      assert q == one || q in rest;
    }
  }

  /** The query has an answer, and none is found only where no period covers the date. */
  lemma SomeAnswer(db: Db, date: Date) returns (found: Option<Id>)
    ensures LooksUp(db, date, found)
  {
    var covering := set q | q in db.periods && Covers(db.periods[q], date);
    if covering == {} {
      found := None;
      assert forall q :: q in db.periods && Covers(db.periods[q], date) ==> q in covering;
    } else {
      var p := LatestOf(db.periods, covering);
      assert forall q :: q in db.periods && Covers(db.periods[q], date) ==> q in covering;
      found := Some(p);
    }
  }

  lemma SameLookup(db: Db, other: Db, date: Date, found: Option<Id>)
    requires other.periods == db.periods && LooksUp(other, date, found)
    ensures LooksUp(db, date, found)
  {
  }

  /** periodInTransaction and GetPeriodByDate */
  method PeriodByDate(tx: Db, date: Date) returns (found: Option<Id>)
    ensures LooksUp(tx, date, found)
    ensures found.Some? ==>
              && found.value in tx.periods && tx.periods[found.value].start <= date <= tx.periods[found.value].end
              && forall q :: q in tx.periods && tx.periods[q].start <= date <= tx.periods[q].end ==> tx.periods[q].start <= tx.periods[found.value].start
    ensures found.None? ==> forall q :: q in tx.periods ==> !(tx.periods[q].start <= date <= tx.periods[q].end)
  {
    if p :| p in tx.periods && IsPeriodOf(tx, date, p) {
      return Some(p);
    }
    ghost var answer := SomeAnswer(tx, date);
    return None;
  }

  /** previousPostedMoveHash */
  method PreviousPostedMoveHash(tx: Db, journal: Id) returns (hash: string)
    ensures hash == PreviousHash(tx, journal)
  {
    if m :| m in tx.moves && IsNewest(tx, journal, m) {
      forall k | IsNewest(tx, journal, k)
        ensures k == m
      {
        NewestUnique(tx, journal, m, k);
      }
      return tx.moves[m].hash;
    }
    return "";
  }

  lemma PreviousHashSame(db: Db, other: Db, journal: Id)
    requires db.moves == other.moves
    ensures PreviousHash(db, journal) == PreviousHash(other, journal)
  {
    forall m
      ensures IsNewest(db, journal, m) <==> IsNewest(other, journal, m)
    {
    }
    forall m, k | IsNewest(db, journal, m) && IsNewest(db, journal, k)
      ensures m == k
    {
      NewestUnique(db, journal, m, k);
    }
  }

  // Posting.

  /** The row that a transaction posts, once it has its name and the hash before it. */
  function Sealed(h: Hashers, id: Id, e: Entry, name: string, number: nat, previous: string): Move {
    Move(name, number, e.journal, e.period, e.date, Posted, e.reverses,
         h.seal(MoveRecord(id, name, e.date, e.journal, e.lines, previous)), e.postedBy, e.createdBy, e.now, e.lines)
  }

  /** Sequence, previous hash, hash, row: the part that every posting path shares. */
  method PostInTransaction(h: Hashers, tx: Db, id: Id, e: Entry) returns (r: Result<Db>)
    ensures r == PostRow(h, tx, id, e)
  {
    var name := NextSequence(tx, e.journal);
    if name.Err? {
      return Err(name.error);
    }
    var j := tx.journals[e.journal];
    var numbered := tx.(journals := tx.journals[e.journal := j.(next := j.next + 1)]);
    var previous := PreviousPostedMoveHash(numbered, e.journal);
    PreviousHashSame(tx, numbered, e.journal);
    hide PreviousHash, NameTaken, ReferencesHold, SequenceName;
    var row := Sealed(h, id, e, name.value, j.next, previous);
    assert row == PostedRow(h, tx, id, e);
    if !ReferencesHold(tx, e.journal, e.period, e.lines) || NameTaken(tx, row.name) {
      return Err(ConstraintViolated);
    }
    return Ok(numbered.(moves := numbered.moves[id := row]));
  }

  method InsertInTransaction(h: Hashers, tx: Db, id: Id, e: Entry) returns (r: Result<Db>)
    ensures r == InsertPosted(h, tx, id, e)
  {
    hide PostRow;
    var name := NextSequence(tx, e.journal);
    if name.Err? {
      return Err(name.error);
    }
    if id in tx.moves {
      return Err(ConstraintViolated);
    }
    r := PostInTransaction(h, tx, id, e);
  }

  /** The line loop of the two reversal paths: debit and credit change places, the foreign amount its sign. */
  method MirrorLines(lines: seq<Line>, date: Date, keepMatching: bool) returns (r: seq<Line>)
    ensures r == Mirrored(lines, date, keepMatching)
  {
    r := [];
    for i := 0 to |lines|
      invariant |r| == i && forall k :: 0 <= k < i ==> r[k] == Mirrored(lines, date, keepMatching)[k]
    {
      var l := lines[i];
      r := r + [Line(l.account, l.partner, l.costCenter, l.credit, l.debit, -l.amountCurrency, l.currency,
                     if keepMatching then l.matching else "", date)];
    }
  }

  /** reversePostedMoveInTransaction */
  method ReversePostedMove(h: Hashers, tx: Db, original: Id, id: Id, date: Date, actor: Id,
                           now: nat) returns (r: Result<Db>, ghost found: Option<Id>)
    ensures LooksUp(tx, date, found) && r == ReverseFxMove(h, tx, original, id, date, found, actor, now)
  {
    hide InsertPosted, LooksUp, Mirrored;
    found := SomeAnswer(tx, date);
    if original !in tx.moves {
      return Err(MoveNotFound), found;
    }
    if tx.moves[original].state != Posted {
      return Err(CannotReverseUnposted), found;
    }
    if HasReversal(tx, original) {
      return Err(MoveAlreadyReversed), found;
    }
    var period := PeriodByDate(tx, date);
    found := period;
    if period.None? {
      return Err(PeriodNotFound), found;
    }
    var open := LockOpenPeriod(tx, period.value, date);
    if open.Err? {
      return Err(open.error), found;
    }
    var journal := tx.moves[original].journal;
    var name := NextSequence(tx, journal);
    if name.Err? {
      return Err(name.error), found;
    }
    if |tx.moves[original].lines| < 2 {
      return Err(InvalidMove), found;
    }
    var lines := MirrorLines(tx.moves[original].lines, date, false);
    var posted := InsertInTransaction(h, tx, id, Entry(journal, period.value, date, Some(original), Some(actor), None, now, lines));
    if posted.Err? {
      return posted, found;
    }
    return Ok(Logged(h, posted.value, "account_move", id, "REVERSE", actor, "", now)), found;
  }

  /** postRealizedFXMove */
  method PostRealizedFxMove(h: Hashers, tx: Db, account: Id, realized: Amount, date: Date, actor: Id, id: Id, now: nat, config: Config)
    returns (r: Result<Db>, ghost found: Option<Id>)
    ensures LooksUp(tx, date, found) && r == PostFxMove(h, tx, account, realized, date, found, actor, id, now, config)
  {
    hide InsertPosted, LooksUp;
    var period := PeriodByDate(tx, date);
    found := period;
    if period.None? {
      return Err(PeriodNotFound), found;
    }
    var open := LockOpenPeriod(tx, period.value, date);
    if open.Err? {
      return Err(open.error), found;
    }
    if config.fxJournal !in tx.journals {
      return Err(JournalNotFound), found;
    }
    if !tx.journals[config.fxJournal].active {
      return Err(JournalInactive), found;
    }
    if !ActiveOfKind(tx, config.gain, Income) || !ActiveOfKind(tx, config.loss, Expense) {
      return Err(BadFxAccounts), found;
    }
    var amount := Abs(realized);
    if amount == 0 {
      return Err(AllocationRejected), found;
    }
    var reconciled, other := FxLine(account, config.currency, date, 0, 0), FxLine(0, config.currency, date, 0, 0);
    if realized > 0 {
      reconciled := reconciled.(credit := amount);
      other := other.(account := config.loss, debit := amount);
    } else {
      reconciled := reconciled.(debit := amount);
      other := other.(account := config.gain, credit := amount);
    }
    assert [reconciled, other] == FxLines(account, realized, date, config);
    var posted := InsertInTransaction(h, tx, id,
      Entry(config.fxJournal, period.value, date, None, Some(actor), Some(actor), now, [reconciled, other]));
    if posted.Err? {
      return posted, found;
    }
    return Ok(Logged(h, posted.value, "account_move", id, "POST", actor, "", now)), found;
  }

  /** insertSystemMove, which the year close calls only for lines. */
  method InsertSystemMove(h: Hashers, tx: Db, id: Id, journal: Id, period: Id, date: Date, actor: Id, now: nat, lines: seq<Line>)
    returns (r: Result<Db>)
    ensures r == SystemMove(h, tx, id, journal, period, date, actor, now, lines)
  {
    hide InsertPosted, Balanced;
    if |lines| == 0 {
      return Ok(tx);
    }
    var offence := ValidateBalance(lines);
    if offence.Some? {
      return Err(InvalidMove);
    }
    var posted := InsertInTransaction(h, tx, id, Entry(journal, period, date, None, Some(actor), Some(actor), now, lines));
    if posted.Err? {
      return posted;
    }
    return Ok(Logged(h, posted.value, "account_move", id, "POST", actor, "", now));
  }

  // Reconciliation.

  lemma SeenIs(items: seq<Allocation>, i: nat, seen: set<LineId>)
    requires i < |items| && seen == set k | 0 <= k < i :: items[k].line
    ensures items[i].line in seen <==> Mentions(items[..i], items[i].line)
  {
    if items[i].line in seen {
      var k :| 0 <= k < i && items[k].line == items[i].line;
      assert items[..i][k].line == items[i].line;
    }
  }

  /** The tests on one allocation; seen holds the lines of the allocations before it. */
  method TestAllocation(tx: Db, date: Date, account: Id, currency: string, items: seq<Allocation>, i: nat, seen: set<LineId>)
    returns (r: Result<Line>)
    requires i < |items| && (i > 0 ==> HasLine(tx, items[0].line))
    requires items[i].line in seen <==> Mentions(items[..i], items[i].line)
    ensures r == CheckAllocation(tx, date, account, currency, items, i)
  {
    hide Mentions, Capacity;
    var a := items[i];
    if a.amount <= 0 || a.line in seen {
      return Err(InvalidRequest);
    }
    if !HasLine(tx, a.line) || LineAt(tx, a.line).account !in tx.accounts {
      return Err(LineNotFound);
    }
    var line := LineAt(tx, a.line);
    var owner := tx.accounts[line.account];
    if tx.moves[a.line.move].state != Posted || !owner.active || !owner.reconcilable {
      return Err(NotReconcilable);
    }
    if date < line.date || (account != 0 && account != line.account) || (currency != "" && currency != line.currency) {
      return Err(AllocationRejected);
    }
    if i > 0 {
      var first := LineAt(tx, items[0].line);
      if first.account != line.account || first.currency != line.currency {
        return Err(AllocationRejected);
      }
    }
    var residual := Capacity(line) - Reconciled(tx, a.line);
    if a.amount > residual {
      return Err(AllocationRejected);
    }
    return Ok(line);
  }

  /** The first failing allocation decides the result of the loop. */
  lemma {:induction false} FailureStays(db: Db, date: Date, account: Id, currency: string, items: seq<Allocation>, i: nat, n: nat)
    requires i < n <= |items| && CheckAllocations(db, date, account, currency, items, i).Ok?
    ensures var c := CheckAllocation(db, date, account, currency, items, i);
            c.Err? ==> CheckAllocations(db, date, account, currency, items, n) == Err(c.error)
    decreases n
  {
    hide CheckAllocation;
    if n > i + 1 {
      FailureStays(db, date, account, currency, items, i, n - 1);
    }
  }

  lemma CountOne(db: Db, date: Date, account: Id, currency: string, items: seq<Allocation>, i: nat, t: Totals, line: Line)
    requires i < |items| && CheckAllocations(db, date, account, currency, items, i) == Ok(t)
    requires CheckAllocation(db, date, account, currency, items, i) == Ok(line)
    ensures 0 < items[i].amount <= Capacity(line)
    ensures CheckAllocations(db, date, account, currency, items, i + 1) == Ok(Count(t, line, items[i].amount))
  {
    hide CheckAllocation;
  }

  /** The first loop of ReconcileMoveLines: lock, test and count every allocation, with the set of lines seen so far. */
  method CountAllocations(tx: Db, date: Date, account: Id, currency: string, items: seq<Allocation>) returns (r: Result<Totals>)
    ensures r == CheckAllocations(tx, date, account, currency, items, |items|)
    ensures r.Ok? <==> forall i :: 0 <= i < |items| ==> Accepted(tx, date, account, currency, items, i)
    ensures r.Ok? ==>
              && r.value.debitForeign == SumSeq(items, DebitAmount(tx)) && r.value.creditForeign == SumSeq(items, CreditAmount(tx))
              && r.value.debitFunctional - r.value.creditFunctional == SumSeq(items, SignedPart(tx))
  {
    hide CheckAllocation, Capacity, FunctionalCapacity, ProRata, HasLine, Accepted, DebitAmount, CreditAmount, SignedPart;
    LoopPasses(tx, date, account, currency, items, |items|);
    var debitForeign, creditForeign, debitFunctional, creditFunctional := 0, 0, 0, 0;
    var seen: set<LineId> := {};
    for i := 0 to |items|
      invariant seen == set k | 0 <= k < i :: items[k].line
      invariant CheckAllocations(tx, date, account, currency, items, i)
                == Ok(Totals(debitForeign, creditForeign, debitFunctional, creditFunctional))
    {
      var a := items[i];
      SeenIs(items, i, seen);
      var checked := TestAllocation(tx, date, account, currency, items, i, seen);
      FailureStays(tx, date, account, currency, items, i, |items|);
      if checked.Err? {
        return Err(checked.error);
      }
      var line := checked.value;
      CountOne(tx, date, account, currency, items, i, Totals(debitForeign, creditForeign, debitFunctional, creditFunctional), line);
      var functional := FunctionalCapacity(line);
      if a.amount != Capacity(line) {
        functional := ProRata(FunctionalCapacity(line), a.amount, Capacity(line));
      }
      if line.debit > line.credit {
        debitForeign := debitForeign + a.amount;
        debitFunctional := debitFunctional + functional;
      } else {
        creditForeign := creditForeign + a.amount;
        creditFunctional := creditFunctional + functional;
      }
      seen := seen + {a.line};
    }
    TotalsAre(tx, date, account, currency, items, |items|, Totals(debitForeign, creditForeign, debitFunctional, creditFunctional));
    assert items[..|items|] == items;
    return Ok(Totals(debitForeign, creditForeign, debitFunctional, creditFunctional));
  }

  /** The second loop of ReconcileMoveLines: add every allocation to its line. */
  method ApplyAllocations(reconciled: map<LineId, nat>, items: seq<Allocation>) returns (r: map<LineId, nat>)
    requires forall i :: 0 <= i < |items| ==> items[i].amount > 0
    ensures r == Allocate(reconciled, items)
  {
    r := reconciled;
    for i := 0 to |items|
      invariant r == Allocate(reconciled, items[..i])
    {
      assert items[..i + 1][..i] == items[..i];
      var a := items[i];
      r := r[a.line := ValueAt(r, a.line) + a.amount];
    }
    assert items[..|items|] == items;
  }

  lemma {:induction false} ReleaseFails(reconciled: map<LineId, nat>, items: seq<Allocation>, n: nat)
    requires n <= |items| && Release(reconciled, items[..n]).Err?
    ensures Release(reconciled, items) == Err(Inconsistent)
    decreases |items|
  {
    if n < |items| {
      var m := |items| - 1;
      assert items[..m][..n] == items[..n];
      ReleaseFails(reconciled, items[..m], n);
    } else {
      assert items[..n] == items;
      FailsOneWay(reconciled, items);
    }
  }

  lemma {:induction false} FailsOneWay(reconciled: map<LineId, nat>, items: seq<Allocation>)
    ensures Release(reconciled, items).Err? ==> Release(reconciled, items) == Err(Inconsistent)
  {
    if items != [] {
      FailsOneWay(reconciled, items[..|items| - 1]);
    }
  }

  /** The loop of UnreconcileMoveLines: take every allocation off its line again. */
  method ReleaseAllocations(reconciled: map<LineId, nat>, items: seq<Allocation>) returns (r: Result<map<LineId, nat>>)
    ensures r == Release(reconciled, items)
  {
    var after := reconciled;
    for i := 0 to |items|
      invariant Release(reconciled, items[..i]) == Ok(after)
    {
      assert items[..i + 1][..i] == items[..i];
      var a := items[i];
      if a.line !in after || after[a.line] < a.amount {
        ReleaseFails(reconciled, items, i + 1);
        return Err(Inconsistent);
      }
      after := after[a.line := after[a.line] - a.amount];
    }
    assert items[..|items|] == items;
    return Ok(after);
  }

  /** The statements of ReconcileMoveLines that settle a realised difference. */
  method SettleDifference(h: Hashers, tx: Db, account: Id, realized: Amount, date: Date, actor: Id, fxId: Id, now: nat)
    returns (r: Result<Db>, ghost found: Option<Id>)
    ensures LooksUp(tx, date, found) && r == SettleFx(h, tx, account, realized, date, found, actor, fxId, now)
  {
    hide PostFxMove, LooksUp;
    found := SomeAnswer(tx, date);
    if realized == 0 {
      return Ok(tx), found;
    }
    if tx.config.None? {
      return Err(ConfigurationMissing), found;
    }
    r, found := PostRealizedFxMove(h, tx, account, realized, date, actor, fxId, now, tx.config.value);
  }

  /** The statements of ReconcileMoveLines. */
  method EnterReconciliation(h: Hashers, tx: Db, id: Id, fxId: Id, date: Date, actor: Id, account: Id, currency: string,
                             items: seq<Allocation>, now: nat) returns (r: Result<Db>, ghost found: Option<Id>)
    ensures LooksUp(tx, date, found) && r == Reconcile(h, tx, id, fxId, date, found, actor, account, currency, items, now)
  {
    hide CheckAllocations, Allocate, SettleFx, Capacity, LooksUp;
    found := SomeAnswer(tx, date);
    if actor == 0 || |items| < 2 {
      return Err(InvalidRequest), found;
    }
    var counted := CountAllocations(tx, date, account, currency, items);
    if counted.Err? {
      return Err(counted.error), found;
    }
    var t := counted.value;
    if t.debitForeign != t.creditForeign || t.debitForeign == 0 {
      return Err(AllocationRejected), found;
    }
    if id in tx.reconciliations {
      return Err(ConstraintViolated), found;
    }
    var entry := NewReconciliation(tx, fxId, date, t, items);
    var applied := ApplyAllocations(tx.reconciled, items);
    var entered := tx.(reconciled := applied, reconciliations := tx.reconciliations[id := entry]);
    var settled, answer := SettleDifference(h, entered, entry.account, t.debitFunctional - t.creditFunctional, date, actor, fxId, now);
    found := answer;
    SameLookup(tx, entered, date, found);
    if settled.Err? {
      return Err(settled.error), found;
    }
    return Ok(Logged(h, settled.value, "account_reconciliation", id, "RECONCILE", actor, "", now)), found;
  }

  /** The statements of UnreconcileMoveLines. */
  method UndoReconciliation(h: Hashers, tx: Db, id: Id, reversalId: Id, date: Date, actor: Id, now: nat)
    returns (r: Result<Db>, ghost found: Option<Id>)
    ensures LooksUp(tx, date, found) && r == Unreconcile(h, tx, id, reversalId, date, found, actor, now)
  {
    hide Release, ReverseFxMove, LooksUp;
    found := SomeAnswer(tx, date);
    if id == 0 || actor == 0 {
      return Err(InvalidRequest), found;
    }
    if id !in tx.reconciliations {
      return Err(ReconciliationNotFound), found;
    }
    var entry := tx.reconciliations[id];
    var released := ReleaseAllocations(tx.reconciled, entry.items);
    if released.Err? {
      return Err(released.error), found;
    }
    var settled := tx.(reconciled := released.value);
    if entry.fxMove.Some? {
      var reversed, answer := ReversePostedMove(h, settled, entry.fxMove.value, reversalId, date, actor, now);
      found := answer;
      SameLookup(tx, settled, date, found);
      if reversed.Err? {
        return Err(reversed.error), found;
      }
      settled := reversed.value;
    }
    var logged := Logged(h, settled, "account_reconciliation", id, "UNRECONCILE", actor, "", now);
    return Ok(logged.(reconciliations := logged.reconciliations - {id})), found;
  }

  // Year close.

  /** One row of the query of fiscalClosingLines. */
  datatype ResultRow = ResultRow(account: Id, balance: Amount)

  function ResultAccount(rows: seq<ResultRow>, i: nat): Id
    requires i < |rows|
  {
    rows[i].account
  }

  function ResultAccountsOf(rows: seq<ResultRow>): seq<Id> {
    seq(|rows|, i requires 0 <= i < |rows| => ResultAccount(rows, i))
  }

  ghost predicate ResultRows(db: Db, asOf: Date, rows: seq<ResultRow>) {
    forall i :: 0 <= i < |rows| ==> rows[i].balance == NetUpTo(db, asOf, rows[i].account)
  }

  lemma ResultsGrow(db: Db, asOf: Date, currency: string, rows: seq<ResultRow>, i: nat)
    requires i < |rows| && ResultRows(db, asOf, rows)
    ensures var before, line := ResultAccountsOf(rows[..i]), Side(rows[i].account, currency, asOf, -rows[i].balance, 0);
            && SweepLines(db, asOf, currency, ResultAccountsOf(rows[..i + 1]))
               == (if rows[i].balance == 0 then SweepLines(db, asOf, currency, before) else SweepLines(db, asOf, currency, before) + [line])
            && Swept(db, asOf, ResultAccountsOf(rows[..i + 1])) == Swept(db, asOf, before) + rows[i].balance
  {
    hide NetUpTo;
    var next := ResultAccountsOf(rows[..i + 1]);
    assert next[..|next| - 1] == ResultAccountsOf(rows[..i]) && next[|next| - 1] == rows[i].account;
  }

  /** fiscalClosingLines: one line against every result balance, and the total on retained earnings. */
  method FiscalClosingLines(ghost db: Db, asOf: Date, retained: Id, currency: string, rows: seq<ResultRow>) returns (lines: seq<Line>)
    requires ResultRows(db, asOf, rows)
    ensures lines == ClosingLines(db, asOf, retained, currency, ResultAccountsOf(rows))
  {
    hide SweepLines, Swept, ResultRows;
    lines := [];
    var total := 0;
    NothingSwept(db, asOf, currency, rows);
    for i := 0 to |rows|
      invariant lines == SweepLines(db, asOf, currency, ResultAccountsOf(rows[..i]))
      invariant total == Swept(db, asOf, ResultAccountsOf(rows[..i]))
    {
      ResultsGrow(db, asOf, currency, rows, i);
      var balance := rows[i].balance;
      if balance == 0 {
        continue;
      }
      var line := Side(rows[i].account, currency, asOf, 0, 0);
      if balance > 0 {
        line := line.(credit := balance);
      } else {
        line := line.(debit := -balance);
      }
      total := total + balance;
      lines := lines + [line];
    }
    assert rows[..|rows|] == rows;
    if total != 0 {
      var line := Side(retained, currency, asOf, 0, 0);
      if total > 0 {
        line := line.(debit := total);
      } else {
        line := line.(credit := -total);
      }
      lines := lines + [line];
    }
  }

  lemma NothingSwept(db: Db, asOf: Date, currency: string, rows: seq<ResultRow>)
    ensures SweepLines(db, asOf, currency, ResultAccountsOf(rows[..0])) == [] && Swept(db, asOf, ResultAccountsOf(rows[..0])) == 0
  {
    assert ResultAccountsOf(rows[..0]) == [];
  }

  /** One row of the query of fiscalOpeningLines. */
  datatype SheetRow = SheetRow(group: Group, net: Amount, foreign: Amount)

  function SheetGroup(rows: seq<SheetRow>, i: nat): Group
    requires i < |rows|
  {
    rows[i].group
  }

  function SheetGroupsOf(rows: seq<SheetRow>): seq<Group> {
    seq(|rows|, i requires 0 <= i < |rows| => SheetGroup(rows, i))
  }

  ghost predicate IsSheetRow(db: Db, asOf: Date, row: SheetRow) {
    row.net == GroupNet(db, asOf, row.group) && row.foreign == GroupForeign(db, asOf, row.group)
  }

  ghost predicate SheetRows(db: Db, asOf: Date, rows: seq<SheetRow>) {
    forall i :: 0 <= i < |rows| ==> IsSheetRow(db, asOf, rows[i])
  }

  lemma SideTotals(account: Id, currency: string, date: Date, net: Amount, foreign: Amount, lines: seq<Line>)
    ensures var l := Side(account, currency, date, net, foreign);
            && SumSeq(lines + [l], Debit) == SumSeq(lines, Debit) + (if net > 0 then net else 0)
            && SumSeq(lines + [l], Credit) == SumSeq(lines, Credit) + (if net > 0 then 0 else -net)
  {
    var l := Side(account, currency, date, net, foreign);
    assert (lines + [l])[..|lines|] == lines;
    assert Debit(l) == l.debit && Credit(l) == l.credit;
  }

  lemma SheetRowLine(db: Db, asOf: Date, currency: string, rows: seq<SheetRow>, i: nat)
    requires i < |rows| && SheetRows(db, asOf, rows)
    ensures GroupLine(db, asOf, SheetGroupsOf(rows)[i])
            == Side(rows[i].group.account, rows[i].group.currency, asOf + 1, rows[i].net, rows[i].foreign)
    ensures ForeignMissing(db, asOf, currency, SheetGroupsOf(rows)[i])
            <==> rows[i].group.currency != currency && rows[i].foreign == 0 && rows[i].net != 0
    ensures GroupLines(db, asOf, SheetGroupsOf(rows))[i] == GroupLine(db, asOf, SheetGroupsOf(rows)[i])
  {
    hide GroupNet, GroupForeign;
    assert IsSheetRow(db, asOf, rows[i]);
  }

  /** fiscalOpeningLines: one line for every group, with the two running totals compared at the end. */
  method FiscalOpeningLines(ghost db: Db, asOf: Date, currency: string, rows: seq<SheetRow>) returns (r: Result<seq<Line>>)
    requires SheetRows(db, asOf, rows)
    ensures r == OpeningLines(db, asOf, currency, SheetGroupsOf(rows))
  {
    hide SheetRows, ForeignMissing, GroupLine, SumSeq;
    var lines: seq<Line> := [];
    var totalDebit, totalCredit := 0, 0;
    assert SumSeq([], Debit) == 0 && SumSeq([], Credit) == 0 by {
      NoLineTotals();
    }
    ghost var groups := SheetGroupsOf(rows);
    for i := 0 to |rows|
      invariant |lines| == i && forall k :: 0 <= k < i ==> lines[k] == GroupLines(db, asOf, groups)[k]
      invariant forall k :: 0 <= k < i ==> !ForeignMissing(db, asOf, currency, groups[k])
      invariant totalDebit == SumSeq(lines, Debit) && totalCredit == SumSeq(lines, Credit)
    {
      var row := rows[i];
      SheetRowLine(db, asOf, currency, rows, i);
      if row.group.currency != currency && row.foreign == 0 && row.net != 0 {
        return Err(ForeignAmountMissing);
      }
      var line := Side(row.group.account, row.group.currency, asOf + 1, 0, row.foreign);
      SideTotals(row.group.account, row.group.currency, asOf + 1, row.net, row.foreign, lines);
      if row.net > 0 {
        line := line.(debit := row.net);
        totalDebit := totalDebit + row.net;
      } else {
        line := line.(credit := -row.net);
        totalCredit := totalCredit + -row.net;
      }
      lines := lines + [line];
    }
    assert lines == GroupLines(db, asOf, groups);
    if totalDebit != totalCredit {
      return Err(OpeningUnbalanced);
    }
    return Ok(lines);
  }

  lemma NoLineTotals()
    ensures SumSeq([], Debit) == 0 && SumSeq([], Credit) == 0
  {
  }

  // Account hierarchy.

  /** The recursive query for descendants: add the children of what was found until a round finds none. */
  method FindDescendants(accounts: map<Id, Account>, id: Id) returns (found: set<Id>)
    ensures found == Descendants(accounts, {id})
  {
    found := {id};
    while true
      invariant Descendants(accounts, {id}) == Descendants(accounts, found)
      decreases accounts.Keys - found
    {
      var more := (set a | a in accounts && accounts[a].parent.Some? && accounts[a].parent.value in found) - found;
      assert more == Children(accounts, found) - found;
      if more == {} {
        return;
      }
      ghost var x :| x in more;
      assert x in accounts.Keys - found;
      found := found + more;
    }
  }

  /** Whether the new parent is among the descendants. */
  method IsDescendant(accounts: map<Id, Account>, id: Id, parent: Id) returns (found: bool)
    ensures found <==> parent in Descendants(accounts, {id})
  {
    var descendants := FindDescendants(accounts, id);
    return parent in descendants;
  }

  /** The statements of UpdateAccount. */
  method ChangeAccount(tx: Db, id: Id, row: Account) returns (r: Result<Db>)
    ensures r == UpdateAccount(tx, id, row)
  {
    hide Descendants, HasPostedLines, CodeTaken, ParentHolds;
    if row.parent.Some? {
      var cyclic := IsDescendant(tx.accounts, id, row.parent.value);
      if cyclic {
        return Err(WouldCreateCycle);
      }
    }
    if id !in tx.accounts {
      return Err(AccountNotFound);
    }
    var stored := tx.accounts[id];
    if stored.code != row.code || stored.kind != row.kind {
      if HasPostedLines(tx, id) {
        return Err(AccountHasPostedMoves);
      }
    }
    if CodeTaken(tx, id, row.code) || !ParentHolds(tx, row) {
      return Err(ConstraintViolated);
    }
    return Ok(tx.(accounts := tx.accounts[id := row]));
  }

  // What CloseFiscalYear reads.

  lemma SuccessorUnique(db: Db, y: Id, n: Id, k: Id)
    requires YearKeys(db) && IsSuccessor(db, y, n) && IsSuccessor(db, y, k)
    ensures n == k
  {
    assert SameNumber(db.years[n], db.years[k]);
  }

  lemma OpeningPeriodUnique(db: Db, next: Id, p: Id, q: Id)
    requires YearKeys(db) && IsOpeningPeriod(db, next, p) && IsOpeningPeriod(db, next, q)
    ensures p == q
  {
    assert SamePeriodKey(db.periods[p], db.periods[q]);
  }

  /** The successor year and its open first period. */
  method FindSuccessor(tx: Db, y: Id) returns (next: Option<Id>)
    requires YearKeys(tx) && y in tx.years
    ensures next.None? <==> !exists n :: IsSuccessor(tx, y, n)
    ensures next.Some? ==> IsSuccessor(tx, y, next.value) && forall n :: IsSuccessor(tx, y, n) ==> n == next.value
  {
    if n :| n in tx.years && IsSuccessor(tx, y, n) {
      forall k | IsSuccessor(tx, y, k)
        ensures k == n
      {
        SuccessorUnique(tx, y, n, k);
      }
      return Some(n);
    }
    return None;
  }

  method FindOpeningPeriod(tx: Db, next: Id) returns (opening: Option<Id>)
    requires YearKeys(tx)
    ensures opening.None? <==> !exists p :: IsOpeningPeriod(tx, next, p)
    ensures opening.Some? ==> IsOpeningPeriod(tx, next, opening.value) && forall p :: IsOpeningPeriod(tx, next, p) ==> p == opening.value
  {
    if p :| p in tx.periods && IsOpeningPeriod(tx, next, p) {
      forall q | IsOpeningPeriod(tx, next, q)
        ensures q == p
      {
        OpeningPeriodUnique(tx, next, p, q);
      }
      return Some(p);
    }
    return None;
  }

  /** The loop over the periods of the year: the last one is the closing period. */
  method FindClosingPeriod(tx: Db, y: Id, rows: seq<Id>) returns (closing: Option<Id>)
    requires PeriodsOf(tx, y, rows) && |rows| == 12
    ensures closing.Some? <==> forall i :: 0 <= i < 12 ==> HardClosedAt(tx, rows, i)
    ensures closing.Some? ==> closing.value == rows[11]
  {
    hide Lists;
    closing := None;
    for i := 0 to |rows|
      invariant forall k :: 0 <= k < i ==> HardClosedAt(tx, rows, k)
      invariant i < 12 ==> closing.None?
      invariant i == 12 ==> closing == Some(rows[11])
    {
      var period := tx.periods[rows[i]];
      if period.number != i + 1 || period.state != HardClosed {
        assert !HardClosedAt(tx, rows, i);
        return None;
      }
      if period.number == 12 {
        closing := Some(rows[i]);
      }
    }
  }

  /** The part of CloseFiscalYear that reads: year, periods, drafts, successor, configuration, journal and accounts. */
  method ReadCloseSetup(tx: Db, y: Id, journal: Id, retained: Id, actor: Id, periodRows: seq<Id>) returns (r: Result<CloseSetup>)
    requires YearKeys(tx) && PeriodsOf(tx, y, periodRows)
    ensures r == PrepareClose(tx, y, journal, retained, actor, periodRows)
  {
    hide YearKeys, DraftsRemain, HardClosedAt, IsSuccessor, IsOpeningPeriod, Lists;
    if y == 0 || journal == 0 || actor == 0 {
      return Err(InvalidRequest);
    }
    if y !in tx.years {
      return Err(YearNotFound);
    }
    var year := tx.years[y];
    if year.closed || |periodRows| != 12 {
      return Err(YearNotClosable);
    }
    var closing := FindClosingPeriod(tx, y, periodRows);
    if closing.None? || tx.periods[closing.value].end != year.end || DraftsRemain(tx, year) {
      return Err(YearNotClosable);
    }
    var next := FindSuccessor(tx, y);
    if next.None? {
      return Err(YearNotClosable);
    }
    SuccessorKnown(tx, y, next.value);
    if tx.years[next.value].start != year.end + 1 {
      return Err(YearNotClosable);
    }
    var opening := FindOpeningPeriod(tx, next.value);
    if opening.None? {
      return Err(YearNotClosable);
    }
    var account := retained;
    if account == 0 {
      if tx.config.None? {
        return Err(ConfigurationMissing);
      }
      account := tx.config.value.retained;
    }
    if journal !in tx.journals {
      return Err(JournalNotFound);
    }
    if !tx.journals[journal].active {
      return Err(JournalInactive);
    }
    if account !in tx.accounts {
      return Err(AccountNotFound);
    }
    if !ActiveOfKind(tx, account, Equity) {
      return Err(BadClosingSetup);
    }
    if tx.config.None? {
      return Err(ConfigurationMissing);
    }
    return Ok(CloseSetup(closing.value, next.value, opening.value, account, tx.config.value.currency));
  }

  lemma SuccessorKnown(db: Db, y: Id, next: Id)
    requires IsSuccessor(db, y, next)
    ensures next in db.years
  {
  }

  /** The books once the closing move is posted. */
  ghost function ClosedBooks(h: Hashers, db: Db, y: Id, journal: Id, s: CloseSetup, actor: Id, closingId: Id, now: nat,
                             rows: seq<ResultRow>): Result<Db>
    requires y in db.years
  {
    SystemMove(h, db, closingId, journal, s.closingPeriod, db.years[y].end, actor, now,
               ClosingLines(db, db.years[y].end, s.retained, s.currency, ResultAccountsOf(rows)))
  }

  /** The answers of the two balance queries: the second one sees the closing move. */
  ghost predicate BalanceAnswers(h: Hashers, db: Db, y: Id, journal: Id, s: CloseSetup, actor: Id, closingId: Id, now: nat,
                                 results: seq<ResultRow>, sheet: seq<SheetRow>)
    requires y in db.years
  {
    && ResultRows(db, db.years[y].end, results)
    && var books := ClosedBooks(h, db, y, journal, s, actor, closingId, now, results);
       (books.Ok? ==> SheetRows(books.value, db.years[y].end, sheet))
  }

  /** The part of CloseFiscalYear that writes: closing move, opening move, audit row and state. */
  method WriteYearClose(h: Hashers, tx: Db, y: Id, journal: Id, s: CloseSetup, actor: Id, closingId: Id, openingId: Id, now: nat,
                        results: seq<ResultRow>, sheet: seq<SheetRow>) returns (r: Result<Db>)
    requires y in tx.years && s.successor in tx.years
    requires BalanceAnswers(h, tx, y, journal, s, actor, closingId, now, results, sheet)
    ensures r == WriteClose(h, tx, y, journal, s, actor, closingId, openingId, now, ResultAccountsOf(results), SheetGroupsOf(sheet))
  {
    hide SystemMove, ClosingLines, OpeningLines, ResultRows, SheetRows, Logged;
    var asOf := tx.years[y].end;
    var closingLines := FiscalClosingLines(tx, asOf, s.retained, s.currency, results);
    var closed := InsertSystemMove(h, tx, closingId, journal, s.closingPeriod, asOf, actor, now, closingLines);
    if closed.Err? {
      return closed;
    }
    var opening := FiscalOpeningLines(closed.value, asOf, s.currency, sheet);
    if opening.Err? {
      return Err(opening.error);
    }
    var finished := InsertSystemMove(h, closed.value, openingId, journal, s.openingPeriod, tx.years[s.successor].start, actor, now, opening.value);
    if finished.Err? {
      return finished;
    }
    return Ok(YearClosed(Logged(h, finished.value, "fiscal_year", y, "CLOSE", actor, "", now), y));
  }
}
