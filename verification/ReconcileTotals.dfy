/** What the tests of a reconciliation accept and what its totals count, written out item by item. */
module ReconcileTotals {
  import opened Sums
  import opened Ledger
  import opened Rounding
  import opened Tables
  import opened Steps

  /** The allocated amount, on lines whose debit is above their credit. */
  function DebitAmount(db: Db): Allocation -> int {
    (a: Allocation) => if HasLine(db, a.line) && LineAt(db, a.line).debit > LineAt(db, a.line).credit then a.amount else 0
  }

  /** The allocated amount, on all other lines. */
  function CreditAmount(db: Db): Allocation -> int {
    (a: Allocation) => if HasLine(db, a.line) && LineAt(db, a.line).debit <= LineAt(db, a.line).credit then a.amount else 0
  }

  /** The functional part of the allocation, with the sign of the net of its line. */
  function SignedPart(db: Db): Allocation -> int {
    (a: Allocation) =>
      if !HasLine(db, a.line) || Capacity(LineAt(db, a.line)) == 0 then 0
      else if LineAt(db, a.line).debit > LineAt(db, a.line).credit then FunctionalPart(LineAt(db, a.line), a.amount)
      else if LineAt(db, a.line).debit < LineAt(db, a.line).credit then -FunctionalPart(LineAt(db, a.line), a.amount)
      else 0
  }

  /** What allocation number i has to meet. */
  predicate Accepted(db: Db, date: Date, account: Id, currency: string, items: seq<Allocation>, i: nat)
    requires i < |items|
  {
    && items[i].amount > 0
    && (forall k :: 0 <= k < i ==> items[k].line != items[i].line)
    && HasLine(db, items[i].line) && HasLine(db, items[0].line)
    && var l, first := LineAt(db, items[i].line), LineAt(db, items[0].line);
       && db.moves[items[i].line.move].state == Posted
       && l.account in db.accounts && db.accounts[l.account].active && db.accounts[l.account].reconcilable
       && l.date <= date
       && (account == 0 || l.account == account) && (currency == "" || l.currency == currency)
       && l.account == first.account && l.currency == first.currency
       && Reconciled(db, items[i].line) + items[i].amount
          <= (if l.amountCurrency > 0 then l.amountCurrency else if l.amountCurrency < 0 then -l.amountCurrency
              else if l.debit > l.credit then l.debit - l.credit else l.credit - l.debit)
  }

  lemma CheckedIfAccepted(db: Db, date: Date, account: Id, currency: string, items: seq<Allocation>, i: nat)
    requires i < |items| && (i > 0 ==> HasLine(db, items[0].line))
    ensures CheckAllocation(db, date, account, currency, items, i).Ok? <==> Accepted(db, date, account, currency, items, i)
  {
    assert Mentions(items[..i], items[i].line) <==> exists k :: 0 <= k < i && items[k].line == items[i].line by {
      assert forall k :: 0 <= k < i ==> items[..i][k] == items[k];
    }
  }

  lemma FirstHasLine(db: Db, date: Date, account: Id, currency: string, items: seq<Allocation>, n: nat)
    requires 0 < n <= |items| && CheckAllocations(db, date, account, currency, items, n).Ok?
    ensures HasLine(db, items[0].line)
  {
  }

  /** The loop passes exactly when every allocation is accepted. */
  lemma {:induction false} LoopPasses(db: Db, date: Date, account: Id, currency: string, items: seq<Allocation>, n: nat)
    requires n <= |items|
    ensures CheckAllocations(db, date, account, currency, items, n).Ok? <==> forall i :: 0 <= i < n ==> Accepted(db, date, account, currency, items, i)
  {
    hide CheckAllocation, Accepted;
    if n > 0 {
      LoopPasses(db, date, account, currency, items, n - 1);
      if CheckAllocations(db, date, account, currency, items, n - 1).Ok? {
        if n > 1 {
          FirstHasLine(db, date, account, currency, items, n - 1);
        }
        CheckedIfAccepted(db, date, account, currency, items, n - 1);
      }
    }
  }

  lemma OnePart(db: Db, a: Allocation, l: Line, t: Totals)
    requires HasLine(db, a.line) && LineAt(db, a.line) == l && 0 < a.amount <= Capacity(l)
    ensures var after := Count(t, l, a.amount);
            && after.debitForeign == t.debitForeign + DebitAmount(db)(a)
            && after.creditForeign == t.creditForeign + CreditAmount(db)(a)
            && after.debitFunctional - after.creditFunctional == t.debitFunctional - t.creditFunctional + SignedPart(db)(a)
  {
    if l.debit == l.credit && a.amount != Capacity(l) {
      assert FunctionalCapacity(l) * a.amount * FINE == 0;
      RoundDivExact(0, Capacity(l));
      RoundDivExact(0, FINE);
    }
  }

  /** The totals: the amounts on debit lines, the amounts on the others, and the signed functional parts of both. */
  lemma {:induction false} TotalsAre(db: Db, date: Date, account: Id, currency: string, items: seq<Allocation>, n: nat, t: Totals)
    requires n <= |items| && CheckAllocations(db, date, account, currency, items, n) == Ok(t)
    ensures t.debitForeign == SumSeq(items[..n], DebitAmount(db))
    ensures t.creditForeign == SumSeq(items[..n], CreditAmount(db))
    ensures t.debitFunctional - t.creditFunctional == SumSeq(items[..n], SignedPart(db))
  {
    hide CheckAllocation, Capacity, SignedPart, DebitAmount, CreditAmount, Count;
    if n > 0 {
      var before := CheckAllocations(db, date, account, currency, items, n - 1).value;
      TotalsAre(db, date, account, currency, items, n - 1, before);
      var line := CheckAllocation(db, date, account, currency, items, n - 1).value;
      OnePart(db, items[n - 1], line, before);
      assert items[..n][..n - 1] == items[..n - 1];
    }
  }

  /** A reconciliation passes its tests exactly with an actor, two or more items that are each accepted, equal and positive amounts on both
      sides and a new id. */
  lemma TestsPass(db: Db, id: Id, date: Date, actor: Id, account: Id, currency: string, items: seq<Allocation>)
    ensures CheckReconcile(db, id, date, actor, account, currency, items).Ok? <==>
            && actor != 0 && |items| >= 2 && (forall i :: 0 <= i < |items| ==> Accepted(db, date, account, currency, items, i))
            && SumSeq(items, DebitAmount(db)) == SumSeq(items, CreditAmount(db)) > 0 && id !in db.reconciliations
  {
    hide CheckAllocations, Accepted, DebitAmount, CreditAmount, SignedPart;
    LoopPasses(db, date, account, currency, items, |items|);
    var r := CheckAllocations(db, date, account, currency, items, |items|);
    if r.Ok? {
      TotalsAre(db, date, account, currency, items, |items|, r.value);
      assert items[..|items|] == items;
      AmountsPositive(db, items);
    }
  }

  lemma {:induction false} AmountsPositive(db: Db, items: seq<Allocation>)
    requires forall i :: 0 <= i < |items| ==> items[i].amount > 0
    ensures SumSeq(items, DebitAmount(db)) >= 0
  {
    if items != [] {
      AmountsPositive(db, items[..|items| - 1]);
    }
  }
}
