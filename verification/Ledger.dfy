/** Journal entries: lines, moves and the balance rule every entry has to meet. */
module Ledger {
  import opened Sums

  /** A uuid. 0 is uuid.Nil. */
  type Id = nat

  /** A decimal amount in units of 10^-4, the scale of NUMERIC(28, 4). */
  type Amount = int

  /** A calendar day, as a day number. */
  type Date = int

  datatype Option<+T> = None | Some(value: T)

  datatype AccountType = Asset | Liability | Equity | Income | Expense

  predicate IsResult(kind: AccountType) {
    kind == Income || kind == Expense
  }

  datatype NormalBalance = DebitNormal | CreditNormal

  datatype Activity = Operating | Investing | Financing | NoActivity | Unclassified

  datatype Account = Account(
    code: string,
    kind: AccountType,
    normal: NormalBalance,
    parent: Option<Id>,
    reconcilable: bool,
    active: bool,
    cashEquivalent: bool,
    nonCashAdjustment: bool,
    activity: Activity)

  datatype Line = Line(
    account: Id,
    partner: Option<Id>,
    costCenter: Option<Id>,
    debit: Amount,
    credit: Amount,
    amountCurrency: Amount,
    currency: string,
    matching: string,
    date: Date)

  /** The uuid of a move line, known by the entry it belongs to and its place there. */
  datatype LineId = LineId(move: Id, pos: nat)

  datatype MoveState = Draft | Posted | Reversed

  /** A journal entry. The number is the one its name was printed from, 0 for a draft; the table holds only the name. */
  datatype Move = Move(
    name: string,
    number: nat,
    journal: Id,
    period: Id,
    date: Date,
    state: MoveState,
    reverses: Option<Id>,
    hash: string,
    postedBy: Option<Id>,
    createdBy: Option<Id>,
    updatedAt: nat,
    lines: seq<Line>)

  datatype BalanceError = TooFewLines | NegativeAmount | ZeroLine | Unbalanced

  function Debit(l: Line): Amount { l.debit }

  function Credit(l: Line): Amount { l.credit }

  function Net(l: Line): Amount { l.debit - l.credit }

  predicate SoundLine(l: Line) {
    l.debit >= 0 && l.credit >= 0 && !(l.debit == 0 && l.credit == 0)
  }

  predicate IsNegative(l: Line) {
    l.debit < 0 || l.credit < 0
  }

  ghost predicate FirstOffence(lines: seq<Line>, i: int) {
    0 <= i < |lines| && !SoundLine(lines[i]) && forall k :: 0 <= k < i ==> SoundLine(lines[k])
  }

  /** What a posted entry must be: at least two sound lines, debits equal to credits. */
  ghost predicate Balanced(lines: seq<Line>) {
    && |lines| >= 2
    && (forall i :: 0 <= i < |lines| ==> SoundLine(lines[i]))
    && SumSeq(lines, Net) == 0
  }

  lemma NetIsDebitMinusCredit(lines: seq<Line>)
    ensures SumSeq(lines, Net) == SumSeq(lines, Debit) - SumSeq(lines, Credit)
  {
    SumSeqLinear(lines, Debit, Credit, Net, -1);
  }

  /** AccountMove.ValidateBalance: the first offence in line order decides the error. */
  method ValidateBalance(lines: seq<Line>) returns (err: Option<BalanceError>)
    ensures err.None? <==> Balanced(lines)
    ensures err == Some(TooFewLines) <==> |lines| < 2
    ensures err == Some(NegativeAmount) <==> |lines| >= 2 && exists i :: FirstOffence(lines, i) && IsNegative(lines[i])
    ensures err == Some(ZeroLine) <==> |lines| >= 2 && exists i :: FirstOffence(lines, i) && !IsNegative(lines[i])
  {
    if |lines| < 2 {
      return Some(TooFewLines);
    }
    var totalDebit, totalCredit := 0, 0;
    for i := 0 to |lines|
      invariant forall k :: 0 <= k < i ==> SoundLine(lines[k])
      invariant totalDebit == SumSeq(lines[..i], Debit)
      invariant totalCredit == SumSeq(lines[..i], Credit)
    {
      if lines[i].debit < 0 || lines[i].credit < 0 {
        assert FirstOffence(lines, i);
        return Some(NegativeAmount);
      }
      if lines[i].debit == 0 && lines[i].credit == 0 {
        assert FirstOffence(lines, i);
        return Some(ZeroLine);
      }
      assert lines[..i + 1][..i] == lines[..i];
      totalDebit := totalDebit + lines[i].debit;
      totalCredit := totalCredit + lines[i].credit;
    }
    assert lines[..|lines|] == lines;
    NetIsDebitMinusCredit(lines);
    if totalDebit != totalCredit {
      return Some(Unbalanced);
    }
    return None;
  }

  /** The line that undoes l, on another date. */
  function Mirror(l: Line, date: Date, matching: string): Line {
    l.(debit := l.credit, credit := l.debit, amountCurrency := -l.amountCurrency, date := date, matching := matching)
  }

  ghost predicate MirrorImage(original: seq<Line>, reversal: seq<Line>) {
    && |original| == |reversal|
    && forall i :: 0 <= i < |original| ==>
         reversal[i] == Mirror(original[i], reversal[i].date, reversal[i].matching)
  }

  lemma {:induction false} MirrorNegates(original: seq<Line>, reversal: seq<Line>, f: Line -> int)
    requires MirrorImage(original, reversal)
    requires forall i :: 0 <= i < |original| ==> f(reversal[i]) == -f(original[i])
    ensures SumSeq(reversal, f) == -SumSeq(original, f)
  {
    if original != [] {
      var n := |original| - 1;
      MirrorNegates(original[..n], reversal[..n], f);
    }
  }

  lemma MirrorBalanced(original: seq<Line>, reversal: seq<Line>)
    requires Balanced(original) && MirrorImage(original, reversal)
    ensures Balanced(reversal)
  {
    MirrorNegates(original, reversal, Net);
    forall i | 0 <= i < |reversal|
      ensures SoundLine(reversal[i])
    {
      assert SoundLine(original[i]);
    }
  }

  // Sums over the lines of a set of moves, as the aggregate queries take them.

  ghost function MoveSum(moves: map<Id, Move>, w: Line -> int): Id -> int {
    (m: Id) => if m in moves then SumSeq(moves[m].lines, w) else 0
  }

  ghost function LedgerSum(moves: map<Id, Move>, ids: set<Id>, w: Line -> int): int {
    SumSet(ids, MoveSum(moves, w))
  }

  lemma LedgerSumLinear(moves: map<Id, Move>, ids: set<Id>, f: Line -> int, g: Line -> int, h: Line -> int, k: int)
    requires forall l :: h(l) == f(l) + k * g(l)
    ensures LedgerSum(moves, ids, h) == LedgerSum(moves, ids, f) + k * LedgerSum(moves, ids, g)
  {
    forall m | m in ids && m in moves
      ensures MoveSum(moves, h)(m) == MoveSum(moves, f)(m) + k * MoveSum(moves, g)(m)
    {
      SumSeqLinear(moves[m].lines, f, g, h, k);
    }
    SumSetLinear(ids, MoveSum(moves, f), MoveSum(moves, g), MoveSum(moves, h), k);
  }

  lemma LedgerSumSame(moves: map<Id, Move>, ids: set<Id>, f: Line -> int, g: Line -> int)
    requires forall m, i :: m in ids && m in moves && 0 <= i < |moves[m].lines| ==>
               f(moves[m].lines[i]) == g(moves[m].lines[i])
    ensures LedgerSum(moves, ids, f) == LedgerSum(moves, ids, g)
  {
    forall m | m in ids && m in moves
      ensures MoveSum(moves, f)(m) == MoveSum(moves, g)(m)
    {
      SumSeqSame(moves[m].lines, f, g);
    }
    SumSetSame(ids, MoveSum(moves, f), MoveSum(moves, g));
  }

  /** A measure v of the lines with one key: one group of an aggregate query. */
  function Select<K(==)>(key: Line -> K, k: K, v: Line -> int): Line -> int {
    (l: Line) => if key(l) == k then v(l) else 0
  }

  function AccountOf(l: Line): Id { l.account }

  function On(a: Id, v: Line -> int): Line -> int {
    Select(AccountOf, a, v)
  }

  lemma OnAt(l: Line, a: Id)
    ensures On(a, Net)(l) == if l.account == a then l.debit - l.credit else 0
    ensures On(a, Debit)(l) == if l.account == a then l.debit else 0
    ensures On(a, Credit)(l) == if l.account == a then l.credit else 0
  {
    assert AccountOf(l) == l.account && Net(l) == l.debit - l.credit && Debit(l) == l.debit && Credit(l) == l.credit;
  }

  /** A measure v weighted by key, on the lines with a key of one set. */
  ghost function Weighted<K(!new)>(key: Line -> K, keys: set<K>, weight: K -> int, v: Line -> int): Line -> int {
    (l: Line) => if key(l) in keys then weight(key(l)) * v(l) else 0
  }

  ghost function Term<K(!new)>(moves: map<Id, Move>, ids: set<Id>, key: Line -> K, weight: K -> int, v: Line -> int): K -> int {
    (k: K) => weight(k) * LedgerSum(moves, ids, Select(key, k, v))
  }

  lemma NothingWeighted<K(!new)>(moves: map<Id, Move>, ids: set<Id>, key: Line -> K, weight: K -> int, v: Line -> int)
    ensures LedgerSum(moves, ids, Weighted(key, {}, weight, v)) == 0
  {
    forall m | m in ids
      ensures MoveSum(moves, Weighted(key, {}, weight, v))(m) == 0
    {
      if m in moves {
        SumSeqZero(moves[m].lines, Weighted(key, {}, weight, v));
      }
    }
    SumSetZero(ids, MoveSum(moves, Weighted(key, {}, weight, v)));
  }

  /** The fold over groups that a report computes is the fold over the moves behind it. */
  lemma {:induction false} Regroup<K(!new)>(moves: map<Id, Move>, ids: set<Id>, key: Line -> K, keys: set<K>,
                                     weight: K -> int, v: Line -> int)
    ensures SumSet(keys, Term(moves, ids, key, weight, v)) == LedgerSum(moves, ids, Weighted(key, keys, weight, v))
    decreases keys
  {
    if keys == {} {
      NothingWeighted(moves, ids, key, weight, v);
    } else {
      var k :| k in keys;
      var rest := keys - {k};
      Regroup(moves, ids, key, rest, weight, v);
      SumSetPick(keys, k, Term(moves, ids, key, weight, v));
      LedgerSumLinear(moves, ids, Weighted(key, rest, weight, v), Select(key, k, v), Weighted(key, keys, weight, v), weight(k));
    }
  }

  /** Posted moves are balanced, so together they net to nothing. */
  lemma BalancedTotal(moves: map<Id, Move>, ids: set<Id>)
    requires forall m :: m in ids && m in moves ==> Balanced(moves[m].lines)
    ensures LedgerSum(moves, ids, Net) == 0
  {
    SumSetZero(ids, MoveSum(moves, Net));
  }

  lemma LedgerSumInsert(moves: map<Id, Move>, after: map<Id, Move>, ids: set<Id>, id: Id, w: Line -> int)
    requires id !in ids && id in after
    requires forall m :: m in ids ==> m in moves && m in after && after[m].lines == moves[m].lines
    ensures LedgerSum(after, ids + {id}, w) == LedgerSum(moves, ids, w) + SumSeq(after[id].lines, w)
  {
    SumSetAdd(ids, id, MoveSum(after, w));
    SumSetSame(ids, MoveSum(after, w), MoveSum(moves, w));
  }
}
