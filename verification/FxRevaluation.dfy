/** Revaluation of foreign positions: the draft it produces, its effect by account and its distance from the exact value. */
module FxRevaluation {
  import opened Sums
  import opened Ledger
  import opened Rounding
  import opened Tables
  import opened Steps

  /** SupportedCurrencies: the decimals of a currency. */
  function Exponent(currency: string): Option<nat> {
    if currency == "SAR" || currency == "USD" || currency == "EUR" || currency == "GBP" then Some(2)
    else if currency == "KWD" || currency == "BHD" then Some(3)
    else if currency == "JPY" then Some(0)
    else None
  }

  /** One minor unit of a currency, in units of 10^-4. */
  function MinorUnit(currency: string): (unit: nat)
    ensures unit > 0
  {
    match Exponent(currency)
    case Some(exponent) => if exponent == 0 then 10000 else if exponent == 2 then 100 else 10
    case None => 1
  }

  /** The rate is the positive fraction rate / scale. */
  datatype Position = Position(
    account: Id,
    kind: AccountType,
    partner: Option<Id>,
    costCenter: Option<Id>,
    currency: string,
    foreign: Amount,
    carrying: Amount,
    rate: int,
    scale: int)

  /** What a rate is as a decimal: its scale is a power of ten. */
  predicate WellScaled(p: Position) {
    p.scale > 0
  }

  /** The foreign amount at the closing rate, rounded to the minor unit. */
  function Revalued(p: Position, unit: nat): Amount
    requires unit > 0 && WellScaled(p)
  {
    RoundDiv(p.foreign * p.rate, p.scale * unit) * unit
  }

  function Delta(p: Position, unit: nat): Amount
    requires unit > 0 && WellScaled(p)
  {
    Revalued(p, unit) - RoundDiv(p.carrying, unit) * unit
  }

  /** The adjustment that the loop makes: none for a position without a foreign amount. */
  function Adjusted(p: Position, unit: nat): Amount
    requires unit > 0 && WellScaled(p)
  {
    if p.foreign == 0 then 0 else Delta(p, unit)
  }

  datatype Setup = Setup(base: string, gain: Id, loss: Id, date: Date)

  function AdjustmentLine(s: Setup, account: Id, p: Position, debit: Amount, credit: Amount): Line {
    Line(account, p.partner, p.costCenter, debit, credit, debit - credit, s.base, "", s.date)
  }

  function LinesFor(s: Setup, p: Position, delta: Amount): seq<Line> {
    if delta == 0 then []
    else if delta > 0 then [AdjustmentLine(s, p.account, p, delta, 0), AdjustmentLine(s, s.gain, p, 0, delta)]
    else [AdjustmentLine(s, s.loss, p, -delta, 0), AdjustmentLine(s, p.account, p, 0, -delta)]
  }

  predicate AllScaled(positions: seq<Position>) {
    forall i :: 0 <= i < |positions| ==> WellScaled(positions[i])
  }

  function Adjustments(s: Setup, positions: seq<Position>): seq<Line>
    requires AllScaled(positions)
  {
    if positions == [] then [] else
    var last := positions[|positions| - 1];
    Adjustments(s, positions[..|positions| - 1]) + LinesFor(s, last, Adjusted(last, MinorUnit(s.base)))
  }

  /** The tests on one position. */
  predicate IsMonetary(db: Db, s: Setup, p: Position) {
    && p.account != 0 && p.rate > 0
    && (p.kind == Asset || p.kind == Liability)
    && p.account != s.gain && p.account != s.loss
    && Exponent(p.currency).Some? && p.currency != s.base
    && ActiveOfKind(db, p.account, p.kind)
  }

  predicate AllMonetary(db: Db, s: Setup, positions: seq<Position>) {
    forall i :: 0 <= i < |positions| ==> IsMonetary(db, s, positions[i])
  }

  predicate IsSetUp(db: Db, s: Setup, journal: Id, period: Option<Id>) {
    && Exponent(s.base).Some?
    && journal in db.journals && db.journals[journal].active
    && ActiveOfKind(db, s.gain, Income) && ActiveOfKind(db, s.loss, Expense) && s.gain != s.loss
    && period.Some? && period.value in db.periods && db.periods[period.value].state == Open
  }

  lemma AdjustmentsGrow(s: Setup, positions: seq<Position>, i: nat)
    requires i < |positions| && AllScaled(positions)
    ensures AllScaled(positions[..i]) && AllScaled(positions[..i + 1])
    ensures Adjustments(s, positions[..i + 1])
            == Adjustments(s, positions[..i]) + LinesFor(s, positions[i], Adjusted(positions[i], MinorUnit(s.base)))
  {
    assert positions[..i + 1][..i] == positions[..i];
  }

  lemma PrefixScaled(positions: seq<Position>, i: nat)
    requires i <= |positions| && AllScaled(positions)
    ensures AllScaled(positions[..i])
  {
  }

  lemma Unchecked(db: Db, s: Setup)
    ensures AllMonetary(db, s, []) && Adjustments(s, []) == []
  {
  }

  lemma CheckedUpTo(db: Db, s: Setup, positions: seq<Position>, i: nat)
    requires i < |positions| && AllMonetary(db, s, positions[..i])
    ensures AllMonetary(db, s, positions[..i + 1]) <==> IsMonetary(db, s, positions[i])
    ensures !IsMonetary(db, s, positions[i]) ==> !AllMonetary(db, s, positions)
  {
    assert positions[..i + 1] == positions[..i] + [positions[i]];
  }

  /** The part of the loop that revalues one position and appends its lines. */
  method AppendLines(s: Setup, p: Position, unit: nat, lines: seq<Line>) returns (r: seq<Line>)
    requires unit > 0 && WellScaled(p)
    ensures r == lines + LinesFor(s, p, Adjusted(p, unit))
  {
    hide RoundDiv;
    if p.foreign == 0 {
      return lines;
    }
    var revalued := Revalued(p, unit);
    var delta := revalued - RoundDiv(p.carrying, unit) * unit;
    if delta == 0 {
      return lines;
    }
    var amount := Abs(delta);
    if delta > 0 {
      r := lines + [AdjustmentLine(s, p.account, p, amount, 0)];
      r := r + [AdjustmentLine(s, s.gain, p, 0, amount)];
    } else {
      r := lines + [AdjustmentLine(s, s.loss, p, amount, 0)];
      r := r + [AdjustmentLine(s, p.account, p, 0, amount)];
    }
  }

  /** The loop over the positions: the first position that fails a test ends it. */
  method CollectLines(db: Db, s: Setup, positions: seq<Position>) returns (ok: bool, lines: seq<Line>)
    requires AllScaled(positions)
    ensures ok <==> AllMonetary(db, s, positions)
    ensures ok ==> lines == Adjustments(s, positions)
  {
    hide Adjustments, AllMonetary, IsMonetary, LinesFor, Adjusted, MinorUnit, WellScaled;
    lines := [];
    Unchecked(db, s);
    assert positions[..0] == [] && AllScaled(positions[..0]) by { PrefixScaled(positions, 0); }
    for i := 0 to |positions|
      invariant AllScaled(positions[..i]) && AllMonetary(db, s, positions[..i])
      invariant lines == Adjustments(s, positions[..i])
    {
      AdjustmentsGrow(s, positions, i);
      CheckedUpTo(db, s, positions, i);
      if !IsMonetary(db, s, positions[i]) {
        return false, [];
      }
      lines := AppendLines(s, positions[i], MinorUnit(s.base), lines);
    }
    assert positions[..|positions|] == positions;
    ok := true;
  }

  const CURRENCIES := ["SAR", "USD", "EUR", "GBP", "KWD", "BHD", "JPY"]

  /** What the use case asks of its configuration: a supported base currency, an active journal, different active gain and loss accounts of
      type income and expense, and an open period. */
  lemma SetUpIs(db: Db, s: Setup, journal: Id, period: Option<Id>)
    ensures IsSetUp(db, s, journal, period) <==>
            && s.base in CURRENCIES && journal in db.journals && db.journals[journal].active
            && s.gain in db.accounts && db.accounts[s.gain].active && db.accounts[s.gain].kind == Income
            && s.loss in db.accounts && db.accounts[s.loss].active && db.accounts[s.loss].kind == Expense && s.gain != s.loss
            && period.Some? && period.value in db.periods && db.periods[period.value].state == Open
  {
    assert Exponent(s.base).Some? <==> s.base in CURRENCIES;
  }

  /** What it asks of every position: an active asset or liability account of the given type, neither gain nor loss, a positive rate and a
      supported currency other than the base currency. */
  lemma MonetaryIs(db: Db, s: Setup, positions: seq<Position>)
    ensures AllMonetary(db, s, positions) <==> forall i :: 0 <= i < |positions| ==>
              var p := positions[i];
              && p.account != 0 && p.account in db.accounts && db.accounts[p.account].active && db.accounts[p.account].kind == p.kind
              && (p.kind == Asset || p.kind == Liability) && p.account != s.gain && p.account != s.loss
              && p.rate > 0 && p.currency in CURRENCIES && p.currency != s.base
  {
    forall i | 0 <= i < |positions|
      ensures Exponent(positions[i].currency).Some? <==> positions[i].currency in CURRENCIES
    {
    }
    hide Exponent;
  }

  /** There are lines exactly if some position is adjusted. */
  lemma {:induction false} SomeAdjusted(s: Setup, positions: seq<Position>)
    requires AllScaled(positions)
    ensures Adjustments(s, positions) != [] <==> exists i :: 0 <= i < |positions| && Adjusted(positions[i], MinorUnit(s.base)) != 0
  {
    hide Adjusted, MinorUnit;
    if positions != [] {
      var n := |positions| - 1;
      SomeAdjusted(s, positions[..n]);
    }
  }

  /** RevalueFXUseCase.Execute up to the save of the draft: the lines of the draft, which are always balanced. It fails for an unsound setup
      or position, and where no position is adjusted. */
  method Revalue(db: Db, s: Setup, journal: Id, period: Option<Id>, positions: seq<Position>) returns (r: Result<seq<Line>>)
    requires AllScaled(positions)
    ensures r.Ok? <==>
            && s.base in CURRENCIES && journal in db.journals && db.journals[journal].active
            && s.gain in db.accounts && db.accounts[s.gain].active && db.accounts[s.gain].kind == Income
            && s.loss in db.accounts && db.accounts[s.loss].active && db.accounts[s.loss].kind == Expense && s.gain != s.loss
            && period.Some? && period.value in db.periods && db.periods[period.value].state == Open
            && (forall i :: 0 <= i < |positions| ==>
                  var p := positions[i];
                  && p.account != 0 && p.account in db.accounts && db.accounts[p.account].active && db.accounts[p.account].kind == p.kind
                  && (p.kind == Asset || p.kind == Liability) && p.account != s.gain && p.account != s.loss
                  && p.rate > 0 && p.currency in CURRENCIES && p.currency != s.base)
            && exists i :: 0 <= i < |positions| && Adjusted(positions[i], MinorUnit(s.base)) != 0
    ensures r.Ok? ==> r.value == Adjustments(s, positions) && Balanced(r.value)
  {
    SetUpIs(db, s, journal, period);
    MonetaryIs(db, s, positions);
    SomeAdjusted(s, positions);
    hide Adjustments, AllMonetary, Exponent, ActiveOfKind, Balanced, Adjusted, MinorUnit;
    if Exponent(s.base).None? {
      return Err(InvalidRequest);
    }
    if journal !in db.journals || !db.journals[journal].active {
      return Err(JournalInactive);
    }
    if !ActiveOfKind(db, s.gain, Income) || !ActiveOfKind(db, s.loss, Expense) || s.gain == s.loss {
      return Err(BadFxAccounts);
    }
    if period.None? || period.value !in db.periods {
      return Err(PeriodNotFound);
    }
    if db.periods[period.value].state != Open {
      return Err(PeriodClosed);
    }
    var ok, lines := CollectLines(db, s, positions);
    if !ok || |lines| == 0 {
      return Err(InvalidRequest);
    }
    AdjustmentsBalanced(s, positions);
    var offence := ValidateBalance(lines);
    if offence.Some? {
      return Err(InvalidMove);
    }
    return Ok(lines);
  }

  // What the lines do.

  lemma PairSum(a: Line, b: Line, f: Line -> int)
    ensures SumSeq([a, b], f) == f(a) + f(b)
  {
    var pair := [a, b];
    assert pair[..|pair| - 1] == [a] && [a][..|[a]| - 1] == [];
    assert SumSeq([a], f) == f(a);
  }

  lemma PairBalanced(s: Setup, p: Position, delta: Amount)
    ensures SumSeq(LinesFor(s, p, delta), Net) == 0 && |LinesFor(s, p, delta)| == if delta == 0 then 0 else 2
    ensures forall i :: 0 <= i < |LinesFor(s, p, delta)| ==> SoundLine(LinesFor(s, p, delta)[i])
  {
    var added := LinesFor(s, p, delta);
    if delta != 0 {
      PairSum(added[0], added[1], Net);
    }
  }

  /** For any position list the lines are sound and net to nothing. */
  lemma {:induction false} AdjustmentsBalanced(s: Setup, positions: seq<Position>)
    requires AllScaled(positions)
    ensures Adjustments(s, positions) != [] ==> Balanced(Adjustments(s, positions))
    ensures SumSeq(Adjustments(s, positions), Net) == 0 && |Adjustments(s, positions)| % 2 == 0
    ensures forall i :: 0 <= i < |Adjustments(s, positions)| ==> SoundLine(Adjustments(s, positions)[i])
  {
    hide Adjusted, MinorUnit;
    if positions != [] {
      var n := |positions| - 1;
      AdjustmentsBalanced(s, positions[..n]);
      var delta := Adjusted(positions[n], MinorUnit(s.base));
      var added := LinesFor(s, positions[n], delta);
      SumSeqConcat(Adjustments(s, positions[..n]), added, Net);
      PairBalanced(s, positions[n], delta);
    }
  }

  /** What a position contributes to a measure of the lines. */
  function Contribution(s: Setup, f: Line -> int): Position -> int {
    (p: Position) => if WellScaled(p) then SumSeq(LinesFor(s, p, Adjusted(p, MinorUnit(s.base))), f) else 0
  }

  lemma {:induction false} ByPosition(s: Setup, positions: seq<Position>, f: Line -> int)
    requires AllScaled(positions)
    ensures SumSeq(Adjustments(s, positions), f) == SumSeq(positions, Contribution(s, f))
  {
    if positions != [] {
      var n := |positions| - 1;
      ByPosition(s, positions[..n], f);
      SumSeqConcat(Adjustments(s, positions[..n]), LinesFor(s, positions[n], Adjusted(positions[n], MinorUnit(s.base))), f);
    }
  }

  function Deltas(unit: nat): Position -> int
    requires unit > 0
  {
    (p: Position) => if WellScaled(p) then Adjusted(p, unit) else 0
  }

  function DeltasOn(unit: nat, a: Id): Position -> int
    requires unit > 0
  {
    (p: Position) => if p.account == a then Deltas(unit)(p) else 0
  }

  function Gains(unit: nat): Position -> int
    requires unit > 0
  {
    (p: Position) => if Deltas(unit)(p) > 0 then Deltas(unit)(p) else 0
  }

  function Losses(unit: nat): Position -> int
    requires unit > 0
  {
    (p: Position) => if Deltas(unit)(p) < 0 then -Deltas(unit)(p) else 0
  }

  predicate AvoidsResultAccounts(s: Setup, positions: seq<Position>) {
    s.gain != s.loss && forall i :: 0 <= i < |positions| ==> positions[i].account != s.gain && positions[i].account != s.loss
  }

  /** The sums of the lines of one position on an account. */
  lemma PairOn(s: Setup, p: Position, delta: Amount, a: Id)
    ensures var lines := LinesFor(s, p, delta);
            var first, second := if delta > 0 then p.account else s.loss, if delta > 0 then s.gain else p.account;
            && SumSeq(lines, On(a, Debit)) == (if first == a then Abs(delta) else 0)
            && SumSeq(lines, On(a, Credit)) == (if second == a then Abs(delta) else 0)
            && SumSeq(lines, On(a, Net)) == (if first == a then Abs(delta) else 0) - (if second == a then Abs(delta) else 0)
  {
    hide On;
    var lines := LinesFor(s, p, delta);
    if delta == 0 {
      NoLines(On(a, Debit));
      NoLines(On(a, Credit));
      NoLines(On(a, Net));
    } else {
      OnAt(lines[0], a);
      OnAt(lines[1], a);
      PairSum(lines[0], lines[1], On(a, Debit));
      PairSum(lines[0], lines[1], On(a, Credit));
      PairSum(lines[0], lines[1], On(a, Net));
    }
  }

  lemma OnePosition(s: Setup, p: Position, a: Id)
    requires WellScaled(p) && p.account != s.gain && p.account != s.loss && s.gain != s.loss
    ensures a != s.gain && a != s.loss ==> Contribution(s, On(a, Net))(p) == DeltasOn(MinorUnit(s.base), a)(p)
    ensures Contribution(s, On(s.gain, Credit))(p) == Gains(MinorUnit(s.base))(p)
    ensures Contribution(s, On(s.loss, Debit))(p) == Losses(MinorUnit(s.base))(p)
    ensures Contribution(s, On(s.gain, Debit))(p) == 0 && Contribution(s, On(s.loss, Credit))(p) == 0
  {
    hide SumSeq, Adjusted, MinorUnit, On, LinesFor;
    var delta := Adjusted(p, MinorUnit(s.base));
    PairOn(s, p, delta, a);
    PairOn(s, p, delta, s.gain);
    PairOn(s, p, delta, s.loss);
    var unit := MinorUnit(s.base);
    assert Deltas(unit)(p) == delta;
    assert DeltasOn(unit, a)(p) == if p.account == a then delta else 0;
    assert Gains(unit)(p) == if delta > 0 then delta else 0;
    assert Losses(unit)(p) == if delta < 0 then -delta else 0;
    assert forall f :: Contribution(s, f)(p) == SumSeq(LinesFor(s, p, delta), f);
  }

  lemma NoLines(f: Line -> int)
    ensures SumSeq([], f) == 0
  {
  }

  /** The net effect on a position account is the sum of its deltas. Gains are credited and losses debited in full, so all
      deltas together are gains less losses. */
  lemma EffectByAccount(s: Setup, positions: seq<Position>, a: Id)
    requires AllScaled(positions) && AvoidsResultAccounts(s, positions) && a != s.gain && a != s.loss
    ensures var lines, unit := Adjustments(s, positions), MinorUnit(s.base);
            && SumSeq(lines, On(a, Net)) == SumSeq(positions, DeltasOn(unit, a))
            && SumSeq(lines, On(s.gain, Credit)) == SumSeq(positions, Gains(unit)) && SumSeq(lines, On(s.gain, Debit)) == 0
            && SumSeq(lines, On(s.loss, Debit)) == SumSeq(positions, Losses(unit)) && SumSeq(lines, On(s.loss, Credit)) == 0
            && SumSeq(positions, Deltas(unit)) == SumSeq(lines, On(s.gain, Credit)) - SumSeq(lines, On(s.loss, Debit))
  {
    var unit := MinorUnit(s.base);
    forall i | 0 <= i < |positions|
      ensures a != s.gain && a != s.loss ==> Contribution(s, On(a, Net))(positions[i]) == DeltasOn(unit, a)(positions[i])
      ensures Contribution(s, On(s.gain, Credit))(positions[i]) == Gains(unit)(positions[i])
      ensures Contribution(s, On(s.loss, Debit))(positions[i]) == Losses(unit)(positions[i])
      ensures Contribution(s, On(s.gain, Debit))(positions[i]) == 0 && Contribution(s, On(s.loss, Credit))(positions[i]) == 0
    {
      OnePosition(s, positions[i], a);
    }
    hide Contribution, Adjustments, SumSeq, DeltasOn, On;
    ByPosition(s, positions, On(a, Net));
    ByPosition(s, positions, On(s.gain, Credit));
    ByPosition(s, positions, On(s.loss, Debit));
    ByPosition(s, positions, On(s.gain, Debit));
    ByPosition(s, positions, On(s.loss, Credit));
    SumSeqSame(positions, Contribution(s, On(a, Net)), DeltasOn(unit, a));
    SumSeqSame(positions, Contribution(s, On(s.gain, Credit)), Gains(unit));
    SumSeqSame(positions, Contribution(s, On(s.loss, Debit)), Losses(unit));
    SumSeqZero(positions, Contribution(s, On(s.gain, Debit)));
    SumSeqZero(positions, Contribution(s, On(s.loss, Credit)));
    SumSeqLinear(positions, Gains(unit), Losses(unit), Deltas(unit), -1);
  }

  /** After the adjustment a position is worth foreign * rate up to one minor unit: half a unit for each rounding. */
  lemma WithinOneUnit(p: Position, unit: nat)
    requires unit > 0 && WellScaled(p) && p.foreign != 0
    ensures Abs(p.scale * (p.carrying + Adjusted(p, unit)) - p.foreign * p.rate) <= p.scale * unit
  {
    hide RoundDiv;
    var x, k := p.foreign * p.rate, p.scale;
    var q, c := RoundDiv(x, k * unit), RoundDiv(p.carrying, unit);
    RoundDivNearest(x, k * unit);
    RoundDivNearest(p.carrying, unit);
    assert k * unit * q == k * (q * unit);
    ScaleBound(2 * (p.carrying - unit * c), unit, k);
    assert unit * c == c * unit;
    Spread(k, p.carrying, c * unit, q * unit, x);
  }

  lemma Spread(k: int, carrying: int, c: int, q: int, x: int)
    ensures 2 * (k * (carrying + (q - c)) - x) == k * (2 * (carrying - c)) + 2 * (k * q - x)
  {
    assert k * (carrying + (q - c)) == k * (carrying - c) + k * q;
    assert k * (2 * (carrying - c)) == 2 * (k * (carrying - c));
  }

  /** The adjustments are booked in the base currency: no foreign group changes, so the same positions come back next time. */
  lemma ForeignGroupsUntouched(s: Setup, positions: seq<Position>, g: Group)
    requires AllScaled(positions) && g.currency != s.base
    ensures SumSeq(Adjustments(s, positions), InGroup(g, Net)) == 0 && SumSeq(Adjustments(s, positions), InGroup(g, Foreign)) == 0
  {
    InBase(s, positions);
    hide Adjustments;
    var lines := Adjustments(s, positions);
    forall i | 0 <= i < |lines|
      ensures InGroup(g, Net)(lines[i]) == 0 && InGroup(g, Foreign)(lines[i]) == 0
    {
      assert lines[i].currency != g.currency;
      assert GroupOf(lines[i]) != g;
    }
    SumSeqZero(Adjustments(s, positions), InGroup(g, Net));
    SumSeqZero(Adjustments(s, positions), InGroup(g, Foreign));
  }

  lemma {:induction false} InBase(s: Setup, positions: seq<Position>)
    requires AllScaled(positions)
    ensures forall i :: 0 <= i < |Adjustments(s, positions)| ==> Adjustments(s, positions)[i].currency == s.base
  {
    if positions != [] {
      InBase(s, positions[..|positions| - 1]);
    }
  }

  /** The adjustment of a position with a foreign amount is a difference of whole minor units of the base currency: foreign amount times rate,
      less the carrying amount, each to the nearest minor unit. */
  lemma AdjustedNearest(s: Setup, p: Position, unit: nat) returns (q: int, c: int)
    requires WellScaled(p) && p.foreign != 0
    requires || ((s.base == "SAR" || s.base == "USD" || s.base == "EUR" || s.base == "GBP") && unit == 100)
             || ((s.base == "KWD" || s.base == "BHD") && unit == 10)
             || (s.base == "JPY" && unit == 10000)
    ensures Adjusted(p, MinorUnit(s.base)) == q * unit - c * unit
    ensures p.scale * unit > 0 && IsNearest(p.foreign * p.rate, p.scale * unit, q) && IsNearest(p.carrying, unit, c)
  {
    MinorUnitIs(s.base, unit);
    hide RoundDiv, MinorUnit;
    q, c := RoundDiv(p.foreign * p.rate, p.scale * unit), RoundDiv(p.carrying, unit);
    RoundDivNearest(p.foreign * p.rate, p.scale * unit);
    RoundDivNearest(p.carrying, unit);
  }

  lemma MinorUnitIs(currency: string, unit: nat)
    requires || ((currency == "SAR" || currency == "USD" || currency == "EUR" || currency == "GBP") && unit == 100)
             || ((currency == "KWD" || currency == "BHD") && unit == 10)
             || (currency == "JPY" && unit == 10000)
    ensures unit == MinorUnit(currency)
  {
  }

  /** Every line carries partner and cost centre of a position, is on its account or on gain or loss, has its own net as its amount in the base
      currency, and the date of the revaluation. */
  predicate IsLineOf(l: Line, s: Setup, p: Position) {
    && l.partner == p.partner && l.costCenter == p.costCenter && (l.account == p.account || l.account == s.gain || l.account == s.loss)
    && l.amountCurrency == l.debit - l.credit && l.currency == s.base && l.matching == "" && l.date == s.date
  }

  /** The lines come in pairs, one pair for each adjusted position, in the order of the positions. */
  lemma {:induction false} LinesByPosition(s: Setup, positions: seq<Position>) returns (at: seq<nat>)
    requires AllScaled(positions)
    ensures |Adjustments(s, positions)| == 2 * |at|
    ensures forall j, k :: 0 <= j < k < |at| ==> at[j] < at[k]
    ensures forall k :: 0 <= k < |at| ==>
              && at[k] < |positions| && Adjusted(positions[at[k]], MinorUnit(s.base)) != 0
              && IsLineOf(Adjustments(s, positions)[2 * k], s, positions[at[k]]) && IsLineOf(Adjustments(s, positions)[2 * k + 1], s, positions[at[k]])
  {
    hide Adjusted, MinorUnit, IsLineOf;
    if positions == [] {
      at := [];
    } else {
      var n := |positions| - 1;
      at := LinesByPosition(s, positions[..n]);
      var delta := Adjusted(positions[n], MinorUnit(s.base));
      PairFields(s, positions[n], delta);
      if delta != 0 {
        at := at + [n];
      }
    }
  }

  lemma PairFields(s: Setup, p: Position, delta: Amount)
    ensures |LinesFor(s, p, delta)| == if delta == 0 then 0 else 2
    ensures forall i :: 0 <= i < |LinesFor(s, p, delta)| ==> IsLineOf(LinesFor(s, p, delta)[i], s, p)
  {
  }

  // Negated positions.

  function Negated(p: Position): Position {
    p.(foreign := -p.foreign, carrying := -p.carrying)
  }

  function AllNegated(positions: seq<Position>): seq<Position> {
    seq(|positions|, i requires 0 <= i < |positions| => Negated(positions[i]))
  }

  /** The mirror of a line, with gain and loss exchanged. */
  function Flipped(s: Setup, l: Line): Line {
    Mirror(l, l.date, l.matching).(account := if l.account == s.gain then s.loss else if l.account == s.loss then s.gain else l.account)
  }

  /** Pair by pair: the position's line and the gain or loss line change places. */
  ghost predicate FlippedPairs(s: Setup, lines: seq<Line>, other: seq<Line>) {
    && |lines| == |other| && |lines| % 2 == 0
    && forall k :: 0 <= 2 * k < |lines| ==> other[2 * k] == Flipped(s, lines[2 * k + 1]) && other[2 * k + 1] == Flipped(s, lines[2 * k])
  }

  lemma DeltaNegates(p: Position, unit: nat)
    requires unit > 0 && WellScaled(p)
    ensures Adjusted(Negated(p), unit) == -Adjusted(p, unit)
  {
    hide RoundDiv;
    var q, c := RoundDiv(p.foreign * p.rate, p.scale * unit), RoundDiv(p.carrying, unit);
    RoundDivNegates(p.foreign * p.rate, p.scale * unit);
    RoundDivNegates(p.carrying, unit);
    NegatedProduct(p.foreign, p.rate);
    NegatedProduct(q, unit);
    NegatedProduct(c, unit);
  }

  lemma NegatedProduct(a: int, b: int)
    ensures -a * b == -(a * b)
  {
  }

  lemma PairFlips(s: Setup, p: Position, delta: Amount)
    requires p.account != s.gain && p.account != s.loss && s.gain != s.loss
    ensures FlippedPairs(s, LinesFor(s, p, delta), LinesFor(s, Negated(p), -delta))
  {
  }

  /** Negating all positions mirrors the draft, with gains as losses and losses as gains. */
  lemma {:induction false} NegationMirrors(s: Setup, positions: seq<Position>)
    requires AllScaled(positions) && AvoidsResultAccounts(s, positions)
    ensures AllScaled(AllNegated(positions))
    ensures FlippedPairs(s, Adjustments(s, positions), Adjustments(s, AllNegated(positions)))
  {
    hide Adjusted, MinorUnit, FlippedPairs, LinesFor;
    if positions == [] {
      Nothing(s);
    } else {
      var n := |positions| - 1;
      NegationMirrors(s, positions[..n]);
      PairFlips(s, positions[n], Adjusted(positions[n], MinorUnit(s.base)));
      assert AllNegated(positions)[..n] == AllNegated(positions[..n]);
      DeltaNegates(positions[n], MinorUnit(s.base));
      var delta := Adjusted(positions[n], MinorUnit(s.base));
      PairsJoin(s, Adjustments(s, positions[..n]), Adjustments(s, AllNegated(positions[..n])),
                LinesFor(s, positions[n], delta), LinesFor(s, Negated(positions[n]), -delta));
    }
  }

  lemma Nothing(s: Setup)
    ensures FlippedPairs(s, [], [])
  {
  }

  lemma PairsJoin(s: Setup, a: seq<Line>, b: seq<Line>, c: seq<Line>, d: seq<Line>)
    requires FlippedPairs(s, a, b) && FlippedPairs(s, c, d)
    ensures FlippedPairs(s, a + c, b + d)
  {
    var m := |a| / 2;
    forall k | 0 <= 2 * k < |a + c|
      ensures (b + d)[2 * k] == Flipped(s, (a + c)[2 * k + 1]) && (b + d)[2 * k + 1] == Flipped(s, (a + c)[2 * k])
    {
      if 2 * k < |a| {
        assert b[2 * k] == Flipped(s, a[2 * k + 1]);
      } else {
        var t := k - m;
        assert d[2 * t] == Flipped(s, c[2 * t + 1]);
      }
    }
  }
}
