/** ByteSize: a 64-bit count of bytes, printed with the largest exact unit and read back from text. */
module ByteSizes {
  import opened Ledger
  import opened Text

  const KILO := 1024
  const MEGA := 1024 * KILO
  const GIGA := 1024 * MEGA
  const TERA := 1024 * GIGA
  const MAX_INT64 := 0x7FFF_FFFF_FFFF_FFFF

  predicate IsInt64(b: int) {
    -MAX_INT64 - 1 <= b <= MAX_INT64
  }

  /** ByteSize.String. Only the last case prints a negative count. */
  function Print(b: int): string {
    if b >= TERA && b % TERA == 0 then Decimal(b / TERA) + "TB"
    else if b >= GIGA && b % GIGA == 0 then Decimal(b / GIGA) + "GB"
    else if b >= MEGA && b % MEGA == 0 then Decimal(b / MEGA) + "MB"
    else if b >= KILO && b % KILO == 0 then Decimal(b / KILO) + "KB"
    else Signed(b) + "B"
  }

  // Reading.

  datatype ParseError = BadNumber | UnknownUnit | OutOfRange

  datatype Parsed = Size(bytes: int) | Failed(error: ParseError)

  /** unicode.IsSpace */
  predicate IsSpace(c: char) {
    || '\t' <= c <= '\r' || c == ' ' || c == '\U{85}' || c == '\U{A0}' || c == '\U{1680}' || '\U{2000}' <= c <= '\U{200A}'
    || c == '\U{2028}' || c == '\U{2029}' || c == '\U{202F}' || c == '\U{205F}' || c == '\U{3000}'
  }

  predicate IsDigit(c: char) {
    '0' <= c <= '9'
  }

  predicate InNumber(c: char) {
    IsDigit(c) || c == '.'
  }

  function TrimLeft(s: string): string {
    if s != [] && IsSpace(s[0]) then TrimLeft(s[1..]) else s
  }

  function TrimRight(s: string): string {
    if s != [] && IsSpace(s[|s| - 1]) then TrimRight(s[..|s| - 1]) else s
  }

  /** strings.TrimSpace */
  function Trim(s: string): string {
    TrimRight(TrimLeft(s))
  }

  /** The upper case of a character as far as it is an ASCII letter: dotless i and long s have one too. */
  function Upper(c: char): char {
    if 'a' <= c <= 'z' then c - 'a' + 'A'
    else if c == '\U{131}' then 'I'
    else if c == '\U{17F}' then 'S'
    else c
  }

  function UpperAll(s: string): string {
    seq(|s|, i requires 0 <= i < |s| => Upper(s[i]))
  }

  /** The length of the longest prefix of digits and points. */
  function NumberEnd(s: string): (n: nat)
    ensures n <= |s| && IsNumeric(s[..n])
    ensures n < |s| ==> !InNumber(s[n])
  {
    if s == [] || !InNumber(s[0]) then 0 else 1 + NumberEnd(s[1..])
  }

  predicate AllDigits(s: string) {
    forall i :: 0 <= i < |s| ==> IsDigit(s[i])
  }

  predicate IsNumeric(s: string) {
    forall i :: 0 <= i < |s| ==> InNumber(s[i])
  }

  function DigitValue(c: char): nat
    requires IsDigit(c)
  {
    c as int - '0' as int
  }

  function Value(digits: string): nat
    requires AllDigits(digits)
  {
    if digits == [] then 0
    else 10 * Value(digits[..|digits| - 1]) + DigitValue(digits[|digits| - 1])
  }

  function Product(a: nat, b: nat): nat { a * b }

  function Quotient(a: nat, b: nat): nat
    requires b > 0
  {
    a / b
  }

  /** units / 10^scale */
  datatype Number = Number(units: nat, scale: nat)

  function PointAt(s: string): (n: nat)
    ensures n <= |s| && (n < |s| ==> s[n] == '.') && forall i :: 0 <= i < n ==> s[i] != '.'
  {
    if s == [] || s[0] == '.' then 0 else 1 + PointAt(s[1..])
  }

  /** decimal.NewFromString on digits and points: at most one point, at least one digit. */
  function ReadNumber(s: string): Option<Number>
    requires IsNumeric(s)
  {
    var p := PointAt(s);
    var before, behind := s[..p], if p < |s| then s[p + 1..] else [];
    if PointAt(behind) < |behind| || before + behind == [] then None else
    assert AllDigits(before) && AllDigits(behind);
    assert AllDigits(before + behind);
    Some(Number(Value(before + behind), |behind|))
  }

  function Multiplier(unit: string): Option<nat> {
    if unit == "" || unit == "B" || unit == "BYTES" then Some(1)
    else if unit == "K" || unit == "KB" || unit == "KIB" then Some(KILO)
    else if unit == "M" || unit == "MB" || unit == "MIB" then Some(MEGA)
    else if unit == "G" || unit == "GB" || unit == "GIB" then Some(GIGA)
    else if unit == "T" || unit == "TB" || unit == "TIB" then Some(TERA)
    else None
  }

  /** The size that a number and a multiplier stand for, without its fraction. */
  function Scaled(number: Number, multiplier: nat): nat {
    Quotient(Product(number.units, multiplier), Pow10(number.scale))
  }

  function ParseTrimmed(t: string): Parsed {
    var end := NumberEnd(t);
    var number, multiplier := ReadNumber(t[..end]), Multiplier(UpperAll(Trim(t[end..])));
    if number.None? then Failed(BadNumber)
    else if multiplier.None? then Failed(UnknownUnit)
    else if Scaled(number.value, multiplier.value) > MAX_INT64 then Failed(OutOfRange)
    else Size(Scaled(number.value, multiplier.value))
  }

  function Parse(s: string): Parsed {
    var t := Trim(s);
    if t == "" then Size(0) else ParseTrimmed(t)
  }

  /** ParseByteSize */
  method ParseByteSize(s: string) returns (r: Parsed)
    ensures r == Parse(s)
    ensures r.Size? ==> IsInt64(r.bytes) && r.bytes >= 0
  {
    var t := Trim(s);
    if t == "" {
      return Size(0);
    }
    var i := 0;
    while i < |t| && InNumber(t[i])
      invariant i <= |t| && IsNumeric(t[..i])
    {
      i := i + 1;
    }
    EndUnique(t, i);
    NumbersHaveNoSpace(t[..i]);
    var number := ReadNumber(Trim(t[..i]));
    if number.None? {
      return Failed(BadNumber);
    }
    var multiplier := Multiplier(UpperAll(Trim(t[i..])));
    if multiplier.None? {
      return Failed(UnknownUnit);
    }
    var size := Scaled(number.value, multiplier.value);
    if size > MAX_INT64 {
      return Failed(OutOfRange);
    }
    return Size(size);
  }

  lemma {:induction false} EndUnique(s: string, i: nat)
    requires i <= |s| && IsNumeric(s[..i]) && (i < |s| ==> !InNumber(s[i]))
    ensures NumberEnd(s) == i
  {
    hide InNumber;
    if i > 0 {
      assert s[..i][0] == s[0] && s[1..][..i - 1] == s[..i][1..];
      EndUnique(s[1..], i - 1);
    }
  }

  lemma NumbersHaveNoSpace(s: string)
    requires IsNumeric(s)
    ensures Trim(s) == s
  {
  }

  // Round trip.

  lemma {:induction false} ValueOfPrinted(n: nat, w: nat)
    ensures Value(PadTo(n, w)) == n
    decreases n + w
  {
    if n < 10 && w <= 1 {
      assert PadTo(n, w)[..0] == [];
    } else {
      var v := if w > 1 then w - 1 else 1;
      ValueOfPrinted(n / 10, v);
      assert PadTo(n, w)[..|PadTo(n, w)| - 1] == PadTo(n / 10, v);
    }
  }

  lemma DigitsBeforeUnit(digits: string, unit: string)
    requires digits != [] && IsNumeric(digits)
    requires unit != [] ==> !InNumber(unit[0]) && !IsSpace(unit[0]) && !IsSpace(unit[|unit| - 1])
    ensures Trim(digits + unit) == digits + unit
    ensures NumberEnd(digits + unit) == |digits| && (digits + unit)[..|digits|] == digits && (digits + unit)[|digits|..] == unit
    ensures Trim(unit) == unit
  {
    var t := digits + unit;
    if unit == [] {
      assert t == digits;
      NumbersHaveNoSpace(digits);
    } else {
      assert t[|t| - 1] == unit[|unit| - 1];
    }
    EndUnique(t, |digits|);
  }

  lemma NoPoint(digits: string)
    requires digits != [] && AllDigits(digits)
    ensures ReadNumber(digits) == Some(Number(Value(digits), 0))
  {
    PointUnique(digits, |digits|);
    assert digits[..|digits|] + [] == digits;
  }

  /** The text of a unit, in any case, and the bytes it stands for. */
  predicate Means(unit: string, bytes: nat) {
    var name := UpperAll(unit);
    || ((name == "" || name == "B" || name == "BYTES") && bytes == 1)
    || ((name == "K" || name == "KB" || name == "KIB") && bytes == 1024)
    || ((name == "M" || name == "MB" || name == "MIB") && bytes == 1_048_576)
    || ((name == "G" || name == "GB" || name == "GIB") && bytes == 1_073_741_824)
    || ((name == "T" || name == "TB" || name == "TIB") && bytes == 1_099_511_627_776)
  }

  predicate IsLetter(c: char) {
    'A' <= c <= 'Z'
  }

  lemma LetterIsPlain(c: char)
    requires IsLetter(Upper(c))
    ensures !InNumber(c) && !IsSpace(c)
  {
  }

  lemma UnitText(unit: string, bytes: nat)
    requires Means(unit, bytes)
    ensures unit != [] ==> !InNumber(unit[0]) && !IsSpace(unit[0]) && !IsSpace(unit[|unit| - 1])
    ensures Multiplier(UpperAll(unit)) == Some(bytes)
  {
    if unit != [] {
      var name := UpperAll(unit);
      assert name[0] == Upper(unit[0]) && name[|unit| - 1] == Upper(unit[|unit| - 1]);
      assert IsLetter(name[0]) && IsLetter(name[|name| - 1]);
      LetterIsPlain(unit[0]);
      LetterIsPlain(unit[|unit| - 1]);
    }
  }

  lemma NumberThenUnit(digits: string, number: Number, unit: string, bytes: nat)
    requires digits != [] && IsNumeric(digits) && ReadNumber(digits) == Some(number) && Means(unit, bytes)
    ensures var size := Scaled(number, bytes);
            Parse(digits + unit) == if size <= MAX_INT64 then Size(size) else Failed(OutOfRange)
  {
    hide NumberEnd, ReadNumber, Trim, Scaled, Multiplier, InNumber, Means, IsSpace;
    UnitText(unit, bytes);
    DigitsBeforeUnit(digits, unit);
    assert digits + unit != "";
  }

  lemma PrintedIsNumeric(n: nat)
    ensures AllDigits(Decimal(n)) && IsNumeric(Decimal(n)) && Decimal(n) != []
  {
  }

  /** A printed number and the text of a unit, in any case, are read as their product. */
  lemma PrintedParses(n: nat, unit: string, bytes: nat)
    requires Means(unit, bytes) && n * bytes <= MAX_INT64
    ensures Parse(Decimal(n) + unit) == Size(n * bytes)
  {
    hide Decimal, ReadNumber, Value, Parse, Means;
    PrintedIsNumeric(n);
    PrintedValue(n);
    NoPoint(Decimal(n));
    NumberThenUnit(Decimal(n), Number(n, 0), unit, bytes);
    assert Pow10(0) == 1;
  }

  lemma PrintedValue(n: nat)
    ensures AllDigits(Decimal(n)) && Value(Decimal(n)) == n
  {
    ValueOfPrinted(n, 1);
  }

  lemma NegativeFails(b: int)
    requires b < 0
    ensures Parse(Signed(b) + "B") == Failed(BadNumber)
  {
    var t := Signed(b) + "B";
    assert t[0] == '-' && t[|t| - 1] == 'B';
    assert TrimLeft(t) == t && TrimRight(t) == t;
    assert NumberEnd(t) == 0;
    assert t[..0] == [];
  }

  /** Reading back what was printed gives the same size exactly for the counts that are not negative. */
  lemma RoundTrip(b: int)
    requires IsInt64(b)
    ensures Parse(Print(b)) == Size(b) <==> b >= 0
    ensures b < 0 ==> Parse(Print(b)) == Failed(BadNumber)
  {
    hide Parse, PadTo;
    if b < 0 {
      NegativeFails(b);
    } else if b >= TERA && b % TERA == 0 {
      PrintedParses(b / TERA, "TB", TERA);
    } else if b >= GIGA && b % GIGA == 0 {
      PrintedParses(b / GIGA, "GB", GIGA);
    } else if b >= MEGA && b % MEGA == 0 {
      PrintedParses(b / MEGA, "MB", MEGA);
    } else if b >= KILO && b % KILO == 0 {
      PrintedParses(b / KILO, "KB", KILO);
    } else {
      PrintedParses(b, "B", 1);
    }
  }

  /** A positive count is printed with the largest of the five units that divides it. */
  lemma PrintsLargestUnit(b: nat, unit: string, bytes: nat)
    requires b > 0 && (unit == "B" || unit == "KB" || unit == "MB" || unit == "GB" || unit == "TB") && Means(unit, bytes)
    requires b % bytes == 0 && (unit != "TB" ==> b % (1024 * bytes) != 0)
    ensures Print(b) == Decimal(b / bytes) + unit
  {
    hide Decimal, Means;
    BytesOf(unit, bytes);
    if b % TERA == 0 {
      NextDivides(b, GIGA);
    }
    if b % GIGA == 0 {
      NextDivides(b, MEGA);
    }
    if b % MEGA == 0 {
      NextDivides(b, KILO);
    }
    AtLeast(b, bytes);
  }

  lemma BytesOf(unit: string, bytes: nat)
    requires (unit == "B" || unit == "KB" || unit == "MB" || unit == "GB" || unit == "TB") && Means(unit, bytes)
    ensures bytes == if unit == "B" then 1 else if unit == "KB" then KILO else if unit == "MB" then MEGA else if unit == "GB" then GIGA else TERA
  {
    assert UpperAll(unit) == unit;
  }

  lemma NextDivides(b: nat, k: nat)
    requires k > 0 && b % (1024 * k) == 0
    ensures b % k == 0
  {
    var q := b / (1024 * k);
    assert b == 1024 * k * q == k * (1024 * q);
    MultipleHasNoRest(k, 1024 * q);
  }

  lemma MultipleHasNoRest(k: nat, q: nat)
    requires k > 0
    ensures (k * q) % k == 0
  {
    var n := k * q;
    NoMultipleBetween(k, q - n / k, n % k);
  }

  lemma NoMultipleBetween(k: int, e: int, r: int)
    requires 0 <= r < k && k * e == r
    ensures r == 0
  {
  }

  lemma AtLeast(b: nat, k: nat)
    requires b > 0 && k > 0 && b % k == 0
    ensures b >= k
  {
  }

  /** A decimal fraction is scaled before it is cut: 1.5KB is 1536 bytes. */
  lemma FractionScales(whole: nat, fraction: string, unit: string, bytes: nat)
    requires AllDigits(fraction) && Means(unit, bytes)
    ensures var size := Quotient(Product(whole * Pow10(|fraction|) + Value(fraction), bytes), Pow10(|fraction|));
            Parse(Decimal(whole) + "." + fraction + unit) == if size <= MAX_INT64 then Size(size) else Failed(OutOfRange)
  {
    hide Decimal, ReadNumber, Value, Parse, Pow10, Multiplier, Quotient, Product, Means;
    PrintedIsNumeric(whole);
    PrintedValue(whole);
    OnePoint(Decimal(whole), fraction);
    ValueConcat(Decimal(whole), fraction);
    NumberThenUnit(Decimal(whole) + "." + fraction, Number(Value(Decimal(whole) + fraction), |fraction|), unit, bytes);
  }

  lemma OnePoint(a: string, b: string)
    requires a != [] && AllDigits(a) && AllDigits(b)
    ensures IsNumeric(a + "." + b) && AllDigits(a + b) && ReadNumber(a + "." + b) == Some(Number(Value(a + b), |b|))
  {
    var s := a + "." + b;
    PointUnique(s, |a|);
    assert s[..|a|] == a && s[|a| + 1..] == b;
    PointUnique(b, |b|);
  }

  lemma PointUnique(s: string, n: nat)
    requires n <= |s| && (n < |s| ==> s[n] == '.') && forall i :: 0 <= i < n ==> s[i] != '.'
    ensures PointAt(s) == n
  {
  }

  lemma {:induction false} ValueConcat(a: string, b: string)
    requires AllDigits(a) && AllDigits(b) && AllDigits(a + b)
    ensures Value(a + b) == Value(a) * Pow10(|b|) + Value(b)
  {
    if b == [] {
      assert a + b == a;
    } else {
      var n := |b| - 1;
      assert (a + b)[..|a + b| - 1] == a + b[..n] && (a + b)[|a + b| - 1] == b[n];
      ValueConcat(a, b[..n]);
      assert Value(a + b) == 10 * Value(a + b[..n]) + DigitValue(b[n]);
      hide Value;
      TimesTen(Value(a), Pow10(n));
    }
  }

  lemma TimesTen(a: nat, p: nat)
    ensures 10 * (a * p) == a * (10 * p)
  {
  }
}
