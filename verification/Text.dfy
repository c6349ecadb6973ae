/** Printed numbers, the order of text, and encodings that can be read back. */
module Text {

  function Digit(d: nat): char
    requires d < 10
  {
    '0' + d as char
  }

  function Pow10(k: nat): (p: nat)
    ensures p >= 1
  {
    if k == 0 then 1 else 10 * Pow10(k - 1)
  }

  /** The number in at least w digits, with zeros in front. */
  function PadTo(n: nat, w: nat): (s: string)
    ensures |s| >= 1 && |s| >= w
    ensures forall i :: 0 <= i < |s| ==> '0' <= s[i] <= '9'
    decreases n + w
  {
    if n < 10 && w <= 1 then [Digit(n)]
    else PadTo(n / 10, if w > 1 then w - 1 else 1) + [Digit(n % 10)]
  }

  function Decimal(n: nat): string {
    PadTo(n, 1)
  }

  function Signed(i: int): string {
    if i < 0 then "-" + Decimal(-i) else Decimal(i)
  }

  /** Text order, in which the database sorts names and Go compares strings. */
  predicate Before(a: string, b: string) {
    if b == [] then false
    else if a == [] then true
    else if a[0] != b[0] then a[0] < b[0]
    else Before(a[1..], b[1..])
  }

  lemma {:induction false} BeforeIsTotal(a: string, b: string)
    ensures Before(a, b) || Before(b, a) || a == b
    ensures !(Before(a, b) && Before(b, a))
    ensures !Before(a, a)
  {
    if a != [] {
      BeforeIsTotal(a[1..], a[1..]);
    }
    if a != [] && b != [] {
      BeforeIsTotal(a[1..], b[1..]);
      assert a == [a[0]] + a[1..] && b == [b[0]] + b[1..];
    }
  }

  lemma {:induction false} BeforeIsTransitive(a: string, b: string, c: string)
    requires Before(a, b) && Before(b, c)
    ensures Before(a, c)
  {
    if a != [] && a[0] == b[0] == c[0] {
      BeforeIsTransitive(a[1..], b[1..], c[1..]);
    }
  }

  lemma {:induction false} BeforeSamePrefix(p: string, a: string, b: string)
    ensures Before(p + a, p + b) == Before(a, b)
  {
    if p == [] {
      assert p + a == a && p + b == b;
    } else {
      assert (p + a)[1..] == p[1..] + a && (p + b)[1..] == p[1..] + b;
      BeforeSamePrefix(p[1..], a, b);
    }
  }

  /** One more character after texts of the same length breaks ties. */
  lemma {:induction false} BeforeLastChar(x: string, c: char, y: string, d: char)
    requires |x| == |y|
    ensures Before(x + [c], y + [d]) <==> Before(x, y) || (x == y && c < d)
  {
    if x == [] {
      assert x + [c] == [c] && y + [d] == [d];
    } else {
      assert (x + [c])[1..] == x[1..] + [c] && (y + [d])[1..] == y[1..] + [d];
      BeforeLastChar(x[1..], c, y[1..], d);
      assert x == [x[0]] + x[1..] && y == [y[0]] + y[1..];
    }
  }

  lemma {:induction false} BeforeLonger(x: string, y: string, d: char)
    requires |x| <= |y|
    ensures Before(x, y + [d]) <==> Before(x, y) || x == y
  {
    if x != [] {
      assert (y + [d])[1..] == y[1..] + [d];
      BeforeLonger(x[1..], y[1..], d);
      assert x == [x[0]] + x[1..] && y == [y[0]] + y[1..];
    }
  }

  // Printed numbers.

  lemma DigitOrder(c: nat, d: nat)
    requires c < 10 && d < 10
    ensures Digit(c) < Digit(d) <==> c < d
    ensures Digit(c) == Digit(d) <==> c == d
  {
  }

  lemma LastDigitOrder(a: nat, b: nat)
    ensures a < b <==> a / 10 < b / 10 || (a / 10 == b / 10 && a % 10 < b % 10)
    ensures a == b <==> a / 10 == b / 10 && a % 10 == b % 10
  {
  }

  lemma {:induction false} PaddedSameLength(a: nat, b: nat, w: nat)
    requires |PadTo(a, w)| == |PadTo(b, w)|
    ensures Before(PadTo(a, w), PadTo(b, w)) <==> a < b
    ensures PadTo(a, w) == PadTo(b, w) ==> a == b
    decreases a + b + w
  {
    var v := if w > 1 then w - 1 else 1;
    if a < 10 && w <= 1 {
      DigitOrder(a, if b < 10 then b else 0);
    } else {
      var x, y, c, d := PadTo(a / 10, v), PadTo(b / 10, v), Digit(a % 10), Digit(b % 10);
      assert PadTo(a, w) == x + [c] && PadTo(b, w) == y + [d];
      LastDigitOrder(a, b);
      DigitOrder(a % 10, b % 10);
      PaddedSameLength(a / 10, b / 10, v);
      BeforeLastChar(x, c, y, d);
      assert x == (x + [c])[..|x|] && y == (y + [d])[..|x|];
    }
  }

  lemma PaddedInjective(a: nat, b: nat, w: nat)
    requires PadTo(a, w) == PadTo(b, w)
    ensures a == b
  {
    PaddedSameLength(a, b, w);
  }

  lemma SignedInjective(a: int, b: int)
    requires Signed(a) == Signed(b)
    ensures a == b
  {
    assert a < 0 <==> Signed(a)[0] == '-';
    assert b < 0 <==> Signed(b)[0] == '-';
    if a < 0 {
      assert Signed(a)[1..] == Decimal(-a) && Signed(b)[1..] == Decimal(-b);
      PaddedInjective(-a, -b, 1);
    } else {
      PaddedInjective(a, b, 1);
    }
  }

  // Separated fields.

  /** A text before the first separator is determined by the whole. */
  lemma {:induction false} SplitAtFirst(a: string, b: string, a': string, b': string, sep: char)
    requires sep !in a && sep !in a'
    requires a + [sep] + b == a' + [sep] + b'
    ensures a == a' && b == b'
  {
    var s, s' := a + [sep] + b, a' + [sep] + b';
    assert a != [] ==> s[0] == a[0] && a[0] in a;
    assert a' != [] ==> s'[0] == a'[0] && a'[0] in a';
    if a == [] || a' == [] {
      assert b == s[1..] && b' == s'[1..];
    } else {
      assert s[0] == a[0] && s'[0] == a'[0];
      assert s[1..] == a[1..] + [sep] + b && s'[1..] == a'[1..] + [sep] + b';
      SplitAtFirst(a[1..], b, a'[1..], b', sep);
      assert a == [a[0]] + a[1..] && a' == [a'[0]] + a'[1..];
    }
  }

  /** A text after the last separator is determined by the whole. */
  lemma {:induction false} SplitAtLast(a: string, b: string, a': string, b': string, sep: char)
    requires sep !in b && sep !in b'
    requires a + [sep] + b == a' + [sep] + b'
    ensures a == a' && b == b'
    decreases |b|
  {
    var s, s' := a + [sep] + b, a' + [sep] + b';
    var n := |s| - 1;
    assert b != [] ==> s[n] == b[|b| - 1] && b[|b| - 1] in b;
    assert b' != [] ==> s'[n] == b'[|b'| - 1] && b'[|b'| - 1] in b';
    if b == [] || b' == [] {
      assert a == s[..n] && a' == s'[..n];
    } else {
      assert s[n] == b[|b| - 1] && s'[n] == b'[|b'| - 1];
      assert s[..n] == a + [sep] + b[..|b| - 1] && s'[..n] == a' + [sep] + b'[..|b'| - 1];
      SplitAtLast(a, b[..|b| - 1], a', b'[..|b'| - 1], sep);
      assert b == b[..|b| - 1] + [b[|b| - 1]] && b' == b'[..|b'| - 1] + [b'[|b'| - 1]];
    }
  }

  // Sorting texts.

  ghost predicate Sorted(s: seq<string>) {
    forall i, j :: 0 <= i < j < |s| ==> !Before(s[j], s[i])
  }

  function Insert(x: string, s: seq<string>): seq<string> {
    if s == [] || !Before(s[0], x) then [x] + s else [s[0]] + Insert(x, s[1..])
  }

  function Sort(s: seq<string>): seq<string> {
    if s == [] then [] else Insert(s[0], Sort(s[1..]))
  }

  lemma NoneBefore(x: string, s: seq<string>)
    requires Sorted(s) && s != [] && !Before(s[0], x)
    ensures Sorted([x] + s)
  {
    forall j | 0 <= j < |s|
      ensures !Before(s[j], x)
    {
      if Before(s[j], x) && j > 0 {
        BeforeIsTotal(s[0], s[j]);
        if Before(s[0], s[j]) {
          BeforeIsTransitive(s[0], s[j], x);
        }
      }
    }
  }

  lemma HeadStaysFirst(x: string, s: seq<string>, t: seq<string>)
    requires Sorted(s) && s != [] && Before(s[0], x) && Sorted(t) && multiset(t) == multiset(s[1..]) + multiset{x}
    ensures Sorted([s[0]] + t)
  {
    forall j | 0 <= j < |t|
      ensures !Before(t[j], s[0])
    {
      assert t[j] in multiset(t);
      if t[j] == x {
        BeforeIsTotal(s[0], x);
      } else {
        assert t[j] in s[1..];
      }
    }
  }

  lemma {:induction false} InsertSorts(x: string, s: seq<string>)
    requires Sorted(s)
    ensures Sorted(Insert(x, s))
    ensures multiset(Insert(x, s)) == multiset(s) + multiset{x}
  {
    hide Before;
    if s == [] {
    } else if !Before(s[0], x) {
      NoneBefore(x, s);
    } else {
      InsertSorts(x, s[1..]);
      assert s == [s[0]] + s[1..];
      HeadStaysFirst(x, s, Insert(x, s[1..]));
    }
  }

  lemma {:induction false} SortSorts(s: seq<string>)
    ensures Sorted(Sort(s)) && multiset(Sort(s)) == multiset(s)
  {
    if s != [] {
      SortSorts(s[1..]);
      InsertSorts(s[0], Sort(s[1..]));
      assert s == [s[0]] + s[1..];
    }
  }

  lemma HeadAndTail(a: seq<string>)
    requires a != [] && Sorted(a)
    ensures Sorted(a[1..]) && multiset(a[1..]) == multiset(a) - multiset{a[0]}
    ensures a == [a[0]] + a[1..]
  {
    assert a == [a[0]] + a[1..];
  }

  lemma SmallestFirst(a: seq<string>, x: string)
    requires Sorted(a) && x in a
    ensures !Before(x, a[0])
  {
    BeforeIsTotal(x, x);
  }

  lemma {:induction false} SortedUnique(a: seq<string>, b: seq<string>)
    requires Sorted(a) && Sorted(b) && multiset(a) == multiset(b)
    ensures a == b
  {
    assert |a| == |multiset(a)| && |b| == |multiset(b)|;
    if a != [] {
      assert a[0] in multiset(b) && b[0] in multiset(a);
      SmallestFirst(a, b[0]);
      SmallestFirst(b, a[0]);
      BeforeIsTotal(a[0], b[0]);
      HeadAndTail(a);
      HeadAndTail(b);
      SortedUnique(a[1..], b[1..]);
    }
  }

  /** Sorting forgets the order of the input and nothing else. */
  lemma SortCanonical(a: seq<string>, b: seq<string>)
    ensures Sort(a) == Sort(b) <==> multiset(a) == multiset(b)
  {
    SortSorts(a);
    SortSorts(b);
    if multiset(a) == multiset(b) {
      SortedUnique(Sort(a), Sort(b));
    }
  }
}
