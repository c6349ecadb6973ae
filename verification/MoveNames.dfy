/** Journal numbers printed as names, and when the order by name finds the newest of them. */
module MoveNames {
  import opened Text

  /** The prefix and the number behind it, in at least five digits. */
  function SequenceName(prefix: string, number: nat): string {
    prefix + PadTo(number, 5)
  }

  predicate AllNines(n: nat) {
    n % 10 == 9 && (n < 10 || AllNines(n / 10))
  }

  /** The numbers whose name sorts after the names of all smaller ones. */
  predicate SortsLast(n: nat) {
    n <= 99999 || AllNines(n / 10)
  }

  lemma NameInjective(prefix: string, a: nat, b: nat)
    requires SequenceName(prefix, a) == SequenceName(prefix, b)
    ensures a == b
  {
    assert PadTo(a, 5) == SequenceName(prefix, a)[|prefix|..];
    assert PadTo(b, 5) == SequenceName(prefix, b)[|prefix|..];
    PaddedInjective(a, b, 5);
  }

  lemma {:induction false} PadShort(n: nat, w: nat)
    requires w >= 1 && n < Pow10(w)
    ensures |PadTo(n, w)| == w
  {
    if w > 1 {
      PadShort(n / 10, w - 1);
    }
  }

  /** Enough digits need no padding. */
  lemma {:induction false} PadLong(n: nat, w: nat)
    requires w >= 1 && n >= Pow10(w)
    ensures PadTo(n, w) == PadTo(n, w + 1)
  {
    if w > 1 {
      PadLong(n / 10, w - 1);
    }
  }

  lemma FiveDigits(n: nat)
    ensures n <= 99999 ==> |PadTo(n, 5)| == 5
    ensures n >= 100000 ==> PadTo(n, 5) == PadTo(n / 10, 5) + [Digit(n % 10)]
    ensures n >= 100000 ==> |PadTo(n, 5)| == |PadTo(n / 10, 5)| + 1 && |PadTo(n, 5)| >= 6
  {
    assert Pow10(5) == 100000 && Pow10(4) == 10000 by {
      assert Pow10(1) == 10 && Pow10(2) == 100 && Pow10(3) == 1000;
    }
    if n <= 99999 {
      PadShort(n, 5);
    } else {
      PadLong(n / 10, 4);
    }
  }

  /** A shorter name sorts first exactly when its digits are at most the leading digits of the longer one. */
  lemma ShorterName(a: nat, b: nat)
    requires b >= 100000 && |PadTo(a, 5)| < |PadTo(b, 5)|
    ensures Before(PadTo(a, 5), PadTo(b, 5)) <==> Before(PadTo(a, 5), PadTo(b / 10, 5)) || a == b / 10
  {
    FiveDigits(b);
    BeforeLonger(PadTo(a, 5), PadTo(b / 10, 5), Digit(b % 10));
    if PadTo(a, 5) == PadTo(b / 10, 5) {
      PaddedInjective(a, b / 10, 5);
    }
  }

  lemma {:induction false} LengthMonotone(a: nat, b: nat)
    requires a <= b
    ensures |PadTo(a, 5)| <= |PadTo(b, 5)|
  {
    FiveDigits(a);
    FiveDigits(b);
    if a >= 100000 {
      LengthMonotone(a / 10, b / 10);
    }
  }

  lemma FiveNines(b: nat)
    requires b >= 10000 && AllNines(b)
    ensures b >= 99999
  {
    assert AllNines(b / 10) && AllNines(b / 100) && AllNines(b / 1000) && AllNines(b / 10000);
  }

  /** No number with as many digits, or fewer, exceeds one made of nines. */
  lemma {:induction false} NinesLast(a: nat, b: nat)
    requires b >= 10000 && AllNines(b) && |PadTo(a, 5)| <= |PadTo(b, 5)|
    ensures a <= b
    ensures a < b ==> Before(PadTo(a, 5), PadTo(b, 5))
  {
    FiveDigits(a);
    FiveDigits(b);
    FiveNines(b);
    if |PadTo(a, 5)| == |PadTo(b, 5)| {
      PaddedSameLength(a, b, 5);
      if b >= 100000 {
        NinesLast(a / 10, b / 10);
      }
    } else {
      NinesLast(a, b / 10);
      ShorterName(a, b);
    }
  }

  /** The number made of nines that is one digit shorter than b. */
  lemma {:induction false} NinesBelow(b: nat) returns (n: nat)
    requires b >= 100000
    ensures 99999 <= n < b && AllNines(n) && |PadTo(n, 5)| + 1 == |PadTo(b, 5)|
  {
    hide PadTo;
    FiveDigits(b);
    FiveDigits(b / 10);
    if b < 1000000 {
      assert AllNines(9) && AllNines(99) && AllNines(999) && AllNines(9999) && AllNines(99999);
      FiveDigits(99999);
      n := 99999;
    } else {
      n := NinesBelow(b / 10);
      FiveDigits(10 * n + 9);
      n := 10 * n + 9;
    }
  }

  /** The descending order by name puts number n first among 1..n exactly for the numbers of SortsLast:
      up to 99999, and after that only when all digits but the last are nines. */
  lemma NewestByName(prefix: string, n: nat)
    ensures (forall k: nat :: 1 <= k < n ==> Before(SequenceName(prefix, k), SequenceName(prefix, n))) <==> SortsLast(n)
  {
    if SortsLast(n) {
      forall k: nat | 1 <= k < n
        ensures Before(SequenceName(prefix, k), SequenceName(prefix, n))
      {
        BeforeSamePrefix(prefix, PadTo(k, 5), PadTo(n, 5));
        LengthMonotone(k, n);
        if |PadTo(k, 5)| == |PadTo(n, 5)| {
          PaddedSameLength(k, n, 5);
        } else {
          FiveDigits(n);
          FiveDigits(k);
          NinesLast(k, n / 10);
          ShorterName(k, n);
        }
      }
    } else {
      var k := NinesBelow(n);
      BeforeSamePrefix(prefix, PadTo(k, 5), PadTo(n, 5));
      ShorterName(k, n);
      FiveDigits(n);
      PaddedSameLength(k, n / 10, 5);
      NinesLast(n / 10, k);
      assert !Before(SequenceName(prefix, k), SequenceName(prefix, n));
    }
  }
}
