/** decimal.Round, decimal.Div and the pro-rata share computed with them. Amounts are in units of 10^-4. */
module Rounding {
  import opened Ledger
  import opened Sums

  function Abs(x: int): nat {
    if x < 0 then -x else x
  }

  /** n / d to the nearest integer, halves away from zero. */
  function RoundDiv(n: int, d: int): int
    requires d > 0
  {
    if n >= 0 then (2 * n + d) / (2 * d) else -((-2 * n + d) / (2 * d))
  }

  /** One unit of an amount in the 16 decimals that decimal.Div keeps. */
  const FINE := 1_000_000_000_000

  /** The part of a functional amount that belongs to a part of the capacity: a quotient in 16 decimals, rounded to 4. */
  function ProRata(functional: Amount, amount: Amount, capacity: Amount): Amount
    requires capacity > 0
  {
    RoundDiv(RoundDiv(functional * amount * FINE, capacity), FINE)
  }

  /** What the rounded quotient means: it is the nearest integer, and halves go away from zero. */
  lemma RoundDivNearest(n: int, d: int)
    requires d > 0
    ensures -d <= 2 * (n - d * RoundDiv(n, d)) <= d
    ensures n >= 0 ==> 2 * (n - d * RoundDiv(n, d)) < d
    ensures n <= 0 ==> 2 * (n - d * RoundDiv(n, d)) > -d
  {
    var m := if n >= 0 then 2 * n + d else -2 * n + d;
    var q := m / (2 * d);
    assert m == 2 * d * q + m % (2 * d);
    assert 2 * d * q == 2 * (d * q);
  }

  /** q is n / d to the nearest integer, halves away from zero. */
  predicate IsNearest(n: int, d: int, q: int) {
    -d <= 2 * (n - d * q) <= d && (n >= 0 ==> 2 * (n - d * q) < d) && (n <= 0 ==> 2 * (n - d * q) > -d)
  }

  lemma RoundDivExact(q: int, d: int)
    requires d > 0
    ensures RoundDiv(q * d, d) == q
  {
    RoundDivUnique(q * d, d, q);
  }

  lemma RoundDivUnique(n: int, d: int, q: int)
    requires d > 0
    requires -d < 2 * (n - d * q) < d
    ensures RoundDiv(n, d) == q
  {
    RoundDivNearest(n, d);
    var r := RoundDiv(n, d);
    if r > q {
      MulGap(d, r, q);
    } else if r < q {
      MulGap(d, q, r);
    }
  }

  lemma MulGap(d: int, a: int, b: int)
    requires d > 0 && a > b
    ensures d * a >= d * b + d
  {
    var e := a - b - 1;
    assert d * e >= 0;
    assert d * a == d * (b + 1 + e) == d * b + d + d * e;
  }

  lemma RoundDivMonotone(m: int, n: int, d: int)
    requires d > 0 && m <= n
    ensures RoundDiv(m, d) <= RoundDiv(n, d)
  {
    RoundDivNearest(m, d);
    RoundDivNearest(n, d);
    var a, b := RoundDiv(m, d), RoundDiv(n, d);
    if a > b {
      MulGap(d, a, b);
    }
  }

  /** Rounding commutes with negation. */
  lemma RoundDivNegates(n: int, d: int)
    requires d > 0
    ensures RoundDiv(-n, d) == -RoundDiv(n, d)
  {
  }

  /** A share of the whole lies between nothing and the whole. */
  lemma ProRataBounded(functional: Amount, amount: Amount, capacity: Amount)
    requires functional >= 0 && 0 <= amount <= capacity && capacity > 0
    ensures 0 <= ProRata(functional, amount, capacity) <= functional
  {
    var n := functional * amount * FINE;
    assert 0 <= functional * amount <= functional * capacity;
    RoundDivMonotone(0, n, capacity);
    assert functional * capacity * FINE == functional * FINE * capacity;
    RoundDivMonotone(n, functional * FINE * capacity, capacity);
    RoundDivExact(functional * FINE, capacity);
    RoundDivExact(0, capacity);
    var q := RoundDiv(n, capacity);
    RoundDivMonotone(0, q, FINE);
    RoundDivMonotone(q, functional * FINE, FINE);
    RoundDivExact(functional, FINE);
    RoundDivExact(0, FINE);
  }

  /** Where the two magnitudes coincide, the share is the amount itself. */
  lemma ProRataSameMagnitude(capacity: Amount, amount: Amount)
    requires capacity > 0
    ensures ProRata(capacity, amount, capacity) == amount
  {
    assert capacity * amount * FINE == amount * FINE * capacity;
    RoundDivExact(amount * FINE, capacity);
    RoundDivExact(amount, FINE);
  }

  /** A share is rounded twice: the quotient to 16 decimals, then that to 4. */
  lemma ProRataTwice(functional: Amount, amount: Amount, capacity: Amount) returns (quotient: int)
    requires capacity > 0
    ensures IsNearest(functional * amount * 1_000_000_000_000, capacity, quotient)
    ensures IsNearest(quotient, 1_000_000_000_000, ProRata(functional, amount, capacity))
  {
    quotient := RoundDiv(functional * amount * FINE, capacity);
    RoundDivNearest(functional * amount * FINE, capacity);
    RoundDivNearest(quotient, FINE);
  }

  /** Rounding twice is not rounding once: a share just under half a unit comes out as a whole one. */
  lemma TwoRoundingsDiffer()
    ensures ProRata(1, 1_000_000_000_000, 2_000_000_000_001) == 1
    ensures IsNearest(1 * 1_000_000_000_000, 2_000_000_000_001, 0)
  {
    RoundDivUnique(1 * 1_000_000_000_000 * FINE, 2_000_000_000_001, 500_000_000_000);
    RoundDivNearest(500_000_000_000, FINE);
  }

  /** The two roundings move a share by at most half a unit of 10^-4 and half a unit of 10^-16. */
  lemma ProRataError(functional: Amount, amount: Amount, capacity: Amount)
    requires functional >= 0 && amount >= 0 && capacity > 0
    ensures Abs(2 * FINE * (capacity * ProRata(functional, amount, capacity) - functional * amount)) <= capacity * (FINE + 1)
  {
    var fa := functional * amount;
    var q := RoundDiv(fa * FINE, capacity);
    var s := RoundDiv(q, FINE);
    RoundDivNearest(fa * FINE, capacity);
    RoundDivNearest(q, FINE);
    ErrorBound(fa, capacity, q, s);
  }

  lemma ErrorBound(fa: int, k: int, q: int, s: int)
    requires k > 0
    requires -k <= 2 * (fa * FINE - k * q) <= k
    requires -FINE <= 2 * (q - FINE * s) <= FINE
    ensures -(k * (FINE + 1)) <= 2 * FINE * (k * s - fa) <= k * (FINE + 1)
  {
    var ks, kq := k * s, k * q;
    ScaleBound(2 * (q - FINE * s), FINE, k);
    assert k * (2 * (q - FINE * s)) == 2 * kq - 2 * FINE * ks by {
      assert k * (FINE * s) == FINE * ks;
      Distribute(k, 2 * q, -2 * (FINE * s));
      assert k * (2 * q) == 2 * kq;
      assert k * (-2 * (FINE * s)) == -2 * (k * (FINE * s));
    }
    assert 2 * FINE * (ks - fa) == 2 * FINE * ks - 2 * (fa * FINE);
    assert k * (FINE + 1) == k * FINE + k;
  }

  lemma ScaleBound(x: int, b: int, c: int)
    requires c > 0 && -b <= x <= b
    ensures -(c * b) <= c * x <= c * b
  {
  }
}
