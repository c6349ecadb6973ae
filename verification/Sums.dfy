/** Finite sums over sequences and sets: what a Go accumulation loop and an SQL SUM compute. */
module Sums {

  function SumSeq<T>(s: seq<T>, f: T -> int): int {
    if s == [] then 0 else SumSeq(s[..|s| - 1], f) + f(s[|s| - 1])
  }

  ghost function SumSet<T(!new)>(s: set<T>, f: T -> int): int {
    if s == {} then 0 else
    var x :| x in s;
    f(x) + SumSet(s - {x}, f)
  }

  function One<K>(k: K): int { 1 }

  /** A sequence that lists a set, each element once: the answer of a query without its order. */
  ghost predicate Lists<T(!new)>(s: seq<T>, all: set<T>) {
    && (forall i, j :: 0 <= i < j < |s| ==> s[i] != s[j])
    && (forall x :: x in s <==> x in all)
  }

  lemma {:induction false} SumSeqConcat<T>(a: seq<T>, b: seq<T>, f: T -> int)
    ensures SumSeq(a + b, f) == SumSeq(a, f) + SumSeq(b, f)
  {
    if b == [] {
      assert a + b == a;
    } else {
      assert (a + b)[..|a + b| - 1] == a + b[..|b| - 1];
      SumSeqConcat(a, b[..|b| - 1], f);
    }
  }

  lemma SumSeqGrows<T>(s: seq<T>, i: nat, f: T -> int)
    requires i < |s|
    ensures SumSeq(s[..i + 1], f) == SumSeq(s[..i], f) + f(s[i])
  {
    assert s[..i + 1][..i] == s[..i];
  }

  lemma {:induction false} SumSeqSame<T>(s: seq<T>, f: T -> int, g: T -> int)
    requires forall i :: 0 <= i < |s| ==> f(s[i]) == g(s[i])
    ensures SumSeq(s, f) == SumSeq(s, g)
  {
    if s != [] {
      SumSeqSame(s[..|s| - 1], f, g);
    }
  }

  lemma {:induction false} SumSeqLinear<T>(s: seq<T>, f: T -> int, g: T -> int, h: T -> int, k: int)
    requires forall i :: 0 <= i < |s| ==> h(s[i]) == f(s[i]) + k * g(s[i])
    ensures SumSeq(s, h) == SumSeq(s, f) + k * SumSeq(s, g)
  {
    if s != [] {
      var p, x := s[..|s| - 1], s[|s| - 1];
      SumSeqLinear(p, f, g, h, k);
      assert h(x) == f(x) + k * g(x);
      Distribute(k, SumSeq(p, g), g(x));
    }
  }

  lemma {:induction false} SumSeqZero<T>(s: seq<T>, f: T -> int)
    requires forall i :: 0 <= i < |s| ==> f(s[i]) == 0
    ensures SumSeq(s, f) == 0
  {
    if s != [] {
      SumSeqZero(s[..|s| - 1], f);
    }
  }

  lemma Distribute(k: int, a: int, b: int)
    ensures k * (a + b) == k * a + k * b
  {
  }

  lemma {:induction false} SumSeqBounded<T>(s: seq<T>, f: T -> int, g: T -> int)
    requires forall i :: 0 <= i < |s| ==> f(s[i]) <= g(s[i])
    ensures SumSeq(s, f) <= SumSeq(s, g)
  {
    if s != [] {
      SumSeqBounded(s[..|s| - 1], f, g);
    }
  }

  /** The sum does not depend on which element is taken first. */
  lemma {:induction false} SumSetPick<T(!new)>(s: set<T>, x: T, f: T -> int)
    requires x in s
    ensures SumSet(s, f) == f(x) + SumSet(s - {x}, f)
    decreases s
  {
    var y :| y in s && SumSet(s, f) == f(y) + SumSet(s - {y}, f);
    if x != y {
      SumSetPick(s - {y}, x, f);
      SumSetPick(s - {x}, y, f);
      assert s - {y} - {x} == s - {x} - {y};
    }
  }

  lemma SumSetAdd<T(!new)>(s: set<T>, x: T, f: T -> int)
    requires x !in s
    ensures SumSet(s + {x}, f) == SumSet(s, f) + f(x)
  {
    SumSetPick(s + {x}, x, f);
    assert s + {x} - {x} == s;
  }

  lemma {:induction false} SumSetUnion<T(!new)>(a: set<T>, b: set<T>, f: T -> int)
    requires a !! b
    ensures SumSet(a + b, f) == SumSet(a, f) + SumSet(b, f)
    decreases b
  {
    if b == {} {
      assert a + b == a;
    } else {
      var x :| x in b;
      SumSetUnion(a, b - {x}, f);
      SumSetPick(a + b, x, f);
      SumSetPick(b, x, f);
      assert a + b - {x} == a + (b - {x});
    }
  }

  lemma {:induction false} SumSetSame<T(!new)>(s: set<T>, f: T -> int, g: T -> int)
    requires forall x :: x in s ==> f(x) == g(x)
    ensures SumSet(s, f) == SumSet(s, g)
    decreases s
  {
    if s != {} {
      var x :| x in s;
      SumSetPick(s, x, f);
      SumSetPick(s, x, g);
      SumSetSame(s - {x}, f, g);
    }
  }

  lemma {:induction false} SumSetLinear<T(!new)>(s: set<T>, f: T -> int, g: T -> int, h: T -> int, k: int)
    requires forall x :: x in s ==> h(x) == f(x) + k * g(x)
    ensures SumSet(s, h) == SumSet(s, f) + k * SumSet(s, g)
    decreases s
  {
    if s != {} {
      var x :| x in s;
      SumSetPick(s, x, f);
      SumSetPick(s, x, g);
      SumSetPick(s, x, h);
      SumSetLinear(s - {x}, f, g, h, k);
      Distribute(k, g(x), SumSet(s - {x}, g));
    }
  }

  lemma {:induction false} SumSetZero<T(!new)>(s: set<T>, f: T -> int)
    requires forall x :: x in s ==> f(x) == 0
    ensures SumSet(s, f) == 0
    decreases s
  {
    if s != {} {
      var x :| x in s;
      SumSetPick(s, x, f);
      SumSetZero(s - {x}, f);
    }
  }

  lemma {:induction false} SumSetNonNegative<T(!new)>(s: set<T>, f: T -> int)
    requires forall x :: x in s ==> f(x) >= 0
    ensures SumSet(s, f) >= 0
    ensures forall x :: x in s ==> f(x) <= SumSet(s, f)
    decreases s
  {
    forall x | x in s
      ensures 0 <= f(x) <= SumSet(s, f)
    {
      SumSetPick(s, x, f);
      SumSetNonNegative(s - {x}, f);
    }
  }

  lemma {:induction false} ListedCount<T(!new)>(s: seq<T>, all: set<T>)
    requires Lists(s, all)
    ensures |s| == |all|
  {
    if s != [] {
      var p, x := s[..|s| - 1], s[|s| - 1];
      assert s == p + [x];
      ListedCount(p, all - {x});
    } else {
      assert all <= set x | x in s;
    }
  }

  /** A Go loop over the rows of a query computes the SQL sum over the set of rows. */
  lemma {:induction false} SumListed<T(!new)>(s: seq<T>, all: set<T>, f: T -> int)
    requires Lists(s, all)
    ensures SumSeq(s, f) == SumSet(all, f)
  {
    if s != [] {
      var p, x := s[..|s| - 1], s[|s| - 1];
      assert s == p + [x];
      SumListed(p, all - {x}, f);
      SumSetPick(all, x, f);
    } else {
      assert all <= set x | x in s;
    }
  }
}
