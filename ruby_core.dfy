/**
 * The few Ruby built-ins the remote control leans on, as functions on integers
 * and integer sequences: `(a..b).to_a`, `Array#&`, `Array#max`/`Array#min`
 * and the `Integer#digits` patch (the length of `to_s`).
 */
module RubyCore {

  /** No value occurs twice. */
  predicate Distinct(s: seq<int>) {
    forall i, j :: 0 <= i < j < |s| ==> s[i] != s[j]
  }

  /** Strictly ascending. */
  predicate Increasing(s: seq<int>) {
    forall i, j :: 0 <= i < j < |s| ==> s[i] < s[j]
  }

  /** The set of values a sequence holds. */
  function Elements(s: seq<int>): (values: set<int>) {
    set x | x in s
  }

  /** `(a..b).to_a`: the integers from `a` to `b` inclusive, ascending; empty when `a > b`. */
  function Range(a: int, b: int): (r: seq<int>)
    decreases b - a
  {
    if a > b then [] else [a] + Range(a + 1, b)
  }

  /** `(a..b).to_a` has `b - a + 1` values (none when `a > b`), the `k`-th being `a + k`. */
  lemma {:induction false} RangeElements(a: int, b: int)
    ensures |Range(a, b)| == if a <= b then b - a + 1 else 0
    ensures forall k :: 0 <= k < |Range(a, b)| ==> Range(a, b)[k] == a + k
    decreases b - a
  {
    if a <= b {
      RangeElements(a + 1, b);
      var r, tail := Range(a, b), Range(a + 1, b);
      assert r == [a] + tail;
      forall k | 0 < k < |r| ensures r[k] == a + k {
        assert r[k] == tail[k - 1];
      }
    }
  }

  lemma RangeMembership(a: int, b: int)
    ensures forall x :: x in Range(a, b) <==> a <= x <= b
    ensures Increasing(Range(a, b))
  {
    RangeElements(a, b);
    var r := Range(a, b);
    forall x | a <= x <= b ensures x in r {
      assert r[x - a] == x;
    }
  }

  /**
   * `xs & ys`: the values of `xs` that also occur in `ys`, each kept once, in
   * the order of their first occurrence in `xs`.
   */
  function Intersect(xs: seq<int>, ys: seq<int>): (r: seq<int>)
    ensures |r| <= |xs|
    decreases |xs|
  {
    if xs == [] then []
    else
      var rest := Intersect(xs[..|xs| - 1], ys);
      var x := xs[|xs| - 1];
      if x in ys && x !in rest then rest + [x] else rest
  }

  /** `xs & ys` holds the common values, each exactly once. */
  lemma {:induction false} IntersectContents(xs: seq<int>, ys: seq<int>)
    ensures forall x :: x in Intersect(xs, ys) <==> x in xs && x in ys
    ensures Distinct(Intersect(xs, ys))
    decreases |xs|
  {
    if xs != [] {
      var init, x := xs[..|xs| - 1], xs[|xs| - 1];
      IntersectContents(init, ys);
      assert xs == init + [x];
      var rest := Intersect(init, ys);
      if x in ys && x !in rest {
        var r := rest + [x];
        forall i, j | 0 <= i < j < |r| ensures r[i] != r[j] {
          assert r[i] in rest;
        }
      }
    }
  }

  /** `(a + b) & ys` is `(a & ys) + (b & ys)` when `a` and `b` share no value. */
  lemma {:induction false} IntersectAppend(a: seq<int>, b: seq<int>, ys: seq<int>)
    requires forall x :: x in a ==> x !in b
    ensures Intersect(a + b, ys) == Intersect(a, ys) + Intersect(b, ys)
    decreases |b|
  {
    if b == [] {
      assert a + b == a;
    } else {
      var init, x := b[..|b| - 1], b[|b| - 1];
      assert (a + b)[..|a + b| - 1] == a + init;
      assert (a + b)[|a + b| - 1] == x;
      IntersectAppend(a, init, ys);
      IntersectContents(a, ys);
      assert x !in Intersect(a, ys);
    }
  }

  /** `&` keeps the relative order of its left operand, so an ascending operand gives an ascending result. */
  lemma {:induction false} IntersectIncreasing(xs: seq<int>, ys: seq<int>)
    requires Increasing(xs)
    ensures Increasing(Intersect(xs, ys))
  {
    if xs != [] {
      var init := xs[..|xs| - 1];
      IntersectIncreasing(init, ys);
      IntersectContents(init, ys);
      assert xs == init + [xs[|xs| - 1]];
      var rest := Intersect(init, ys);
      var x := xs[|xs| - 1];
      forall y | y in rest ensures y < x {
        var k :| 0 <= k < |init| && init[k] == y;
        assert xs[k] == y;
      }
      if x !in rest {
        var r := rest + [x];
        forall i, j | 0 <= i < j < |r| ensures r[i] < r[j] {
          assert r[i] in rest;
        }
      }
    }
  }

  /** An ascending sequence is determined by the values it holds. */
  lemma {:induction false} IncreasingUnique(a: seq<int>, b: seq<int>)
    requires Increasing(a) && Increasing(b)
    requires forall x :: x in a <==> x in b
    ensures a == b
    decreases |a|
  {
    if a != [] {
      assert a[0] in a;
      var j :| 0 <= j < |b| && b[j] == a[0];
      assert b[0] in b;
      var k :| 0 <= k < |a| && a[k] == b[0];
      assert a[0] <= a[k] && b[0] <= b[j];
      forall x ensures x in a[1..] <==> x in b[1..] {
        if x in a[1..] {
          var i :| 1 <= i < |a| && a[i] == x;
          assert x in b && x != b[0];
        }
        if x in b[1..] {
          var i :| 1 <= i < |b| && b[i] == x;
          assert x in a && x != a[0];
        }
      }
      IncreasingUnique(a[1..], b[1..]);
      assert a == [a[0]] + a[1..] && b == [b[0]] + b[1..];
    }
  }

  /** A sequence without repetitions is exactly as long as the set of its values is large. */
  lemma {:induction false} DistinctCardinality(s: seq<int>)
    requires Distinct(s)
    ensures |Elements(s)| == |s|
  {
    if s != [] {
      var tail := s[1..];
      DistinctCardinality(tail);
      assert Elements(s) == Elements(tail) + {s[0]};
      assert s[0] !in Elements(tail);
    }
  }

  /** The length of `xs & ys` is the number of distinct values the two have in common. */
  lemma IntersectCardinality(xs: seq<int>, ys: seq<int>)
    ensures |Intersect(xs, ys)| == |Elements(xs) * Elements(ys)|
  {
    var r := Intersect(xs, ys);
    IntersectContents(xs, ys);
    DistinctCardinality(r);
    forall x ensures x in Elements(r) <==> x in Elements(xs) * Elements(ys) {
      assert x in Elements(r) <==> x in r;
    }
    assert Elements(r) == Elements(xs) * Elements(ys);
  }

  /** `Array#max` on a non-empty array. */
  function Max(s: seq<int>): (m: int)
    requires |s| > 0
    ensures m in s
    ensures forall x :: x in s ==> x <= m
  {
    if |s| == 1 then s[0]
    else
      var m := Max(s[1..]);
      assert s == [s[0]] + s[1..];
      if s[0] > m then s[0] else m
  }

  /** `Array#min` on a non-empty array. */
  function Min(s: seq<int>): (m: int)
    requires |s| > 0
    ensures m in s
    ensures forall x :: x in s ==> m <= x
  {
    if |s| == 1 then s[0]
    else
      var m := Min(s[1..]);
      assert s == [s[0]] + s[1..];
      if s[0] < m then s[0] else m
  }

  /** Every value lies in `[lo, hi]`. */
  predicate AllWithin(s: seq<int>, lo: int, hi: int) {
    forall x :: x in s ==> lo <= x <= hi
  }

  /** The max/min test Ruby writes is the same as "some value lies outside `[lo, hi]`". */
  lemma MaxMinOutside(s: seq<int>, lo: int, hi: int)
    requires |s| > 0
    ensures (Max(s) > hi || Min(s) < lo) <==> !AllWithin(s, lo, hi)
  {
  }

  function Pow10(k: nat): (p: nat)
    ensures p >= 1
  {
    if k == 0 then 1 else 10 * Pow10(k - 1)
  }

  /** Number of decimal digits of a natural number (`0` has one). */
  function NumeralLength(n: nat): (d: nat)
    ensures d >= 1
    decreases n
  {
    if n < 10 then 1 else 1 + NumeralLength(n / 10)
  }

  /** `Integer#digits` as the Ruby code patches it: `to_s.size`, counting the `-` of a negative number. */
  function Digits(n: int): (d: nat)
    ensures d >= 1
    ensures n < 0 ==> d >= 2
  {
    if n < 0 then 1 + NumeralLength(-n) else NumeralLength(n)
  }

  /** A positive number has `d` digits exactly when `10^(d-1) <= n < 10^d`. */
  lemma {:induction false} NumeralLengthBounds(n: nat)
    requires n >= 1
    ensures Pow10(NumeralLength(n) - 1) <= n < Pow10(NumeralLength(n))
  {
    if n >= 10 {
      NumeralLengthBounds(n / 10);
    }
  }

  lemma {:induction false} DigitsCharacterised(n: int, d: nat)
    requires n >= 1 && d >= 1
    ensures Digits(n) == d <==> Pow10(d - 1) <= n < Pow10(d)
  {
    NumeralLengthBounds(n);
    var e := Digits(n);
    if e != d && Pow10(d - 1) <= n < Pow10(d) {
      if e < d {
        Pow10Monotone(e, d - 1);
      } else {
        Pow10Monotone(d, e - 1);
      }
    }
  }

  lemma {:induction false} Pow10Monotone(i: nat, j: nat)
    requires i <= j
    ensures Pow10(i) <= Pow10(j)
  {
    if i < j {
      Pow10Monotone(i, j - 1);
    }
  }
}
