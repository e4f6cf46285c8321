/** Sequence combinators that the trade analytics are built from: sums,
    element-wise maps, order-preserving filters and extrema.  A pandas column
    operation over a frame becomes one of these over a `seq`. */
module Seqs {

  function Abs(x: real): real { if x < 0.0 then -x else x }

  function Min(a: real, b: real): real { if a <= b then a else b }

  function Max(a: real, b: real): real { if a >= b then a else b }

  /** The constant-one weight: `SumOf(xs, One)` counts `xs`. */
  function One<T>(x: T): real { 1.0 }

  /** 1 where `p` holds and 0 elsewhere: `SumOf(xs, Indicator(p))` counts
      the elements satisfying `p` (pandas `(mask).sum()`). */
  function Indicator<T>(p: T -> bool): T -> real
  {
    x => if p(x) then 1.0 else 0.0
  }

  /** Sum of `f` over `xs` (pandas `.sum()`, which is 0 for an empty column). */
  function SumOf<T>(xs: seq<T>, f: T -> real): real
  {
    if |xs| == 0 then 0.0 else f(xs[0]) + SumOf(xs[1..], f)
  }

  /** Arithmetic mean of `f` over a non-empty `xs` (pandas `.mean()`). */
  function Mean<T>(xs: seq<T>, f: T -> real): real
    requires |xs| > 0
  {
    SumOf(xs, f) / (|xs| as real)
  }

  /** Element-wise image of `xs` under `f`. */
  function Map<T, U>(xs: seq<T>, f: T -> U): (r: seq<U>)
    ensures |r| == |xs|
    ensures forall i :: 0 <= i < |xs| ==> r[i] == f(xs[i])
  {
    seq(|xs|, i requires 0 <= i < |xs| => f(xs[i]))
  }

  /** The elements of `xs` that satisfy `keep`, in their original order
      (a boolean mask `df[mask]`). */
  function Where<T>(xs: seq<T>, keep: T -> bool): (r: seq<T>)
    ensures |r| <= |xs|
    ensures forall i :: 0 <= i < |r| ==> keep(r[i])
  {
    if |xs| == 0 then []
    else (if keep(xs[0]) then [xs[0]] else []) + Where(xs[1..], keep)
  }

  /** Largest element of a non-empty sequence (pandas `.max()`). */
  function SeqMax(xs: seq<real>): (m: real)
    requires |xs| > 0
    ensures forall i :: 0 <= i < |xs| ==> xs[i] <= m
    ensures exists i :: 0 <= i < |xs| && xs[i] == m
  {
    if |xs| == 1 then xs[0] else Max(xs[0], SeqMax(xs[1..]))
  }

  /** Smallest element of a non-empty sequence (pandas `.min()`). */
  function SeqMin(xs: seq<real>): (m: real)
    requires |xs| > 0
    ensures forall i :: 0 <= i < |xs| ==> m <= xs[i]
    ensures exists i :: 0 <= i < |xs| && xs[i] == m
  {
    if |xs| == 1 then xs[0] else Min(xs[0], SeqMin(xs[1..]))
  }

  // ---------------------------------------------------------------------
  // Sums

  lemma {:induction false} SumOfConcat<T>(a: seq<T>, b: seq<T>, f: T -> real)
    ensures SumOf(a + b, f) == SumOf(a, f) + SumOf(b, f)
  {
    if |a| == 0 {
      assert a + b == b;
    } else {
      assert (a + b)[1..] == a[1..] + b;
      SumOfConcat(a[1..], b, f);
    }
  }

  lemma {:induction false} SumOfOne<T>(xs: seq<T>)
    ensures SumOf(xs, One) == |xs| as real
  {
    if |xs| > 0 {
      SumOfOne(xs[1..]);
    }
  }

  /** A sum of terms none of which is negative is not negative. */
  lemma {:induction false} SumOfNonNegative<T>(xs: seq<T>, f: T -> real)
    requires forall i :: 0 <= i < |xs| ==> f(xs[i]) >= 0.0
    ensures SumOf(xs, f) >= 0.0
  {
    if |xs| > 0 {
      SumOfNonNegative(xs[1..], f);
    }
  }

  /** A non-empty sum of positive terms is positive. */
  lemma {:induction false} SumOfPositive<T>(xs: seq<T>, f: T -> real)
    requires |xs| > 0
    requires forall i :: 0 <= i < |xs| ==> f(xs[i]) > 0.0
    ensures SumOf(xs, f) > 0.0
  {
    SumOfNonNegative(xs[1..], f);
  }

  /** A non-empty sum of negative terms is negative. */
  lemma {:induction false} SumOfNegative<T>(xs: seq<T>, f: T -> real)
    requires |xs| > 0
    requires forall i :: 0 <= i < |xs| ==> f(xs[i]) < 0.0
    ensures SumOf(xs, f) < 0.0
  {
    if |xs| > 1 {
      SumOfNegative(xs[1..], f);
    }
  }

  /** Every term at most `m` bounds the sum by `|xs| * m`. */
  lemma {:induction false} SumOfAtMost<T>(xs: seq<T>, f: T -> real, m: real)
    requires forall i :: 0 <= i < |xs| ==> f(xs[i]) <= m
    ensures SumOf(xs, f) <= (|xs| as real) * m
  {
    if |xs| > 0 {
      SumOfAtMost(xs[1..], f, m);
      assert (|xs| as real) * m == ((|xs| - 1) as real) * m + m;
    }
  }

  // ---------------------------------------------------------------------
  // Filters

  /** Summing the indicator of a mask counts the rows the mask keeps. */
  lemma {:induction false} WhereCount<T>(xs: seq<T>, p: T -> bool)
    ensures SumOf(xs, Indicator(p)) == |Where(xs, p)| as real
  {
    if |xs| > 0 {
      WhereCount(xs[1..], p);
    }
  }

  lemma {:induction false} WhereConcat<T>(a: seq<T>, b: seq<T>, keep: T -> bool)
    ensures Where(a + b, keep) == Where(a, keep) + Where(b, keep)
  {
    if |a| == 0 {
      assert a + b == b;
    } else {
      assert (a + b)[1..] == a[1..] + b;
      WhereConcat(a[1..], b, keep);
    }
  }

  /** `Where` keeps each kept element with its full multiplicity and drops
      every other one. */
  lemma {:induction false} WhereMultiset<T>(xs: seq<T>, keep: T -> bool, x: T)
    ensures multiset(Where(xs, keep))[x] == if keep(x) then multiset(xs)[x] else 0
  {
    if |xs| > 0 {
      WhereMultiset(xs[1..], keep, x);
      assert xs == [xs[0]] + xs[1..];
    }
  }

  lemma {:induction false} WhereMember<T>(xs: seq<T>, keep: T -> bool, x: T)
    ensures x in Where(xs, keep) <==> x in xs && keep(x)
  {
    WhereMultiset(xs, keep, x);
  }

  lemma {:induction false} WhereAll<T>(xs: seq<T>, keep: T -> bool)
    requires forall i :: 0 <= i < |xs| ==> keep(xs[i])
    ensures Where(xs, keep) == xs
  {
    if |xs| > 0 {
      WhereAll(xs[1..], keep);
    }
  }

  lemma {:induction false} WhereNone<T>(xs: seq<T>, keep: T -> bool)
    requires forall i :: 0 <= i < |xs| ==> !keep(xs[i])
    ensures Where(xs, keep) == []
  {
    if |xs| > 0 {
      WhereNone(xs[1..], keep);
    }
  }

  /** Two masks that split every element one way or the other split the
      count and every sum. */
  lemma {:induction false} WhereSplit<T>(xs: seq<T>, p: T -> bool, q: T -> bool, f: T -> real)
    requires forall i :: 0 <= i < |xs| ==> p(xs[i]) != q(xs[i])
    ensures |Where(xs, p)| + |Where(xs, q)| == |xs|
    ensures SumOf(Where(xs, p), f) + SumOf(Where(xs, q), f) == SumOf(xs, f)
  {
    if |xs| > 0 {
      WhereSplit(xs[1..], p, q, f);
      var a := if p(xs[0]) then [xs[0]] else [];
      var b := if q(xs[0]) then [xs[0]] else [];
      SumOfConcat(a, Where(xs[1..], p), f);
      SumOfConcat(b, Where(xs[1..], q), f);
    }
  }

  /** Dropping elements on which `f` is zero does not change the sum of `f`. */
  lemma {:induction false} WhereDropsZeros<T>(xs: seq<T>, keep: T -> bool, f: T -> real)
    requires forall i :: 0 <= i < |xs| ==> !keep(xs[i]) ==> f(xs[i]) == 0.0
    ensures SumOf(Where(xs, keep), f) == SumOf(xs, f)
  {
    if |xs| > 0 {
      WhereDropsZeros(xs[1..], keep, f);
      var a := if keep(xs[0]) then [xs[0]] else [];
      SumOfConcat(a, Where(xs[1..], keep), f);
    }
  }

  /** A filter that rejects at least one element keeps strictly fewer. */
  lemma {:induction false} WhereDropsOne<T>(xs: seq<T>, keep: T -> bool, k: nat)
    requires k < |xs| && !keep(xs[k])
    ensures |Where(xs, keep)| < |xs|
  {
    if k > 0 {
      WhereDropsOne(xs[1..], keep, k - 1);
    }
  }

  /** Filters commute: masking by `p` then `q` equals masking by `q` then `p`. */
  lemma {:induction false} WhereCommute<T>(xs: seq<T>, p: T -> bool, q: T -> bool)
    ensures Where(Where(xs, p), q) == Where(Where(xs, q), p)
  {
    if |xs| > 0 {
      var a := if p(xs[0]) then [xs[0]] else [];
      var b := if q(xs[0]) then [xs[0]] else [];
      WhereConcat(a, Where(xs[1..], p), q);
      WhereConcat(b, Where(xs[1..], q), p);
      WhereCommute(xs[1..], p, q);
    }
  }

  /** The position of a member. */
  lemma IndexOf<T>(xs: seq<T>, x: T) returns (i: nat)
    requires x in xs
    ensures i < |xs| && xs[i] == x
  {
    i :| 0 <= i < |xs| && xs[i] == x;
  }

  /** A member of an image is the image of some element. */
  lemma MapMember<T, U>(xs: seq<T>, f: T -> U, y: U) returns (k: nat)
    requires y in Map(xs, f)
    ensures k < |xs| && y == f(xs[k])
  {
    var ys := Map(xs, f);
    k :| 0 <= k < |ys| && ys[k] == y;
  }

  /** Summing through a map is summing the composed column. */
  lemma {:induction false} SumOfMap<T, U>(xs: seq<T>, f: T -> U, g: U -> real, h: T -> real)
    requires forall x :: g(f(x)) == h(x)
    ensures SumOf(Map(xs, f), g) == SumOf(xs, h)
  {
    if |xs| > 0 {
      assert Map(xs, f)[1..] == Map(xs[1..], f);
      SumOfMap(xs[1..], f, g, h);
    }
  }

  /** Percentages of a total add up like the values they are taken of. */
  lemma {:induction false} SumOfPercent<T>(xs: seq<T>, f: T -> real, g: T -> real, t: real)
    requires t != 0.0
    requires forall i :: 0 <= i < |xs| ==> g(xs[i]) == f(xs[i]) / t * 100.0
    ensures SumOf(xs, g) == SumOf(xs, f) / t * 100.0
  {
    if |xs| > 0 {
      SumOfPercent(xs[1..], f, g, t);
      PercentAdd(f(xs[0]), SumOf(xs[1..], f), t);
    }
  }

  lemma PercentAdd(a: real, b: real, t: real)
    requires t != 0.0
    ensures (a + b) / t * 100.0 == a / t * 100.0 + b / t * 100.0
  {
  }

  // ---------------------------------------------------------------------
  // Extrema

  /** Some element reaches the mean: one term times the count is at least
      the sum. */
  lemma SomeAtLeastMean<T>(xs: seq<T>, f: T -> real) returns (k: nat)
    requires |xs| > 0
    ensures k < |xs| && SumOf(xs, f) <= (|xs| as real) * f(xs[k])
  {
    var fs := Map(xs, f);
    var m := SeqMax(fs);
    var i :| 0 <= i < |fs| && fs[i] == m;
    forall j | 0 <= j < |xs| ensures f(xs[j]) <= m {
      assert fs[j] == f(xs[j]);
    }
    SumOfAtMost(xs, f, m);
    k := i;
  }
}
