/** A stable insertion sort by a real-valued key, descending, and the
    `nlargest`-style selection of the first few rows of the sorted order.
    Sorting ascending by `k` is sorting descending by `-k`. */
module Sorting {
  import opened Seqs

  ghost predicate SortedDesc<T>(xs: seq<T>, key: T -> real)
  {
    forall i, j :: 0 <= i < j < |xs| ==> key(xs[i]) >= key(xs[j])
  }

  /** Puts `x` in front of the first element whose key is not larger, so that
      among equal keys `x` comes first. */
  function Insert<T(==)>(x: T, s: seq<T>, key: T -> real): (r: seq<T>)
    ensures multiset(r) == multiset(s) + multiset{x}
  {
    if |s| == 0 || key(s[0]) <= key(x) then [x] + s
    else
      assert s == [s[0]] + s[1..];
      [s[0]] + Insert(x, s[1..], key)
  }

  lemma {:induction false} InsertSorted<T>(x: T, s: seq<T>, key: T -> real)
    requires SortedDesc(s, key)
    ensures SortedDesc(Insert(x, s, key), key)
  {
    if |s| > 0 && key(s[0]) > key(x) {
      InsertSorted(x, s[1..], key);
      var t := Insert(x, s[1..], key);
      forall j | 0 <= j < |t| ensures key(t[j]) <= key(s[0]) {
        assert t[j] in multiset(t);
      }
    }
  }

  /** The rows of `xs` sorted by `key`, largest first; rows with equal keys
      keep their input order. */
  function SortDesc<T(==)>(xs: seq<T>, key: T -> real): (r: seq<T>)
    ensures SortedDesc(r, key)
    ensures multiset(r) == multiset(xs)
  {
    if |xs| == 0 then []
    else
      assert xs == [xs[0]] + xs[1..];
      InsertSorted(xs[0], SortDesc(xs[1..], key), key);
      Insert(xs[0], SortDesc(xs[1..], key), key)
  }

  lemma {:induction false} SumOfInsert<T>(x: T, s: seq<T>, key: T -> real, f: T -> real)
    ensures SumOf(Insert(x, s, key), f) == f(x) + SumOf(s, f)
  {
    if |s| > 0 && key(s[0]) > key(x) {
      SumOfInsert(x, s[1..], key, f);
    }
  }

  /** Sorting does not change any column total. */
  lemma {:induction false} SumOfSortDesc<T>(xs: seq<T>, key: T -> real, f: T -> real)
    ensures SumOf(SortDesc(xs, key), f) == SumOf(xs, f)
  {
    if |xs| > 0 {
      SumOfSortDesc(xs[1..], key, f);
      SumOfInsert(xs[0], SortDesc(xs[1..], key), key, f);
    }
  }

  /** Sorting keeps the length and the members. */
  lemma SortDescMembers<T>(xs: seq<T>, key: T -> real)
    ensures |SortDesc(xs, key)| == |xs|
    ensures forall x :: x in SortDesc(xs, key) <==> x in xs
  {
    var s := SortDesc(xs, key);
    assert |s| == |multiset(s)|;
    forall x ensures x in s <==> x in xs {
      assert x in s <==> x in multiset(s);
    }
  }

  /** A sequence that is already in order is left exactly as it is. */
  lemma {:induction false} SortDescOfSorted<T>(xs: seq<T>, key: T -> real)
    requires SortedDesc(xs, key)
    ensures SortDesc(xs, key) == xs
  {
    if |xs| > 0 {
      SortDescOfSorted(xs[1..], key);
    }
  }

  /** The first `n` rows by `key` (pandas `nlargest(n)` with `keep='first'`). */
  function Top<T(==)>(xs: seq<T>, n: nat, key: T -> real): (r: seq<T>)
    ensures |r| == if n < |xs| then n else |xs|
    ensures SortedDesc(r, key)
    ensures multiset(r) <= multiset(xs)
  {
    var s := SortDesc(xs, key);
    assert |s| == |multiset(s)| == |xs|;
    var k := if n < |s| then n else |s|;
    assert s == s[..k] + s[k..];
    s[..k]
  }

  /** No row left out of `Top`, counting copies, has a larger key than a row taken. */
  lemma TopTakesLargest<T>(xs: seq<T>, n: nat, key: T -> real, x: T, y: T)
    requires x in Top(xs, n, key) && y in multiset(xs) - multiset(Top(xs, n, key))
    ensures key(y) <= key(x)
  {
    var s := SortDesc(xs, key);
    assert |s| == |multiset(s)| == |xs|;
    var k := if n < |s| then n else |s|;
    assert Top(xs, n, key) == s[..k];
    assert s == s[..k] + s[k..];
    assert multiset(s) == multiset(s[..k]) + multiset(s[k..]);
    assert y in multiset(s[k..]);
    assert y in s[k..];
    var i :| 0 <= i < k && s[i] == x;
    var j :| k <= j < |s| && s[j] == y;
  }
}
