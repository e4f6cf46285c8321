/** Group-by over a sequence: the rows of one key, the distinct keys in order
    of first appearance, and the fact that per-group totals add up to the
    grand total. */
module Grouping {
  import opened Seqs

  /** The mask "key of x is k". */
  function KeyIs<T, K(==)>(key: T -> K, k: K): T -> bool
  {
    x => key(x) == k
  }

  /** The rows of `xs` whose key is `k`, in order (one `groupby` group). */
  function Group<T, K(==)>(xs: seq<T>, key: T -> K, k: K): seq<T>
  {
    Where(xs, KeyIs(key, k))
  }

  ghost predicate NoDuplicates<K>(ks: seq<K>)
  {
    forall i, j :: 0 <= i < j < |ks| ==> ks[i] != ks[j]
  }

  /** The distinct values of `xs` in order of first appearance (pandas
      `.unique()`). */
  function Distinct<K(==)>(xs: seq<K>): (r: seq<K>)
    ensures NoDuplicates(r)
    ensures forall i :: 0 <= i < |xs| ==> xs[i] in r
    ensures forall i :: 0 <= i < |r| ==> r[i] in xs
  {
    if |xs| == 0 then []
    else
      var d := Distinct(xs[..|xs| - 1]);
      if xs[|xs| - 1] in d then d else d + [xs[|xs| - 1]]
  }

  /** The distinct keys of `xs`. */
  function Keys<T, K(==)>(xs: seq<T>, key: T -> K): (r: seq<K>)
    ensures NoDuplicates(r)
    ensures forall i :: 0 <= i < |xs| ==> key(xs[i]) in r
    ensures forall k :: k in r ==> |Group(xs, key, k)| > 0
  {
    var ks := Map(xs, key);
    var r := Distinct(ks);
    forall k | k in r ensures |Group(xs, key, k)| > 0 {
      var i :| 0 <= i < |ks| && ks[i] == k;
      WhereMember(xs, KeyIs(key, k), xs[i]);
    }
    r
  }

  /** A group is non-empty exactly when its key occurs. */
  lemma {:induction false} GroupNonEmpty<T, K>(xs: seq<T>, key: T -> K, k: K)
    ensures |Group(xs, key, k)| > 0 <==> k in Map(xs, key)
  {
    if |xs| > 0 {
      GroupNonEmpty(xs[1..], key, k);
      assert Map(xs, key) == [key(xs[0])] + Map(xs[1..], key);
    }
  }

  /** Sum of the per-group sums of `f`, over the groups named in `keys`. */
  function SumOverKeys<T, K(==)>(xs: seq<T>, keys: seq<K>, key: T -> K, f: T -> real): real
  {
    if |keys| == 0 then 0.0
    else SumOf(Group(xs, key, keys[0]), f) + SumOverKeys(xs, keys[1..], key, f)
  }

  lemma {:induction false} SumOverKeysCons<T, K>(x: T, xs: seq<T>, keys: seq<K>, key: T -> K, f: T -> real)
    requires NoDuplicates(keys)
    ensures SumOverKeys([x] + xs, keys, key, f)
         == SumOverKeys(xs, keys, key, f) + (if key(x) in keys then f(x) else 0.0)
  {
    if |keys| > 0 {
      SumOverKeysCons(x, xs, keys[1..], key, f);
      assert ([x] + xs)[1..] == xs;
      var head := if key(x) == keys[0] then [x] else [];
      SumOfConcat(head, Group(xs, key, keys[0]), f);
      assert key(x) in keys <==> key(x) == keys[0] || key(x) in keys[1..];
    }
  }

  /** Group totals add up: when `keys` are distinct and name the key of every
      row, the per-group sums of `f` add up to the sum of `f` over all rows. */
  lemma {:induction false} GroupTotals<T, K>(xs: seq<T>, keys: seq<K>, key: T -> K, f: T -> real)
    requires NoDuplicates(keys)
    requires forall i :: 0 <= i < |xs| ==> key(xs[i]) in keys
    ensures SumOverKeys(xs, keys, key, f) == SumOf(xs, f)
  {
    if |xs| == 0 {
      EmptyGroups(keys, key, f);
    } else {
      assert xs == [xs[0]] + xs[1..];
      SumOverKeysCons(xs[0], xs[1..], keys, key, f);
      GroupTotals(xs[1..], keys, key, f);
    }
  }

  lemma {:induction false} EmptyGroups<T, K>(keys: seq<K>, key: T -> K, f: T -> real)
    ensures SumOverKeys([], keys, key, f) == 0.0
  {
    if |keys| > 0 {
      EmptyGroups(keys[1..], key, f);
    }
  }

  /** Group sizes add up to the number of rows. */
  lemma GroupSizes<T, K>(xs: seq<T>, keys: seq<K>, key: T -> K)
    requires NoDuplicates(keys)
    requires forall i :: 0 <= i < |xs| ==> key(xs[i]) in keys
    ensures SumOverKeys(xs, keys, key, One) == |xs| as real
  {
    GroupTotals(xs, keys, key, One);
    SumOfOne(xs);
  }

  /** A table with one row per key, each holding its group's sum of `f`,
      sums to the sum over the groups. */
  lemma {:induction false} SumOfTable<T, K, R>(xs: seq<T>, keys: seq<K>, key: T -> K, f: T -> real, row: K -> R, g: R -> real)
    requires forall i :: 0 <= i < |keys| ==> g(row(keys[i])) == SumOf(Group(xs, key, keys[i]), f)
    ensures SumOf(Map(keys, row), g) == SumOverKeys(xs, keys, key, f)
  {
    if |keys| > 0 {
      assert Map(keys, row)[1..] == Map(keys[1..], row);
      SumOfTable(xs, keys[1..], key, f, row, g);
    }
  }

  /** A subsequence of distinct keys is distinct. */
  lemma {:induction false} WhereNoDuplicates<K>(ks: seq<K>, keep: K -> bool)
    requires NoDuplicates(ks)
    ensures NoDuplicates(Where(ks, keep))
  {
    if |ks| > 0 {
      WhereNoDuplicates(ks[1..], keep);
      var w := Where(ks[1..], keep);
      forall j | 0 <= j < |w| ensures w[j] != ks[0] {
        assert w[j] in w;
        WhereMember(ks[1..], keep, w[j]);
      }
    }
  }

  /** Distinct elements occur once each. */
  lemma {:induction false} NoDuplicatesCount<K>(ks: seq<K>, k: K)
    requires NoDuplicates(ks)
    ensures multiset(ks)[k] <= 1
  {
    if |ks| > 0 {
      NoDuplicatesCount(ks[1..], k);
      assert ks == [ks[0]] + ks[1..];
      if ks[0] == k {
        assert k !in ks[1..];
      }
    }
  }

  /** A rearrangement of distinct elements is distinct. */
  lemma NoDuplicatesPermutation<K>(ks: seq<K>, ls: seq<K>)
    requires NoDuplicates(ks) && multiset(ls) == multiset(ks)
    ensures NoDuplicates(ls)
  {
    forall i, j | 0 <= i < j < |ls| ensures ls[i] != ls[j] {
      NoDuplicatesCount(ks, ls[i]);
      RepeatCounted(ls, i, j);
    }
  }

  lemma RepeatCounted<K>(ls: seq<K>, i: nat, j: nat)
    requires i < j < |ls|
    ensures ls[i] == ls[j] ==> multiset(ls)[ls[i]] >= 2
  {
    assert ls == ls[..j] + [ls[j]] + ls[j + 1..];
    assert ls[i] in ls[..j];
  }
}
