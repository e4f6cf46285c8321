/** Runs of equal flags in a boolean series: the run ending at each position
    and the longest run of a given value, with the reference definition
    "no window of consecutive `v`s is longer, and one is this long". */
module Runs {

  ghost predicate AllAre(bs: seq<bool>, v: bool, lo: int, hi: int)
    requires 0 <= lo <= hi <= |bs|
  {
    forall k :: lo <= k < hi ==> bs[k] == v
  }

  /** `bs[lo..lo + len]` exists and is all `v`. */
  ghost predicate RunAt(bs: seq<bool>, v: bool, lo: int, len: nat)
  {
    0 <= lo && lo + len <= |bs| && AllAre(bs, v, lo, lo + len)
  }

  /** `n` is the length of the longest window of consecutive `v`s. */
  ghost predicate IsLongestRun(bs: seq<bool>, v: bool, n: nat)
  {
    && n <= |bs|
    && (exists lo :: RunAt(bs, v, lo, n))
    && (forall lo, hi :: 0 <= lo <= hi <= |bs| && AllAre(bs, v, lo, hi) ==> hi - lo <= n)
  }

  /** The number of consecutive `v`s ending at position `i` (0 when `bs[i]`
      is not `v`): the per-group running count of a flag. */
  function RunEndingAt(bs: seq<bool>, v: bool, i: nat): (n: nat)
    requires i < |bs|
    ensures n <= i + 1
    ensures AllAre(bs, v, i + 1 - n, i + 1)
    ensures n <= i ==> bs[i - n] != v
  {
    if bs[i] != v then 0
    else if i == 0 then 1
    else RunEndingAt(bs, v, i - 1) + 1
  }

  /** The largest of the run counts at positions below `n`, or 0. */
  function MaxRunBelow(bs: seq<bool>, v: bool, n: nat): (m: nat)
    requires n <= |bs|
    ensures forall i :: 0 <= i < n ==> RunEndingAt(bs, v, i) <= m
  {
    if n == 0 then 0
    else
      var prev := MaxRunBelow(bs, v, n - 1);
      var here := RunEndingAt(bs, v, n - 1);
      if here > prev then here else prev
  }

  /** A non-zero maximum is the run count at some position. */
  lemma {:induction false} MaxRunBelowAttained(bs: seq<bool>, v: bool, n: nat) returns (i: nat)
    requires n <= |bs|
    ensures MaxRunBelow(bs, v, n) > 0 ==> i < n && RunEndingAt(bs, v, i) == MaxRunBelow(bs, v, n)
  {
    i := 0;
    if n > 0 {
      if RunEndingAt(bs, v, n - 1) > MaxRunBelow(bs, v, n - 1) {
        i := n - 1;
      } else {
        i := MaxRunBelowAttained(bs, v, n - 1);
      }
    }
  }

  /** The longest run of `v` in `bs`, computed as the largest run count. */
  function LongestRun(bs: seq<bool>, v: bool): nat
  {
    MaxRunBelow(bs, v, |bs|)
  }

  /** A window of `v`s ending at `hi - 1` is no longer than the run there. */
  lemma {:induction false} WindowWithinRun(bs: seq<bool>, v: bool, lo: nat, hi: nat)
    requires lo < hi <= |bs| && AllAre(bs, v, lo, hi)
    ensures hi - lo <= RunEndingAt(bs, v, hi - 1)
  {
    if hi - 1 > lo {
      WindowWithinRun(bs, v, lo, hi - 1);
    }
  }

  /** The largest run count is the longest run. */
  lemma LongestRunIsLongest(bs: seq<bool>, v: bool)
    ensures IsLongestRun(bs, v, LongestRun(bs, v))
  {
    var m := LongestRun(bs, v);
    if m == 0 {
      assert RunAt(bs, v, 0, 0);
    } else {
      var i := MaxRunBelowAttained(bs, v, |bs|);
      assert RunAt(bs, v, i + 1 - m, m);
    }
    forall lo, hi | 0 <= lo <= hi <= |bs| && AllAre(bs, v, lo, hi) ensures hi - lo <= m {
      if lo < hi {
        WindowWithinRun(bs, v, lo, hi);
      }
    }
  }

  /** The longest run is 0 exactly when `v` does not occur. */
  lemma LongestRunZero(bs: seq<bool>, v: bool)
    ensures LongestRun(bs, v) == 0 <==> forall k :: 0 <= k < |bs| ==> bs[k] != v
  {
    if exists k :: 0 <= k < |bs| && bs[k] == v {
      var k :| 0 <= k < |bs| && bs[k] == v;
      assert RunEndingAt(bs, v, k) >= 1;
    } else {
      var i := MaxRunBelowAttained(bs, v, |bs|);
    }
  }
}
