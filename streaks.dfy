/** Section 5 of `analyze_trades`: the closed trades, in time order, split
    into maximal runs of wins and of losses (a new group starts wherever the
    win flag differs from the previous one), and the longest run of each. */
module Streaks {
  import opened Seqs
  import opened Ledger
  import opened Runs

  /** One group of `streak_groups`: its `first` flag and its `size`. */
  datatype Streak = Streak(isWin: bool, size: nat)

  /** The groups of consecutive equal flags, in order. */
  function StreaksOf(flags: seq<bool>): (r: seq<Streak>)
    ensures |r| <= |flags|
    ensures |flags| > 0 ==> |r| > 0 && r[0].isWin == flags[0]
  {
    if |flags| == 0 then []
    else
      var rest := StreaksOf(flags[1..]);
      if |rest| > 0 && rest[0].isWin == flags[0] then [Streak(flags[0], rest[0].size + 1)] + rest[1..]
      else [Streak(flags[0], 1)] + rest
  }

  function MaxNat(a: nat, b: nat): nat { if a >= b then a else b }

  /** The size a streak contributes to the maximum for flag `v`. */
  function Contribution(s: Streak, v: bool): nat { if s.isWin == v then s.size else 0 }

  /** The largest size among the streaks with flag `v`, 0 when there is
      none (`streaks[...]['size'].max()` guarded by `.empty`). */
  function MaxOf(rs: seq<Streak>, v: bool): nat
  {
    if |rs| == 0 then 0 else MaxNat(Contribution(rs[0], v), MaxOf(rs[1..], v))
  }

  function MaxStreak(flags: seq<bool>, v: bool): nat
  {
    MaxOf(StreaksOf(flags), v)
  }

  /** `n` copies of `v`. */
  function Repeat(v: bool, n: nat): seq<bool>
  {
    if n == 0 then [] else [v] + Repeat(v, n - 1)
  }

  /** The flags written back out from the streaks. */
  function Expand(rs: seq<Streak>): seq<bool>
  {
    if |rs| == 0 then [] else Repeat(rs[0].isWin, rs[0].size) + Expand(rs[1..])
  }

  /** Streaks that are non-empty and whose neighbours have different flags:
      each is a maximal run. */
  ghost predicate Maximal(rs: seq<Streak>)
  {
    && (forall i :: 0 <= i < |rs| ==> rs[i].size >= 1)
    && (forall i :: 0 <= i < |rs| - 1 ==> rs[i].isWin != rs[i + 1].isWin)
  }

  function TotalSize(rs: seq<Streak>): nat
  {
    if |rs| == 0 then 0 else rs[0].size + TotalSize(rs[1..])
  }

  /** How many flags equal `v`. */
  function Count(flags: seq<bool>, v: bool): nat
  {
    if |flags| == 0 then 0 else (if flags[0] == v then 1 else 0) + Count(flags[1..], v)
  }

  // ---------------------------------------------------------------------
  // The decomposition

  lemma MaxOfCons(s: Streak, rest: seq<Streak>, v: bool)
    ensures MaxOf([s] + rest, v) == MaxNat(Contribution(s, v), MaxOf(rest, v))
  {
    assert ([s] + rest)[0] == s && ([s] + rest)[1..] == rest;
  }

  /** Every streak is non-empty and neighbouring streaks have different
      flags, so the streaks are maximal. */
  lemma {:induction false} StreaksAlternate(flags: seq<bool>)
    ensures Maximal(StreaksOf(flags))
  {
    if |flags| > 0 {
      StreaksAlternate(flags[1..]);
      var rest := StreaksOf(flags[1..]);
      var r := StreaksOf(flags);
      if |rest| > 0 && rest[0].isWin == flags[0] {
        forall i | 0 < i < |r| ensures r[i] == rest[i] { }
      } else {
        forall i | 0 < i < |r| ensures r[i] == rest[i - 1] { }
      }
    }
  }

  /** Writing the streaks back out gives the flags again. */
  lemma {:induction false} StreaksExpand(flags: seq<bool>)
    ensures Expand(StreaksOf(flags)) == flags
  {
    if |flags| > 0 {
      var x, t := flags[0], flags[1..];
      StreaksExpand(t);
      var rest := StreaksOf(t);
      var r := StreaksOf(flags);
      assert flags == [x] + t;
      if |rest| > 0 && rest[0].isWin == x {
        var n := rest[0].size;
        assert r[0] == Streak(x, n + 1) && r[1..] == rest[1..];
        assert Expand(r) == Repeat(x, n + 1) + Expand(rest[1..]);
        assert Repeat(x, n + 1) == [x] + Repeat(x, n);
        assert Expand(rest) == Repeat(x, n) + Expand(rest[1..]);
        assert Expand(r) == [x] + (Repeat(x, n) + Expand(rest[1..]));
      } else {
        assert r[0] == Streak(x, 1) && r[1..] == rest;
        assert Expand(r) == Repeat(x, 1) + Expand(rest);
        assert Repeat(x, 1) == [x];
      }
    }
  }

  /** The streak sizes add up to the number of flags. */
  lemma {:induction false} StreakSizesSum(flags: seq<bool>)
    ensures TotalSize(StreaksOf(flags)) == |flags|
  {
    if |flags| > 0 {
      StreakSizesSum(flags[1..]);
      var rest := StreaksOf(flags[1..]);
      var r := StreaksOf(flags);
      if |rest| > 0 && rest[0].isWin == flags[0] {
        assert r[1..] == rest[1..];
      } else {
        assert r[1..] == rest;
      }
    }
  }

  // ---------------------------------------------------------------------
  // The longest streak

  /** The first streak covers a prefix of equal flags. */
  lemma {:induction false} FirstStreakWindow(flags: seq<bool>)
    requires |flags| > 0
    ensures StreaksOf(flags)[0].size <= |flags|
    ensures AllAre(flags, flags[0], 0, StreaksOf(flags)[0].size)
  {
    var t := flags[1..];
    var rest := StreaksOf(t);
    if |rest| > 0 && rest[0].isWin == flags[0] {
      FirstStreakWindow(t);
      forall k | 0 <= k < rest[0].size + 1 ensures flags[k] == flags[0] {
        if k > 0 { assert flags[k] == t[k - 1]; }
      }
    }
  }

  /** A prefix of equal flags is no longer than the first streak. */
  lemma {:induction false} PrefixWithinFirstStreak(flags: seq<bool>, hi: nat)
    requires 0 < hi <= |flags| && AllAre(flags, flags[0], 0, hi)
    ensures hi <= StreaksOf(flags)[0].size
  {
    StreaksAlternate(flags);
    if hi > 1 {
      var t := flags[1..];
      assert t[0] == flags[1] == flags[0];
      forall k | 0 <= k < hi - 1 ensures t[k] == t[0] {
        assert t[k] == flags[k + 1];
      }
      PrefixWithinFirstStreak(t, hi - 1);
    }
  }

  /** Adding a flag in front never lowers the longest streak. */
  lemma MaxStreakGrows(flags: seq<bool>, v: bool)
    requires |flags| > 0
    ensures MaxStreak(flags[1..], v) <= MaxStreak(flags, v)
  {
    var rest := StreaksOf(flags[1..]);
    var r := StreaksOf(flags);
    if |rest| > 0 && rest[0].isWin == flags[0] {
      assert rest == [rest[0]] + rest[1..];
      MaxOfCons(rest[0], rest[1..], v);
      MaxOfCons(r[0], rest[1..], v);
    } else {
      MaxOfCons(r[0], rest, v);
    }
  }

  lemma FirstStreakAtMostMax(flags: seq<bool>)
    requires |flags| > 0
    ensures StreaksOf(flags)[0].size <= MaxStreak(flags, flags[0])
  {
    var r := StreaksOf(flags);
    assert r == [r[0]] + r[1..];
    MaxOfCons(r[0], r[1..], flags[0]);
  }

  /** No window of consecutive `v`s is longer than the longest streak. */
  lemma {:induction false} WindowWithinMaxStreak(flags: seq<bool>, v: bool, lo: nat, hi: nat)
    requires lo <= hi <= |flags| && AllAre(flags, v, lo, hi)
    ensures hi - lo <= MaxStreak(flags, v)
  {
    if lo < hi {
      if lo == 0 {
        assert flags[0] == v;
        PrefixWithinFirstStreak(flags, hi);
        FirstStreakAtMostMax(flags);
      } else {
        var t := flags[1..];
        forall k | lo - 1 <= k < hi - 1 ensures t[k] == v {
          assert t[k] == flags[k + 1];
        }
        WindowWithinMaxStreak(t, v, lo - 1, hi - 1);
        MaxStreakGrows(flags, v);
      }
    }
  }

  /** Some window of consecutive `v`s is as long as the longest streak. */
  lemma {:induction false} MaxStreakAttained(flags: seq<bool>, v: bool) returns (lo: nat)
    ensures RunAt(flags, v, lo, MaxStreak(flags, v))
  {
    lo := 0;
    var m := MaxStreak(flags, v);
    if m > 0 {
      var x, t := flags[0], flags[1..];
      var rest := StreaksOf(t);
      var r := StreaksOf(flags);
      var merged := |rest| > 0 && rest[0].isWin == x;
      var later := if merged then rest[1..] else rest;
      assert r == [r[0]] + later;
      MaxOfCons(r[0], later, v);
      if merged {
        assert rest == [rest[0]] + rest[1..];
        MaxOfCons(rest[0], rest[1..], v);
      }
      if m == Contribution(r[0], v) {
        FirstStreakWindow(flags);
      } else {
        assert m == MaxStreak(t, v);
        var lo' := MaxStreakAttained(t, v);
        forall k | lo' + 1 <= k < lo' + 1 + m ensures flags[k] == v {
          assert flags[k] == t[k - 1];
        }
        lo := lo' + 1;
      }
    }
  }

  /** `max_win_streak` / `max_loss_streak` is the longest run of
      consecutive wins / losses. */
  lemma MaxStreakIsLongestRun(flags: seq<bool>, v: bool)
    ensures IsLongestRun(flags, v, MaxStreak(flags, v))
  {
    var lo := MaxStreakAttained(flags, v);
    forall lo, hi | 0 <= lo <= hi <= |flags| && AllAre(flags, v, lo, hi)
      ensures hi - lo <= MaxStreak(flags, v)
    {
      WindowWithinMaxStreak(flags, v, lo, hi);
    }
  }

  /** The longest streak of `v` is at most the number of `v`s. */
  lemma {:induction false} MaxStreakAtMostCount(flags: seq<bool>, v: bool)
    ensures MaxStreak(flags, v) <= Count(flags, v)
  {
    if |flags| > 0 {
      var x, t := flags[0], flags[1..];
      MaxStreakAtMostCount(t, v);
      var rest := StreaksOf(t);
      var r := StreaksOf(flags);
      var merged := |rest| > 0 && rest[0].isWin == x;
      var later := if merged then rest[1..] else rest;
      assert r == [r[0]] + later;
      MaxOfCons(r[0], later, v);
      if merged {
        assert rest == [rest[0]] + rest[1..];
        MaxOfCons(rest[0], rest[1..], v);
      }
    }
  }

  // ---------------------------------------------------------------------
  // Over the closed trades

  function IsWinFlag(r: Row): bool { r.pnl > 0.0 }

  /** The `IsWin` column of the closed trades. */
  function WinFlags(closed: seq<Row>): seq<bool> { Map(closed, IsWinFlag) }

  function MaxWinStreak(closed: seq<Row>): nat { MaxStreak(WinFlags(closed), true) }
  function MaxLossStreak(closed: seq<Row>): nat { MaxStreak(WinFlags(closed), false) }

  lemma {:induction false} CountWinFlags(closed: seq<Row>)
    requires forall i :: 0 <= i < |closed| ==> closed[i].pnl != 0.0
    ensures Count(WinFlags(closed), true) == |Where(closed, IsWin)|
    ensures Count(WinFlags(closed), false) == |Where(closed, IsLoss)|
  {
    if |closed| > 0 {
      CountWinFlags(closed[1..]);
      assert WinFlags(closed)[1..] == WinFlags(closed[1..]);
    }
  }

  /** Over the closed trades of a ledger the streak sizes add up to the
      number of closed trades, and the longest win (loss) streak is at most
      the number of wins (losses). */
  lemma StreaksOfClosedTrades(rows: seq<Row>)
    ensures var closed := Closed(rows);
      && TotalSize(StreaksOf(WinFlags(closed))) == |closed|
      && MaxWinStreak(closed) <= |Where(closed, IsWin)|
      && MaxLossStreak(closed) <= |Where(closed, IsLoss)|
  {
    var closed := Closed(rows);
    StreakSizesSum(WinFlags(closed));
    CountWinFlags(closed);
    MaxStreakAtMostCount(WinFlags(closed), true);
    MaxStreakAtMostCount(WinFlags(closed), false);
  }

  /** P/L +100, -50, +30: three streaks of one, so both maxima are 1. */
  lemma ExampleStreaks()
    ensures StreaksOf([true, false, true]) == [Streak(true, 1), Streak(false, 1), Streak(true, 1)]
    ensures MaxStreak([true, false, true], true) == 1
    ensures MaxStreak([true, false, true], false) == 1
  {
    var f := [true, false, true];
    assert f[1..] == [false, true] && f[1..][1..] == [true] && [true][1..] == [];
    var r := [Streak(true, 1), Streak(false, 1), Streak(true, 1)];
    assert StreaksOf([true]) == [Streak(true, 1)];
    assert StreaksOf([false, true]) == [Streak(false, 1), Streak(true, 1)];
    assert r[1..] == [Streak(false, 1), Streak(true, 1)] && r[1..][1..] == [Streak(true, 1)];
  }
}
