/** The time-based equity curve: realized P/L summed per calendar day, its
    running total, the running peak, the drawdown below that peak, and the
    longest stretch of days spent under water. */
module Equity {
  import opened Wrappers
  import opened Seqs
  import opened Grouping
  import opened Ledger
  import opened Runs

  /** One trading day and the realized P/L booked on it. */
  datatype DayPoint = DayPoint(day: int, net: real)

  function Net(p: DayPoint): real { p.net }
  function PointDay(p: DayPoint): int { p.day }
  function DayOfRow(r: Row): int { Day(r.time) }

  /** The daily P/L series of a ledger in time order: consecutive rows of
      the same calendar day are summed into one point. */
  function DailyNet(rows: seq<Row>): (r: seq<DayPoint>)
    ensures |r| <= |rows|
    ensures |rows| > 0 ==> |r| > 0 && r[0].day == Day(rows[0].time)
  {
    if |rows| == 0 then []
    else
      var rest := DailyNet(rows[1..]);
      var d := Day(rows[0].time);
      if |rest| > 0 && rest[0].day == d then [DayPoint(d, rows[0].pnl + rest[0].net)] + rest[1..]
      else [DayPoint(d, rows[0].pnl)] + rest
  }

  /** No P/L is lost in the daily aggregation. */
  lemma {:induction false} DailyNetTotal(rows: seq<Row>)
    ensures SumOf(DailyNet(rows), Net) == SumOf(rows, Pnl)
  {
    if |rows| > 0 {
      DailyNetTotal(rows[1..]);
      var rest := DailyNet(rows[1..]);
      if |rest| > 0 && rest[0].day == Day(rows[0].time) {
        assert rest == [rest[0]] + rest[1..];
        SumOfConcat([rest[0]], rest[1..], Net);
      }
    }
  }

  lemma GroupOfCons(x: Row, rest: seq<Row>, d: int)
    ensures Group([x] + rest, DayOfRow, d)
         == (if Day(x.time) == d then [x] else []) + Group(rest, DayOfRow, d)
  {
    var xs := [x] + rest;
    assert xs[0] == x && xs[1..] == rest;
    assert KeyIs(DayOfRow, d)(x) == (Day(x.time) == d);
  }

  ghost predicate DaysIncrease(ps: seq<DayPoint>)
  {
    forall i, j :: 0 <= i < j < |ps| ==> ps[i].day < ps[j].day
  }

  /** On a ledger in time order the days of the daily series strictly
      increase. */
  lemma {:induction false} DailyNetIncreasing(rows: seq<Row>)
    requires SortedByTime(rows)
    ensures DaysIncrease(DailyNet(rows))
  {
    if |rows| > 0 {
      var x, tail := rows[0], rows[1..];
      DailyNetIncreasing(tail);
      var rest := DailyNet(tail);
      var d := Day(x.time);
      var r := DailyNet(rows);
      if |rest| > 0 {
        assert rows[1] == tail[0];
        DayMonotone(x.time, tail[0].time);
        assert rest[0].day >= d;
      }
      var merged := |rest| > 0 && rest[0].day == d;
      var later := if merged then rest[1..] else rest;
      assert r == [r[0]] + later;
      forall k | 0 <= k < |later| ensures later[k].day > d {
        if merged {
          assert later[k] == rest[k + 1];
        } else {
          assert later[k] == rest[k];
          if k > 0 { assert rest[0].day < rest[k].day; }
        }
      }
    }
  }

  /** Every trading day of the ledger has a point in the daily series. */
  lemma {:induction false} DailyNetCovers(rows: seq<Row>)
    ensures forall i :: 0 <= i < |rows| ==> Day(rows[i].time) in Map(DailyNet(rows), PointDay)
  {
    if |rows| > 0 {
      var x, tail := rows[0], rows[1..];
      DailyNetCovers(tail);
      var rest := DailyNet(tail);
      var d := Day(x.time);
      var r := DailyNet(rows);
      var merged := |rest| > 0 && rest[0].day == d;
      forall i | 0 <= i < |rows| ensures Day(rows[i].time) in Map(r, PointDay) {
        if i == 0 {
          assert Map(r, PointDay)[0] == d;
        } else {
          var ds := Map(rest, PointDay);
          assert rows[i] == tail[i - 1];
          var k :| 0 <= k < |ds| && ds[k] == Day(tail[i - 1].time);
          if merged && k == 0 {
            assert Map(r, PointDay)[0] == ds[k];
          } else if merged {
            assert Map(r, PointDay)[k] == ds[k];
          } else {
            assert Map(r, PointDay)[k + 1] == ds[k];
          }
        }
      }
    }
  }

  /** Each point holds the total realized P/L of the rows of its day. */
  ghost predicate DaySums(rows: seq<Row>, ps: seq<DayPoint>)
  {
    forall k :: 0 <= k < |ps| ==> ps[k].net == SumOf(Group(rows, DayOfRow, ps[k].day), Pnl)
  }

  /** A day with no point in the daily series has no rows. */
  lemma NoPointNoRows(rows: seq<Row>, d: int)
    requires forall k :: 0 <= k < |DailyNet(rows)| ==> DailyNet(rows)[k].day != d
    ensures Group(rows, DayOfRow, d) == []
  {
    DailyNetCovers(rows);
    var ds := Map(DailyNet(rows), PointDay);
    forall i | 0 <= i < |rows| ensures !KeyIs(DayOfRow, d)(rows[i]) {
      var k :| 0 <= k < |ds| && ds[k] == Day(rows[i].time);
      assert KeyIs(DayOfRow, d)(rows[i]) == (Day(rows[i].time) == d);
    }
    WhereNone(rows, KeyIs(DayOfRow, d));
  }

  /** Prepending a row of day `d` leaves the group of a later day alone. */
  lemma OtherDayGroup(x: Row, tail: seq<Row>, e: int)
    requires Day(x.time) != e
    ensures Group([x] + tail, DayOfRow, e) == Group(tail, DayOfRow, e)
  {
    GroupOfCons(x, tail, e);
  }

  /** On a ledger in time order each point of the daily series holds the
      total realized P/L of the rows of its day. */
  lemma {:induction false} DailyNetSums(rows: seq<Row>)
    requires SortedByTime(rows)
    ensures DaySums(rows, DailyNet(rows))
  {
    if |rows| > 0 {
      var x, tail := rows[0], rows[1..];
      assert rows == [x] + tail;
      DailyNetSums(tail);
      DailyNetIncreasing(tail);
      var rest := DailyNet(tail);
      var d := Day(x.time);
      var r := DailyNet(rows);
      if |rest| > 0 {
        assert rows[1] == tail[0];
        DayMonotone(x.time, tail[0].time);
      }
      var merged := |rest| > 0 && rest[0].day == d;
      var later := if merged then rest[1..] else rest;
      assert r == [r[0]] + later;
      forall k | 0 <= k < |rest| && (k > 0 || !merged) ensures rest[k].day != d {
        if k > 0 { assert rest[0].day < rest[k].day; }
      }
      forall k | 0 <= k < |later|
        ensures later[k].net == SumOf(Group(rows, DayOfRow, later[k].day), Pnl)
      {
        var j := if merged then k + 1 else k;
        assert later[k] == rest[j];
        OtherDayGroup(x, tail, rest[j].day);
      }
      GroupOfCons(x, tail, d);
      var g := Group(tail, DayOfRow, d);
      if !merged {
        NoPointNoRows(tail, d);
      }
      assert ([x] + g)[1..] == g;
      assert r[0].net == SumOf([x] + g, Pnl);
    }
  }

  /** On a ledger in time order the daily series is `groupby(date).sum()`:
      its days are strictly increasing, every trading day occurs, and each
      point holds the total realized P/L of the rows of its day. */
  lemma DailyNetIsGroupBy(rows: seq<Row>)
    requires SortedByTime(rows)
    ensures var r := DailyNet(rows);
      && (forall i, j :: 0 <= i < j < |r| ==> r[i].day < r[j].day)
      && (forall i :: 0 <= i < |rows| ==> Day(rows[i].time) in Map(r, PointDay))
      && (forall k :: 0 <= k < |r| ==> r[k].net == SumOf(Group(rows, DayOfRow, r[k].day), Pnl))
  {
    DailyNetIncreasing(rows);
    DailyNetCovers(rows);
    DailyNetSums(rows);
  }

  /** The equity curve: the running total of the daily series. */
  function EquityCurve(points: seq<DayPoint>): (eq: seq<real>)
    ensures |eq| == |points|
    ensures forall i :: 0 <= i < |points| ==> eq[i] == SumOf(points[..i + 1], Net)
  {
    if |points| == 0 then []
    else
      var n := |points|;
      var prev := EquityCurve(points[..n - 1]);
      var last := (if n == 1 then 0.0 else prev[n - 2]) + points[n - 1].net;
      assert points[..n] == points[..n - 1] + [points[n - 1]];
      SumOfConcat(points[..n - 1], [points[n - 1]], Net);
      assert forall i :: 0 <= i < n - 1 ==> prev[i] == SumOf(points[..i + 1], Net) by {
        forall i | 0 <= i < n - 1 ensures prev[i] == SumOf(points[..i + 1], Net) {
          assert points[..n - 1][..i + 1] == points[..i + 1];
        }
      }
      prev + [last]
  }

  /** The running maximum (`cummax`): at each day, the highest value seen
      so far, which is one of the values seen so far. */
  function RunningMax(xs: seq<real>): (r: seq<real>)
    ensures |r| == |xs|
    ensures forall i, j :: 0 <= j <= i < |xs| ==> xs[j] <= r[i]
    ensures forall i :: 0 <= i < |xs| ==> exists j :: 0 <= j <= i && r[i] == xs[j]
  {
    if |xs| == 0 then []
    else
      var n := |xs|;
      var prev := RunningMax(xs[..n - 1]);
      assert forall j :: 0 <= j < n - 1 ==> xs[..n - 1][j] == xs[j];
      var last := if n == 1 then xs[0] else Max(prev[n - 2], xs[n - 1]);
      RunningMaxLast(xs, prev, last);
      prev + [last]
  }

  lemma RunningMaxLast(xs: seq<real>, prev: seq<real>, last: real)
    requires |xs| > 0 && |prev| == |xs| - 1
    requires forall i, j :: 0 <= j <= i < |prev| ==> xs[j] <= prev[i]
    requires forall i :: 0 <= i < |prev| ==> exists j :: 0 <= j <= i && prev[i] == xs[j]
    requires last == if |xs| == 1 then xs[0] else Max(prev[|xs| - 2], xs[|xs| - 1])
    ensures forall i, j :: 0 <= j <= i < |xs| ==> xs[j] <= (prev + [last])[i]
    ensures forall i :: 0 <= i < |xs| ==> exists j :: 0 <= j <= i && (prev + [last])[i] == xs[j]
  {
    var n := |xs|;
    var r := prev + [last];
    forall i, j | 0 <= j <= i < n ensures xs[j] <= r[i] {
      if i < n - 1 {
        assert r[i] == prev[i];
      } else if j < n - 1 {
        assert xs[j] <= prev[n - 2];
      }
    }
    forall i | 0 <= i < n ensures exists j :: 0 <= j <= i && r[i] == xs[j] {
      if i < n - 1 {
        assert r[i] == prev[i];
        var j :| 0 <= j <= i && prev[i] == xs[j];
        assert r[i] == xs[j];
      } else if n == 1 {
        assert r[i] == xs[0];
      } else if prev[n - 2] >= xs[n - 1] {
        var j :| 0 <= j <= n - 2 && prev[n - 2] == xs[j];
        assert r[i] == xs[j];
      } else {
        assert r[i] == xs[n - 1];
      }
    }
  }

  /** The drawdown series: equity minus its running peak.  It is never
      positive, and it is 0 exactly on the days equity stands at a new high. */
  function Drawdown(eq: seq<real>): (dd: seq<real>)
    ensures |dd| == |eq|
    ensures forall i :: 0 <= i < |eq| ==> dd[i] <= 0.0
    ensures forall i :: 0 <= i < |eq| ==> (dd[i] == 0.0 <==> forall j :: 0 <= j <= i ==> eq[j] <= eq[i])
  {
    var rm := RunningMax(eq);
    seq(|eq|, i requires 0 <= i < |eq| => eq[i] - rm[i])
  }

  /** The days in drawdown. */
  function Underwater(dd: seq<real>): (b: seq<bool>)
    ensures |b| == |dd| && forall i :: 0 <= i < |dd| ==> (b[i] <==> dd[i] < 0.0)
  {
    Map(dd, (x: real) => x < 0.0)
  }

  datatype DrawdownStats = DrawdownStats(
    equity: seq<real>,
    runningMax: seq<real>,
    drawdown: seq<real>,
    maxDrawdown: Option<real>,   // NaN (None) for an empty series
    maxDrawdownPct: real,
    maxDrawdownDuration: nat)

  /** Section 3 of `analyze_trades`, from the daily series.  The percentage
      divides by the peak of the running maximum and is 0 unless that peak is
      positive; the duration is the longest run of consecutive days with
      negative drawdown. */
  function Drawdowns(points: seq<DayPoint>): (s: DrawdownStats)
  {
    var eq := EquityCurve(points);
    var rm := RunningMax(eq);
    var dd := Drawdown(eq);
    var maxDD := if |dd| == 0 then None else Some(SeqMin(dd));
    var peak := if |rm| == 0 then 0.0 else SeqMax(rm);
    var pct := if |rm| > 0 && peak > 0.0 then maxDD.GetOr(0.0) / peak * 100.0 else 0.0;
    DrawdownStats(eq, rm, dd, maxDD, pct, LongestRun(Underwater(dd), true))
  }

  /** The last point of the equity curve is the total realized P/L. */
  lemma EquityEndsAtTotal(rows: seq<Row>)
    requires |rows| > 0
    ensures var eq := EquityCurve(DailyNet(rows)); |eq| > 0 && eq[|eq| - 1] == SumOf(rows, Pnl)
  {
    var points := DailyNet(rows);
    assert points[..|points|] == points;
    DailyNetTotal(rows);
  }

  /** The maximum drawdown is the deepest drawdown: missing for an empty
      series, otherwise no drawdown lies below it, one reaches it, and it is
      never positive. */
  lemma MaxDrawdownIsDeepest(points: seq<DayPoint>)
    ensures var s := Drawdowns(points);
      && (s.maxDrawdown.None? <==> |points| == 0)
      && (s.maxDrawdown.Some? ==>
            && s.maxDrawdown.value <= 0.0
            && (forall i :: 0 <= i < |s.drawdown| ==> s.maxDrawdown.value <= s.drawdown[i])
            && (exists i :: 0 <= i < |s.drawdown| && s.drawdown[i] == s.maxDrawdown.value))
  {
  }

  /** The drawdown percentage is never positive. */
  lemma DrawdownPctNotPositive(points: seq<DayPoint>)
    ensures Drawdowns(points).maxDrawdownPct <= 0.0
  {
    var eq := EquityCurve(points);
    var rm := RunningMax(eq);
    var dd := Drawdown(eq);
    if |rm| > 0 {
      var peak := SeqMax(rm);
      var m := SeqMin(dd);
      assert m <= dd[0] <= 0.0;
      if peak > 0.0 {
        NonPositiveShare(m, peak);
      }
    }
  }

  lemma NonPositiveShare(m: real, peak: real)
    requires m <= 0.0 && peak > 0.0
    ensures m / peak * 100.0 <= 0.0
  {
    assert m / peak <= 0.0;
  }

  /** The drawdown percentage is 0 unless equity ever rose above 0. */
  lemma DrawdownPctNeedsProfit(points: seq<DayPoint>)
    requires forall i :: 0 <= i < |points| ==> EquityCurve(points)[i] <= 0.0
    ensures Drawdowns(points).maxDrawdownPct == 0.0
  {
    var eq := EquityCurve(points);
    var rm := RunningMax(eq);
    if |rm| > 0 {
      var k :| 0 <= k < |rm| && rm[k] == SeqMax(rm);
      var j :| 0 <= j <= k && rm[k] == eq[j];
    }
  }

  /** The longest time under water is the longest run of consecutive days
      with negative drawdown; it is 0 exactly when equity never fell below
      its peak, and it never exceeds the number of days. */
  lemma DurationIsLongestUnderwaterRun(points: seq<DayPoint>)
    ensures var s := Drawdowns(points);
      && IsLongestRun(Underwater(s.drawdown), true, s.maxDrawdownDuration)
      && s.maxDrawdownDuration <= |points|
      && (s.maxDrawdownDuration == 0 <==> forall i :: 0 <= i < |s.drawdown| ==> s.drawdown[i] == 0.0)
  {
    var s := Drawdowns(points);
    var b := Underwater(s.drawdown);
    LongestRunIsLongest(b, true);
    LongestRunZero(b, true);
  }
}
