/** Section 7 of `analyze_trades`: the closed trades bucketed by weekday (in
    calendar order, days without a closed trade left out) and by calendar
    month (ascending). */
module Buckets {
  import opened Seqs
  import opened Grouping
  import opened Ledger

  // ---------------------------------------------------------------------
  // Sorted distinct keys

  ghost predicate Ascending(ms: seq<int>)
  {
    forall i, j :: 0 <= i < j < |ms| ==> ms[i] < ms[j]
  }

  /** Puts `m` into an ascending list unless it is already there. */
  function InsertSorted(m: int, ms: seq<int>): (r: seq<int>)
    ensures forall x :: x in r <==> x in ms || x == m
  {
    if |ms| == 0 || m < ms[0] then [m] + ms
    else if m == ms[0] then ms
    else [ms[0]] + InsertSorted(m, ms[1..])
  }

  lemma {:induction false} InsertAscending(m: int, ms: seq<int>)
    requires Ascending(ms)
    ensures Ascending(InsertSorted(m, ms))
  {
    if |ms| > 0 && m > ms[0] {
      InsertAscending(m, ms[1..]);
      var t := InsertSorted(m, ms[1..]);
      forall j | 0 <= j < |t| ensures ms[0] < t[j] {
        assert t[j] in t;
      }
    }
  }

  /** The distinct values of `ms`, ascending. */
  function Ascend(ms: seq<int>): (r: seq<int>)
    ensures Ascending(r)
    ensures forall x :: x in r <==> x in ms
  {
    if |ms| == 0 then []
    else
      var rest := Ascend(ms[1..]);
      InsertAscending(ms[0], rest);
      assert forall x :: x in ms <==> x == ms[0] || x in ms[1..];
      InsertSorted(ms[0], rest)
  }

  // ---------------------------------------------------------------------
  // Weekdays

  datatype DayRow = DayRow(day: Weekday, sum: real, mean: real, count: nat)

  function DaySum(r: DayRow): real { r.sum }
  function DayCount(r: DayRow): real { r.count as real }

  /** Position of a day in the calendar week, Monday 0. */
  function Index(d: Weekday): nat
  {
    match d
    case Monday => 0 case Tuesday => 1 case Wednesday => 2 case Thursday => 3
    case Friday => 4 case Saturday => 5 case Sunday => 6
  }

  /** The day at a position of the calendar week. */
  function DayAt(n: int): (d: Weekday)
    ensures 0 <= n < 7 ==> Index(d) == n
  {
    if n <= 0 then Monday else if n == 1 then Tuesday else if n == 2 then Wednesday
    else if n == 3 then Thursday else if n == 4 then Friday else if n == 5 then Saturday
    else Sunday
  }

  lemma DayAtIndex(d: Weekday)
    ensures DayAt(Index(d)) == d
  {
  }

  function DayNumber(r: Row): int { Index(r.weekday) }

  /** The days with a closed trade in calendar order, Monday first: the
      `reindex` onto Monday..Sunday followed by dropping the absent days. */
  function TradingDays(closed: seq<Row>): seq<Weekday>
  {
    Map(Ascend(Map(closed, DayNumber)), DayAt)
  }

  function DayRowOf(closed: seq<Row>): Weekday -> DayRow
  {
    d => var g := Group(closed, WeekdayOf, d);
      DayRow(d, SumOf(g, Pnl), if |g| > 0 then Mean(g, Pnl) else 0.0, |g|)
  }

  /** `dow_performance`: sum, mean and count per weekday. */
  function DowPerformance(closed: seq<Row>): seq<DayRow>
  {
    Map(TradingDays(closed), DayRowOf(closed))
  }

  /** The trading days follow the calendar, and a day is among them exactly
      when some closed trade falls on it. */
  lemma TradingDaysFacts(closed: seq<Row>)
    ensures var days := TradingDays(closed);
      && (forall i, j :: 0 <= i < j < |days| ==> Index(days[i]) < Index(days[j]))
      && (forall d :: d in days <==> d in Map(closed, WeekdayOf))
  {
    var ns := Ascend(Map(closed, DayNumber));
    var days := TradingDays(closed);
    var ws := Map(closed, WeekdayOf);
    forall i | 0 <= i < |ns| ensures Index(days[i]) == ns[i] {
      assert ns[i] in Map(closed, DayNumber);
    }
    forall d ensures d in days <==> d in ws {
      if d in days {
        var i :| 0 <= i < |days| && days[i] == d;
        assert ns[i] in Map(closed, DayNumber);
        var k :| 0 <= k < |closed| && DayNumber(closed[k]) == ns[i];
        DayAtIndex(closed[k].weekday);
        assert ws[k] == d;
      }
      if d in ws {
        var k :| 0 <= k < |closed| && ws[k] == d;
        assert Map(closed, DayNumber)[k] == Index(d);
        assert Index(d) in Map(closed, DayNumber);
        var i :| 0 <= i < |ns| && ns[i] == Index(d);
        DayAtIndex(d);
        assert days[i] == d;
      }
    }
  }

  /** The days of the table follow the calendar, Monday first, each once. */
  lemma DowInCalendarOrder(closed: seq<Row>)
    ensures var t := DowPerformance(closed);
      forall i, j :: 0 <= i < j < |t| ==> Index(t[i].day) < Index(t[j].day)
  {
    TradingDaysFacts(closed);
  }

  /** A day has a row exactly when it has a closed trade. */
  lemma DowPresence(closed: seq<Row>, d: Weekday)
    ensures (exists i :: 0 <= i < |DowPerformance(closed)| && DowPerformance(closed)[i].day == d)
        <==> |Group(closed, WeekdayOf, d)| > 0
  {
    var days := TradingDays(closed);
    var t := DowPerformance(closed);
    TradingDaysFacts(closed);
    GroupNonEmpty(closed, WeekdayOf, d);
    if d in days {
      var i :| 0 <= i < |days| && days[i] == d;
      assert t[i].day == d;
    }
    if exists i :: 0 <= i < |t| && t[i].day == d {
      var i :| 0 <= i < |t| && t[i].day == d;
      assert days[i] == d;
    }
  }

  /** Each row holds the sum, the mean and the number, never 0, of its
      day's closed trades. */
  lemma DowRow(closed: seq<Row>, i: nat)
    requires i < |DowPerformance(closed)|
    ensures var r := DowPerformance(closed)[i];
      var g := Group(closed, WeekdayOf, r.day);
      r.count == |g| > 0 && r.sum == SumOf(g, Pnl) && r.mean * (r.count as real) == r.sum
  {
    DowRowOfDay(closed, i);
    DayRowOfFacts(closed, TradingDays(closed)[i]);
  }

  lemma DowRowOfDay(closed: seq<Row>, i: nat)
    requires i < |DowPerformance(closed)|
    ensures DowPerformance(closed)[i] == DayRowOf(closed)(TradingDays(closed)[i])
    ensures |Group(closed, WeekdayOf, TradingDays(closed)[i])| > 0
  {
    var days := TradingDays(closed);
    assert days[i] in days;
    TradingDaysFacts(closed);
    GroupNonEmpty(closed, WeekdayOf, days[i]);
  }

  lemma DayRowOfFacts(closed: seq<Row>, d: Weekday)
    requires |Group(closed, WeekdayOf, d)| > 0
    ensures var r := DayRowOf(closed)(d);
      var g := Group(closed, WeekdayOf, d);
      r.day == d && r.count == |g| && r.sum == SumOf(g, Pnl) && r.mean * (r.count as real) == r.sum
  {
    var g := Group(closed, WeekdayOf, d);
    MeanTimesCount(SumOf(g, Pnl), |g| as real);
  }

  lemma MeanTimesCount(s: real, n: real)
    requires n > 0.0
    ensures s / n * n == s
  {
  }

  /** Summed over the table, the day sums and counts give the totals of the
      closed trades. */
  lemma DowTotals(closed: seq<Row>)
    ensures SumOf(DowPerformance(closed), DaySum) == SumOf(closed, Pnl)
    ensures SumOf(DowPerformance(closed), DayCount) == |closed| as real
  {
    var days := TradingDays(closed);
    var row := DayRowOf(closed);
    var ws := Map(closed, WeekdayOf);
    TradingDaysFacts(closed);
    assert NoDuplicates(days);
    forall i | 0 <= i < |closed| ensures WeekdayOf(closed[i]) in days {
      assert ws[i] in ws;
    }
    SumOfTable(closed, days, WeekdayOf, Pnl, row, DaySum);
    forall i | 0 <= i < |days| ensures DayCount(row(days[i])) == SumOf(Group(closed, WeekdayOf, days[i]), One) {
      SumOfOne(Group(closed, WeekdayOf, days[i]));
    }
    SumOfTable(closed, days, WeekdayOf, One, row, DayCount);
    GroupTotals(closed, days, WeekdayOf, Pnl);
    GroupSizes(closed, days, WeekdayOf);
  }

  // ---------------------------------------------------------------------
  // Months

  datatype MonthRow = MonthRow(month: int, sum: real, count: nat)

  function MonthSum(r: MonthRow): real { r.sum }
  function MonthCount(r: MonthRow): real { r.count as real }

  /** The distinct months of the closed trades, ascending (the sorted index
      of `groupby('Month')`). */
  function Months(closed: seq<Row>): seq<int>
  {
    Ascend(Map(closed, MonthOf))
  }

  function MonthRowOf(closed: seq<Row>): int -> MonthRow
  {
    m => var g := Group(closed, MonthOf, m); MonthRow(m, SumOf(g, Pnl), |g|)
  }

  /** `monthly_performance`: sum and count per month, ascending. */
  function MonthlyPerformance(closed: seq<Row>): seq<MonthRow>
  {
    Map(Months(closed), MonthRowOf(closed))
  }

  /** The months of the table ascend strictly: one row per month. */
  lemma MonthsAscend(closed: seq<Row>)
    ensures var t := MonthlyPerformance(closed);
      forall i, j :: 0 <= i < j < |t| ==> t[i].month < t[j].month
  {
    var ms := Months(closed);
    var t := MonthlyPerformance(closed);
    assert forall i :: 0 <= i < |t| ==> t[i].month == ms[i];
  }

  /** A month has a row exactly when it has a closed trade. */
  lemma MonthPresence(closed: seq<Row>, m: int)
    ensures (exists i :: 0 <= i < |MonthlyPerformance(closed)| && MonthlyPerformance(closed)[i].month == m)
        <==> |Group(closed, MonthOf, m)| > 0
  {
    var ms := Months(closed);
    var t := MonthlyPerformance(closed);
    GroupNonEmpty(closed, MonthOf, m);
    if m in ms {
      var i :| 0 <= i < |ms| && ms[i] == m;
      assert t[i].month == m;
    }
    if exists i :: 0 <= i < |t| && t[i].month == m {
      var i :| 0 <= i < |t| && t[i].month == m;
      assert ms[i] == m;
    }
  }

  /** Each row holds the sum and the number of its month's closed trades. */
  lemma MonthRowSums(closed: seq<Row>, i: nat)
    requires i < |MonthlyPerformance(closed)|
    ensures var r := MonthlyPerformance(closed)[i];
      var g := Group(closed, MonthOf, r.month);
      r.count == |g| && r.sum == SumOf(g, Pnl)
  {
    assert MonthlyPerformance(closed)[i] == MonthRowOf(closed)(Months(closed)[i]);
  }

  /** Summed over the table, the monthly sums and counts give the totals of
      the closed trades. */
  lemma MonthlyTotals(closed: seq<Row>)
    ensures SumOf(MonthlyPerformance(closed), MonthSum) == SumOf(closed, Pnl)
    ensures SumOf(MonthlyPerformance(closed), MonthCount) == |closed| as real
  {
    var ms := Months(closed);
    assert NoDuplicates(ms);
    var mo := Map(closed, MonthOf);
    forall i | 0 <= i < |closed| ensures MonthOf(closed[i]) in ms {
      assert mo[i] in mo;
    }
    var row := MonthRowOf(closed);
    SumOfTable(closed, ms, MonthOf, Pnl, row, MonthSum);
    forall i | 0 <= i < |ms| ensures MonthCount(row(ms[i])) == SumOf(Group(closed, MonthOf, ms[i]), One) {
      SumOfOne(Group(closed, MonthOf, ms[i]));
    }
    SumOfTable(closed, ms, MonthOf, One, row, MonthCount);
    GroupTotals(closed, ms, MonthOf, Pnl);
    GroupSizes(closed, ms, MonthOf);
  }
}
