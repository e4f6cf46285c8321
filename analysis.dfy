/** `analyze_trades`: the whole report over a ledger, assembled from the
    sections modelled in the other modules, computed on the ledger sorted by
    trade time. */
module Analysis {
  import opened Wrappers
  import opened Seqs
  import opened Sorting
  import opened Ledger
  import opened ClosedStats
  import opened Equity
  import opened Streaks
  import opened Symbols
  import opened Buckets
  import opened Grading
  import opened Insights

  /** The dictionary `analyze_trades` returns. `processed` is the closed
      trades and `gradeColumn` the grade added to each of them. */
  datatype Analysis = Analysis(
    financials: Financials,
    summary: Summary,
    drawdowns: DrawdownStats,
    maxWinStreak: nat,
    maxLossStreak: nat,
    symbolStats: seq<SymbolRow>,
    dowPerformance: seq<DayRow>,
    monthlyPerformance: seq<MonthRow>,
    fearIndex: real,
    gradeDistribution: map<Grade, nat>,
    topWinners: seq<Row>,
    topLosers: seq<Row>,
    insights: seq<Insight>,
    processed: seq<Row>,
    gradeColumn: seq<Grade>)

  /** The statistics the insight rules read, taken from the report. */
  function RuleInputs(fin: Financials, s: Summary, fear: real, maxLossStreak: nat, dow: seq<DayRow>): Inputs
  {
    Inputs(s.winRate, s.avgWin, s.avgLoss, s.avgRRRatio, s.profitFactor, fear,
           fin.commissionPct, maxLossStreak, s.expectancy, dow)
  }

  function AnalyzeTrades(ledger: seq<Row>): Analysis
  {
    var rows := SortByTime(ledger);
    var closed := Closed(rows);
    var fin := GlobalFinancials(rows);
    var s := ClosedSummary(rows);
    var dow := DowPerformance(closed);
    var fear := FearIndex(closed);
    var losing := MaxLossStreak(closed);
    Analysis(fin, s, Drawdowns(DailyNet(rows)), MaxWinStreak(closed), losing,
             SymbolStats(rows), dow, MonthlyPerformance(closed), fear,
             GradeDistribution(closed),
             Top(closed, 5, Pnl), Top(closed, 5, Negated),
             InsightsOf(RuleInputs(fin, s, fear, losing, dow)),
             closed, Map(closed, GradeOf))
  }

  /** The processed trades are every closed trade of the ledger and
      nothing else, in time order. */
  lemma ProcessedTrades(ledger: seq<Row>)
    ensures var a := AnalyzeTrades(ledger);
      && SortedByTime(a.processed)
      && multiset(a.processed) == multiset(Closed(ledger))
  {
    var rows := SortByTime(ledger);
    WhereKeepsOrder(rows);
    ClosedOfPermutation(rows, ledger);
  }

  lemma ClosedOfPermutation(a: seq<Row>, b: seq<Row>)
    requires multiset(a) == multiset(b)
    ensures multiset(Closed(a)) == multiset(Closed(b))
  {
    forall x ensures multiset(Closed(a))[x] == multiset(Closed(b))[x] {
      WhereMultiset(a, IsClosing, x);
      WhereMultiset(b, IsClosing, x);
    }
  }

  /** The trade count is the number of processed trades, and each of them is
      graded by its own P/L and commission. */
  lemma GradeColumn(ledger: seq<Row>)
    ensures var a := AnalyzeTrades(ledger);
      && a.summary.totalTrades == |a.processed|
      && |a.gradeColumn| == |a.processed|
      && (forall i :: 0 <= i < |a.processed| ==>
            a.gradeColumn[i] == GradeTrade(a.processed[i].pnl, a.processed[i].commission))
  {
  }

  lemma {:induction false} WhereKeepsOrder(rows: seq<Row>)
    requires SortedByTime(rows)
    ensures SortedByTime(Closed(rows))
  {
    if |rows| > 0 {
      WhereKeepsOrder(rows[1..]);
      var t := Closed(rows[1..]);
      forall j | 0 <= j < |t| ensures rows[0].time <= t[j].time {
        WhereMember(rows[1..], IsClosing, t[j]);
      }
    }
  }

  /** The best five closed trades: as many as there are, up to five, from
      the closed trades, largest P/L first, and no trade left out made more
      than one taken. */
  lemma TopWinners(ledger: seq<Row>)
    ensures var a := AnalyzeTrades(ledger);
      var closed := a.processed;
      && |a.topWinners| == (if |closed| < 5 then |closed| else 5)
      && SortedDesc(a.topWinners, Pnl)
      && multiset(a.topWinners) <= multiset(closed)
      && (forall x, y :: x in a.topWinners && y in multiset(closed) - multiset(a.topWinners) ==> y.pnl <= x.pnl)
  {
    var a := AnalyzeTrades(ledger);
    var closed := a.processed;
    forall x, y | x in a.topWinners && y in multiset(closed) - multiset(a.topWinners) ensures y.pnl <= x.pnl {
      TopTakesLargest(closed, 5, Pnl, x, y);
    }
  }

  /** The worst five closed trades, smallest P/L first, likewise. */
  lemma TopLosers(ledger: seq<Row>)
    ensures var a := AnalyzeTrades(ledger);
      var closed := a.processed;
      && |a.topLosers| == (if |closed| < 5 then |closed| else 5)
      && SortedDesc(a.topLosers, Negated)
      && multiset(a.topLosers) <= multiset(closed)
      && (forall x, y :: x in a.topLosers && y in multiset(closed) - multiset(a.topLosers) ==> x.pnl <= y.pnl)
  {
    var a := AnalyzeTrades(ledger);
    var closed := a.processed;
    forall x, y | x in a.topLosers && y in multiset(closed) - multiset(a.topLosers) ensures x.pnl <= y.pnl {
      TopTakesLargest(closed, 5, Negated, x, y);
    }
  }

  /** The insights are the rules applied to the report's own statistics. */
  lemma InsightsOfReport(ledger: seq<Row>)
    ensures var a := AnalyzeTrades(ledger);
      a.insights == InsightsOf(RuleInputs(a.financials, a.summary, a.fearIndex, a.maxLossStreak, a.dowPerformance))
  {
  }

  /** The win-rate and risk/reward insights follow the report's win rate,
      averages and ratio. */
  lemma ReportWinInsights(ledger: seq<Row>)
    ensures var a := AnalyzeTrades(ledger);
      var s := a.summary;
      && (LowWinRate in a.insights <==> s.winRate < 40.0)
      && (HighWinRate in a.insights <==> s.winRate > 70.0)
      && (PoorRiskReward in a.insights <==> s.avgWin > 0.0 && s.avgLoss < 0.0 && s.avgRRRatio < 1.5)
      && (ExcellentRiskReward in a.insights <==> s.avgWin > 0.0 && s.avgLoss < 0.0 && s.avgRRRatio > 2.5)
  {
    var a := AnalyzeTrades(ledger);
    InsightsOfReport(ledger);
    var x := RuleInputs(a.financials, a.summary, a.fearIndex, a.maxLossStreak, a.dowPerformance);
    WinRateInsights(x);
    RiskRewardInsights(x);
  }

  /** The profit-factor insights follow the report's profit factor. */
  lemma ReportProfitInsights(ledger: seq<Row>)
    ensures var a := AnalyzeTrades(ledger);
      && (Unprofitable in a.insights <==> a.summary.profitFactor.Below(1.0))
      && (StrongProfitFactor in a.insights <==> a.summary.profitFactor.Above(2.0))
  {
    var a := AnalyzeTrades(ledger);
    InsightsOfReport(ledger);
    ProfitFactorInsights(RuleInputs(a.financials, a.summary, a.fearIndex, a.maxLossStreak, a.dowPerformance));
  }

  /** The fear and commission insights follow the report's fear index and
      commission share. */
  lemma ReportHabitInsights(ledger: seq<Row>)
    ensures var a := AnalyzeTrades(ledger);
      && (HighFear in a.insights <==> a.fearIndex > 50.0)
      && (HeavyCommissions in a.insights <==> a.financials.commissionPct > 30.0)
  {
    var a := AnalyzeTrades(ledger);
    InsightsOfReport(ledger);
    FearAndCommissionInsights(RuleInputs(a.financials, a.summary, a.fearIndex, a.maxLossStreak, a.dowPerformance));
  }

  /** A losing streak of five or more is reported with its length. */
  lemma ReportStreakInsight(ledger: seq<Row>)
    ensures var a := AnalyzeTrades(ledger);
      forall n :: LosingStreak(n) in a.insights <==> n == a.maxLossStreak >= 5
  {
    var a := AnalyzeTrades(ledger);
    InsightsOfReport(ledger);
    InsightValues(RuleInputs(a.financials, a.summary, a.fearIndex, a.maxLossStreak, a.dowPerformance));
  }

  /** Without realized P/L every statistic the rules read is 0 and there is
      no trading day. */
  lemma NoRealizedPnlStats(ledger: seq<Row>)
    requires forall i :: 0 <= i < |ledger| ==> ledger[i].pnl == 0.0
    ensures var a := AnalyzeTrades(ledger);
      && a.summary == Summary(0, 0, 0, 0, 0.0, 0.0, 0.0, 0.0, 0.0, Finite(0.0), 0.0, 0.0)
      && a.financials.commissionPct == 0.0
      && a.fearIndex == 0.0
      && a.maxLossStreak == 0
      && a.processed == [] && a.dowPerformance == []
  {
    var rows := SortByTime(ledger);
    NoRealizedPnlSorted(ledger);
    NoClosedTradesDefaults(rows);
    WhereNone(rows, IsClosing);
  }

  /** Sorting a ledger without realized P/L keeps every P/L, and so the
      total, at 0. */
  lemma NoRealizedPnlSorted(ledger: seq<Row>)
    requires forall i :: 0 <= i < |ledger| ==> ledger[i].pnl == 0.0
    ensures var rows := SortByTime(ledger);
      && (forall i :: 0 <= i < |rows| ==> rows[i].pnl == 0.0)
      && SumOf(rows, Pnl) == 0.0
  {
    var rows := SortByTime(ledger);
    forall i | 0 <= i < |rows| ensures rows[i].pnl == 0.0 {
      assert rows[i] in multiset(ledger);
    }
    SortByTimeSums(ledger, Pnl);
    SumOfNonNegative(ledger, Pnl);
    SumOfAtMost(ledger, Pnl, 0.0);
  }

  /** A ledger without realized P/L (no closed trade, an opening-only ledger
      or an empty one) gets exactly three insights: a low win rate, an
      unprofitable profit factor of 0 and a zero (negative) expectancy. */
  lemma NoRealizedPnl(ledger: seq<Row>)
    requires forall i :: 0 <= i < |ledger| ==> ledger[i].pnl == 0.0
    ensures AnalyzeTrades(ledger).insights == [LowWinRate, Unprofitable, NegativeExpectancy(0.0)]
  {
    var a := AnalyzeTrades(ledger);
    NoRealizedPnlStats(ledger);
    InsightsOfReport(ledger);
    QuietInsights(RuleInputs(a.financials, a.summary, a.fearIndex, a.maxLossStreak, a.dowPerformance));
  }

  /** ... and its tables are empty. */
  lemma NoRealizedPnlTables(ledger: seq<Row>)
    requires forall i :: 0 <= i < |ledger| ==> ledger[i].pnl == 0.0
    ensures var a := AnalyzeTrades(ledger);
      a.topWinners == [] && a.topLosers == [] && a.gradeDistribution == map[] && a.monthlyPerformance == []
  {
    NoClosedTrades(ledger);
  }

  /** A ledger without realized P/L has no closed trade. */
  lemma NoClosedTrades(ledger: seq<Row>)
    requires forall i :: 0 <= i < |ledger| ==> ledger[i].pnl == 0.0
    ensures Closed(SortByTime(ledger)) == []
  {
    var rows := SortByTime(ledger);
    forall i | 0 <= i < |rows| ensures !IsClosing(rows[i]) {
      assert rows[i] in multiset(ledger);
    }
    WhereNone(rows, IsClosing);
  }
}
