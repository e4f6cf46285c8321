/** Sections 2 and 4 of `analyze_trades`: the whole-ledger money totals and
    the statistics of the closed trades (rows with non-zero realized P/L),
    each ratio guarded the way the analyzer guards it. */
module ClosedStats {
  import opened Seqs
  import opened Ledger

  /** `gross_profit / gross_loss`, or `np.inf` when nothing was lost. */
  datatype ProfitFactor = Finite(value: real) | Infinity
  {
    /** `profit_factor < x`; infinity is below nothing. */
    predicate Below(x: real)
    {
      Finite? && value < x
    }

    /** `profit_factor > x`; infinity is above every number. */
    predicate Above(x: real)
    {
      Infinity? || value > x
    }
  }

  // ---------------------------------------------------------------------
  // Global financials (section 2)

  datatype Financials = Financials(
    totalPnlNet: real,
    totalFees: real,
    commissionPct: real,
    avgCommissionPerTrade: real,
    rowCount: nat)

  /** Totals over every row, opening fills included: the P/L is already net
      of commissions, the commission share is 0 when the P/L is 0, and the
      average commission is 0 on an empty ledger. */
  function GlobalFinancials(rows: seq<Row>): (f: Financials)
  {
    var pnl := SumOf(rows, Pnl);
    var fees := SumOf(rows, Commission);
    var pct := if pnl != 0.0 then Abs(fees) / Abs(pnl) * 100.0 else 0.0;
    var n := |rows|;
    var avg := if n > 0 then fees / (n as real) else 0.0;
    Financials(pnl, fees, pct, avg, n)
  }

  /** The commission share is never negative and is 0 exactly when no fee
      was paid or no P/L was realized; the average commission times the row
      count gives back the total fees. */
  lemma FinancialsGuards(rows: seq<Row>)
    ensures var f := GlobalFinancials(rows);
      && f.commissionPct >= 0.0
      && (f.commissionPct == 0.0 <==> f.totalPnlNet == 0.0 || f.totalFees == 0.0)
      && (f.rowCount > 0 ==> f.avgCommissionPerTrade * (f.rowCount as real) == f.totalFees)
      && (f.rowCount == 0 ==> f.totalFees == 0.0 && f.avgCommissionPerTrade == 0.0)
  {
    var f := GlobalFinancials(rows);
    if f.totalPnlNet != 0.0 {
      QuotientSign(Abs(f.totalFees), Abs(f.totalPnlNet));
    }
  }

  lemma QuotientSign(a: real, b: real)
    requires a >= 0.0 && b > 0.0
    ensures a / b * 100.0 >= 0.0
    ensures a / b * 100.0 == 0.0 <==> a == 0.0
  {
    assert a / b >= 0.0;
    if a / b == 0.0 {
      assert a == (a / b) * b;
    }
  }

  /** The totals do not depend on row order. */
  lemma FinancialsIgnoreOrder(rows: seq<Row>)
    ensures GlobalFinancials(SortByTime(rows)) == GlobalFinancials(rows)
  {
    SortByTimeSums(rows, Pnl);
    SortByTimeSums(rows, Commission);
    assert |SortByTime(rows)| == |multiset(SortByTime(rows))| == |rows|;
  }

  // ---------------------------------------------------------------------
  // Closed-trade statistics (section 4)

  datatype Summary = Summary(
    totalTrades: nat,
    numWins: nat,
    numLosses: nat,
    numBreakeven: nat,
    winRate: real,
    avgWin: real,
    avgLoss: real,
    largestWin: real,
    largestLoss: real,
    profitFactor: ProfitFactor,
    avgRRRatio: real,
    expectancy: real)

  function Wins(closed: seq<Row>): seq<Row> { Where(closed, IsWin) }
  function Losses(closed: seq<Row>): seq<Row> { Where(closed, IsLoss) }
  function Breakeven(closed: seq<Row>): seq<Row> { Where(closed, IsBreakeven) }

  /** `num_wins / total_trades * 100`, 0 without closed trades. */
  function WinRate(closed: seq<Row>): real
  {
    if |closed| > 0 then (|Wins(closed)| as real) / (|closed| as real) * 100.0 else 0.0
  }

  /** Mean winning P/L, 0 without wins. */
  function AvgWin(closed: seq<Row>): real
  {
    var wins := Wins(closed);
    if |wins| > 0 then Mean(wins, Pnl) else 0.0
  }

  /** Mean losing P/L (negative), 0 without losses. */
  function AvgLoss(closed: seq<Row>): real
  {
    var losses := Losses(closed);
    if |losses| > 0 then Mean(losses, Pnl) else 0.0
  }

  function LargestWin(closed: seq<Row>): real
  {
    var wins := Wins(closed);
    if |wins| > 0 then SeqMax(Map(wins, Pnl)) else 0.0
  }

  function LargestLoss(closed: seq<Row>): real
  {
    var losses := Losses(closed);
    if |losses| > 0 then SeqMin(Map(losses, Pnl)) else 0.0
  }

  /** Gross profit over the absolute gross loss, infinite when nothing was
      lost, and 0 (the default) without closed trades. */
  function ProfitFactorOf(closed: seq<Row>): ProfitFactor
  {
    if |closed| == 0 then Finite(0.0)
    else
      var wins, losses := Wins(closed), Losses(closed);
      var grossProfit := if |wins| > 0 then SumOf(wins, Pnl) else 0.0;
      var grossLoss := if |losses| > 0 then Abs(SumOf(losses, Pnl)) else 0.0;
      if grossLoss > 0.0 then Finite(grossProfit / grossLoss) else Infinity
  }

  /** `|avg_win| / |avg_loss|`, 0 when the average loss is 0. */
  function RiskReward(closed: seq<Row>): real
  {
    var avgLoss := AvgLoss(closed);
    if avgLoss != 0.0 then Abs(AvgWin(closed)) / Abs(avgLoss) else 0.0
  }

  /** `win_rate/100 * avg_win + (1 - win_rate/100) * avg_loss`, 0 without
      closed trades. */
  function Expectancy(closed: seq<Row>): real
  {
    if |closed| > 0 then Expect(WinRate(closed), AvgWin(closed), AvgLoss(closed)) else 0.0
  }

  function Expect(winRate: real, avgWin: real, avgLoss: real): real
  {
    winRate / 100.0 * avgWin + (1.0 - winRate / 100.0) * avgLoss
  }

  /** The statistics of the closed trades of `rows`.  The defaults the
      analyzer sets when there is no closed trade are what these formulas
      give on an empty set; profit factor is guarded explicitly. */
  function ClosedSummary(rows: seq<Row>): (s: Summary)
  {
    var closed := Closed(rows);
    Summary(|closed|, |Wins(closed)|, |Losses(closed)|, |Breakeven(closed)|,
            WinRate(closed), AvgWin(closed), AvgLoss(closed),
            LargestWin(closed), LargestLoss(closed),
            ProfitFactorOf(closed), RiskReward(closed), Expectancy(closed))
  }

  /** Every closed trade is a win or a loss, never break-even, and there are
      no more closed trades than rows. */
  lemma CountsPartition(rows: seq<Row>)
    ensures var closed := Closed(rows);
      && |Wins(closed)| + |Losses(closed)| == |closed|
      && |Breakeven(closed)| == 0
      && |closed| <= |rows|
  {
    var closed := Closed(rows);
    WhereSplit(closed, IsWin, IsLoss, Pnl);
    WhereNone(closed, IsBreakeven);
  }

  /** The win rate is a percentage; it is 100 exactly when there are closed
      trades and none of them lost, and 0 exactly when none of them won. */
  lemma WinRateBounds(rows: seq<Row>)
    ensures var closed := Closed(rows);
      && 0.0 <= WinRate(closed) <= 100.0
      && (WinRate(closed) == 100.0 <==> |closed| > 0 && |Losses(closed)| == 0)
      && (WinRate(closed) == 0.0 <==> |Wins(closed)| == 0)
  {
    CountsPartition(rows);
    var closed := Closed(rows);
    if |closed| > 0 {
      FractionBounds(|Wins(closed)| as real, |closed| as real);
    }
  }

  lemma FractionBounds(w: real, t: real)
    requires 0.0 <= w <= t && t > 0.0
    ensures 0.0 <= w / t * 100.0 <= 100.0
    ensures w / t * 100.0 == 100.0 <==> w == t
    ensures w / t * 100.0 == 0.0 <==> w == 0.0
  {
    var q := w / t;
    assert q * t == w;
  }

  /** Profit factor is infinite exactly when there are closed trades and no
      losses; with a loss it is gross profit over the absolute gross loss,
      so an all-loss ledger gets 0, as does a ledger with no closed trade. */
  lemma ProfitFactorCases(rows: seq<Row>)
    ensures var closed := Closed(rows);
      var pf := ProfitFactorOf(closed);
      && (pf.Infinity? <==> |closed| > 0 && |Losses(closed)| == 0)
      && (|Losses(closed)| > 0 ==>
            pf == Finite(SumOf(Wins(closed), Pnl) / -SumOf(Losses(closed), Pnl)))
      && (|closed| == 0 ==> pf == Finite(0.0))
      && (|closed| > 0 && |Wins(closed)| == 0 ==> pf == Finite(0.0))
  {
    var closed := Closed(rows);
    CountsPartition(rows);
    var losses := Losses(closed);
    if |losses| > 0 {
      SumOfNegative(losses, Pnl);
    }
  }

  /** With closed trades, `profit_factor < 1` exactly when the ledger lost
      money overall. */
  lemma ProfitFactorBreakEven(rows: seq<Row>)
    requires |Closed(rows)| > 0
    ensures ProfitFactorOf(Closed(rows)).Below(1.0) <==> SumOf(rows, Pnl) < 0.0
  {
    ClosedPnl(rows);
    ProfitFactorSign(rows);
  }

  lemma ProfitFactorSign(rows: seq<Row>)
    requires |Closed(rows)| > 0
    ensures ProfitFactorOf(Closed(rows)).Below(1.0) <==> SumOf(Closed(rows), Pnl) < 0.0
  {
    var closed := Closed(rows);
    var wins, losses := Wins(closed), Losses(closed);
    WhereSplit(closed, IsWin, IsLoss, Pnl);
    var gp, gl := SumOf(wins, Pnl), SumOf(losses, Pnl);
    SumOfNonNegative(wins, Pnl);
    if |losses| > 0 {
      SumOfNegative(losses, Pnl);
      assert ProfitFactorOf(closed) == Finite(gp / -gl);
      RatioBelowOne(gp, -gl);
    } else {
      assert ProfitFactorOf(closed) == Infinity;
    }
  }

  lemma RatioBelowOne(p: real, q: real)
    requires p >= 0.0 && q > 0.0
    ensures p / q < 1.0 <==> p - q < 0.0
  {
    var r := p / q;
    assert r * q == p;
    assert r < 1.0 ==> r * q < q;
    assert r >= 1.0 ==> r * q >= q;
  }

  /** The average win is above 0 and at most the largest win. */
  lemma WinAverages(rows: seq<Row>)
    ensures var closed := Closed(rows);
      && (|Wins(closed)| > 0 ==> 0.0 < AvgWin(closed) <= LargestWin(closed))
      && (|Wins(closed)| == 0 ==> AvgWin(closed) == 0.0 && LargestWin(closed) == 0.0)
  {
    var wins := Wins(Closed(rows));
    if |wins| > 0 {
      SumOfPositive(wins, Pnl);
      var m := SeqMax(Map(wins, Pnl));
      forall i | 0 <= i < |wins| ensures Pnl(wins[i]) <= m {
        assert Map(wins, Pnl)[i] == Pnl(wins[i]);
      }
      SumOfAtMost(wins, Pnl, m);
      MeanAtMost(SumOf(wins, Pnl), |wins| as real, m);
    }
  }

  /** The average loss is below 0 and at least the largest loss. */
  lemma LossAverages(rows: seq<Row>)
    ensures var closed := Closed(rows);
      && (|Losses(closed)| > 0 ==> LargestLoss(closed) <= AvgLoss(closed) < 0.0)
      && (|Losses(closed)| == 0 ==> AvgLoss(closed) == 0.0 && LargestLoss(closed) == 0.0)
  {
    var losses := Losses(Closed(rows));
    if |losses| > 0 {
      LossMean(losses);
    }
  }

  lemma LossMean(losses: seq<Row>)
    requires |losses| > 0 && forall i :: 0 <= i < |losses| ==> losses[i].pnl < 0.0
    ensures SeqMin(Map(losses, Pnl)) <= Mean(losses, Pnl) < 0.0
  {
    SumOfNegative(losses, Pnl);
    var m := SeqMin(Map(losses, Pnl));
    forall i | 0 <= i < |losses| ensures Negated(losses[i]) <= -m {
      assert Map(losses, Pnl)[i] == Pnl(losses[i]);
    }
    SumOfAtMost(losses, Negated, -m);
    NegatedSum(losses);
    var s, n := SumOf(losses, Pnl), |losses| as real;
    assert -s <= n * -m;
    NegativeMean(s, n, m);
  }

  function Negated(r: Row): real { -r.pnl }

  lemma {:induction false} NegatedSum(xs: seq<Row>)
    ensures SumOf(xs, Negated) == -SumOf(xs, Pnl)
  {
    if |xs| > 0 {
      NegatedSum(xs[1..]);
    }
  }

  /** `s / n` is at most `m` and, like `s`, positive. */
  lemma MeanAtMost(s: real, n: real, m: real)
    requires n > 0.0 && s <= n * m && s > 0.0
    ensures 0.0 < s / n <= m
  {
    var q := s / n;
    assert q * n == s;
  }

  /** `s / n` is at least `m` and, like `s`, negative. */
  lemma NegativeMean(s: real, n: real, m: real)
    requires n > 0.0 && -s <= n * -m && s < 0.0
    ensures m <= s / n < 0.0
  {
    MeanAtMost(-s, n, -m);
    assert -s / n == -(s / n);
  }

  /** Expectancy is the mean realized P/L per closed trade. */
  lemma ExpectancyIsMeanPnl(rows: seq<Row>)
    requires |Closed(rows)| > 0
    ensures Expectancy(Closed(rows)) == SumOf(rows, Pnl) / (|Closed(rows)| as real)
  {
    ClosedPnl(rows);
    ExpectancyIsMean(rows);
  }

  lemma ExpectancyIsMean(rows: seq<Row>)
    requires |Closed(rows)| > 0
    ensures Expectancy(Closed(rows)) == SumOf(Closed(rows), Pnl) / (|Closed(rows)| as real)
  {
    var closed := Closed(rows);
    WhereSplit(closed, IsWin, IsLoss, Pnl);
    ExpectancyOfSplit(closed);
  }

  /** The expectancy formula, on a set split into wins and losses, is the
      sum of both over the count. */
  lemma ExpectancyOfSplit(closed: seq<Row>)
    requires |closed| > 0
    requires |Wins(closed)| + |Losses(closed)| == |closed|
    ensures Expectancy(closed) == (SumOf(Wins(closed), Pnl) + SumOf(Losses(closed), Pnl)) / (|closed| as real)
  {
    var wins, losses := Wins(closed), Losses(closed);
    AveragesAreMeans(closed);
    var tr, wr := |closed| as real, |wins| as real;
    ExpectancyArithmetic(tr, wr, |losses| as real,
      SumOf(wins, Pnl), SumOf(losses, Pnl), AvgWin(closed), AvgLoss(closed));
    assert WinRate(closed) == wr / tr * 100.0;
  }

  lemma AveragesAreMeans(closed: seq<Row>)
    ensures var wr, sw := |Wins(closed)| as real, SumOf(Wins(closed), Pnl);
      && (wr > 0.0 ==> AvgWin(closed) == sw / wr)
      && (wr == 0.0 ==> AvgWin(closed) == 0.0 && sw == 0.0)
    ensures var lr, sl := |Losses(closed)| as real, SumOf(Losses(closed), Pnl);
      && (lr > 0.0 ==> AvgLoss(closed) == sl / lr)
      && (lr == 0.0 ==> AvgLoss(closed) == 0.0 && sl == 0.0)
  {
  }

  lemma ExpectancyArithmetic(t: real, w: real, l: real, sw: real, sl: real, aw: real, al: real)
    requires t > 0.0 && w >= 0.0 && l >= 0.0 && w + l == t
    requires w > 0.0 ==> aw == sw / w
    requires l > 0.0 ==> al == sl / l
    requires w == 0.0 ==> aw == 0.0 && sw == 0.0
    requires l == 0.0 ==> al == 0.0 && sl == 0.0
    ensures Expect(w / t * 100.0, aw, al) == (sw + sl) / t
  {
    assert (w / t * 100.0) / 100.0 == w / t;
    Complement(w, l, t);
    WeightedPart(w, t, sw, aw);
    WeightedPart(l, t, sl, al);
    assert sw / t + sl / t == (sw + sl) / t;
  }

  /** `(n / t) * mean == s / t`, where the mean is `s / n`, or 0 when `n`
      and therefore `s` is 0. */
  lemma WeightedPart(n: real, t: real, s: real, mean: real)
    requires t > 0.0 && n >= 0.0
    requires n > 0.0 ==> mean == s / n
    requires n == 0.0 ==> mean == 0.0 && s == 0.0
    ensures n / t * mean == s / t
  {
    if n > 0.0 {
      assert n / t * (s / n) == s / t;
    }
  }

  lemma Complement(w: real, l: real, t: real)
    requires t > 0.0 && w + l == t
    ensures 1.0 - w / t == l / t
  {
    assert w / t + l / t == (w + l) / t;
  }

  /** Risk/reward is never negative and, with both wins and losses, is the
      ratio of the average win to the size of the average loss. */
  lemma RiskRewardRatio(rows: seq<Row>)
    ensures var closed := Closed(rows);
      && RiskReward(closed) >= 0.0
      && (|Wins(closed)| > 0 && |Losses(closed)| > 0 ==>
            RiskReward(closed) > 0.0 && RiskReward(closed) * -AvgLoss(closed) == AvgWin(closed))
      && (|Losses(closed)| == 0 ==> RiskReward(closed) == 0.0)
  {
    WinAverages(rows);
    LossAverages(rows);
    RiskRewardOfSigns(Closed(rows));
  }

  lemma RiskRewardOfSigns(closed: seq<Row>)
    requires AvgWin(closed) >= 0.0 && AvgLoss(closed) <= 0.0
    requires |Wins(closed)| > 0 ==> AvgWin(closed) > 0.0
    requires |Losses(closed)| > 0 ==> AvgLoss(closed) < 0.0
    requires |Losses(closed)| == 0 ==> AvgLoss(closed) == 0.0
    ensures RiskReward(closed) >= 0.0
    ensures |Wins(closed)| > 0 && |Losses(closed)| > 0 ==>
      RiskReward(closed) > 0.0 && RiskReward(closed) * -AvgLoss(closed) == AvgWin(closed)
    ensures |Losses(closed)| == 0 ==> RiskReward(closed) == 0.0
  {
    var aw, al := AvgWin(closed), AvgLoss(closed);
    assert RiskReward(closed) == if al != 0.0 then Abs(aw) / Abs(al) else 0.0;
    RatioOfAverages(aw, al);
  }

  lemma RatioOfAverages(aw: real, al: real)
    requires aw >= 0.0 && al <= 0.0
    ensures var rr := if al != 0.0 then Abs(aw) / Abs(al) else 0.0;
      && rr >= 0.0
      && (aw > 0.0 && al < 0.0 ==> rr > 0.0 && rr * -al == aw)
  {
    if al != 0.0 {
      var q := aw / -al;
      assert q * -al == aw;
    }
  }

  /** With no closed trade every statistic is 0. */
  lemma NoClosedTradesDefaults(rows: seq<Row>)
    requires forall i :: 0 <= i < |rows| ==> rows[i].pnl == 0.0
    ensures ClosedSummary(rows) == Summary(0, 0, 0, 0, 0.0, 0.0, 0.0, 0.0, 0.0, Finite(0.0), 0.0, 0.0)
  {
    WhereNone(rows, IsClosing);
  }

  function ExampleRow(time: int, pnl: real): Row
  {
    Row(time, "XYZ", 0.0, 0.0, pnl, 0.0, Monday, 0)
  }

  /** A ledger whose closed P/L is +100, -50, +30. */
  function Example(): seq<Row>
  {
    [ExampleRow(1, 100.0), ExampleRow(2, -50.0), ExampleRow(3, 30.0)]
  }

  lemma ExampleSplit()
    ensures Closed(Example()) == Example()
    ensures Wins(Example()) == [Example()[0], Example()[2]]
    ensures Losses(Example()) == [Example()[1]]
  {
    var rows := Example();
    var a, b, c := rows[0], rows[1], rows[2];
    assert rows[1..] == [b, c] && [b, c][1..] == [c] && [c][1..] == [];
    assert Where([c], IsClosing) == [c];
    assert Where([b, c], IsClosing) == [b, c];
    assert Where([c], IsWin) == [c];
    assert Where([b, c], IsWin) == [c];
    assert Where([c], IsLoss) == [];
    assert Where([b, c], IsLoss) == [b];
  }

  /** The example has 3 closed trades, 2 of them wins and 1 a loss: win
      rate 200/3 %. */
  lemma ExampleCounts()
    ensures var closed := Closed(Example());
      && |closed| == 3 && |Wins(closed)| == 2 && |Losses(closed)| == 1
      && WinRate(closed) == 200.0 / 3.0
  {
    ExampleSplit();
    var rows := Example();
    assert WinRate(rows) == (2 as real) / (3 as real) * 100.0;
  }

  /** The average win is 65 and the largest 100; the one loss, -50, is both
      the average and the largest loss. */
  lemma ExampleAverages()
    ensures var closed := Closed(Example());
      && AvgWin(closed) == 65.0 && LargestWin(closed) == 100.0
      && AvgLoss(closed) == -50.0 && LargestLoss(closed) == -50.0
  {
    ExampleSplit();
    var rows := Example();
    var a, b, c := rows[0], rows[1], rows[2];
    assert [a, c][1..] == [c];
    assert Map([a, c], Pnl) == [100.0, 30.0];
    assert [100.0, 30.0][1..] == [30.0];
    assert Map([b], Pnl) == [-50.0];
    assert SumOf([a, c], Pnl) == 130.0;
    assert SumOf([b], Pnl) == -50.0;
  }

  /** Its profit factor is 130 / 50 and its expectancy 80/3 per trade. */
  lemma ExampleProfitFactorAndExpectancy()
    ensures ProfitFactorOf(Closed(Example())) == Finite(2.6)
    ensures Expectancy(Closed(Example())) == 80.0 / 3.0
  {
    ExampleSplit();
    var rows := Example();
    var a, b, c := rows[0], rows[1], rows[2];
    assert [a, c][1..] == [c];
    assert SumOf([a, c], Pnl) == 130.0;
    assert SumOf([b], Pnl) == -50.0;
    assert rows[1..] == [b, c];
    assert SumOf([b, c], Pnl) == -20.0;
    assert SumOf(rows, Pnl) == 80.0;
    ExpectancyIsMeanPnl(rows);
  }
}
