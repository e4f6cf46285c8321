/** Section 9 of `analyze_trades`: the rule-based insights drawn from the
    statistics, in the order the rules are applied, and their messages. */
module Insights {
  import opened Ledger
  import opened ClosedStats
  import opened Buckets

  datatype Insight =
    | LowWinRate
    | HighWinRate
    | PoorRiskReward
    | ExcellentRiskReward
    | Unprofitable
    | StrongProfitFactor
    | HighFear
    | HeavyCommissions
    | LosingStreak(length: nat)
    | PositiveExpectancy(perTrade: real)
    | NegativeExpectancy(perTrade: real)
    | BestDay(day: Weekday)

  /** The statistics the rules read. */
  datatype Inputs = Inputs(
    winRate: real,
    avgWin: real,
    avgLoss: real,
    riskReward: real,
    profitFactor: ProfitFactor,
    fearIndex: real,
    commissionPct: real,
    maxLossStreak: nat,
    expectancy: real,
    dow: seq<DayRow>)

  // ---------------------------------------------------------------------
  // Best day

  /** `idxmax` of the day sums: the first row with the largest sum. */
  function FirstMaxIndex(dow: seq<DayRow>): (k: nat)
    requires |dow| > 0
    ensures k < |dow|
    ensures forall j :: 0 <= j < |dow| ==> dow[j].sum <= dow[k].sum
    ensures forall j :: 0 <= j < k ==> dow[j].sum < dow[k].sum
  {
    if |dow| == 1 then 0
    else
      var k := FirstMaxIndex(dow[1..]);
      if dow[0].sum >= dow[k + 1].sum then 0 else k + 1
  }

  // ---------------------------------------------------------------------
  // The rules

  function WinRateRule(winRate: real): seq<Insight>
  {
    if winRate < 40.0 then [LowWinRate] else if winRate > 70.0 then [HighWinRate] else []
  }

  /** Only judged when there is a positive average win and a negative
      average loss. */
  function RiskRewardRule(avgWin: real, avgLoss: real, riskReward: real): seq<Insight>
  {
    if avgWin > 0.0 && avgLoss < 0.0 then
      if riskReward < 1.5 then [PoorRiskReward] else if riskReward > 2.5 then [ExcellentRiskReward] else []
    else []
  }

  /** An infinite profit factor is above 2. */
  function ProfitFactorRule(pf: ProfitFactor): seq<Insight>
  {
    if pf.Below(1.0) then [Unprofitable] else if pf.Above(2.0) then [StrongProfitFactor] else []
  }

  function ExpectancyRule(expectancy: real): seq<Insight>
  {
    if expectancy > 0.0 then [PositiveExpectancy(expectancy)] else [NegativeExpectancy(expectancy)]
  }

  function BestDayRule(dow: seq<DayRow>): seq<Insight>
  {
    if |dow| > 0 then [BestDay(dow[FirstMaxIndex(dow)].day)] else []
  }

  /** The insights, in the order the rules run. */
  function InsightsOf(x: Inputs): seq<Insight>
  {
    WinRateRule(x.winRate)
      + RiskRewardRule(x.avgWin, x.avgLoss, x.riskReward)
      + ProfitFactorRule(x.profitFactor)
      + (if x.fearIndex > 50.0 then [HighFear] else [])
      + (if x.commissionPct > 30.0 then [HeavyCommissions] else [])
      + (if x.maxLossStreak >= 5 then [LosingStreak(x.maxLossStreak)] else [])
      + ExpectancyRule(x.expectancy)
      + BestDayRule(x.dow)
  }

  /** The win-rate insights are reported exactly when their condition
      holds. */
  lemma WinRateInsights(x: Inputs)
    ensures LowWinRate in InsightsOf(x) <==> x.winRate < 40.0
    ensures HighWinRate in InsightsOf(x) <==> x.winRate > 70.0
  {
  }

  /** The risk/reward insights need a positive average win and a negative
      average loss. */
  lemma RiskRewardInsights(x: Inputs)
    ensures PoorRiskReward in InsightsOf(x) <==> x.avgWin > 0.0 && x.avgLoss < 0.0 && x.riskReward < 1.5
    ensures ExcellentRiskReward in InsightsOf(x) <==> x.avgWin > 0.0 && x.avgLoss < 0.0 && x.riskReward > 2.5
  {
  }

  /** A profit factor below 1 is flagged, one above 2 (an infinite one
      included) praised. */
  lemma ProfitFactorInsights(x: Inputs)
    ensures Unprofitable in InsightsOf(x) <==> x.profitFactor.Below(1.0)
    ensures StrongProfitFactor in InsightsOf(x) <==> x.profitFactor.Above(2.0)
  {
  }

  /** Fear above 50% and commissions above 30% are flagged. */
  lemma FearAndCommissionInsights(x: Inputs)
    ensures HighFear in InsightsOf(x) <==> x.fearIndex > 50.0
    ensures HeavyCommissions in InsightsOf(x) <==> x.commissionPct > 30.0
  {
  }

  /** The streak and expectancy insights carry their value: the longest
      losing streak when it reaches 5, and the expectancy always, as
      positive or as negative, never both. */
  lemma InsightValues(x: Inputs)
    ensures forall n :: LosingStreak(n) in InsightsOf(x) <==> n == x.maxLossStreak >= 5
    ensures forall e :: PositiveExpectancy(e) in InsightsOf(x) <==> e == x.expectancy > 0.0
    ensures forall e :: NegativeExpectancy(e) in InsightsOf(x) <==> e == x.expectancy <= 0.0
  {
  }

  /** A best day is reported exactly when some day has a closed trade, and
      it is the day of the first largest sum. */
  lemma BestDayInsight(x: Inputs)
    ensures forall d :: BestDay(d) in InsightsOf(x) <==> |x.dow| > 0 && d == x.dow[FirstMaxIndex(x.dow)].day
  {
  }

  /** The best day has the largest sum of all tabulated days, and every day
      before it in the table has a strictly smaller sum. */
  lemma BestDayIsFirstMax(x: Inputs, d: Weekday)
    requires BestDay(d) in InsightsOf(x)
    ensures exists i :: (0 <= i < |x.dow| && x.dow[i].day == d
      && (forall j :: 0 <= j < |x.dow| ==> x.dow[j].sum <= x.dow[i].sum)
      && (forall j :: 0 <= j < i ==> x.dow[j].sum < x.dow[i].sum))
  {
    BestDayInsight(x);
    var i := FirstMaxIndex(x.dow);
    assert x.dow[i].day == d;
  }

  /** Rule order: at most one win-rate, risk/reward and profit-factor insight
      each, so the list holds between one and eight insights, and the
      expectancy insight always comes before the best day. */
  lemma InsightCount(x: Inputs)
    ensures 1 <= |InsightsOf(x)| <= 8
    ensures var ins := InsightsOf(x);
      |x.dow| > 0 ==> ins[|ins| - 1].BestDay? && (ins[|ins| - 2].PositiveExpectancy? || ins[|ins| - 2].NegativeExpectancy?)
  {
  }

  /** The statistics of a ledger without closed trades give exactly three
      insights. */
  lemma QuietInsights(x: Inputs)
    requires x.winRate == 0.0 && x.avgWin == 0.0 && x.profitFactor == Finite(0.0)
    requires x.fearIndex == 0.0 && x.commissionPct == 0.0 && x.maxLossStreak == 0
    requires x.expectancy == 0.0 && x.dow == []
    ensures InsightsOf(x) == [LowWinRate, Unprofitable, NegativeExpectancy(0.0)]
  {
  }

  // ---------------------------------------------------------------------
  // Messages

  function DigitChar(d: nat): char
    requires d < 10
  {
    "0123456789"[d]
  }

  function DigitValue(c: char): nat
  {
    if '0' <= c <= '9' then (c as int - '0' as int) as nat else 0
  }

  /** Decimal rendering of a count, as in an f-string. */
  function NatToString(n: nat): (s: string)
    ensures |s| > 0
    ensures forall i :: 0 <= i < |s| ==> '0' <= s[i] <= '9'
  {
    if n < 10 then [DigitChar(n)] else NatToString(n / 10) + [DigitChar(n % 10)]
  }

  function ParseNat(s: string): nat
  {
    if |s| == 0 then 0 else ParseNat(s[..|s| - 1]) * 10 + DigitValue(s[|s| - 1])
  }

  /** Reading the rendering back gives the count. */
  lemma {:induction false} NatToStringRoundTrip(n: nat)
    ensures ParseNat(NatToString(n)) == n
  {
    var s := NatToString(n);
    if n < 10 {
      assert s[..0] == [];
    } else {
      NatToStringRoundTrip(n / 10);
      assert s[..|s| - 1] == NatToString(n / 10);
    }
  }

  function DayName(d: Weekday): string
  {
    match d
    case Monday => "Monday" case Tuesday => "Tuesday" case Wednesday => "Wednesday"
    case Thursday => "Thursday" case Friday => "Friday" case Saturday => "Saturday"
    case Sunday => "Sunday"
  }

  /** The text of an insight; `money` renders an amount with two decimals. */
  function Message(i: Insight, money: real -> string): string
  {
    match i
    case LowWinRate => "⚠️ Low win rate (<40%). Consider improving trade selection."
    case HighWinRate => "✅ High win rate (>70%). Good trade selection!"
    case PoorRiskReward => "⚠️ Risk/Reward ratio below 1.5:1. Losses are too large relative to wins."
    case ExcellentRiskReward => "✅ Excellent Risk/Reward ratio (>2.5:1)!"
    case Unprofitable => "🚨 Profit factor <1. Overall unprofitable."
    case StrongProfitFactor => "✅ Strong profit factor (>2)!"
    case HighFear => "🧠 High Fear Index (>50%). You are cutting winners too early."
    case HeavyCommissions => "💸 Commissions eating >30% of gross profits. Reduce frequency or increase size."
    case LosingStreak(n) => "⚠️ Long losing streak (" + NatToString(n) + " trades)."
    case PositiveExpectancy(e) => "✅ Positive expectancy ($" + money(e) + " per trade)."
    case NegativeExpectancy(e) => "🚨 Negative expectancy ($" + money(e) + " per trade)."
    case BestDay(d) => "📅 Best day: " + DayName(d)
  }

  /** The messages, in rule order. */
  function Messages(ins: seq<Insight>, money: real -> string): (ms: seq<string>)
    ensures |ms| == |ins|
    ensures forall i :: 0 <= i < |ins| ==> ms[i] == Message(ins[i], money)
  {
    seq(|ins|, i requires 0 <= i < |ins| => Message(ins[i], money))
  }

  /** The streak message names the streak length in decimal. */
  lemma StreakMessage(n: nat, money: real -> string)
    ensures var m := Message(LosingStreak(n), money);
      var prefix := "⚠️ Long losing streak (";
      var digits := m[|prefix|..|m| - |" trades)."|];
      |m| > |prefix| + |" trades)."| && ParseNat(digits) == n
  {
    var prefix := "⚠️ Long losing streak (";
    var m := Message(LosingStreak(n), money);
    assert m == prefix + NatToString(n) + " trades).";
    assert m[|prefix|..|m| - |" trades)."|] == NatToString(n);
    NatToStringRoundTrip(n);
  }
}
