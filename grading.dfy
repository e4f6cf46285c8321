/** Section 8 of `analyze_trades`: the fear index (how often winners are
    cut short) and the letter grade of every closed trade with its
    distribution. */
module Grading {
  import opened Seqs
  import opened Grouping
  import opened Ledger
  import opened ClosedStats

  // ---------------------------------------------------------------------
  // Fear index

  /** The mask "P/L below `threshold`". */
  function Under(threshold: real): Row -> bool
  {
    (r: Row) => r.pnl < threshold
  }

  /** Share, in percent, of the winning trades that made less than 30% of
      the average win; 0 when there is no win (or the average win is not
      positive). */
  function FearIndex(closed: seq<Row>): real
  {
    var wins := Wins(closed);
    var avgWin := AvgWin(closed);
    if |wins| > 0 && avgWin > 0.0 then
      (|Where(wins, Under(avgWin * 0.3))| as real) / (|wins| as real) * 100.0
    else 0.0
  }

  /** The fear index is a percentage below 100: the largest win is at least
      the average win, so it is never a small win.  It is 0 without a win,
      and positive exactly when some win made less than 30% of the average
      win. */
  lemma FearIndexBounds(rows: seq<Row>)
    ensures var closed := Closed(rows);
      var wins := Wins(closed);
      && 0.0 <= FearIndex(closed) < 100.0
      && (|wins| == 0 ==> FearIndex(closed) == 0.0)
      && (FearIndex(closed) > 0.0 <==>
            exists i :: 0 <= i < |wins| && wins[i].pnl < AvgWin(closed) * 0.3)
  {
    var closed := Closed(rows);
    var wins := Wins(closed);
    WinAverages(rows);
    if |wins| > 0 {
      var fs := Map(wins, Pnl);
      var k :| 0 <= k < |fs| && fs[k] == LargestWin(closed);
      SmallWinsShare(wins, AvgWin(closed) * 0.3, k);
    }
  }

  /** With one win at or above the threshold, the share of wins below it is
      under 100%, and positive exactly when some win is below it. */
  lemma SmallWinsShare(wins: seq<Row>, t: real, k: nat)
    requires k < |wins| && wins[k].pnl >= t
    ensures var f := (|Where(wins, Under(t))| as real) / (|wins| as real) * 100.0;
      && 0.0 <= f < 100.0
      && (f > 0.0 <==> exists i :: 0 <= i < |wins| && wins[i].pnl < t)
  {
    var small := Where(wins, Under(t));
    WhereDropsOne(wins, Under(t), k);
    FractionBounds(|small| as real, |wins| as real);
    if exists i :: 0 <= i < |wins| && wins[i].pnl < t {
      var i :| 0 <= i < |wins| && wins[i].pnl < t;
      WhereMember(wins, Under(t), wins[i]);
    }
    if |small| > 0 {
      assert small[0] in small;
      WhereMember(wins, Under(t), small[0]);
    }
  }

  // ---------------------------------------------------------------------
  // Grades

  datatype Grade = APlus | A | B | C | D | F

  /** The label a grade is reported under. */
  function Label(g: Grade): string
  {
    match g
    case APlus => "A+" case A => "A" case B => "B" case C => "C" case D => "D" case F => "F"
  }

  /** Grades ranked, F lowest. */
  function Rank(g: Grade): nat
  {
    match g
    case F => 0 case D => 1 case C => 2 case B => 3 case A => 4 case APlus => 5
  }

  /** The unit of the grading scale: the absolute fee, or one cent for a
      trade without a fee. */
  function FeeCost(fee: real): (c: real)
    ensures c > 0.0
    ensures fee != 0.0 ==> c == Abs(fee)
  {
    if fee != 0.0 then Abs(fee) else 0.01
  }

  /** `grade_trade`: the P/L plus the commission, measured in fee units. */
  function GradeTrade(pnl: real, fee: real): Grade
  {
    var net := pnl + fee;
    var c := FeeCost(fee);
    if net > 5.0 * c then APlus
    else if net > 3.0 * c then A
    else if net > c then B
    else if net > 0.0 then C
    else if net > -c then D
    else F
  }

  /** How many of the thresholds -1, 0, 1, 3 and 5 fee units the net
      clears. */
  function Cleared(net: real, c: real): nat
  {
    (if net > -c then 1 else 0) + (if net > 0.0 then 1 else 0) + (if net > c then 1 else 0)
      + (if net > 3.0 * c then 1 else 0) + (if net > 5.0 * c then 1 else 0)
  }

  /** A trade's rank is the number of thresholds its net clears. */
  lemma GradeIsThresholdsCleared(pnl: real, fee: real)
    ensures Rank(GradeTrade(pnl, fee)) == Cleared(pnl + fee, FeeCost(fee))
  {
    var c := FeeCost(fee);
    assert -c < 0.0 < c < 3.0 * c < 5.0 * c;
  }

  /** Grading is monotone: at the same fee, a larger P/L never gets a lower
      grade. */
  lemma GradeMonotone(pnl1: real, pnl2: real, fee: real)
    requires pnl1 <= pnl2
    ensures Rank(GradeTrade(pnl1, fee)) <= Rank(GradeTrade(pnl2, fee))
  {
    GradeIsThresholdsCleared(pnl1, fee);
    GradeIsThresholdsCleared(pnl2, fee);
  }

  /** A trade grades C or better exactly when it nets a profit after its
      commission, and F exactly when it loses at least one fee unit. */
  lemma GradeSign(pnl: real, fee: real)
    ensures Rank(GradeTrade(pnl, fee)) >= Rank(C) <==> pnl + fee > 0.0
    ensures GradeTrade(pnl, fee) == F <==> pnl + fee <= -FeeCost(fee)
  {
    GradeIsThresholdsCleared(pnl, fee);
  }

  /** +100 with a 10 fee nets 90 > 50: A+; +5 with a 10 fee nets -5: D;
      +0.04 without a fee clears 3 cents, not 5: A. */
  lemma GradeExamples()
    ensures GradeTrade(100.0, -10.0) == APlus
    ensures GradeTrade(5.0, -10.0) == D
    ensures GradeTrade(0.04, 0.0) == A
    ensures GradeTrade(-20.0, -10.0) == F
  {
  }

  function GradeOf(r: Row): Grade { GradeTrade(r.pnl, r.commission) }

  /** `grade_dist`: for every grade some closed trade received, how many
      did. */
  function GradeDistribution(closed: seq<Row>): map<Grade, nat>
  {
    map g | g in Keys(closed, GradeOf) :: |Group(closed, GradeOf, g)|
  }

  /** The count a distribution holds for `g`, 0 when `g` is absent. */
  function Tally(dist: map<Grade, nat>): Grade -> real
  {
    g => if g in dist then dist[g] as real else 0.0
  }

  /** A grade is in the distribution exactly when some closed trade got it,
      and then it maps to the number of such trades. */
  lemma GradeDistributionKeys(closed: seq<Row>, g: Grade)
    ensures var dist := GradeDistribution(closed);
      && (g in dist <==> exists i :: 0 <= i < |closed| && GradeOf(closed[i]) == g)
      && (g in dist ==> dist[g] == |Group(closed, GradeOf, g)| > 0)
  {
    var keys := Keys(closed, GradeOf);
    var gs := Map(closed, GradeOf);
    GroupNonEmpty(closed, GradeOf, g);
    if exists i :: 0 <= i < |closed| && GradeOf(closed[i]) == g {
      var i :| 0 <= i < |closed| && GradeOf(closed[i]) == g;
      assert g in keys;
    }
    if g in keys {
      var k := Group(closed, GradeOf, g)[0];
      assert k in Group(closed, GradeOf, g);
      WhereMember(closed, KeyIs(GradeOf, g), k);
      var i :| 0 <= i < |closed| && closed[i] == k;
      assert GradeOf(closed[i]) == g;
    }
  }

  /** The counts of the distribution add up to the number of closed trades. */
  lemma GradeDistributionTotal(closed: seq<Row>)
    ensures SumOf(Keys(closed, GradeOf), Tally(GradeDistribution(closed))) == |closed| as real
  {
    var keys := Keys(closed, GradeOf);
    var dist := GradeDistribution(closed);
    forall i | 0 <= i < |keys|
      ensures Tally(dist)(keys[i]) == SumOf(Group(closed, GradeOf, keys[i]), One)
    {
      assert keys[i] in dist;
      SumOfOne(Group(closed, GradeOf, keys[i]));
    }
    SumOfTable(closed, keys, GradeOf, One, Tally(dist), Identity);
    SumOfMapIdentity(keys, Tally(dist));
    GroupSizes(closed, keys, GradeOf);
  }

  function Identity(x: real): real { x }

  /** Summing the image of `f` is summing `f`. */
  lemma {:induction false} SumOfMapIdentity<T>(xs: seq<T>, f: T -> real)
    ensures SumOf(Map(xs, f), Identity) == SumOf(xs, f)
  {
    if |xs| > 0 {
      assert Map(xs, f)[1..] == Map(xs[1..], f);
      SumOfMapIdentity(xs[1..], f);
    }
  }
}
