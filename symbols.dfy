/** Section 6 of `analyze_trades`: one row per traded symbol, aggregated over
    the whole ledger (opening fills included), sorted by net P/L, largest
    first. */
module Symbols {
  import opened Wrappers
  import opened Seqs
  import opened Grouping
  import opened Sorting
  import opened Ledger
  import opened ClosedStats

  datatype SymbolRow = SymbolRow(
    symbol: Symbol,
    trades: nat,                // rows with non-zero realized P/L
    netPnl: real,
    fees: real,
    wins: nat,
    losses: nat,
    winRate: real,
    bestTrade: Option<real>,    // None: NaN after index alignment
    worstTrade: Option<real>,
    openPosition: real,
    hasOpenPosition: bool,
    avgPnl: real)

  function NetPnl(s: SymbolRow): real { s.netPnl }
  function Fees(s: SymbolRow): real { s.fees }
  function TradesOf(s: SymbolRow): real { s.trades as real }
  function OpenQuantity(s: SymbolRow): real { s.openPosition }

  /** The row of symbol `sym`.  `anyClosed` says whether the ledger has any
      closed trade at all: without one, best and worst trade are the literal
      0; with one, a symbol without closed trades has no best or worst
      trade.  Win rate and average P/L are 0 (NaN filled) when the symbol
      has no closed trade. */
  function StatsFor(rows: seq<Row>, anyClosed: bool, sym: Symbol): (s: SymbolRow)
  {
    var g := Group(rows, SymbolOf, sym);
    var closed := Closed(g);
    var trades := |closed|;
    var net := SumOf(g, Pnl);
    var wins := if anyClosed then |Wins(closed)| else 0;
    var losses := if anyClosed then |Losses(closed)| else 0;
    var winRate := if trades > 0 then (wins as real) / (trades as real) * 100.0 else 0.0;
    var best := if !anyClosed then Some(0.0) else if trades > 0 then Some(SeqMax(Map(closed, Pnl))) else None;
    var worst := if !anyClosed then Some(0.0) else if trades > 0 then Some(SeqMin(Map(closed, Pnl))) else None;
    var open := SumOf(g, Quantity);
    var avg := if trades > 0 then net / (trades as real) else 0.0;
    SymbolRow(sym, trades, net, SumOf(g, Commission), wins, losses, winRate, best, worst, open, open > 0.0, avg)
  }

  function StatsRow(rows: seq<Row>, anyClosed: bool): Symbol -> SymbolRow
  {
    sym => StatsFor(rows, anyClosed, sym)
  }

  /** The rows in order of first appearance of their symbol, before sorting. */
  function Unsorted(rows: seq<Row>): seq<SymbolRow>
  {
    Map(Keys(rows, SymbolOf), StatsRow(rows, |Closed(rows)| > 0))
  }

  /** `symbol_stats`: sorted by net P/L, largest first. */
  function SymbolStats(rows: seq<Row>): (r: seq<SymbolRow>)
    ensures SortedDesc(r, NetPnl)
    ensures multiset(r) == multiset(Unsorted(rows))
  {
    SortDesc(Unsorted(rows), NetPnl)
  }

  /** One row per distinct symbol: every symbol of the ledger has a row and
      no symbol has two. */
  lemma OneRowPerSymbol(rows: seq<Row>)
    ensures var u := Unsorted(rows);
      && (forall i :: 0 <= i < |rows| ==> exists j :: 0 <= j < |u| && u[j].symbol == rows[i].symbol)
      && (forall i, j :: 0 <= i < j < |u| ==> u[i].symbol != u[j].symbol)
      && (forall j :: 0 <= j < |u| ==> |Group(rows, SymbolOf, u[j].symbol)| > 0)
  {
    var keys := Keys(rows, SymbolOf);
    var u := Unsorted(rows);
    forall i | 0 <= i < |rows| ensures exists j :: 0 <= j < |u| && u[j].symbol == rows[i].symbol {
      var j :| 0 <= j < |keys| && keys[j] == SymbolOf(rows[i]);
      assert u[j].symbol == keys[j];
    }
    forall j | 0 <= j < |u| ensures u[j].symbol == keys[j] { }
  }

  /** The symbol rows add up to the ledger: net P/L, fees, open quantity and
      the number of closed trades. */
  lemma SymbolTotals(rows: seq<Row>)
    ensures SumOf(SymbolStats(rows), NetPnl) == SumOf(rows, Pnl)
    ensures SumOf(SymbolStats(rows), Fees) == SumOf(rows, Commission)
    ensures SumOf(SymbolStats(rows), OpenQuantity) == SumOf(rows, Quantity)
    ensures SumOf(SymbolStats(rows), TradesOf) == |Closed(rows)| as real
  {
    var keys := Keys(rows, SymbolOf);
    var row := StatsRow(rows, |Closed(rows)| > 0);
    var u := Unsorted(rows);
    GroupTotals(rows, keys, SymbolOf, Pnl);
    GroupTotals(rows, keys, SymbolOf, Commission);
    GroupTotals(rows, keys, SymbolOf, Quantity);
    GroupTotals(rows, keys, SymbolOf, Indicator(IsClosing));
    SumOfTable(rows, keys, SymbolOf, Pnl, row, NetPnl);
    SumOfTable(rows, keys, SymbolOf, Commission, row, Fees);
    SumOfTable(rows, keys, SymbolOf, Quantity, row, OpenQuantity);
    forall i | 0 <= i < |keys|
      ensures TradesOf(row(keys[i])) == SumOf(Group(rows, SymbolOf, keys[i]), Indicator(IsClosing))
    {
      WhereCount(Group(rows, SymbolOf, keys[i]), IsClosing);
    }
    SumOfTable(rows, keys, SymbolOf, Indicator(IsClosing), row, TradesOf);
    WhereCount(rows, IsClosing);
    SumOfSortDesc(u, NetPnl, NetPnl);
    SumOfSortDesc(u, NetPnl, Fees);
    SumOfSortDesc(u, NetPnl, OpenQuantity);
    SumOfSortDesc(u, NetPnl, TradesOf);
  }

  /** Wins and losses split the closed trades of a symbol, and its win rate
      is a percentage, 0 without a closed trade.  Without any closed trade
      in the ledger the symbol has none either, so the literal 0 wins and
      losses agree with the split. */
  lemma SymbolWinRate(rows: seq<Row>, sym: Symbol)
    ensures var s := StatsFor(rows, |Closed(rows)| > 0, sym);
      && s.wins + s.losses == s.trades
      && 0.0 <= s.winRate <= 100.0
      && (s.trades == 0 ==> s.winRate == 0.0)
      && (s.winRate == 100.0 <==> s.trades > 0 && s.losses == 0)
  {
    var g := Group(rows, SymbolOf, sym);
    var closed := Closed(g);
    CountsPartition(g);
    if |Closed(rows)| == 0 {
      WhereCommute(rows, KeyIs(SymbolOf, sym), IsClosing);
      assert closed == Where(Closed(rows), KeyIs(SymbolOf, sym));
    } else if |closed| > 0 {
      FractionBounds(|Wins(closed)| as real, |closed| as real);
    }
  }

  /** The average P/L times the number of closed trades is the net P/L;
      without a closed trade the average, and the net P/L, are 0. */
  lemma SymbolAverage(rows: seq<Row>, anyClosed: bool, sym: Symbol)
    ensures var s := StatsFor(rows, anyClosed, sym);
      && (s.trades == 0 ==> s.avgPnl == 0.0 && s.netPnl == 0.0)
      && (s.trades > 0 ==> s.avgPnl * (s.trades as real) == s.netPnl)
  {
    var g := Group(rows, SymbolOf, sym);
    var closed := Closed(g);
    var net := SumOf(g, Pnl);
    if |closed| > 0 {
      DivTimes(net, |closed| as real);
    } else {
      ClosedPnl(g);
    }
  }

  lemma DivTimes(n: real, t: real)
    requires t > 0.0
    ensures n / t * t == n
  {
  }

  /** The best and worst trade of a symbol with closed trades are the
      largest and smallest of its closed P/L; a symbol without closed trades
      has none, unless the ledger has no closed trade at all, when both are
      0. */
  lemma BestAndWorst(rows: seq<Row>, sym: Symbol)
    ensures var s := StatsFor(rows, |Closed(rows)| > 0, sym);
      var closed := Closed(Group(rows, SymbolOf, sym));
      && (|Closed(rows)| == 0 ==> s.bestTrade == Some(0.0) && s.worstTrade == Some(0.0))
      && (|Closed(rows)| > 0 ==> (s.bestTrade.Some? <==> |closed| > 0) && (s.worstTrade.Some? <==> |closed| > 0))
      && (|Closed(rows)| > 0 && |closed| > 0 ==>
            && s.worstTrade.value <= s.bestTrade.value
            && (forall i :: 0 <= i < |closed| ==> s.worstTrade.value <= closed[i].pnl <= s.bestTrade.value)
            && (exists i :: 0 <= i < |closed| && closed[i].pnl == s.bestTrade.value)
            && (exists i :: 0 <= i < |closed| && closed[i].pnl == s.worstTrade.value))
  {
    var closed := Closed(Group(rows, SymbolOf, sym));
    if |Closed(rows)| > 0 && |closed| > 0 {
      var ps := Map(closed, Pnl);
      var hi, lo := SeqMax(ps), SeqMin(ps);
      assert lo <= ps[0] <= hi;
      var i :| 0 <= i < |ps| && ps[i] == hi;
      var j :| 0 <= j < |ps| && ps[j] == lo;
      assert closed[i].pnl == hi && closed[j].pnl == lo;
    }
  }

  /** A buy of XYZ with fee -1 followed by a sale closing +50 with fee -1:
      net 50, fees -2, one trade, won, win rate 100, nothing left open. */
  lemma ExampleSymbol()
    ensures var rows := [Row(1, "XYZ", 10.0, 5.0, 0.0, -1.0, Monday, 0),
                         Row(2, "XYZ", -10.0, 10.0, 50.0, -1.0, Tuesday, 0)];
      var s := StatsFor(rows, true, "XYZ");
      && s.netPnl == 50.0 && s.fees == -2.0 && s.trades == 1 && s.wins == 1
      && s.winRate == 100.0 && s.bestTrade == Some(50.0) && s.avgPnl == 50.0
      && !s.hasOpenPosition
  {
    var a := Row(1, "XYZ", 10.0, 5.0, 0.0, -1.0, Monday, 0);
    var b := Row(2, "XYZ", -10.0, 10.0, 50.0, -1.0, Tuesday, 0);
    var rows := [a, b];
    assert rows[1..] == [b] && [b][1..] == [];
    assert SymbolOf(a) == "XYZ" && SymbolOf(b) == "XYZ";
    assert Where([b], KeyIs(SymbolOf, "XYZ")) == [b];
    assert Group(rows, SymbolOf, "XYZ") == rows;
    assert Where([b], IsClosing) == [b];
    assert Closed(rows) == [b];
    assert Wins([b]) == [b];
    assert Losses([b]) == [];
    assert Map([b], Pnl) == [50.0];
  }
}
