/** The trade ledger: one row per execution of the brokerage export, after
    numeric coercion (unparseable numbers already replaced by 0). */
module Ledger {
  import opened Seqs
  import opened Sorting

  type Symbol = string

  datatype Weekday = Monday | Tuesday | Wednesday | Thursday | Friday | Saturday | Sunday

  /** One execution.  `time` is the trade timestamp in seconds; `weekday`
      and `month` are its calendar fields (month as year * 12 + month - 1).
      `pnl` is FifoPnlRealized, already net of commissions; `commission` is
      IBCommission, normally zero or negative. */
  datatype Row = Row(
    time: int,
    symbol: Symbol,
    quantity: real,
    price: real,
    pnl: real,
    commission: real,
    weekday: Weekday,
    month: int)

  const SecondsPerDay: int := 86400

  /** The calendar date of a timestamp, as a day number. */
  function Day(time: int): int
  {
    time / SecondsPerDay
  }

  lemma DayMonotone(t1: int, t2: int)
    requires t1 <= t2
    ensures Day(t1) <= Day(t2)
  {
    assert t1 / SecondsPerDay <= t2 / SecondsPerDay;
  }

  // Column selectors, to hand to the sequence combinators.
  function Pnl(r: Row): real { r.pnl }
  function Commission(r: Row): real { r.commission }
  function Quantity(r: Row): real { r.quantity }
  function SymbolOf(r: Row): Symbol { r.symbol }
  function WeekdayOf(r: Row): Weekday { r.weekday }
  function MonthOf(r: Row): int { r.month }

  /** A row with non-zero realized P/L closes (part of) a position. */
  predicate IsClosing(r: Row) { r.pnl != 0.0 }
  predicate IsWin(r: Row) { r.pnl > 0.0 }
  predicate IsLoss(r: Row) { r.pnl < 0.0 }
  predicate IsBreakeven(r: Row) { r.pnl == 0.0 }

  /** The closed-trade set: the closing rows, in ledger order. */
  function Closed(rows: seq<Row>): (c: seq<Row>)
    ensures forall i :: 0 <= i < |c| ==> c[i].pnl != 0.0
  {
    Where(rows, IsClosing)
  }

  ghost predicate SortedByTime(rows: seq<Row>)
  {
    forall i, j :: 0 <= i < j < |rows| ==> rows[i].time <= rows[j].time
  }

  /** The sort key for "ascending by time". */
  function LaterFirst(r: Row): real { -(r.time as real) }

  /** `sort_values("TradeDate")`: ascending by timestamp.  Rows with equal
      timestamps keep their input order, one of the orders pandas' unstable
      sort may produce. */
  function SortByTime(rows: seq<Row>): (s: seq<Row>)
    ensures SortedByTime(s)
    ensures multiset(s) == multiset(rows)
  {
    var s := SortDesc(rows, LaterFirst);
    assert forall i, j :: 0 <= i < j < |s| ==> LaterFirst(s[i]) >= LaterFirst(s[j]);
    s
  }

  /** An already sorted ledger is not reordered. */
  lemma SortByTimeOfSorted(rows: seq<Row>)
    requires SortedByTime(rows)
    ensures SortByTime(rows) == rows
  {
    SortDescOfSorted(rows, LaterFirst);
  }

  /** Sorting keeps every column total. */
  lemma SortByTimeSums(rows: seq<Row>, f: Row -> real)
    ensures SumOf(SortByTime(rows), f) == SumOf(rows, f)
  {
    SumOfSortDesc(rows, LaterFirst, f);
  }

  /** The realized P/L of the whole ledger equals that of its closed trades:
      the rows left out carry zero P/L. */
  lemma ClosedPnl(rows: seq<Row>)
    ensures SumOf(Closed(rows), Pnl) == SumOf(rows, Pnl)
  {
    WhereDropsZeros(rows, IsClosing, Pnl);
  }
}
