/** The two filters the dashboard applies before analysis: an inclusive
    timestamp range with optional bounds, and an allow-set of symbols. */
module Filters {
  import opened Wrappers
  import opened Seqs
  import opened Ledger

  predicate InRange(t: int, start: Option<int>, end: Option<int>)
  {
    (start.None? || t >= start.value) && (end.None? || t <= end.value)
  }

  function NotBefore(start: int): Row -> bool { (r: Row) => r.time >= start }
  function NotAfter(end: int): Row -> bool { (r: Row) => r.time <= end }
  function InRangeMask(start: Option<int>, end: Option<int>): Row -> bool { (r: Row) => InRange(r.time, start, end) }

  /** `filter_trades_by_date`: an absent bound does not filter; a present one
      compares the full timestamp, so an end bound at midnight drops later
      trades of that day. */
  function FilterByDate(rows: seq<Row>, start: Option<int>, end: Option<int>): (r: seq<Row>)
    ensures r == Where(rows, InRangeMask(start, end))
  {
    var a := if start.Some? then Where(rows, NotBefore(start.value)) else rows;
    var b := if end.Some? then Where(a, NotAfter(end.value)) else a;
    FilterByDateIsRange(rows, start, end);
    b
  }

  lemma {:induction false} FilterByDateIsRange(rows: seq<Row>, start: Option<int>, end: Option<int>)
    ensures (var a := if start.Some? then Where(rows, NotBefore(start.value)) else rows;
             if end.Some? then Where(a, NotAfter(end.value)) else a)
         == Where(rows, InRangeMask(start, end))
  {
    if |rows| > 0 {
      FilterByDateIsRange(rows[1..], start, end);
      var x := rows[0];
      if start.Some? {
        var hd := if NotBefore(start.value)(x) then [x] else [];
        if end.Some? {
          WhereConcat(hd, Where(rows[1..], NotBefore(start.value)), NotAfter(end.value));
        }
      }
    }
  }

  /** The date filter keeps exactly the rows inside the range, each with its
      multiplicity, and preserves order (it distributes over concatenation). */
  lemma FilterByDateContents(rows: seq<Row>, start: Option<int>, end: Option<int>, x: Row)
    ensures multiset(FilterByDate(rows, start, end))[x]
         == if InRange(x.time, start, end) then multiset(rows)[x] else 0
  {
    WhereMultiset(rows, InRangeMask(start, end), x);
  }

  lemma FilterByDateOrder(a: seq<Row>, b: seq<Row>, start: Option<int>, end: Option<int>)
    ensures FilterByDate(a + b, start, end) == FilterByDate(a, start, end) + FilterByDate(b, start, end)
  {
    WhereConcat(a, b, InRangeMask(start, end));
  }

  /** Without bounds the date filter is the identity. */
  lemma FilterByDateUnbounded(rows: seq<Row>)
    ensures FilterByDate(rows, None, None) == rows
  {
    WhereAll(rows, InRangeMask(None, None));
  }

  function InSymbols(symbols: set<Symbol>): Row -> bool { (r: Row) => r.symbol in symbols }

  /** `filter_trades_by_symbol`: an empty selection does not filter. */
  function FilterBySymbol(rows: seq<Row>, symbols: set<Symbol>): (r: seq<Row>)
    ensures symbols == {} ==> r == rows
    ensures symbols != {} ==> forall x :: multiset(r)[x] == if x.symbol in symbols then multiset(rows)[x] else 0
  {
    if symbols == {} then rows
    else
      assert forall x :: multiset(Where(rows, InSymbols(symbols)))[x] == if x.symbol in symbols then multiset(rows)[x] else 0 by {
        forall x ensures multiset(Where(rows, InSymbols(symbols)))[x] == if x.symbol in symbols then multiset(rows)[x] else 0 {
          WhereMultiset(rows, InSymbols(symbols), x);
        }
      }
      Where(rows, InSymbols(symbols))
  }

  lemma FilterBySymbolOrder(a: seq<Row>, b: seq<Row>, symbols: set<Symbol>)
    ensures FilterBySymbol(a + b, symbols) == FilterBySymbol(a, symbols) + FilterBySymbol(b, symbols)
  {
    if symbols != {} {
      WhereConcat(a, b, InSymbols(symbols));
    }
  }

  /** A filtered sorted ledger is still sorted. */
  lemma {:induction false} WhereKeepsSorted(rows: seq<Row>, keep: Row -> bool)
    requires SortedByTime(rows)
    ensures SortedByTime(Where(rows, keep))
  {
    if |rows| > 0 {
      WhereKeepsSorted(rows[1..], keep);
      var w := Where(rows[1..], keep);
      forall j | 0 <= j < |w| ensures rows[0].time <= w[j].time {
        assert w[j] in w;
        WhereMember(rows[1..], keep, w[j]);
      }
    }
  }
}
