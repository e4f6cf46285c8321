/** `analyze_current_holdings`: the open positions of the ledger, valued at
    market prices, with their allocation by symbol and by sector. */
module Holdings {
  import opened Wrappers
  import opened Seqs
  import opened Grouping
  import opened Sorting
  import opened Ledger
  import opened Lots

  // ---------------------------------------------------------------------
  // Positions

  /** One symbol's net position after all its fills. */
  datatype Position = Position(
    symbol: Symbol,
    quantity: real,
    avgCost: real,
    lastPrice: real,   // price of the symbol's last fill in ledger order
    lastTime: int)

  /** The fills of one symbol, in ledger order. */
  function Fills(rows: seq<Row>, sym: Symbol): seq<Row>
  {
    Group(rows, SymbolOf, sym)
  }

  function PositionOf(rows: seq<Row>): Symbol -> Position
  {
    (sym: Symbol) =>
      var g := Fills(rows, sym);
      if |g| > 0 then Position(sym, SumOf(g, Quantity), AvgCost(g), g[|g| - 1].price, g[|g| - 1].time)
      else Position(sym, 0.0, 0.0, 0.0, 0)
  }

  /** `position_summary`: one position per distinct symbol, in order of first
      appearance. */
  function Positions(rows: seq<Row>): seq<Position>
  {
    Map(Keys(rows, SymbolOf), PositionOf(rows))
  }

  /** The loop over `df['Symbol'].unique()` that builds the positions. */
  method PositionSummary(rows: seq<Row>) returns (ps: seq<Position>)
    ensures ps == Positions(rows)
  {
    var symbols := Keys(rows, SymbolOf);
    ps := [];
    for i := 0 to |symbols|
      invariant ps == Map(symbols[..i], PositionOf(rows))
    {
      assert symbols[i] in symbols;
      var p := PositionFor(rows, symbols[i]);
      MapPrefix(symbols, i, PositionOf(rows));
      ps := ps + [p];
    }
    assert symbols[..|symbols|] == symbols;
  }

  /** One entry of `position_data`. */
  method PositionFor(rows: seq<Row>, sym: Symbol) returns (p: Position)
    requires |Fills(rows, sym)| > 0
    ensures p == PositionOf(rows)(sym)
  {
    var g := Where(rows, KeyIs(SymbolOf, sym));
    var avg := CalculateAvgCost(g);
    p := Position(sym, SumOf(g, Quantity), avg, g[|g| - 1].price, g[|g| - 1].time);
    PositionOfFills(rows, sym);
  }

  lemma PositionOfFills(rows: seq<Row>, sym: Symbol)
    requires |Fills(rows, sym)| > 0
    ensures var g := Fills(rows, sym);
      PositionOf(rows)(sym) == Position(sym, SumOf(g, Quantity), AvgCost(g), g[|g| - 1].price, g[|g| - 1].time)
  {
  }

  lemma MapPrefix<T, U>(xs: seq<T>, i: nat, f: T -> U)
    requires i < |xs|
    ensures Map(xs[..i + 1], f) == Map(xs[..i], f) + [f(xs[i])]
  {
  }

  /** Every symbol of the ledger has one position: its net quantity is the
      sum of its fills, its cost basis the FIFO average of its fills, and
      its last price that of its last fill. */
  lemma PositionContents(rows: seq<Row>, i: nat)
    requires i < |Positions(rows)|
    ensures var p := Positions(rows)[i];
      var g := Fills(rows, p.symbol);
      && |g| > 0
      && p.quantity == SumOf(g, Quantity)
      && p.avgCost == AvgCost(g)
      && p.lastPrice == g[|g| - 1].price
  {
    var keys := Keys(rows, SymbolOf);
    assert keys[i] in keys;
    PositionOfFills(rows, keys[i]);
  }

  /** No two positions share a symbol. */
  lemma PositionsDistinct(rows: seq<Row>)
    ensures var ps := Positions(rows);
      forall i, j :: 0 <= i < j < |ps| ==> ps[i].symbol != ps[j].symbol
  {
    var keys := Keys(rows, SymbolOf);
    var ps := Positions(rows);
    forall j | 0 <= j < |ps| ensures ps[j].symbol == keys[j] {
      assert keys[j] in keys;
      PositionOfFills(rows, keys[j]);
    }
  }

  /** The position quantities add up to the ledger's net quantity. */
  lemma PositionTotals(rows: seq<Row>)
    ensures SumOf(Positions(rows), PositionQuantity) == SumOf(rows, Quantity)
  {
    var keys := Keys(rows, SymbolOf);
    forall i | 0 <= i < |keys|
      ensures PositionQuantity(PositionOf(rows)(keys[i])) == SumOf(Group(rows, SymbolOf, keys[i]), Quantity)
    {
      assert keys[i] in keys;
    }
    SumOfTable(rows, keys, SymbolOf, Quantity, PositionOf(rows), PositionQuantity);
    GroupTotals(rows, keys, SymbolOf, Quantity);
  }

  function PositionQuantity(p: Position): real { p.quantity }

  /** `Quantity > 0`: the positions still open. */
  predicate IsOpen(p: Position) { p.quantity > 0.0 }

  // ---------------------------------------------------------------------
  // Market data

  /** What the quote service knows about a symbol's company or fund. */
  datatype Info = Info(sector: Option<string>, category: Option<string>, industry: Option<string>)

  /** The answer for one symbol: the live price and the profile, each
      missing when its request failed. */
  datatype Quote = Quote(lastPrice: Option<real>, info: Option<Info>)

  /** The sector reported for a profile: its sector, else its category,
      else "Unknown". */
  function SectorFrom(info: Option<Info>): string
  {
    match info
    case None => "Unknown"
    case Some(i) =>
      match i.sector
      case Some(s) => s
      case None => i.category.GetOr("Unknown")
  }

  function IndustryFrom(info: Option<Info>): string
  {
    match info
    case None => "Unknown"
    case Some(i) => i.industry.GetOr("Unknown")
  }

  /** One row of the holdings table. */
  datatype Holding = Holding(
    symbol: Symbol,
    quantity: real,
    avgCost: real,
    currentPrice: real,
    costBasis: real,
    marketValue: real,
    unrealizedPnl: real,
    unrealizedPnlPct: real,
    sector: string,
    industry: string,
    lastTime: int,
    portfolioPct: Option<real>)   // None until the portfolio total is known,
                                  // and when that total is 0

  function MarketValue(h: Holding): real { h.marketValue }
  function SectorOf(h: Holding): string { h.sector }

  /** Values a position at `price`. */
  function Valued(p: Position, price: real, sector: string, industry: string): Holding
  {
    var costBasis := p.quantity * p.avgCost;
    var marketValue := p.quantity * price;
    var unrealized := marketValue - costBasis;
    var pct := if costBasis > 0.0 then unrealized / costBasis * 100.0 else 0.0;
    Holding(p.symbol, p.quantity, p.avgCost, price, costBasis, marketValue, unrealized, pct,
            sector, industry, p.lastTime, None)
  }

  /** `fetch_ticker_data`: the live price when there is one, else the last
      fill's price; without any answer for the symbol, the last fill's price
      and an unknown sector and industry. */
  function FetchHolding(p: Position, quote: Option<Quote>): Holding
  {
    match quote
    case None => Valued(p, p.lastPrice, "Unknown", "Unknown")
    case Some(q) => Valued(p, q.lastPrice.GetOr(p.lastPrice), SectorFrom(q.info), IndustryFrom(q.info))
  }

  /** The valuation identities: cost basis and market value are quantity
      times cost and price, the unrealized P/L is their difference, and its
      percentage is relative to a positive cost basis, 0 otherwise. */
  lemma Valuation(p: Position, quote: Option<Quote>)
    ensures var h := FetchHolding(p, quote);
      && h.costBasis == p.quantity * p.avgCost
      && h.marketValue == h.costBasis + h.unrealizedPnl
      && h.unrealizedPnl == p.quantity * (h.currentPrice - p.avgCost)
      && (h.costBasis > 0.0 ==> h.unrealizedPnlPct * h.costBasis == h.unrealizedPnl * 100.0)
      && (h.costBasis <= 0.0 ==> h.unrealizedPnlPct == 0.0)
      && (h.costBasis > 0.0 && p.quantity > 0.0 ==> (h.unrealizedPnlPct > 0.0 <==> h.currentPrice > p.avgCost))
  {
    var h := FetchHolding(p, quote);
    Distribute(p.quantity, h.currentPrice, p.avgCost);
    if h.costBasis > 0.0 {
      PercentOf(h.unrealizedPnl, h.costBasis);
    }
    if p.quantity > 0.0 {
      GainSign(p.quantity, h.currentPrice, p.avgCost);
    }
  }

  lemma Distribute(q: real, price: real, avg: real)
    ensures q * price - q * avg == q * (price - avg)
  {
  }

  lemma PercentOf(u: real, c: real)
    requires c > 0.0
    ensures (u / c * 100.0) * c == u * 100.0
    ensures u / c * 100.0 > 0.0 <==> u > 0.0
  {
  }

  /** For a long position a gain means the price is above the cost. */
  lemma GainSign(q: real, price: real, avg: real)
    requires q > 0.0
    ensures q * (price - avg) > 0.0 <==> price > avg
  {
    if price > avg {
      assert q * (price - avg) > 0.0;
    } else {
      assert q * (avg - price) >= 0.0;
    }
  }

  /** The current price is the live one when the service gave it, otherwise
      the last fill's; the sector falls back from sector to category to
      "Unknown". */
  lemma PriceAndSectorFallbacks(p: Position, quote: Option<Quote>)
    ensures var h := FetchHolding(p, quote);
      && (quote.Some? && quote.value.lastPrice.Some? ==> h.currentPrice == quote.value.lastPrice.value)
      && (quote.None? || quote.value.lastPrice.None? ==> h.currentPrice == p.lastPrice)
      && (quote.None? || quote.value.info.None? ==> h.sector == "Unknown" && h.industry == "Unknown")
      && (quote.Some? && quote.value.info.Some? && quote.value.info.value.sector.Some? ==>
            h.sector == quote.value.info.value.sector.value)
  {
  }

  /** A symbol the service failed on altogether is valued as one whose price
      and profile requests both failed. */
  lemma WholeFailureIsPartialFailure(p: Position)
    ensures FetchHolding(p, None) == FetchHolding(p, Some(Quote(None, None)))
  {
  }

  // ---------------------------------------------------------------------
  // The portfolio

  /** `mv / total * 100`; None where pandas divides by a zero total. */
  function Share(value: real, total: real): Option<real>
  {
    if total != 0.0 then Some(value / total * 100.0) else None
  }

  function WithShare(total: real): Holding -> Holding
  {
    (h: Holding) => h.(portfolioPct := Share(h.marketValue, total))
  }

  function ShareOf(h: Holding): real { h.portfolioPct.GetOr(0.0) }

  datatype SectorRow = SectorRow(sector: string, value: real, count: nat, pct: Option<real>)

  function SectorValue(s: SectorRow): real { s.value }
  function SectorCount(s: SectorRow): real { s.count as real }
  function SectorShare(s: SectorRow): real { s.pct.GetOr(0.0) }

  function SectorRowOf(hs: seq<Holding>, total: real): string -> SectorRow
  {
    (s: string) => var g := Group(hs, SectorOf, s);
      var v := SumOf(g, MarketValue);
      SectorRow(s, v, |g|, Share(v, total))
  }

  /** `sector_allocation`: market value, number of holdings and share per
      sector, largest value first. */
  function SectorTable(hs: seq<Holding>, total: real): seq<SectorRow>
  {
    SortDesc(Map(Keys(hs, SectorOf), SectorRowOf(hs, total)), SectorValue)
  }

  datatype SectorEntry = SectorEntry(value: real, percentage: Option<real>, count: nat)

  function EntryOf(s: SectorRow): SectorEntry { SectorEntry(s.value, s.pct, s.count) }

  /** `sector_summary`: each sector of the table to its entry; a later row
      overwrites an earlier one of the same sector. */
  function SummaryOf(sectors: seq<SectorRow>): map<string, SectorEntry>
  {
    if |sectors| == 0 then map[]
    else
      var last := sectors[|sectors| - 1];
      SummaryOf(sectors[..|sectors| - 1])[last.sector := EntryOf(last)]
  }

  /** The loop that fills `sector_summary`. */
  method BuildSummary(sectors: seq<SectorRow>) returns (summary: map<string, SectorEntry>)
    ensures summary == SummaryOf(sectors)
  {
    summary := map[];
    for i := 0 to |sectors|
      invariant summary == SummaryOf(sectors[..i])
    {
      assert sectors[..i + 1][..i] == sectors[..i];
      summary := summary[sectors[i].sector := EntryOf(sectors[i])];
    }
    assert sectors[..|sectors|] == sectors;
  }

  datatype Report = Report(
    holdings: seq<Holding>,
    sectors: seq<SectorRow>,
    totalMarketValue: real,
    summary: map<string, SectorEntry>)

  /** Values a position with the service's answer for its symbol. */
  function FetchFrom(market: Symbol -> Option<Quote>): Position -> Holding
  {
    (p: Position) => FetchHolding(p, market(p.symbol))
  }

  /** The report for the open positions among `ps`; `market` is the quote
      service's answer per symbol. */
  function ReportOf(ps: seq<Position>, market: Symbol -> Option<Quote>): Report
  {
    var open := Where(ps, IsOpen);
    if |open| == 0 then Report([], [], 0.0, map[]) else OpenReport(open, market)
  }

  /** The report for a non-empty list of open positions. */
  function OpenReport(open: seq<Position>, market: Symbol -> Option<Quote>): Report
  {
    var fetched := Map(open, FetchFrom(market));
    var total := SumOf(fetched, MarketValue);
    var holdings := SortDesc(Map(fetched, WithShare(total)), MarketValue);
    var sectors := SectorTable(holdings, total);
    Report(holdings, sectors, total, SummaryOf(sectors))
  }

  /** `analyze_current_holdings`. */
  method AnalyzeCurrentHoldings(rows: seq<Row>, market: Symbol -> Option<Quote>) returns (r: Report)
    ensures r == ReportOf(Positions(rows), market)
  {
    var ps := PositionSummary(rows);
    var open := Where(ps, IsOpen);
    if |open| == 0 {
      return Report([], [], 0.0, map[]);
    }
    var rep := OpenReport(open, market);
    var summary := BuildSummary(rep.sectors);
    r := rep.(summary := summary);
  }

  // ---------------------------------------------------------------------
  // Properties of the portfolio

  function PctOf(total: real): Holding -> real
  {
    (h: Holding) => if total != 0.0 then h.marketValue / total * 100.0 else 0.0
  }

  /** The holdings of a report are its positions, each valued once with the
      service's answer for its symbol and given its share of the total,
      largest market value first. */
  lemma OpenHoldings(open: seq<Position>, market: Symbol -> Option<Quote>)
    ensures var r := OpenReport(open, market);
      && |r.holdings| == |open|
      && SortedDesc(r.holdings, MarketValue)
      && (forall h :: h in r.holdings <==>
            exists p :: p in open && h == WithShare(r.totalMarketValue)(FetchHolding(p, market(p.symbol))))
  {
    var r := OpenReport(open, market);
    var fetched := Map(open, FetchFrom(market));
    var shared := Map(fetched, WithShare(r.totalMarketValue));
    SortDescMembers(shared, MarketValue);
    forall h | h in r.holdings
      ensures exists p :: p in open && h == WithShare(r.totalMarketValue)(FetchHolding(p, market(p.symbol)))
    {
      var k := MapMember(fetched, WithShare(r.totalMarketValue), h);
      assert open[k] in open;
    }
    forall p | p in open ensures WithShare(r.totalMarketValue)(FetchHolding(p, market(p.symbol))) in r.holdings {
      var k :| 0 <= k < |open| && open[k] == p;
      var h := WithShare(r.totalMarketValue)(FetchHolding(p, market(p.symbol)));
      assert fetched[k] == FetchHolding(p, market(p.symbol));
      assert shared[k] == h;
      assert h in shared;
    }
  }

  /** The holdings are the open positions, each valued once with the
      service's answer for its symbol and given its share of the total,
      largest market value first. */
  lemma ReportHoldings(ps: seq<Position>, market: Symbol -> Option<Quote>)
    ensures var r := ReportOf(ps, market);
      var open := Where(ps, IsOpen);
      && |r.holdings| == |open|
      && SortedDesc(r.holdings, MarketValue)
      && (forall h :: h in r.holdings <==>
            exists p :: p in open && h == WithShare(r.totalMarketValue)(FetchHolding(p, market(p.symbol))))
      && (forall h :: h in r.holdings ==>
            h.quantity > 0.0 && h.portfolioPct == Share(h.marketValue, r.totalMarketValue))
  {
    var r := ReportOf(ps, market);
    var open := Where(ps, IsOpen);
    if |open| > 0 {
      OpenHoldings(open, market);
      forall h | h in r.holdings
        ensures h.quantity > 0.0 && h.portfolioPct == Share(h.marketValue, r.totalMarketValue)
      {
        var p :| p in open && h == WithShare(r.totalMarketValue)(FetchHolding(p, market(p.symbol)));
        SharedHolding(p, market(p.symbol), r.totalMarketValue);
        WhereMember(ps, IsOpen, p);
      }
    }
  }

  lemma SharedHolding(p: Position, quote: Option<Quote>, total: real)
    ensures var h := WithShare(total)(FetchHolding(p, quote));
      h.quantity == p.quantity && h.portfolioPct == Share(h.marketValue, total)
  {
  }

  /** The total is the market value of the holdings, and the shares of a
      non-zero total add up to 100%. */
  lemma OpenTotal(open: seq<Position>, market: Symbol -> Option<Quote>)
    ensures var r := OpenReport(open, market);
      && r.totalMarketValue == SumOf(r.holdings, MarketValue)
      && (r.totalMarketValue != 0.0 ==> SumOf(r.holdings, ShareOf) == 100.0)
  {
    var fetched := Map(open, FetchFrom(market));
    var total := SumOf(fetched, MarketValue);
    var shared := Map(fetched, WithShare(total));
    SumOfSortDesc(shared, MarketValue, MarketValue);
    SumOfMap(fetched, WithShare(total), MarketValue, MarketValue);
    if total != 0.0 {
      SumOfSortDesc(shared, MarketValue, ShareOf);
      SumOfMap(fetched, WithShare(total), ShareOf, PctOf(total));
      SumOfPercent(fetched, MarketValue, PctOf(total), total);
      WholeIsHundred(total);
    }
  }

  lemma WholeIsHundred(t: real)
    requires t != 0.0
    ensures t / t * 100.0 == 100.0
  {
  }

  lemma ReportTotal(ps: seq<Position>, market: Symbol -> Option<Quote>)
    ensures var r := ReportOf(ps, market);
      && r.totalMarketValue == SumOf(r.holdings, MarketValue)
      && (r.totalMarketValue != 0.0 ==> SumOf(r.holdings, ShareOf) == 100.0)
  {
    var open := Where(ps, IsOpen);
    if |open| > 0 {
      OpenTotal(open, market);
    }
  }

  /** Without an open position the report is empty, and only then. */
  lemma NoOpenPositions(ps: seq<Position>, market: Symbol -> Option<Quote>)
    ensures ReportOf(ps, market).holdings == [] <==> forall i :: 0 <= i < |ps| ==> !IsOpen(ps[i])
    ensures (forall i :: 0 <= i < |ps| ==> !IsOpen(ps[i])) ==> ReportOf(ps, market) == Report([], [], 0.0, map[])
  {
    ReportHoldings(ps, market);
    if forall i :: 0 <= i < |ps| ==> !IsOpen(ps[i]) {
      WhereNone(ps, IsOpen);
    } else {
      var i :| 0 <= i < |ps| && IsOpen(ps[i]);
      WhereMember(ps, IsOpen, ps[i]);
    }
  }

  /** No two rows of a table name the same sector. */
  ghost predicate DistinctSectors(sectors: seq<SectorRow>)
  {
    forall i, j :: 0 <= i < j < |sectors| ==> sectors[i].sector != sectors[j].sector
  }

  /** A table row is the row its sector gets. */
  lemma SectorRowIsOwn(hs: seq<Holding>, total: real, s: SectorRow)
    requires s in SectorTable(hs, total)
    ensures s == SectorRowOf(hs, total)(s.sector)
    ensures s.sector in Keys(hs, SectorOf)
  {
    var keys := Keys(hs, SectorOf);
    var rows := Map(keys, SectorRowOf(hs, total));
    SortDescMembers(rows, SectorValue);
    var k := MapMember(keys, SectorRowOf(hs, total), s);
    assert keys[k] in keys;
  }

  /** Every row of the sector table holds its sector's total market value,
      its number of holdings and its share of `total`. */
  lemma SectorRows(hs: seq<Holding>, total: real, i: nat)
    requires i < |SectorTable(hs, total)|
    ensures var s := SectorTable(hs, total)[i];
      var g := Group(hs, SectorOf, s.sector);
      && |g| > 0
      && s.value == SumOf(g, MarketValue)
      && s.count == |g|
      && s.pct == Share(s.value, total)
  {
    assert SectorTable(hs, total)[i] in SectorTable(hs, total);
    SectorRowIsOwn(hs, total, SectorTable(hs, total)[i]);
  }

  /** Every sector of the table is that of some holding. */
  lemma SectorIsHeld(hs: seq<Holding>, total: real, i: nat) returns (j: nat)
    requires i < |SectorTable(hs, total)|
    ensures j < |hs| && hs[j].sector == SectorTable(hs, total)[i].sector
  {
    var t := SectorTable(hs, total);
    assert t[i] in t;
    SectorRowIsOwn(hs, total, t[i]);
    GroupNonEmpty(hs, SectorOf, t[i].sector);
    j := MapMember(hs, SectorOf, t[i].sector);
  }

  /** Every holding's sector has a row in the table. */
  lemma HeldSectorIsListed(hs: seq<Holding>, total: real, j: nat) returns (i: nat)
    requires j < |hs|
    ensures i < |SectorTable(hs, total)| && SectorTable(hs, total)[i].sector == hs[j].sector
  {
    var t := SectorTable(hs, total);
    var keys := Keys(hs, SectorOf);
    var rows := Map(keys, SectorRowOf(hs, total));
    SortDescMembers(rows, SectorValue);
    assert SectorOf(hs[j]) in keys;
    var k :| 0 <= k < |keys| && keys[k] == hs[j].sector;
    assert rows[k] in rows;
    assert rows[k] in t;
    i := IndexOf(t, rows[k]);
  }

  /** The table has a row for a sector exactly when some holding is in it. */
  lemma SectorCoverage(hs: seq<Holding>, total: real, name: string)
    ensures var t := SectorTable(hs, total);
      (exists i :: 0 <= i < |t| && t[i].sector == name) <==> (exists j :: 0 <= j < |hs| && hs[j].sector == name)
  {
    var t := SectorTable(hs, total);
    if exists i :: 0 <= i < |t| && t[i].sector == name {
      var i :| 0 <= i < |t| && t[i].sector == name;
      var j := SectorIsHeld(hs, total, i);
    }
    if exists j :: 0 <= j < |hs| && hs[j].sector == name {
      var j :| 0 <= j < |hs| && hs[j].sector == name;
      var i := HeldSectorIsListed(hs, total, j);
    }
  }

  lemma SectorTableDistinct(hs: seq<Holding>, total: real)
    ensures DistinctSectors(SectorTable(hs, total))
  {
    var t := SectorTable(hs, total);
    var keys := Keys(hs, SectorOf);
    var rows := Map(keys, SectorRowOf(hs, total));
    assert NoDuplicates(rows) by {
      forall i, j | 0 <= i < j < |rows| ensures rows[i] != rows[j] {
        assert rows[i].sector == keys[i] && rows[j].sector == keys[j];
      }
    }
    NoDuplicatesPermutation(rows, t);
    forall i, j | 0 <= i < j < |t| ensures t[i].sector != t[j].sector {
      assert t[i] in t && t[j] in t;
      SectorRowIsOwn(hs, total, t[i]);
      SectorRowIsOwn(hs, total, t[j]);
    }
  }

  /** The sector values add up to the holdings' market value, the counts to
      the number of holdings, and the shares like the values. */
  lemma SectorTableTotals(hs: seq<Holding>, total: real)
    ensures var t := SectorTable(hs, total);
      && SortedDesc(t, SectorValue)
      && SumOf(t, SectorValue) == SumOf(hs, MarketValue)
      && SumOf(t, SectorCount) == |hs| as real
      && (total != 0.0 ==> SumOf(t, SectorShare) == SumOf(hs, MarketValue) / total * 100.0)
  {
    var keys := Keys(hs, SectorOf);
    var row := SectorRowOf(hs, total);
    var rows := Map(keys, row);
    SumOfSortDesc(rows, SectorValue, SectorValue);
    SumOfSortDesc(rows, SectorValue, SectorCount);
    SumOfTable(hs, keys, SectorOf, MarketValue, row, SectorValue);
    GroupTotals(hs, keys, SectorOf, MarketValue);
    forall i | 0 <= i < |keys|
      ensures SectorCount(row(keys[i])) == SumOf(Group(hs, SectorOf, keys[i]), One)
    {
      SumOfOne(Group(hs, SectorOf, keys[i]));
    }
    SumOfTable(hs, keys, SectorOf, One, row, SectorCount);
    GroupSizes(hs, keys, SectorOf);
    if total != 0.0 {
      SumOfSortDesc(rows, SectorValue, SectorShare);
      SumOfPercent(rows, SectorValue, SectorShare, total);
    }
  }

  /** The report's sector table accounts for every holding once: values add
      up to the total, counts to the number of holdings, shares of a
      non-zero total to 100%; largest sector first, no sector twice. */
  lemma ReportSectors(ps: seq<Position>, market: Symbol -> Option<Quote>)
    ensures var r := ReportOf(ps, market);
      && SortedDesc(r.sectors, SectorValue)
      && DistinctSectors(r.sectors)
      && SumOf(r.sectors, SectorValue) == r.totalMarketValue
      && SumOf(r.sectors, SectorCount) == |r.holdings| as real
      && (r.totalMarketValue != 0.0 ==> SumOf(r.sectors, SectorShare) == 100.0)
  {
    var r := ReportOf(ps, market);
    if |Where(ps, IsOpen)| > 0 {
      ReportTotal(ps, market);
      SectorTableTotals(r.holdings, r.totalMarketValue);
      SectorTableDistinct(r.holdings, r.totalMarketValue);
      if r.totalMarketValue != 0.0 {
        WholeIsHundred(r.totalMarketValue);
      }
    }
  }

  /** The summary has an entry for exactly the sectors of the table, and for
      a table without repeated sectors each entry is its row's. */
  lemma {:induction false} SummaryContents(sectors: seq<SectorRow>)
    ensures forall s :: s in SummaryOf(sectors) <==> exists i :: 0 <= i < |sectors| && sectors[i].sector == s
    ensures DistinctSectors(sectors) ==>
      forall i :: 0 <= i < |sectors| ==> SummaryOf(sectors)[sectors[i].sector] == EntryOf(sectors[i])
  {
    if |sectors| > 0 {
      var n := |sectors| - 1;
      var init := sectors[..n];
      SummaryContents(init);
      assert forall i :: 0 <= i < n ==> init[i] == sectors[i];
    }
  }

  /** The report's summary maps each sector of its table to that row's
      value, share and count, and has no other entries. */
  lemma ReportSummary(ps: seq<Position>, market: Symbol -> Option<Quote>)
    ensures var r := ReportOf(ps, market);
      && (forall s :: s in r.summary <==> exists i :: 0 <= i < |r.sectors| && r.sectors[i].sector == s)
      && (forall i :: 0 <= i < |r.sectors| ==> r.summary[r.sectors[i].sector] == EntryOf(r.sectors[i]))
  {
    ReportSectors(ps, market);
    var r := ReportOf(ps, market);
    SummaryContents(r.sectors);
  }
}
