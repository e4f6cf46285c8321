/** `calculate_avg_cost`: the average cost basis of the shares still held in
    one symbol, replaying its fills in time order through a first-in
    first-out queue of lots. */
module Lots {
  import opened Seqs
  import opened Ledger

  /** A purchase still (partly) held: shares and per-share cost, commission
      included. */
  datatype Lot = Lot(quantity: real, price: real)

  function LotShares(l: Lot): real { l.quantity }
  function LotCost(l: Lot): real { l.quantity * l.price }
  function LotPrice(l: Lot): real { l.price }

  /** Every lot holds a positive number of shares. */
  ghost predicate Positive(lots: seq<Lot>)
  {
    forall i :: 0 <= i < |lots| ==> lots[i].quantity > 0.0
  }

  // ---------------------------------------------------------------------
  // Specification

  /** Removes `remaining` shares from the oldest lots. */
  function Consume(lots: seq<Lot>, remaining: real): seq<Lot>
    decreases |lots|
  {
    if remaining <= 0.0 || |lots| == 0 then lots
    else if lots[0].quantity <= remaining then Consume(lots[1..], remaining - lots[0].quantity)
    else [Lot(lots[0].quantity - remaining, lots[0].price)] + lots[1..]
  }

  /** The lot a buy opens: the commission spread over its shares. */
  function BuyLot(r: Row): Lot
    requires r.quantity > 0.0
  {
    Lot(r.quantity, r.price + Abs(r.commission) / r.quantity)
  }

  /** One fill: a buy appends a lot, anything else sells its absolute
      quantity from the oldest lots. */
  function Step(lots: seq<Lot>, r: Row): seq<Lot>
  {
    if r.quantity > 0.0 then lots + [BuyLot(r)] else Consume(lots, Abs(r.quantity))
  }

  /** The lots left after the fills of `rows`, in order. */
  function Replay(rows: seq<Row>): seq<Lot>
  {
    if |rows| == 0 then [] else Step(Replay(rows[..|rows| - 1]), rows[|rows| - 1])
  }

  /** Total cost over total shares, 0 without lots. */
  function WeightedCost(lots: seq<Lot>): real
  {
    if |lots| == 0 then 0.0
    else
      var shares := SumOf(lots, LotShares);
      if shares > 0.0 then SumOf(lots, LotCost) / shares else 0.0
  }

  /** The average cost basis of a symbol's fills. */
  function AvgCost(rows: seq<Row>): real
  {
    WeightedCost(Replay(SortByTime(rows)))
  }

  // ---------------------------------------------------------------------
  // The engine

  /** The inner `while` of a sale: sell from the oldest lot while shares
      remain to be sold and lots remain. */
  method SellOldestFirst(lots0: seq<Lot>, sellQty: real) returns (lots: seq<Lot>)
    ensures lots == Consume(lots0, sellQty)
  {
    lots := lots0;
    var remaining := sellQty;
    while remaining > 0.0 && |lots| > 0
      invariant Consume(lots, remaining) == Consume(lots0, sellQty)
      decreases |lots|, if remaining > 0.0 then 1 else 0
    {
      if lots[0].quantity <= remaining {
        remaining := remaining - lots[0].quantity;
        lots := lots[1..];
      } else {
        lots := [Lot(lots[0].quantity - remaining, lots[0].price)] + lots[1..];
        remaining := 0.0;
      }
    }
  }

  /** `calculate_avg_cost`: replay the fills in time order, then weigh the
      remaining lots. */
  method CalculateAvgCost(symbolRows: seq<Row>) returns (avg: real)
    ensures avg == AvgCost(symbolRows)
  {
    var sorted := SortByTime(symbolRows);
    var lots: seq<Lot> := [];
    for i := 0 to |sorted|
      invariant lots == Replay(sorted[..i])
    {
      ReplayStep(sorted, i);
      lots := ApplyFill(lots, sorted[i]);
    }
    assert sorted[..|sorted|] == sorted;
    if |lots| == 0 {
      return 0.0;
    }
    var totalCost := SumOf(lots, LotCost);
    var totalShares := SumOf(lots, LotShares);
    avg := if totalShares > 0.0 then totalCost / totalShares else 0.0;
  }

  /** One iteration of the fill loop: a buy appends a lot carrying its
      commission per share, anything else is sold oldest first. */
  method ApplyFill(lots0: seq<Lot>, row: Row) returns (lots: seq<Lot>)
    ensures lots == Step(lots0, row)
  {
    if row.quantity > 0.0 {
      var perShare := Abs(row.commission) / row.quantity;
      lots := lots0 + [Lot(row.quantity, row.price + perShare)];
    } else {
      lots := SellOldestFirst(lots0, Abs(row.quantity));
    }
  }

  lemma ReplayStep(rows: seq<Row>, i: nat)
    requires i < |rows|
    ensures Replay(rows[..i + 1]) == Step(Replay(rows[..i]), rows[i])
  {
    assert rows[..i + 1][..i] == rows[..i];
  }

  // ---------------------------------------------------------------------
  // Properties

  /** Selling never creates an empty or negative lot. */
  lemma {:induction false} ConsumePositive(lots: seq<Lot>, remaining: real)
    requires Positive(lots)
    ensures Positive(Consume(lots, remaining))
  {
    if remaining > 0.0 && |lots| > 0 && lots[0].quantity <= remaining {
      ConsumePositive(lots[1..], remaining - lots[0].quantity);
    }
  }

  /** The lot queue only ever holds positive lots. */
  lemma {:induction false} ReplayPositive(rows: seq<Row>)
    ensures Positive(Replay(rows))
  {
    if |rows| > 0 {
      var prev := Replay(rows[..|rows| - 1]);
      ReplayPositive(rows[..|rows| - 1]);
      var r := rows[|rows| - 1];
      if r.quantity <= 0.0 {
        ConsumePositive(prev, Abs(r.quantity));
      }
    }
  }

  lemma SumOfSnoc<T>(xs: seq<T>, x: T, f: T -> real)
    ensures SumOf(xs + [x], f) == SumOf(xs, f) + f(x)
  {
    SumOfConcat(xs, [x], f);
  }

  /** A sale removes exactly the shares sold, or every share when it sells
      more than is held. */
  lemma {:induction false} ConsumeShares(lots: seq<Lot>, remaining: real)
    requires Positive(lots) && remaining >= 0.0
    ensures SumOf(Consume(lots, remaining), LotShares) == Max(0.0, SumOf(lots, LotShares) - remaining)
  {
    SumOfNonNegative(lots, LotShares);
    if remaining > 0.0 && |lots| > 0 {
      if lots[0].quantity <= remaining {
        ConsumeShares(lots[1..], remaining - lots[0].quantity);
      } else {
        var head := Lot(lots[0].quantity - remaining, lots[0].price);
        SumOfNonNegative(lots[1..], LotShares);
        assert SumOf([head] + lots[1..], LotShares) == head.quantity + SumOf(lots[1..], LotShares) by {
          assert ([head] + lots[1..])[1..] == lots[1..];
        }
      }
    }
  }

  /** Selling at least everything held empties the queue. */
  lemma {:induction false} OversellEmpties(lots: seq<Lot>, remaining: real)
    requires Positive(lots) && SumOf(lots, LotShares) <= remaining
    ensures Consume(lots, remaining) == []
  {
    if |lots| > 0 {
      SumOfNonNegative(lots[1..], LotShares);
      OversellEmpties(lots[1..], remaining - lots[0].quantity);
    }
  }

  /** First in, first out: a sale drops the `k` oldest lots, which together
      hold no more than the quantity sold, and takes what is still to sell
      from the next one, which keeps a positive quantity at its price; every
      later lot is untouched.  Nothing survives only when every lot was
      dropped. */
  lemma {:induction false} ConsumeKeepsNewest(lots: seq<Lot>, remaining: real) returns (k: nat)
    requires Positive(lots) && remaining >= 0.0
    ensures k <= |lots|
    ensures SumOf(lots[..k], LotShares) <= remaining
    ensures var rest := Consume(lots, remaining);
      && Map(rest, LotPrice) == Map(lots[k..], LotPrice)
      && (|rest| == 0 ==> k == |lots|)
      && (|rest| > 0 ==>
            && k < |lots|
            && rest[0].price == lots[k].price
            && rest[0].quantity == lots[k].quantity - (remaining - SumOf(lots[..k], LotShares))
            && rest[0].quantity > 0.0
            && rest[1..] == lots[k + 1..])
  {
    if remaining <= 0.0 || |lots| == 0 {
      k := 0;
      assert lots[..0] == [];
    } else if lots[0].quantity <= remaining {
      var j := ConsumeKeepsNewest(lots[1..], remaining - lots[0].quantity);
      assert lots[1..][j..] == lots[j + 1..];
      assert lots[..j + 1] == [lots[0]] + lots[1..][..j];
      assert lots[..j + 1][1..] == lots[1..][..j];
      k := j + 1;
    } else {
      k := 0;
      assert lots[..0] == [];
      var rest := Consume(lots, remaining);
      assert rest[1..] == lots[1..];
    }
  }

  /** A fill of zero shares leaves the queue as it was. */
  lemma ZeroFillIsNoOp(lots: seq<Lot>, r: Row)
    requires r.quantity == 0.0
    ensures Step(lots, r) == lots
  {
  }

  /** The shares held never fall below the net quantity traded, and equal it
      as long as no running net position went short. */
  lemma {:induction false} ReplayShares(rows: seq<Row>)
    ensures SumOf(Replay(rows), LotShares) >= SumOf(rows, Quantity)
    ensures NeverShort(rows) ==> SumOf(Replay(rows), LotShares) == SumOf(rows, Quantity)
  {
    if |rows| > 0 {
      var init := rows[..|rows| - 1];
      var r := rows[|rows| - 1];
      var prev := Replay(init);
      ReplayShares(init);
      ReplayPositive(init);
      assert rows == init + [r];
      SumOfSnoc(init, r, Quantity);
      if r.quantity > 0.0 {
        SumOfSnoc(prev, BuyLot(r), LotShares);
      } else {
        ConsumeShares(prev, Abs(r.quantity));
      }
      if NeverShort(rows) {
        assert init == rows[..|rows| - 1];
        assert NeverShort(init) by {
          forall n | 0 <= n <= |init| ensures SumOf(init[..n], Quantity) >= 0.0 {
            assert init[..n] == rows[..n];
          }
        }
        assert rows[..|rows|] == rows;
      }
    }
  }

  /** Every running net position of the fills is long or flat. */
  ghost predicate NeverShort(rows: seq<Row>)
  {
    forall n :: 0 <= n <= |rows| ==> SumOf(rows[..n], Quantity) >= 0.0
  }

  /** The weighted average is guarded by `total_shares > 0`, which positive
      lots always pass: the average of non-empty lots lies between their
      cheapest and their dearest per-share cost. */
  lemma WeightedCostBetween(lots: seq<Lot>)
    requires Positive(lots) && |lots| > 0
    ensures SumOf(lots, LotShares) > 0.0
    ensures SeqMin(Map(lots, LotPrice)) <= WeightedCost(lots) <= SeqMax(Map(lots, LotPrice))
  {
    var prices := Map(lots, LotPrice);
    var lo, hi := SeqMin(prices), SeqMax(prices);
    forall i | 0 <= i < |lots| ensures lo <= lots[i].price <= hi {
      assert prices[i] == lots[i].price;
    }
    WeightedCostWithin(lots, lo, hi);
  }

  lemma WeightedCostWithin(lots: seq<Lot>, lo: real, hi: real)
    requires Positive(lots) && |lots| > 0
    requires forall i :: 0 <= i < |lots| ==> lo <= lots[i].price <= hi
    ensures SumOf(lots, LotShares) > 0.0
    ensures lo <= WeightedCost(lots) <= hi
  {
    var shares := SumOf(lots, LotShares);
    var cost := SumOf(lots, LotCost);
    SumOfPositive(lots, LotShares);
    CostBounds(lots, lo, hi);
    QuotientBetween(cost, shares, lo, hi);
  }

  lemma {:induction false} CostBounds(lots: seq<Lot>, lo: real, hi: real)
    requires Positive(lots)
    requires forall i :: 0 <= i < |lots| ==> lo <= lots[i].price <= hi
    ensures lo * SumOf(lots, LotShares) <= SumOf(lots, LotCost) <= hi * SumOf(lots, LotShares)
  {
    if |lots| > 0 {
      var q, c := lots[0].quantity, LotCost(lots[0]);
      var s, t := SumOf(lots[1..], LotShares), SumOf(lots[1..], LotCost);
      assert SumOf(lots, LotShares) == q + s;
      assert SumOf(lots, LotCost) == c + t;
      CostBounds(lots[1..], lo, hi);
      LotBounds(q, lots[0].price, lo, hi);
      AddBounds(lo, hi, q, c, s, t);
    }
  }

  lemma LotBounds(q: real, p: real, lo: real, hi: real)
    requires q > 0.0 && lo <= p <= hi
    ensures lo * q <= q * p <= hi * q
  {
  }

  lemma AddBounds(lo: real, hi: real, q: real, c: real, s: real, t: real)
    requires lo * q <= c <= hi * q && lo * s <= t <= hi * s
    ensures lo * (q + s) <= c + t <= hi * (q + s)
  {
  }

  lemma QuotientBetween(c: real, s: real, lo: real, hi: real)
    requires s > 0.0 && lo * s <= c <= hi * s
    ensures lo <= c / s <= hi
  {
  }

  /** Buying 10 at 1 with a 5 commission opens a lot at 1.5 a share; after
      buying 10 at 2 and selling 15, the 5 shares left are from the second
      lot, so the average cost is 2. */
  lemma AvgCostExample()
    ensures var buy1 := Row(1, "XYZ", 10.0, 1.0, 0.0, -5.0, Monday, 0);
      var buy2 := Row(2, "XYZ", 10.0, 2.0, 0.0, 0.0, Tuesday, 0);
      var sell := Row(3, "XYZ", -15.0, 3.0, 10.0, 0.0, Wednesday, 0);
      && Replay([buy1]) == [Lot(10.0, 1.5)]
      && Replay([buy1, buy2, sell]) == [Lot(5.0, 2.0)]
      && WeightedCost(Replay([buy1, buy2, sell])) == 2.0
  {
    var buy1 := Row(1, "XYZ", 10.0, 1.0, 0.0, -5.0, Monday, 0);
    var buy2 := Row(2, "XYZ", 10.0, 2.0, 0.0, 0.0, Tuesday, 0);
    var sell := Row(3, "XYZ", -15.0, 3.0, 10.0, 0.0, Wednesday, 0);
    var rows := [buy1, buy2, sell];
    assert rows[..2] == [buy1, buy2];
    assert [buy1, buy2][..1] == [buy1];
    assert [buy1][..0] == [];
    assert Replay([buy1]) == [Lot(10.0, 1.5)];
    assert Replay([buy1, buy2]) == [Lot(10.0, 1.5), Lot(10.0, 2.0)];
    var two := [Lot(10.0, 1.5), Lot(10.0, 2.0)];
    assert two[1..] == [Lot(10.0, 2.0)];
    assert Consume(two, 15.0) == Consume([Lot(10.0, 2.0)], 5.0);
    assert Consume([Lot(10.0, 2.0)], 5.0) == [Lot(5.0, 2.0)] + [];
    var left := [Lot(5.0, 2.0)];
    assert left[1..] == [];
    assert SumOf(left, LotShares) == 5.0;
    assert SumOf(left, LotCost) == 10.0;
  }
}
