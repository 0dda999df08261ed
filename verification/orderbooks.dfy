/** The order-book aggregator's derivation rule (`_fetch_orderbook`, after the provider has answered). */
module OrderBooks {
  import opened Wrappers
  import opened Numeric
  import opened Quotations

  /** One price level as decoded from JSON. `quantity == None` means the level has no "quantity" key, which the sum
      reads as 0; a JSON null quantity makes `int(None)` raise, and that failed call is an `Upstream.Failed` input. */
  datatype Level = Level(price: Option<RawQuotation>, quantity: Option<int>)

  /** The provider's order-book response: bid and ask levels, best first, and two reference prices. */
  datatype RawOrderBook = RawOrderBook(
    bids: seq<Level>,
    asks: seq<Level>,
    lastPrice: Option<RawQuotation>,
    closePrice: Option<RawQuotation>)

  /** The aggregator's answer: a snapshot of derived fields, or the error row of a failed call. */
  datatype OrderBook =
    | Snapshot(
        instrumentId: string,
        bestBid: Option<real>,
        bestAsk: Option<real>,
        spread: Option<real>,
        auctionPrice: Option<real>,
        lastPrice: Option<real>,
        closePrice: Option<real>,
        deviationPct: Option<real>,
        totalBidLots: int,
        totalAskLots: int,
        totalLots: int)
    | BookError(instrumentId: string, error: string)

  /** `orderbook.get("total_lots")`: the error row has no such key. */
  function TotalLots(b: OrderBook): (r: Option<int>)
    ensures r.Some? <==> b.Snapshot?
    ensures r.Some? ==> r.value == b.totalLots
  {
    if b.Snapshot? then Some(b.totalLots) else None
  }

  /** `int(level.get("quantity", 0))`. */
  function Quantity(l: Level): int {
    l.quantity.GetOr(0)
  }

  /** `sum(int(l.get("quantity", 0)) for l in levels)`. */
  function SumLots(levels: seq<Level>): int {
    if levels == [] then 0 else Quantity(levels[0]) + SumLots(levels[1..])
  }

  /** The total is additive over any split of the levels, so it counts every level, not only the top one. */
  lemma {:induction false} SumLotsAppend(a: seq<Level>, b: seq<Level>)
    ensures SumLots(a + b) == SumLots(a) + SumLots(b)
  {
    if a != [] {
      assert (a + b)[1..] == a[1..] + b;
      SumLotsAppend(a[1..], b);
    } else {
      assert a + b == b;
    }
  }

  /** With non-negative quantities the total is non-negative and at least the quantity of any one level. */
  lemma {:induction false} SumLotsCoversEveryLevel(levels: seq<Level>, i: int)
    requires forall j :: 0 <= j < |levels| ==> Quantity(levels[j]) >= 0
    requires 0 <= i < |levels|
    ensures SumLots(levels) >= Quantity(levels[i]) >= 0
  {
    if i > 0 {
      SumLotsCoversEveryLevel(levels[1..], i - 1);
    } else if |levels| > 1 {
      SumLotsNonNegative(levels[1..]);
    }
  }

  lemma {:induction false} SumLotsNonNegative(levels: seq<Level>)
    requires forall j :: 0 <= j < |levels| ==> Quantity(levels[j]) >= 0
    ensures SumLots(levels) >= 0
  {
    if levels != [] {
      SumLotsNonNegative(levels[1..]);
    }
  }

  /** `_quotation_to_float(side[0].get("price")) if side else None`. */
  function BestPrice(levels: seq<Level>): Option<real> {
    if |levels| > 0 then Some(ToReal(levels[0].price)) else None
  }

  /** Python truthiness of a price: neither `None` nor `0.0`. */
  predicate Truthy(p: Option<real>) {
    p.Some? && p.value != 0.0
  }

  /** `last_price or close_price`: the last price unless it is zero. */
  function ReferencePrice(last: real, close: real): real {
    if last != 0.0 then last else close
  }

  /** The snapshot derived from a provider response. */
  function DeriveBook(id: string, raw: RawOrderBook): (b: OrderBook)
    ensures b.Snapshot? && b.instrumentId == id
    ensures b.totalLots == b.totalBidLots + b.totalAskLots
  {
    var bid := BestPrice(raw.bids);
    var ask := BestPrice(raw.asks);
    var both := Truthy(bid) && Truthy(ask);
    var auction := if both then Some(Round((bid.value + ask.value) / 2.0, 4)) else None;
    var last := ToReal(raw.lastPrice);
    var close := ToReal(raw.closePrice);
    var reference := ReferencePrice(last, close);
    var deviation :=
      if Truthy(auction) && reference != 0.0
      then Some(Round((auction.value - reference) / reference * 100.0, 2))
      else None;
    var bidLots := SumLots(raw.bids);
    var askLots := SumLots(raw.asks);
    Snapshot(
      id,
      if Truthy(bid) then Some(Round(bid.value, 4)) else None,
      if Truthy(ask) then Some(Round(ask.value, 4)) else None,
      if both then Some(Round(ask.value - bid.value, 4)) else None,
      auction,
      Reported(last),
      Reported(close),
      deviation,
      bidLots,
      askLots,
      bidLots + askLots)
  }

  /** Each best price comes from the first level of its side; it is absent when that side is empty or its top price is zero. */
  lemma BestPrices(id: string, raw: RawOrderBook)
    ensures var b := DeriveBook(id, raw);
      && (b.bestBid.Some? <==> |raw.bids| > 0 && ToReal(raw.bids[0].price) != 0.0)
      && (b.bestAsk.Some? <==> |raw.asks| > 0 && ToReal(raw.asks[0].price) != 0.0)
      && (b.bestBid.Some? ==> -0.5 <= (b.bestBid.value - ToReal(raw.bids[0].price)) * Pow10(4) <= 0.5)
      && (b.bestAsk.Some? ==> -0.5 <= (b.bestAsk.value - ToReal(raw.asks[0].price)) * Pow10(4) <= 0.5)
  {
    if |raw.bids| > 0 { RoundError(ToReal(raw.bids[0].price), 4); }
    if |raw.asks| > 0 { RoundError(ToReal(raw.asks[0].price), 4); }
  }

  /** Spread and auction price exist together, exactly when both best prices are reported; the spread is ask minus bid
      and the auction price the midpoint, each within rounding. */
  lemma SpreadAndMidpoint(id: string, raw: RawOrderBook)
    ensures var b := DeriveBook(id, raw);
      && (b.spread.Some? <==> b.bestBid.Some? && b.bestAsk.Some?)
      && (b.auctionPrice.Some? <==> b.spread.Some?)
      && (b.spread.Some? ==>
            var bid := ToReal(raw.bids[0].price);
            var ask := ToReal(raw.asks[0].price);
            && -0.5 <= (b.spread.value - (ask - bid)) * Pow10(4) <= 0.5
            && -0.5 <= (b.auctionPrice.value - (bid + ask) / 2.0) * Pow10(4) <= 0.5)
  {
    var b := DeriveBook(id, raw);
    if b.spread.Some? {
      var bid := ToReal(raw.bids[0].price);
      var ask := ToReal(raw.asks[0].price);
      RoundError(ask - bid, 4);
      RoundError((bid + ask) / 2.0, 4);
    }
  }

  /** In a book that is not crossed, the auction price lies between the best bid and the best ask, up to rounding. */
  lemma MidpointBetweenBestPrices(id: string, raw: RawOrderBook)
    requires |raw.bids| > 0 && |raw.asks| > 0
    requires ToReal(raw.bids[0].price) <= ToReal(raw.asks[0].price)
    ensures var b := DeriveBook(id, raw);
      b.auctionPrice.Some? ==>
        && -0.5 <= (b.auctionPrice.value - ToReal(raw.bids[0].price)) * Pow10(4)
        && (b.auctionPrice.value - ToReal(raw.asks[0].price)) * Pow10(4) <= 0.5
  {
    var b := DeriveBook(id, raw);
    if b.auctionPrice.Some? {
      var bid := ToReal(raw.bids[0].price);
      var ask := ToReal(raw.asks[0].price);
      var mid := (bid + ask) / 2.0;
      RoundError(mid, 4);
      var p := Pow10(4);
      assert (b.auctionPrice.value - bid) * p == (b.auctionPrice.value - mid) * p + (mid - bid) * p;
      assert (b.auctionPrice.value - ask) * p == (b.auctionPrice.value - mid) * p + (mid - ask) * p;
    }
  }

  /** The deviation is measured against the last price, or the close price when the last price is zero;
      it exists exactly when the auction price and that reference are both non-zero. */
  lemma DeviationRule(id: string, raw: RawOrderBook)
    ensures var b := DeriveBook(id, raw);
      var reference := if ToReal(raw.lastPrice) != 0.0 then ToReal(raw.lastPrice) else ToReal(raw.closePrice);
      && (b.deviationPct.Some? <==> b.auctionPrice.Some? && b.auctionPrice.value != 0.0 && reference != 0.0)
      && (b.deviationPct.Some? ==>
            -0.5 <= (b.deviationPct.value - (b.auctionPrice.value - reference) / reference * 100.0) * Pow10(2) <= 0.5)
  {
    var b := DeriveBook(id, raw);
    if b.deviationPct.Some? {
      var reference := ReferencePrice(ToReal(raw.lastPrice), ToReal(raw.closePrice));
      RoundError((b.auctionPrice.value - reference) / reference * 100.0, 2);
    }
  }

  /** Last and close prices are reported with the zero-as-absent rule: each is absent exactly when its quotation is zero. */
  lemma ReportedReferencePrices(id: string, raw: RawOrderBook)
    ensures var b := DeriveBook(id, raw);
      && b.lastPrice == Reported(ToReal(raw.lastPrice))
      && b.closePrice == Reported(ToReal(raw.closePrice))
      && (b.lastPrice.None? <==> Nanos(raw.lastPrice) == 0)
      && (b.closePrice.None? <==> Nanos(raw.closePrice) == 0)
  {
    ZeroIffNoNanos(raw.lastPrice);
    ZeroIffNoNanos(raw.closePrice);
  }

  /** Lots are summed over every level of each side, and the total is their sum. */
  lemma LotTotals(id: string, bids: seq<Level>, asks: seq<Level>, last: Option<RawQuotation>, close: Option<RawQuotation>)
    ensures var b := DeriveBook(id, RawOrderBook(bids, asks, last, close));
      && b.totalBidLots == SumLots(bids)
      && b.totalAskLots == SumLots(asks)
      && b.totalLots == SumLots(bids + asks)
  {
    SumLotsAppend(bids, asks);
  }

  /** A book with no asks has no best ask, spread, auction price or deviation, and zero ask lots. */
  lemma NoAsks(id: string, bids: seq<Level>, last: Option<RawQuotation>, close: Option<RawQuotation>)
    ensures var b := DeriveBook(id, RawOrderBook(bids, [], last, close));
      && b.bestAsk.None? && b.spread.None? && b.auctionPrice.None? && b.deviationPct.None?
      && b.totalAskLots == 0 && b.totalLots == b.totalBidLots
  {
  }

  /** The worked case: best bid 99, best ask 101, last price 98 give spread 2, auction price 100 and deviation 2.04%. */
  lemma BookExample(id: string)
    ensures var b := DeriveBook(id, RawOrderBook([Level(Whole(99), Some(3))], [Level(Whole(101), Some(4))], Whole(98), Whole(97)));
      && b.bestBid == Some(99.0) && b.bestAsk == Some(101.0)
      && b.spread == Some(2.0) && b.auctionPrice == Some(100.0)
      && b.deviationPct == Some(2.04)
      && b.totalLots == 7
  {
    assert Pow10(2) == 100.0;
    assert Pow10(4) == 10000.0;
    assert Round(99.0, 4) == 99.0;
    assert Round(101.0, 4) == 101.0;
    assert Round(2.0, 4) == 2.0;
    assert Round(100.0, 4) == 100.0;
    assert Round((100.0 - 98.0) / 98.0 * 100.0, 2) == 2.04;
  }
}
