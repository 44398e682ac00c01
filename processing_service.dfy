/** The client-side normaliser and aggregator (app/services/DataProcessingService.ts).
    Each processor returns `null` for input of the wrong shape; a property read on
    `null` or `undefined` throws. So a processor's result is a `Result` (the throw)
    of an `Option` (the `null`). */
module DataProcessing {

  import opened Wrappers
  import opened Numbers
  import opened JsonValue
  import opened Seqs

  /** A kline row copied field by field from indices 0 to 11. */
  datatype KlineRec = KlineRec(time: Json, open: Json, high: Json, low: Json, close: Json, volume: Json,
                               closeTime: Json, quoteAssetVolume: Json, trades: Json,
                               takerBuyBaseAssetVolume: Json, takerBuyQuoteAssetVolume: Json, ignore: Json)

  datatype TradeRec = TradeRec(id: Json, price: Json, qty: Json, quoteQty: Json, time: Json,
                               isBuyerMaker: Json, isBestMatch: Json)

  /** What the four processors return when they succeed. */
  datatype Processed =
    | KlineSet(symbol: string, klines: seq<KlineRec>)
    | OrderBook(symbol: string, lastUpdateId: Json, bids: seq<Json>, asks: seq<Json>, timestamp: int)
    | TradeSet(symbol: string, trades: seq<TradeRec>)
    | Ticker(symbol: string, priceChange: Json, priceChangePercent: Json, lastPrice: Json,
             volume: Json, quoteVolume: Json)

  const BookDepth: nat := 10

  function KlineItem(item: Json): (r: Result<KlineRec>)
    ensures r.Failure? <==> Nullish(item)
  {
    if Nullish(item) then Failure(TypeErrorMessage)
    else Success(KlineRec(At(item, 0), At(item, 1), At(item, 2), At(item, 3), At(item, 4), At(item, 5),
                          At(item, 6), At(item, 7), At(item, 8), At(item, 9), At(item, 10), At(item, 11)))
  }

  function TradeItem(trade: Json): (r: Result<TradeRec>)
    ensures r.Failure? <==> Nullish(trade)
  {
    if Nullish(trade) then Failure(TypeErrorMessage)
    else Success(TradeRec(Field(trade, "id"), Field(trade, "price"), Field(trade, "qty"), Field(trade, "quoteQty"),
                          Field(trade, "time"), Field(trade, "isBuyerMaker"), Field(trade, "isBestMatch")))
  }

  /** `processKlineData`. */
  function ProcessKlineData(raw: Json, symbol: string): Result<Option<Processed>> {
    if !raw.Arr? then Success(None)
    else
      var rows := MapAll(raw.items, KlineItem);
      if rows.Failure? then Failure(rows.error) else Success(Some(KlineSet(symbol, rows.value)))
  }

  /** `processOrderBookData(raw, symbol)` at time `now`. */
  function ProcessOrderBookData(raw: Json, symbol: string, now: int): Option<Processed> {
    var bids := Field(raw, "bids");
    var asks := Field(raw, "asks");
    if !Truthy(raw) || !bids.Arr? || !asks.Arr? then None
    else Some(OrderBook(symbol, Field(raw, "lastUpdateId"), bids.items[..MinNat(BookDepth, |bids.items|)],
                        asks.items[..MinNat(BookDepth, |asks.items|)], now))
  }

  /** `processTradeData`. */
  function ProcessTradeData(raw: Json, symbol: string): Result<Option<Processed>> {
    if !raw.Arr? then Success(None)
    else
      var trades := MapAll(raw.items, TradeItem);
      if trades.Failure? then Failure(trades.error) else Success(Some(TradeSet(symbol, trades.value)))
  }

  /** `typeof v === 'object'` for a value that is not null. */
  predicate IsObject(v: Json) {
    v.Obj? || v.Arr?
  }

  /** `processTickerData`. */
  function ProcessTickerData(raw: Json, symbol: string): Option<Processed> {
    if !Truthy(raw) || !IsObject(raw) then None
    else Some(Ticker(symbol, Field(raw, "priceChange"), Field(raw, "priceChangePercent"), Field(raw, "lastPrice"),
                     Field(raw, "volume"), Field(raw, "quoteVolume")))
  }

  /** `processData(type, data, symbol)` at time `now`; a failure is the error it
      rethrows. */
  function ProcessData(dataType: string, data: Json, symbol: string, now: int): Result<Processed> {
    var processed :=
      if dataType == "kline" then ProcessKlineData(data, symbol)
      else if dataType == "orderbook" then Success(ProcessOrderBookData(data, symbol, now))
      else if dataType == "trades" then ProcessTradeData(data, symbol)
      else if dataType == "ticker" then Success(ProcessTickerData(data, symbol))
      else Failure("Unsupported data type: " + dataType);
    if processed.Failure? then Failure(processed.error)
    else if processed.value.None? then Failure("Failed to process " + dataType + " data")
    else Success(processed.value.value)
  }

  /** Klines: `null` for a non-array; otherwise one record per row, in order, whose
      j-th field is the row's j-th entry for j from 0 to 11; a null row throws. */
  lemma KlineShape(raw: Json, symbol: string)
    ensures !raw.Arr? ==> ProcessKlineData(raw, symbol) == Success(None)
    ensures raw.Arr? ==>
              (ProcessKlineData(raw, symbol).Success? <==> forall i :: 0 <= i < |raw.items| ==> !Nullish(raw.items[i]))
    ensures raw.Arr? && ProcessKlineData(raw, symbol).Success? ==>
      var r := ProcessKlineData(raw, symbol).value.value;
      && r.KlineSet? && r.symbol == symbol && |r.klines| == |raw.items|
      && forall i :: 0 <= i < |raw.items| ==>
           var k := r.klines[i];
           var item := raw.items[i];
           && k.time == At(item, 0) && k.open == At(item, 1) && k.high == At(item, 2) && k.low == At(item, 3)
           && k.close == At(item, 4) && k.volume == At(item, 5) && k.closeTime == At(item, 6)
           && k.quoteAssetVolume == At(item, 7) && k.trades == At(item, 8)
           && k.takerBuyBaseAssetVolume == At(item, 9) && k.takerBuyQuoteAssetVolume == At(item, 10)
           && k.ignore == At(item, 11)
  {
  }

  /** The order book: `null` unless the data is truthy with array `bids` and `asks`;
      otherwise each side is the first (at most) ten levels of the input, in order. */
  lemma OrderBookShape(raw: Json, symbol: string, now: int)
    ensures ProcessOrderBookData(raw, symbol, now).None? <==>
              !Truthy(raw) || !Field(raw, "bids").Arr? || !Field(raw, "asks").Arr?
    ensures ProcessOrderBookData(raw, symbol, now).Some? ==>
      var r := ProcessOrderBookData(raw, symbol, now).value;
      var bids := Field(raw, "bids").items;
      var asks := Field(raw, "asks").items;
      && r.OrderBook? && r.symbol == symbol && r.timestamp == now
      && r.lastUpdateId == Field(raw, "lastUpdateId")
      && |r.bids| == MinNat(10, |bids|) && r.bids == bids[..|r.bids|]
      && |r.asks| == MinNat(10, |asks|) && r.asks == asks[..|r.asks|]
  {
  }

  /** Trades: `null` for a non-array; otherwise one record per trade, in order, with
      every field copied; a null trade throws. The ticker: `null` for a falsy or
      non-object value, otherwise its five fields copied. */
  lemma TradeAndTickerShape(raw: Json, symbol: string)
    ensures !raw.Arr? ==> ProcessTradeData(raw, symbol) == Success(None)
    ensures raw.Arr? ==>
              (ProcessTradeData(raw, symbol).Success? <==> forall i :: 0 <= i < |raw.items| ==> !Nullish(raw.items[i]))
    ensures raw.Arr? && ProcessTradeData(raw, symbol).Success? ==>
      var r := ProcessTradeData(raw, symbol).value.value;
      && r.TradeSet? && |r.trades| == |raw.items|
      && forall i :: 0 <= i < |raw.items| ==>
           var t := raw.items[i];
           r.trades[i] == TradeRec(Field(t, "id"), Field(t, "price"), Field(t, "qty"), Field(t, "quoteQty"),
                                   Field(t, "time"), Field(t, "isBuyerMaker"), Field(t, "isBestMatch"))
    ensures ProcessTickerData(raw, symbol).None? <==> !Truthy(raw) || !(raw.Obj? || raw.Arr?)
    ensures ProcessTickerData(raw, symbol).Some? ==>
              ProcessTickerData(raw, symbol).value ==
                Ticker(symbol, Field(raw, "priceChange"), Field(raw, "priceChangePercent"), Field(raw, "lastPrice"),
                       Field(raw, "volume"), Field(raw, "quoteVolume"))
  {
  }

  /** `processData` throws for an unsupported type and whenever the processor
      returned `null`, rethrows what a processor threw (a null kline row or trade),
      and otherwise returns the processor's record. */
  lemma ProcessDataOutcomes(dataType: string, data: Json, symbol: string, now: int)
    ensures dataType !in {"kline", "orderbook", "trades", "ticker"} ==>
              ProcessData(dataType, data, symbol, now) == Failure("Unsupported data type: " + dataType)
    ensures dataType == "orderbook" && ProcessOrderBookData(data, symbol, now).None? ==>
              ProcessData(dataType, data, symbol, now) == Failure("Failed to process orderbook data")
    ensures dataType == "ticker" && ProcessTickerData(data, symbol).None? ==>
              ProcessData(dataType, data, symbol, now) == Failure("Failed to process ticker data")
    ensures dataType == "orderbook" && ProcessOrderBookData(data, symbol, now).Some? ==>
              ProcessData(dataType, data, symbol, now) == Success(ProcessOrderBookData(data, symbol, now).value)
    ensures dataType == "kline" && ProcessKlineData(data, symbol).Success? && ProcessKlineData(data, symbol).value.Some? ==>
              ProcessData(dataType, data, symbol, now) == Success(ProcessKlineData(data, symbol).value.value)
    ensures dataType == "kline" && ProcessKlineData(data, symbol).Failure? ==>
              ProcessData(dataType, data, symbol, now) == Failure(ProcessKlineData(data, symbol).error)
    ensures dataType == "trades" && ProcessTradeData(data, symbol).Success? && ProcessTradeData(data, symbol).value.Some? ==>
              ProcessData(dataType, data, symbol, now) == Success(ProcessTradeData(data, symbol).value.value)
    ensures dataType == "trades" && ProcessTradeData(data, symbol).Failure? ==>
              ProcessData(dataType, data, symbol, now) == Failure(ProcessTradeData(data, symbol).error)
    ensures dataType == "ticker" && ProcessTickerData(data, symbol).Some? ==>
              ProcessData(dataType, data, symbol, now) == Success(ProcessTickerData(data, symbol).value)
  {
    if dataType == "orderbook" {
      assert "Failed to process " + dataType + " data" == "Failed to process orderbook data";
    } else if dataType == "ticker" {
      assert "Failed to process " + dataType + " data" == "Failed to process ticker data";
    }
  }

  /** A kline or trade request on data that is not an array gets `null` from its
      processor, so `processData` throws. */
  lemma ProcessDataNonArray(data: Json, symbol: string, now: int)
    requires !data.Arr?
    ensures ProcessData("kline", data, symbol, now) == Failure("Failed to process kline data")
    ensures ProcessData("trades", data, symbol, now) == Failure("Failed to process trades data")
  {
    assert ProcessKlineData(data, symbol) == Success(None);
    assert ProcessTradeData(data, symbol) == Success(None);
  }

  // ---------------------------------------------------------------------------
  // Aggregates over stored payloads

  datatype Aggregate =
    | KlineStats(highestPrice: Num, lowestPrice: Num, averageVolume: Num, priceChange: Num)
    | BookStats(bidCount: nat, askCount: nat, spreadPercentage: Num)
    | TradeStats(totalTrades: nat, buyVolume: Num, sellVolume: Num, buyPercentage: Num)
    | TickerStats(priceChange: Num, priceChangePercent: Num, volume24h: Num, quoteVolume24h: Num)

  function Highs(ks: seq<KlineRec>): (r: seq<Num>)
    ensures |r| == |ks| && forall i :: 0 <= i < |ks| ==> r[i] == ToNum(ks[i].high)
  {
    seq(|ks|, i requires 0 <= i < |ks| => ToNum(ks[i].high))
  }

  function Lows(ks: seq<KlineRec>): (r: seq<Num>)
    ensures |r| == |ks| && forall i :: 0 <= i < |ks| ==> r[i] == ToNum(ks[i].low)
  {
    seq(|ks|, i requires 0 <= i < |ks| => ToNum(ks[i].low))
  }

  function Volumes(ks: seq<KlineRec>): (r: seq<Num>)
    ensures |r| == |ks| && forall i :: 0 <= i < |ks| ==> r[i] == ToNum(ks[i].volume)
  {
    seq(|ks|, i requires 0 <= i < |ks| => ToNum(ks[i].volume))
  }

  /** `data.flatMap(item => item.data.klines)`; `None` when some payload is not a
      kline set (its `klines` is undefined, and reading a field of it throws). */
  function AllKlines(data: seq<Processed>): Option<seq<KlineRec>> {
    if data == [] then Some([])
    else if !data[0].KlineSet? then None
    else
      var rest := AllKlines(data[1..]);
      if rest.None? then None else Some(data[0].klines + rest.value)
  }

  /** `aggregateKlineData`; with no kline at all, reading `klines[0].open` throws. */
  function AggregateKlineData(data: seq<Processed>): Result<Aggregate> {
    var ks := AllKlines(data);
    if ks.None? || ks.value == [] then Failure(TypeErrorMessage)
    else
      Success(KlineSummary(ks.value))
  }

  /** The four statistics over a non-empty list of klines. */
  function KlineSummary(k: seq<KlineRec>): Aggregate
    requires |k| > 0
  {
    KlineStats(MaxOf(Highs(k)), MinOf(Lows(k)), Divide(SumNum(Volumes(k)), Real(|k| as real)),
               Minus(ToNum(k[|k| - 1].close), ToNum(k[0].open)))
  }

  /** The highest price is at least every high and the lowest at most every low
      (when all of them parse), and the price change is the last close less the
      first open. */
  lemma KlineAggregateBounds(data: seq<Processed>)
    requires AggregateKlineData(data).Success?
    ensures var k := AllKlines(data).value;
      var r := AggregateKlineData(data).value;
      && |k| > 0
      && (r.highestPrice.Real? ==> forall i :: 0 <= i < |k| ==> ToNum(k[i].high).Real? && r.highestPrice.value >= ToNum(k[i].high).value)
      && (r.lowestPrice.Real? ==> forall i :: 0 <= i < |k| ==> ToNum(k[i].low).Real? && r.lowestPrice.value <= ToNum(k[i].low).value)
      && r.priceChange == Minus(ToNum(k[|k| - 1].close), ToNum(k[0].open))
  {
    var ks := AllKlines(data);
    assert ks.Some? && ks.value != [];
    assert AggregateKlineData(data) == Success(KlineSummary(ks.value));
    KlineSummaryBounds(ks.value);
  }

  /** The same facts about the statistics of any non-empty list of klines. */
  lemma KlineSummaryBounds(k: seq<KlineRec>)
    requires |k| > 0
    ensures var r := KlineSummary(k);
      && (r.highestPrice.Real? ==> forall i :: 0 <= i < |k| ==> ToNum(k[i].high).Real? && r.highestPrice.value >= ToNum(k[i].high).value)
      && (r.lowestPrice.Real? ==> forall i :: 0 <= i < |k| ==> ToNum(k[i].low).Real? && r.lowestPrice.value <= ToNum(k[i].low).value)
      && r.priceChange == Minus(ToNum(k[|k| - 1].close), ToNum(k[0].open))
  {
    HighestBoundsHighs(k);
    LowestBoundsLows(k);
  }

  lemma HighestBoundsHighs(k: seq<KlineRec>)
    requires |k| > 0
    ensures MaxOf(Highs(k)).Real? ==>
              forall i :: 0 <= i < |k| ==> ToNum(k[i].high).Real? && MaxOf(Highs(k)).value >= ToNum(k[i].high).value
  {
    var hs := Highs(k);
    if MaxOf(hs).Real? {
      forall i | 0 <= i < |k| ensures ToNum(k[i].high).Real? && MaxOf(hs).value >= ToNum(k[i].high).value {
        assert hs[i] == ToNum(k[i].high);
      }
    }
  }

  lemma LowestBoundsLows(k: seq<KlineRec>)
    requires |k| > 0
    ensures MinOf(Lows(k)).Real? ==>
              forall i :: 0 <= i < |k| ==> ToNum(k[i].low).Real? && MinOf(Lows(k)).value <= ToNum(k[i].low).value
  {
    var ls := Lows(k);
    if MinOf(ls).Real? {
      forall i | 0 <= i < |k| ensures ToNum(k[i].low).Real? && MinOf(ls).value <= ToNum(k[i].low).value {
        assert ls[i] == ToNum(k[i].low);
      }
    }
  }

  /** `aggregateOrderBookData`: only the last payload is read. */
  function AggregateOrderBookData(data: seq<Processed>): Result<Aggregate> {
    if data == [] || !data[|data| - 1].OrderBook? then Failure(TypeErrorMessage)
    else
      var book := data[|data| - 1];
      if book.asks == [] || book.bids == [] || Nullish(book.asks[0]) || Nullish(book.bids[0]) then Failure(TypeErrorMessage)
      else
        var ask := ToNum(At(book.asks[0], 0));
        var bid := ToNum(At(book.bids[0], 0));
        Success(BookStats(|book.bids|, |book.asks|, Times(Divide(Minus(ask, bid), bid), Real(100.0))))
  }

  /** The counts are the last book's side lengths, and earlier payloads do not
      matter. */
  lemma OrderBookAggregateReadsLast(data: seq<Processed>, earlier: seq<Processed>)
    requires AggregateOrderBookData(data).Success?
    ensures var book := data[|data| - 1];
      && AggregateOrderBookData(data).value.bidCount == |book.bids|
      && AggregateOrderBookData(data).value.askCount == |book.asks|
      && AggregateOrderBookData(earlier + data) == AggregateOrderBookData(data)
  {
    assert (earlier + data)[|earlier + data| - 1] == data[|data| - 1];
  }

  /** `data.flatMap(item => item.data.trades)`; `None` when some payload is not a
      trade set. */
  function AllTrades(data: seq<Processed>): Option<seq<TradeRec>> {
    if data == [] then Some([])
    else if !data[0].TradeSet? then None
    else
      var rest := AllTrades(data[1..]);
      if rest.None? then None else Some(data[0].trades + rest.value)
  }

  function BuySide(t: TradeRec): bool {
    !Truthy(t.isBuyerMaker)
  }

  function SellSide(t: TradeRec): bool {
    Truthy(t.isBuyerMaker)
  }

  /** The parsed quantities of a list of trades. */
  function Quantities(ts: seq<TradeRec>): (r: seq<Num>)
    ensures |r| == |ts| && forall i :: 0 <= i < |ts| ==> r[i] == ToNum(ts[i].qty)
  {
    if ts == [] then [] else [ToNum(ts[0].qty)] + Quantities(ts[1..])
  }

  /** `aggregateTradeData`. */
  function AggregateTradeData(data: seq<Processed>): Result<Aggregate> {
    var ts := AllTrades(data);
    if ts.None? then Failure(TypeErrorMessage)
    else
      var buy := SumNum(Quantities(Filter(ts.value, BuySide)));
      var sell := SumNum(Quantities(Filter(ts.value, SellSide)));
      Success(TradeStats(|ts.value|, buy, sell, Times(Divide(buy, Plus(buy, sell)), Real(100.0))))
  }

  lemma PlusAssoc(a: Num, b: Num, c: Num)
    ensures Plus(Plus(a, b), c) == Plus(a, Plus(b, c))
  {
  }

  lemma PlusComm(a: Num, b: Num)
    ensures Plus(a, b) == Plus(b, a)
  {
  }

  /** One trade in front adds its quantity to the sum. */
  lemma SumOfCons(t: TradeRec, ts: seq<TradeRec>)
    ensures SumNum(Quantities([t] + ts)) == Plus(ToNum(t.qty), SumNum(Quantities(ts)))
  {
    assert Quantities([t] + ts)[1..] == Quantities(ts);
  }

  /** The quantities of the buyer-side trades and of the seller-side trades add up
      to the quantities of all trades. */
  lemma {:induction false} SplitSum(ts: seq<TradeRec>)
    ensures Plus(SumNum(Quantities(Filter(ts, BuySide))), SumNum(Quantities(Filter(ts, SellSide))))
            == SumNum(Quantities(ts))
    decreases |ts|
  {
    if ts == [] {
      assert Quantities([]) == [];
    } else {
      var t := ts[0];
      SplitSum(ts[1..]);
      var q := ToNum(t.qty);
      var b := Filter(ts[1..], BuySide);
      var s := Filter(ts[1..], SellSide);
      var sb := SumNum(Quantities(b));
      var ss := SumNum(Quantities(s));
      assert Quantities(ts) == [q] + Quantities(ts[1..]);
      assert SumNum(Quantities(ts)) == Plus(q, Plus(sb, ss));
      if BuySide(t) {
        assert Filter(ts, BuySide) == [t] + b && Filter(ts, SellSide) == s;
        SumOfCons(t, b);
        PlusAssoc(q, sb, ss);
      } else {
        assert Filter(ts, BuySide) == b && Filter(ts, SellSide) == [t] + s;
        SumOfCons(t, s);
        PlusAssoc(sb, q, ss);
        PlusComm(sb, q);
        PlusAssoc(q, sb, ss);
      }
    }
  }

  /** Buy volume plus sell volume is the total quantity, and the trade count is the
      number of trades across all payloads. */
  lemma TradeAggregateSplit(data: seq<Processed>)
    requires AggregateTradeData(data).Success?
    ensures var ts := AllTrades(data).value;
      var r := AggregateTradeData(data).value;
      && r.totalTrades == |ts|
      && Plus(r.buyVolume, r.sellVolume) == SumNum(Quantities(ts))
  {
    SplitSum(AllTrades(data).value);
  }

  /** `aggregateTickerData`: the last payload's four figures, parsed; a payload
      without them gives NaN. */
  function AggregateTickerData(data: seq<Processed>): Result<Aggregate> {
    if data == [] then Failure(TypeErrorMessage)
    else
      var latest := data[|data| - 1];
      if latest.Ticker? then
        Success(TickerStats(ToNum(latest.priceChange), ToNum(latest.priceChangePercent),
                            ToNum(latest.volume), ToNum(latest.quoteVolume)))
      else Success(TickerStats(NaN, NaN, NaN, NaN))
  }

  /** `aggregateData`: dispatch on the type; anything else throws. */
  function AggregateData(dataType: string, data: seq<Processed>): Result<Aggregate> {
    if dataType == "kline" then AggregateKlineData(data)
    else if dataType == "orderbook" then AggregateOrderBookData(data)
    else if dataType == "trades" then AggregateTradeData(data)
    else if dataType == "ticker" then AggregateTickerData(data)
    else Failure("Unsupported data type: " + dataType)
  }

  /** Each type reaches its own aggregate, and an unknown one fails. */
  lemma AggregateDataRoutes(dataType: string, data: seq<Processed>)
    ensures dataType == "kline" ==> AggregateData(dataType, data) == AggregateKlineData(data)
    ensures dataType == "orderbook" ==> AggregateData(dataType, data) == AggregateOrderBookData(data)
    ensures dataType == "trades" ==> AggregateData(dataType, data) == AggregateTradeData(data)
    ensures dataType == "ticker" ==> AggregateData(dataType, data) == AggregateTickerData(data)
    ensures dataType !in {"kline", "orderbook", "trades", "ticker"} ==>
              AggregateData(dataType, data) == Failure("Unsupported data type: " + dataType)
    ensures AggregateData(dataType, data).Success? ==>
              (dataType == "kline" <==> AggregateData(dataType, data).value.KlineStats?)
    ensures dataType == "ticker" && data != [] ==>
              AggregateData(dataType, data).Success? && AggregateData(dataType, data).value.TickerStats?
    ensures data == [] && dataType in {"kline", "orderbook", "ticker"} ==> AggregateData(dataType, data).Failure?
  {
  }
}
