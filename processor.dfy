/** The backend stream normaliser (backend/services/dataProcessor.js): a raw exchange
    stream message is mapped, according to its stream type, to one canonical record
    tagged `kline`, `orderbook`, `trade` or `funding`; any other stream type passes
    the message through unchanged. A mapper that reads a property of a missing `k`
    object, or calls `map` on missing `asks` or `bids`, throws; the model returns
    None for that. */
module Processor {

  import opened Wrappers
  import opened Numbers
  import opened Text

  /** The `k` object of a kline stream message (wire names in comments). */
  datatype RawKline = RawKline(
    interval: string,   // i
    openTime: int,      // t
    open: string,       // o
    high: string,       // h
    low: string,        // l
    close: string,      // c
    volume: string,     // v
    isClosed: bool      // x
  )

  /** The fields of a stream message that the mappers read; `k`, `asks` and `bids`
      may be missing (None). */
  datatype RawMessage = RawMessage(
    kline: Option<RawKline>,                 // k
    asks: Option<seq<(string, string)>>,     // asks: [price, quantity] pairs
    bids: Option<seq<(string, string)>>,     // bids
    tradeTime: int,                  // T
    eventTime: int,                  // E
    price: string,                   // p
    quantity: string,                // q
    rate: string,                    // r
    buyerIsMaker: bool               // m
  )

  datatype Level = Level(price: Num, quantity: Num)

  datatype Kline = Kline(interval: string, timestamp: int, open: Num, high: Num, low: Num,
                         close: Num, volume: Num, isClosed: bool)

  datatype OrderBook = OrderBook(timestamp: int, asks: seq<Level>, bids: seq<Level>)

  datatype Trade = Trade(timestamp: int, price: Num, quantity: Num, isBuyerMaker: bool)

  datatype Funding = Funding(timestamp: int, rate: Num, markPrice: Num)

  /** What `processData` returns: a tagged record, or the message itself. */
  datatype Processed =
    | KlineRecord(kline: Kline)
    | OrderBookRecord(book: OrderBook)
    | TradeRecord(trade: Trade)
    | FundingRecord(funding: Funding)
    | Passthrough(message: RawMessage)

  /** The `type` property of a processed value; a raw exchange message has none. */
  function TypeTag(p: Processed): Option<string> {
    match p
    case KlineRecord(_) => Some("kline")
    case OrderBookRecord(_) => Some("orderbook")
    case TradeRecord(_) => Some("trade")
    case FundingRecord(_) => Some("funding")
    case Passthrough(_) => None
  }

  /** The tags that the storage service's `store` dispatches on. */
  const StoredTags: set<string> := {"kline", "orderbook", "trade", "funding"}

  /** The kline record; None (a `TypeError`) when the message has no `k`. */
  function ProcessKlineData(data: RawMessage): (r: Option<Kline>)
    ensures r.None? <==> data.kline.None?
    ensures r.Some? ==> r.value.interval == data.kline.value.interval
    ensures r.Some? ==> r.value.timestamp == data.kline.value.openTime
    ensures r.Some? ==> r.value.isClosed == data.kline.value.isClosed
  {
    if data.kline.None? then None
    else
      var k := data.kline.value;
      Some(Kline(k.interval, k.openTime, ParseFloat(k.open), ParseFloat(k.high), ParseFloat(k.low),
                 ParseFloat(k.close), ParseFloat(k.volume), k.isClosed))
  }

  /** Each `[price, quantity]` pair becomes a level of two parsed numbers, in order. */
  function MapLevels(levels: seq<(string, string)>): (r: seq<Level>)
    ensures |r| == |levels|
    ensures forall i :: 0 <= i < |levels| ==>
              r[i] == Level(ParseFloat(levels[i].0), ParseFloat(levels[i].1))
  {
    if levels == [] then []
    else [Level(ParseFloat(levels[0].0), ParseFloat(levels[0].1))] + MapLevels(levels[1..])
  }

  /** The order book is stamped with the local clock `now` (`Date.now()`); None (a
      `TypeError`) when either side is missing. */
  function ProcessOrderBookData(data: RawMessage, now: int): (r: Option<OrderBook>)
    ensures r.None? <==> data.asks.None? || data.bids.None?
    ensures r.Some? ==> r.value.timestamp == now
    ensures r.Some? ==> |r.value.asks| == |data.asks.value| && |r.value.bids| == |data.bids.value|
  {
    if data.asks.None? || data.bids.None? then None
    else Some(OrderBook(now, MapLevels(data.asks.value), MapLevels(data.bids.value)))
  }

  function ProcessTradeData(data: RawMessage): (r: Trade)
    ensures r.timestamp == data.tradeTime && r.isBuyerMaker == data.buyerIsMaker
  {
    Trade(data.tradeTime, ParseFloat(data.price), ParseFloat(data.quantity), data.buyerIsMaker)
  }

  function ProcessFundingRateData(data: RawMessage): (r: Funding)
    ensures r.timestamp == data.eventTime
  {
    Funding(data.eventTime, ParseFloat(data.rate), ParseFloat(data.price))
  }

  /** `processData(type, data)`; None when the chosen mapper throws. */
  function ProcessData(streamType: string, data: RawMessage, now: int): Option<Processed> {
    if StartsWith(streamType, "kline") then
      var k := ProcessKlineData(data);
      if k.None? then None else Some(KlineRecord(k.value))
    else if streamType == "depth20" then
      var b := ProcessOrderBookData(data, now);
      if b.None? then None else Some(OrderBookRecord(b.value))
    else if streamType == "aggTrade" then Some(TradeRecord(ProcessTradeData(data)))
    else if streamType == "markPrice" then Some(FundingRecord(ProcessFundingRateData(data)))
    else Some(Passthrough(data))
  }

  /** The dispatch, stated per outcome: each mapper is chosen exactly for its stream
      types, it throws exactly when the field it maps is missing, and every other
      type returns the message unchanged. */
  lemma ProcessDataRoutes(streamType: string, data: RawMessage, now: int)
    ensures ProcessData(streamType, data, now).None? <==>
              (StartsWith(streamType, "kline") && data.kline.None?) ||
              (streamType == "depth20" && (data.asks.None? || data.bids.None?))
    ensures ProcessData(streamType, data, now).Some? && ProcessData(streamType, data, now).value.KlineRecord? <==>
              StartsWith(streamType, "kline") && data.kline.Some?
    ensures ProcessData(streamType, data, now).Some? && ProcessData(streamType, data, now).value.OrderBookRecord? <==>
              streamType == "depth20" && data.asks.Some? && data.bids.Some?
    ensures ProcessData(streamType, data, now).Some? && ProcessData(streamType, data, now).value.TradeRecord? <==>
              streamType == "aggTrade"
    ensures ProcessData(streamType, data, now).Some? && ProcessData(streamType, data, now).value.FundingRecord? <==>
              streamType == "markPrice"
    ensures ProcessData(streamType, data, now).Some? && ProcessData(streamType, data, now).value.Passthrough? ==>
              ProcessData(streamType, data, now).value == Passthrough(data)
  {
    assert !StartsWith("depth20", "kline") by { assert "depth20"[..5][0] != "kline"[0]; }
    assert !StartsWith("aggTrade", "kline") by { assert "aggTrade"[..5][0] != "kline"[0]; }
    assert !StartsWith("markPrice", "kline") by { assert "markPrice"[..5][0] != "kline"[0]; }
  }

  /** The kline record carries the message's interval, open time and closed flag, and
      each price field is the parsed string of the same name. */
  lemma KlineFields(streamType: string, data: RawMessage, now: int)
    requires StartsWith(streamType, "kline") && data.kline.Some?
    ensures var r := ProcessData(streamType, data, now);
      var k := data.kline.value;
      && r.Some? && r.value == KlineRecord(r.value.kline)
      && r.value.kline.interval == k.interval
      && r.value.kline.timestamp == k.openTime
      && r.value.kline.isClosed == k.isClosed
      && r.value.kline.open == ParseFloat(k.open)
      && r.value.kline.high == ParseFloat(k.high)
      && r.value.kline.low == ParseFloat(k.low)
      && r.value.kline.close == ParseFloat(k.close)
      && r.value.kline.volume == ParseFloat(k.volume)
  {
  }

  /** The order book keeps the order and length of both sides. */
  lemma OrderBookFields(data: RawMessage, now: int)
    requires data.asks.Some? && data.bids.Some?
    ensures var r := ProcessData("depth20", data, now);
      var asks := data.asks.value;
      var bids := data.bids.value;
      && r.Some? && r.value.OrderBookRecord?
      && r.value.book.timestamp == now
      && |r.value.book.asks| == |asks| && |r.value.book.bids| == |bids|
      && (forall i :: 0 <= i < |asks| ==>
            r.value.book.asks[i] == Level(ParseFloat(asks[i].0), ParseFloat(asks[i].1)))
      && (forall i :: 0 <= i < |bids| ==>
            r.value.book.bids[i] == Level(ParseFloat(bids[i].0), ParseFloat(bids[i].1)))
  {
    ProcessDataRoutes("depth20", data, now);
  }

  /** Trade and funding records take their timestamps from `T` and `E`. */
  lemma TradeAndFundingFields(data: RawMessage, now: int)
    ensures ProcessData("aggTrade", data, now) ==
              Some(TradeRecord(Trade(data.tradeTime, ParseFloat(data.price), ParseFloat(data.quantity), data.buyerIsMaker)))
    ensures ProcessData("markPrice", data, now) ==
              Some(FundingRecord(Funding(data.eventTime, ParseFloat(data.rate), ParseFloat(data.price))))
  {
    ProcessDataRoutes("aggTrade", data, now);
    ProcessDataRoutes("markPrice", data, now);
  }

  /** Every tagged output is one of the cases the store handles, and only a
      pass-through has no tag. */
  lemma ProcessedTagsAreStored(streamType: string, data: RawMessage, now: int)
    ensures var r := ProcessData(streamType, data, now);
      r.Some? ==> (TypeTag(r.value).Some? ==> TypeTag(r.value).value in StoredTags) &&
                  (TypeTag(r.value).None? <==> r.value.Passthrough?)
  {
  }
}
