/** The backend's wiring of the stream client to the store (server.js): each
    `(type, data)` event the client emits is normalised and then stored. */
module Server {

  import opened Wrappers
  import opened Text
  import opened Numbers
  import opened Processor
  import opened Storage
  import opened BinanceService

  /** One message on `endpoint` received at time `now`, from the socket to the store;
      a message that does not parse, or whose mapper throws, is caught in the
      socket's message handler and stores nothing. */
  function PipelineSpec(s: StoreState, endpoint: string, parsed: Option<RawMessage>, now: int): StoreState {
    var ev := Emitted(endpoint, parsed);
    if ev.None? then s
    else
      var p := ProcessData(ev.value.streamType, ev.value.data, now);
      if p.None? then s else StoreSpec(s, p.value)
  }

  /** The pipeline keeps every buffer within its cap. */
  lemma PipelinePreservesCaps(s: StoreState, endpoint: string, parsed: Option<RawMessage>, now: int)
    requires WithinCaps(s)
    ensures WithinCaps(PipelineSpec(s, endpoint, parsed, now))
  {
    var ev := Emitted(endpoint, parsed);
    if ev.Some? {
      var p := ProcessData(ev.value.streamType, ev.value.data, now);
      if p.Some? {
        StorePreservesCaps(s, p.value);
      }
    }
  }

  /** A message on the aggregated-trade stream becomes the latest trade, so the
      latest price is its parsed `p`; a message that fails to parse changes nothing. */
  lemma TradeMessageSetsLastPrice(s: StoreState, symbol: string, data: RawMessage, now: int)
    requires '@' !in symbol
    ensures var r := PipelineSpec(s, symbol + "@aggTrade", Some(data), now);
      && r.trades != []
      && r.trades[|r.trades| - 1] == ProcessTradeData(data)
      && LatestSpec(r).lastPrice == Some(ParseFloat(data.price))
    ensures PipelineSpec(s, symbol + "@aggTrade", None, now) == s
  {
    var t := ProcessTradeData(data);
    var x := StoreSpec(s, TradeRecord(t));
    TradePipelineStores(s, symbol, data, now);
    LatestPriceAfterTrade(s, t);
    assert t.price == ParseFloat(data.price);
    assert PipelineSpec(s, symbol + "@aggTrade", Some(data), now) == x;
    UnparsedChangesNothing(s, symbol + "@aggTrade", now);
  }

  /** A message that did not parse leaves the store as it was. */
  lemma UnparsedChangesNothing(s: StoreState, endpoint: string, now: int)
    ensures PipelineSpec(s, endpoint, None, now) == s
  {
  }

  /** An aggregated-trade stream's message reaches the trade store. */
  lemma TradePipelineStores(s: StoreState, symbol: string, data: RawMessage, now: int)
    requires '@' !in symbol
    ensures PipelineSpec(s, symbol + "@aggTrade", Some(data), now) == StoreSpec(s, TradeRecord(ProcessTradeData(data)))
  {
    AggTradeStreamType(symbol);
    TradeAndFundingFields(data, now);
  }

  /** A message on a kline stream lands in the buffer of the interval the message
      names, as its newest candle when that interval has a configured cap. */
  lemma KlineMessageStored(s: StoreState, symbol: string, interval: string, data: RawMessage, now: int)
    requires '@' !in symbol
    requires data.kline.Some? && data.kline.value.interval in KlineCaps
    requires var i := data.kline.value.interval; i in s.klines && |s.klines[i]| <= KlineCaps[i]
    ensures var r := PipelineSpec(s, KlineEndpoint(symbol, interval), Some(data), now);
      var buffer := r.klines[data.kline.value.interval];
      buffer != [] && buffer[|buffer| - 1] == ProcessKlineData(data).value
  {
    KlinePipelineStores(s, symbol, interval, data, now);
    StoredKlineLast(s, ProcessKlineData(data).value);
  }

  /** A kline stream's message reaches the kline store. */
  lemma KlinePipelineStores(s: StoreState, symbol: string, interval: string, data: RawMessage, now: int)
    requires '@' !in symbol && data.kline.Some?
    ensures PipelineSpec(s, KlineEndpoint(symbol, interval), Some(data), now) ==
              StoreKlineSpec(s, ProcessKlineData(data).value)
  {
    var endpoint := KlineEndpoint(symbol, interval);
    KlineStreamType(symbol, interval);
    assert Emitted(endpoint, Some(data)) == Some(DataEvent("kline", data));
    assert StartsWith("kline", "kline");
    assert ProcessData("kline", data, now) == Some(KlineRecord(ProcessKlineData(data).value));
  }

  /** A kline message without `k`, or an order-book message without `asks` or
      `bids`, makes its mapper throw; the handler catches it and the store is left
      as it was. */
  lemma MissingFieldChangesNothing(s: StoreState, symbol: string, interval: string, data: RawMessage, now: int)
    requires '@' !in symbol
    ensures data.kline.None? ==> PipelineSpec(s, KlineEndpoint(symbol, interval), Some(data), now) == s
    ensures data.asks.None? || data.bids.None? ==> PipelineSpec(s, symbol + "@depth20@100ms", Some(data), now) == s
  {
    KlineStreamType(symbol, interval);
    assert Emitted(KlineEndpoint(symbol, interval), Some(data)) == Some(DataEvent("kline", data));
    assert StartsWith("kline", "kline");
    DepthStreamType(symbol);
    assert Emitted(symbol + "@depth20@100ms", Some(data)) == Some(DataEvent("depth20", data));
    ProcessDataRoutes("depth20", data, now);
  }

  /** The `data` listener: process, then store. */
  method OnData(service: BinanceService, storage: StorageService, endpoint: string,
                parsed: Option<RawMessage>, now: int)
    requires storage.Valid()
    modifies storage
    ensures storage.Valid()
    ensures storage.State() == PipelineSpec(old(storage.State()), endpoint, parsed, now)
  {
    var ev := service.OnMessage(endpoint, parsed);
    if ev.Some? {
      var processed := ProcessData(ev.value.streamType, ev.value.data, now);
      if processed.Some? {
        storage.Store(processed.value);
      }
    }
  }
}
