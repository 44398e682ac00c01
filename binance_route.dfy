/** The exchange REST proxy route (app/api/binance/route.ts): it maps an endpoint
    name and the request's query parameters to an upstream URL, and reshapes the
    upstream JSON for each endpoint. The upstream call itself is a parameter. */
module BinanceRoute {

  import opened Wrappers
  import opened Numbers
  import opened JsonValue
  import opened QueryParams
  import opened Text

  const SpotApi: string := "https://api.binance.com/api/v3"
  const FuturesApi: string := "https://fapi.binance.com/fapi/v1"
  const InvalidEndpoint: string := "Invalid endpoint"
  const EndpointRequired: string := "Endpoint is required"

  /** One kline row `[openTime, open, high, low, close, volume, closeTime,
      quoteVolume, trades, takerBuyBase, takerBuyQuote, ignore]` under names; the
      twelfth column has no field. Prices are parsed; the rest is copied. */
  datatype KlineOut = KlineOut(time: Json, open: Json, high: Json, low: Json, close: Json, volume: Json,
                               closeTime: Json, quoteVolume: Json, trades: Json,
                               buyBaseVolume: Json, buyQuoteVolume: Json)

  datatype LevelOut = LevelOut(price: Json, quantity: Json)

  datatype TradeOut = TradeOut(id: Json, price: Json, quantity: Json, time: Json,
                               isBuyerMaker: Json, isBestMatch: Json)

  datatype TickerOut = TickerOut(symbol: Json, priceChange: Json, priceChangePercent: Json, lastPrice: Json,
                                 highPrice: Json, lowPrice: Json, volume: Json, quoteVolume: Json)

  datatype FundingOut = FundingOut(symbol: Json, fundingRate: Json, fundingTime: Json, markPrice: Json)

  /** What `formatData` returns, by endpoint; `Raw` is the data passed through. */
  datatype Formatted =
    | Klines(rows: seq<KlineOut>)
    | Book(lastUpdateId: Json, bids: seq<LevelOut>, asks: seq<LevelOut>)
    | Trades(trades: seq<TradeOut>)
    | Ticker(ticker: TickerOut)
    | FundingRate(funding: FundingOut)
    | Raw(data: Json)

  function KlineRow(item: Json): (r: Result<KlineOut>)
    ensures r.Failure? <==> Nullish(item)
  {
    if Nullish(item) then Failure(TypeErrorMessage)
    else Success(KlineOut(At(item, 0), ParsedJson(At(item, 1)), ParsedJson(At(item, 2)), ParsedJson(At(item, 3)),
                          ParsedJson(At(item, 4)), ParsedJson(At(item, 5)), At(item, 6), ParsedJson(At(item, 7)),
                          At(item, 8), ParsedJson(At(item, 9)), ParsedJson(At(item, 10))))
  }

  /** A `[price, quantity]` pair, destructured: the first two elements of an array,
      or the first two characters of a string (a missing one is `undefined`);
      destructuring any other value throws. */
  function LevelPair(pair: Json): (r: Result<LevelOut>)
    ensures r.Failure? <==> !Iterable(pair)
    ensures r.Failure? ==> r.error == NotIterableMessage
    ensures r.Success? ==> r.value == LevelOut(ParsedJson(At(pair, 0)), ParsedJson(At(pair, 1)))
  {
    if !Iterable(pair) then Failure(NotIterableMessage)
    else Success(LevelOut(ParsedJson(At(pair, 0)), ParsedJson(At(pair, 1))))
  }

  /** A string pair splits into characters: `"12"` is price 1 and quantity 2. */
  lemma LevelPairOfString()
    ensures LevelPair(Str("12")) == Success(LevelOut(Number(1.0), Number(2.0)))
  {
    assert At(Str("12"), 0) == Str(NatToString(1));
    assert At(Str("12"), 1) == Str(NatToString(2));
    ParseFloatOfNat(1);
    ParseFloatOfNat(2);
  }

  function TradeRow(trade: Json): (r: Result<TradeOut>)
    ensures r.Failure? <==> Nullish(trade)
  {
    if Nullish(trade) then Failure(TypeErrorMessage)
    else Success(TradeOut(Field(trade, "id"), ParsedJson(Field(trade, "price")), ParsedJson(Field(trade, "qty")),
                          Field(trade, "time"), Field(trade, "isBuyerMaker"), Field(trade, "isBestMatch")))
  }

  function OrderBookData(data: Json): Result<Formatted> {
    if Nullish(data) then Failure(TypeErrorMessage)
    else
      var bids := JsMap(Field(data, "bids"), LevelPair);
      if bids.Failure? then Failure(bids.error)
      else
        var asks := JsMap(Field(data, "asks"), LevelPair);
        if asks.Failure? then Failure(asks.error)
        else Success(Book(Field(data, "lastUpdateId"), bids.value, asks.value))
  }

  function TickerData(data: Json): Result<Formatted> {
    if Nullish(data) then Failure(TypeErrorMessage)
    else Success(Ticker(TickerOut(Field(data, "symbol"), ParsedJson(Field(data, "priceChange")),
                                  ParsedJson(Field(data, "priceChangePercent")), ParsedJson(Field(data, "lastPrice")),
                                  ParsedJson(Field(data, "highPrice")), ParsedJson(Field(data, "lowPrice")),
                                  ParsedJson(Field(data, "volume")), ParsedJson(Field(data, "quoteVolume")))))
  }

  function FundingRateData(data: Json): Result<Formatted> {
    if Nullish(data) then Failure(TypeErrorMessage)
    else Success(FundingRate(FundingOut(Field(data, "symbol"), ParsedJson(Field(data, "fundingRate")),
                                        Field(data, "fundingTime"), ParsedJson(Field(data, "markPrice")))))
  }

  /** `formatData(data, endpoint)`; a failure is the exception the reshaping throws. */
  function FormatData(data: Json, endpoint: string): Result<Formatted> {
    if endpoint == "kline" then
      var rows := JsMap(data, KlineRow);
      if rows.Failure? then Failure(rows.error) else Success(Klines(rows.value))
    else if endpoint == "orderbook" then OrderBookData(data)
    else if endpoint == "trades" then
      var trades := JsMap(data, TradeRow);
      if trades.Failure? then Failure(trades.error) else Success(Trades(trades.value))
    else if endpoint == "ticker24h" then TickerData(data)
    else if endpoint == "fundingRate" then FundingRateData(data)
    else Success(Raw(data))
  }

  /** Klines: one record per row, in order, holding columns 0 to 10 with the price
      columns parsed; a non-array, or a null row, fails. */
  lemma FormatKlines(data: Json)
    ensures !data.Arr? ==> FormatData(data, "kline").Failure?
    ensures data.Arr? ==>
              (FormatData(data, "kline").Success? <==> forall i :: 0 <= i < |data.items| ==> !Nullish(data.items[i]))
    ensures FormatData(data, "kline").Success? ==>
      var r := FormatData(data, "kline").value;
      && r.Klines? && |r.rows| == |data.items|
      && forall i :: 0 <= i < |data.items| ==>
           var row := r.rows[i];
           var item := data.items[i];
           && row.time == At(item, 0)
           && row.open == ParsedJson(At(item, 1)) && row.high == ParsedJson(At(item, 2))
           && row.low == ParsedJson(At(item, 3)) && row.close == ParsedJson(At(item, 4))
           && row.volume == ParsedJson(At(item, 5)) && row.closeTime == At(item, 6)
           && row.quoteVolume == ParsedJson(At(item, 7)) && row.trades == At(item, 8)
           && row.buyBaseVolume == ParsedJson(At(item, 9)) && row.buyQuoteVolume == ParsedJson(At(item, 10))
  {
  }

  /** Both sides of the book keep their length and order, each pair becoming a
      price and a quantity; a side that is not an array, or holds an element that
      cannot be destructured, fails. */
  lemma FormatOrderBook(data: Json)
    ensures Nullish(data) ==> FormatData(data, "orderbook").Failure?
    ensures !Field(data, "bids").Arr? || !Field(data, "asks").Arr? ==> FormatData(data, "orderbook").Failure?
    ensures !Nullish(data) && Field(data, "bids").Arr? && Field(data, "asks").Arr? ==>
      (FormatData(data, "orderbook").Success? <==>
         && (forall i :: 0 <= i < |Field(data, "bids").items| ==> Iterable(Field(data, "bids").items[i]))
         && (forall i :: 0 <= i < |Field(data, "asks").items| ==> Iterable(Field(data, "asks").items[i])))
    ensures FormatData(data, "orderbook").Success? ==>
      var r := FormatData(data, "orderbook").value;
      var bids := Field(data, "bids").items;
      var asks := Field(data, "asks").items;
      && r.Book? && r.lastUpdateId == Field(data, "lastUpdateId")
      && |r.bids| == |bids| && |r.asks| == |asks|
      && (forall i :: 0 <= i < |bids| ==> r.bids[i] == LevelOut(ParsedJson(At(bids[i], 0)), ParsedJson(At(bids[i], 1))))
      && (forall i :: 0 <= i < |asks| ==> r.asks[i] == LevelOut(ParsedJson(At(asks[i], 0)), ParsedJson(At(asks[i], 1))))
  {
  }

  /** Trades: one record per trade, in order, with the quantity read from `qty`. */
  lemma FormatTrades(data: Json)
    ensures !data.Arr? ==> FormatData(data, "trades").Failure?
    ensures FormatData(data, "trades").Success? ==>
      var r := FormatData(data, "trades").value;
      && r.Trades? && |r.trades| == |data.items|
      && forall i :: 0 <= i < |data.items| ==>
           && r.trades[i].quantity == ParsedJson(Field(data.items[i], "qty"))
           && r.trades[i].price == ParsedJson(Field(data.items[i], "price"))
           && r.trades[i].id == Field(data.items[i], "id")
           && r.trades[i].time == Field(data.items[i], "time")
  {
  }

  /** The 24-hour ticker and the funding rate fail only on null or undefined data;
      otherwise every figure is parsed, while `symbol` and `fundingTime` pass
      through unparsed. */
  lemma FormatTickerAndFunding(data: Json)
    ensures FormatData(data, "ticker24h").Failure? <==> Nullish(data)
    ensures FormatData(data, "fundingRate").Failure? <==> Nullish(data)
    ensures FormatData(data, "ticker24h").Success? ==>
              FormatData(data, "ticker24h").value ==
                Ticker(TickerOut(Field(data, "symbol"), ParsedJson(Field(data, "priceChange")),
                                 ParsedJson(Field(data, "priceChangePercent")), ParsedJson(Field(data, "lastPrice")),
                                 ParsedJson(Field(data, "highPrice")), ParsedJson(Field(data, "lowPrice")),
                                 ParsedJson(Field(data, "volume")), ParsedJson(Field(data, "quoteVolume"))))
    ensures FormatData(data, "fundingRate").Success? ==>
              FormatData(data, "fundingRate").value ==
                FundingRate(FundingOut(Field(data, "symbol"), ParsedJson(Field(data, "fundingRate")),
                                       Field(data, "fundingTime"), ParsedJson(Field(data, "markPrice"))))
  {
  }

  /** Any other endpoint name passes the data through unchanged. */
  lemma FormatOtherUnchanged(data: Json, endpoint: string)
    requires endpoint !in {"kline", "orderbook", "trades", "ticker24h", "fundingRate"}
    ensures FormatData(data, endpoint) == Success(Raw(data))
  {
  }

  /** The parameters after `getApiUrl`'s defaulting: a kline request without a
      non-empty interval gets `interval=1d`. */
  function ApiParams(endpoint: string, entries: seq<(string, string)>): seq<(string, string)> {
    if endpoint == "kline" && !Given(Lookup(entries, "interval")) then SetEntry(entries, "interval", "1d")
    else entries
  }

  function BaseFor(endpoint: string): string {
    if endpoint == "fundingRate" then FuturesApi else SpotApi
  }

  function PathFor(endpoint: string): Option<string> {
    if endpoint == "kline" then Some("/klines")
    else if endpoint == "orderbook" then Some("/depth")
    else if endpoint == "trades" then Some("/trades")
    else if endpoint == "ticker24h" then Some("/ticker/24hr")
    else if endpoint == "fundingRate" then Some("/fundingRate")
    else None
  }

  /** The URL `getApiUrl` builds from the (already defaulted) parameters. */
  function ApiUrl(endpoint: string, entries: seq<(string, string)>): Result<string> {
    var path := PathFor(endpoint);
    if path.None? then Failure(InvalidEndpoint)
    else Success(BaseFor(endpoint) + path.value + "?" + Serialize(entries))
  }

  /** The five endpoint names and only they have a URL; only `fundingRate` uses the
      futures base; anything else fails with 'Invalid endpoint'. */
  lemma ApiUrlRoutes(endpoint: string, entries: seq<(string, string)>)
    ensures ApiUrl(endpoint, entries).Success? <==>
              endpoint in {"kline", "orderbook", "trades", "ticker24h", "fundingRate"}
    ensures ApiUrl(endpoint, entries).Failure? ==> ApiUrl(endpoint, entries).error == InvalidEndpoint
    ensures BaseFor(endpoint) == FuturesApi <==> endpoint == "fundingRate"
    ensures endpoint == "kline" ==> ApiUrl(endpoint, entries) == Success(SpotApi + "/klines" + "?" + Serialize(entries))
    ensures endpoint == "orderbook" ==> ApiUrl(endpoint, entries) == Success(SpotApi + "/depth" + "?" + Serialize(entries))
    ensures endpoint == "trades" ==> ApiUrl(endpoint, entries) == Success(SpotApi + "/trades" + "?" + Serialize(entries))
    ensures endpoint == "ticker24h" ==> ApiUrl(endpoint, entries) == Success(SpotApi + "/ticker/24hr" + "?" + Serialize(entries))
    ensures endpoint == "fundingRate" ==> ApiUrl(endpoint, entries) == Success(FuturesApi + "/fundingRate" + "?" + Serialize(entries))
  {
    assert SpotApi != FuturesApi by { assert SpotApi[8] != FuturesApi[8]; }
  }

  /** A kline request gets `interval=1d` exactly when it has no non-empty interval;
      a given interval and every other parameter are kept, as are all parameters of
      other endpoints. */
  lemma KlineIntervalDefault(endpoint: string, entries: seq<(string, string)>, m: string)
    ensures endpoint == "kline" ==>
              Lookup(ApiParams(endpoint, entries), "interval") ==
                if Given(Lookup(entries, "interval")) then Lookup(entries, "interval") else Some("1d")
    ensures m != "interval" ==> Lookup(ApiParams(endpoint, entries), m) == Lookup(entries, m)
    ensures endpoint != "kline" ==> ApiParams(endpoint, entries) == entries
  {
    SetThenGet(entries, "interval", "1d", m);
  }

  /** `getApiUrl(endpoint, params)`. */
  method GetApiUrl(endpoint: string, params: SearchParams) returns (r: Result<string>)
    modifies params
    ensures params.entries == ApiParams(endpoint, old(params.entries))
    ensures r == ApiUrl(endpoint, params.entries)
  {
    var base := if endpoint == "fundingRate" then FuturesApi else SpotApi;
    var interval := params.Get("interval");
    if endpoint == "kline" && (interval.None? || interval.value == "") {
      params.Set("interval", "1d");
    }
    var query := params.ToString();
    if endpoint == "kline" {
      r := Success(base + "/klines" + "?" + query);
    } else if endpoint == "orderbook" {
      r := Success(base + "/depth" + "?" + query);
    } else if endpoint == "trades" {
      r := Success(base + "/trades" + "?" + query);
    } else if endpoint == "ticker24h" {
      r := Success(base + "/ticker/24hr" + "?" + query);
    } else if endpoint == "fundingRate" {
      r := Success(base + "/fundingRate" + "?" + query);
    } else {
      r := Failure(InvalidEndpoint);
    }
  }

  /** What the upstream call returned: a non-OK status, an OK body, or an OK
      response whose body is not JSON. */
  datatype Upstream = NotOk(statusText: string) | Body(json: Json) | BadBody(message: string)

  /** A JSON response: the formatted data, or `{ error: message }`. */
  datatype ResponseBody = Data(formatted: Formatted) | Error(message: string)

  datatype Response = Response(status: nat, body: ResponseBody)

  function ErrorResponse(status: nat, message: string): Response {
    Response(status, Error(message))
  }

  /** `GET`, given the request's parameters and the upstream outcome: the response,
      and the URL fetched, if any. */
  function RouteSpec(entries: seq<(string, string)>, upstream: Upstream): (Response, Option<string>) {
    var endpoint := Lookup(entries, "endpoint");
    if !Given(endpoint) then (ErrorResponse(400, EndpointRequired), None)
    else
      var url := ApiUrl(endpoint.value, ApiParams(endpoint.value, entries));
      if url.Failure? then (ErrorResponse(500, url.error), None)
      else match upstream
        case NotOk(text) => (ErrorResponse(500, "Binance API error: " + text), Some(url.value))
        case BadBody(message) => (ErrorResponse(500, message), Some(url.value))
        case Body(json) =>
          var formatted := FormatData(json, endpoint.value);
          if formatted.Failure? then (ErrorResponse(500, formatted.error), Some(url.value))
          else (Response(200, Data(formatted.value)), Some(url.value))
  }

  /** No endpoint parameter means a 400 and no upstream call; an unknown endpoint a
      500 with 'Invalid endpoint' and no upstream call; a known one whose upstream
      body formats is answered with 200 and the formatted body. */
  lemma RouteOutcomes(entries: seq<(string, string)>, upstream: Upstream)
    ensures !Given(Lookup(entries, "endpoint")) ==>
              RouteSpec(entries, upstream) == (ErrorResponse(400, EndpointRequired), None)
    ensures Given(Lookup(entries, "endpoint")) && PathFor(Lookup(entries, "endpoint").value).None? ==>
              RouteSpec(entries, upstream) == (ErrorResponse(500, InvalidEndpoint), None)
    ensures Given(Lookup(entries, "endpoint")) && PathFor(Lookup(entries, "endpoint").value).Some? &&
            upstream.Body? && FormatData(upstream.json, Lookup(entries, "endpoint").value).Success? ==>
              RouteSpec(entries, upstream).0 ==
                Response(200, Data(FormatData(upstream.json, Lookup(entries, "endpoint").value).value))
  {
  }

  method RouteGet(params: SearchParams, upstream: Upstream) returns (response: Response, fetched: Option<string>)
    modifies params
    ensures (response, fetched) == RouteSpec(old(params.entries), upstream)
  {
    var endpoint := params.Get("endpoint");
    if endpoint.None? || endpoint.value == "" {
      return ErrorResponse(400, EndpointRequired), None;
    }
    var url := GetApiUrl(endpoint.value, params);
    if url.Failure? {
      return ErrorResponse(500, url.error), None;
    }
    fetched := Some(url.value);
    match upstream {
      case NotOk(text) => response := ErrorResponse(500, "Binance API error: " + text);
      case BadBody(message) => response := ErrorResponse(500, message);
      case Body(json) =>
        var formatted := FormatData(json, endpoint.value);
        if formatted.Failure? {
          response := ErrorResponse(500, formatted.error);
        } else {
          response := Response(200, Data(formatted.value));
        }
    }
  }
}
