/** The CoinGecko proxy route (app/api/crypto/route.ts): daily price and volume
    series are turned into exchange-style kline records. The upstream call is a
    parameter; numbers stay numbers (their `toString` text is not modelled). */
module CryptoRoute {

  import opened Wrappers
  import opened Text
  import opened Seqs
  import opened QueryParams

  const CoinGeckoApi: string := "https://api.coingecko.com/api/v3"
  const DayMs: int := 86400000
  const InvalidFormat: string := "Invalid market data format"
  /** A stand-in for the `message` of the `TypeError` that spreading a missing
      `total_volumes` throws. */
  const NotIterable: string := "total_volumes is not iterable"

  /** One `[timestamp, value]` pair of a CoinGecko series. */
  datatype Point = Point(time: int, value: real)

  /** The upstream body; a series is `None` when it is missing or not an array. */
  datatype MarketData = MarketData(prices: Option<seq<Point>>, totalVolumes: Option<seq<Point>>)

  datatype CgKline = CgKline(time: int, open: real, high: real, low: real, close: real, volume: real,
                             closeTime: int, quoteAssetVolume: real, trades: int,
                             takerBuyBaseAssetVolume: real, takerBuyQuoteAssetVolume: real, ignore: string)

  function TimeKey(p: Point): real {
    p.time as real
  }

  function RMax(a: real, b: real): real {
    if a >= b then a else b
  }

  function RMin(a: real, b: real): real {
    if a <= b then a else b
  }

  /** The index `find` stops at: the first point with the timestamp, or the length. */
  function FindIndex(points: seq<Point>, t: int): (i: nat)
    ensures i <= |points|
    ensures i < |points| ==> points[i].time == t
    ensures forall j :: 0 <= j < i ==> points[j].time != t
  {
    if points == [] then 0 else if points[0].time == t then 0 else 1 + FindIndex(points[1..], t)
  }

  /** `(vols.find(v => v[0] === t) || [t, 0])[1]`. */
  function FindVolume(vols: seq<Point>, t: int): real {
    var i := FindIndex(vols, t);
    if i < |vols| then vols[i].value else 0.0
  }

  /** The record for the `i`-th sorted price point. */
  function KlineAt(prices: seq<Point>, vols: seq<Point>, i: nat): CgKline
    requires i < |prices|
  {
    var time := prices[i].time;
    var close := prices[i].value;
    var volume := FindVolume(vols, time);
    var open := if i > 0 then prices[i - 1].value else close;
    CgKline(time, open, RMax(open, close) * 1.005, RMin(open, close) * 0.995, close, volume,
            time + DayMs, volume * close, (volume / 10.0).Floor, volume * 0.6, volume * close * 0.6, "0")
  }

  /** `convertToKlineFormat`: sorted copies of both series, then one record per price. */
  function ConvertToKlineFormat(m: Option<MarketData>): Result<seq<CgKline>> {
    if m.None? || m.value.prices.None? then Failure(InvalidFormat)
    else if m.value.totalVolumes.None? then Failure(NotIterable)
    else
      var prices := SortBy(m.value.prices.value, TimeKey);
      var vols := SortBy(m.value.totalVolumes.value, TimeKey);
      Success(seq(|prices|, i requires 0 <= i < |prices| => KlineAt(prices, vols, i)))
  }

  predicate WellFormed(m: Option<MarketData>) {
    m.Some? && m.value.prices.Some? && m.value.totalVolumes.Some?
  }

  /** Missing data or a missing price series is 'Invalid market data format'; a
      missing volume series throws while being copied; anything else converts. */
  lemma ConvertErrors(m: Option<MarketData>)
    ensures m.None? || m.value.prices.None? ==> ConvertToKlineFormat(m) == Failure(InvalidFormat)
    ensures m.Some? && m.value.prices.Some? && m.value.totalVolumes.None? ==>
              ConvertToKlineFormat(m) == Failure(NotIterable)
    ensures ConvertToKlineFormat(m).Success? <==> WellFormed(m)
  {
  }

  /** One record per price point, in ascending time order, and the records' time and
      close pairs are exactly the input's price points. */
  lemma ConvertOrder(m: Option<MarketData>)
    requires WellFormed(m)
    ensures var r := ConvertToKlineFormat(m).value;
      && |r| == |m.value.prices.value|
      && (forall i, j :: 0 <= i < j < |r| ==> r[i].time <= r[j].time)
      && multiset(seq(|r|, i requires 0 <= i < |r| => Point(r[i].time, r[i].close))) == multiset(m.value.prices.value)
  {
    var prices := SortBy(m.value.prices.value, TimeKey);
    var r := ConvertToKlineFormat(m).value;
    SortBySorted(m.value.prices.value, TimeKey);
    assert seq(|r|, i requires 0 <= i < |r| => Point(r[i].time, r[i].close)) == prices;
    forall i, j | 0 <= i < j < |r|
      ensures r[i].time <= r[j].time
    {
      assert TimeKey(prices[i]) <= TimeKey(prices[j]);
    }
  }

  /** Each open is the previous close; the first record opens at its own close. */
  lemma OpenIsPreviousClose(m: Option<MarketData>)
    requires WellFormed(m)
    ensures var r := ConvertToKlineFormat(m).value;
      && (|r| > 0 ==> r[0].open == r[0].close)
      && forall i :: 0 < i < |r| ==> r[i].open == r[i - 1].close
  {
  }

  /** A record's volume is that of the first equal-timestamp entry of the sorted
      volume series, which is an entry of the input with that timestamp; with no such
      entry the volume is 0. */
  lemma VolumeByTimestamp(m: Option<MarketData>, i: nat)
    requires WellFormed(m)
    requires i < |ConvertToKlineFormat(m).value|
    ensures var k := ConvertToKlineFormat(m).value[i];
      var vols := m.value.totalVolumes.value;
      && k.volume == FindVolume(SortBy(vols, TimeKey), k.time)
      && ((forall p :: p in vols ==> p.time != k.time) ==> k.volume == 0.0)
      && ((exists p :: p in vols && p.time == k.time) ==> Point(k.time, k.volume) in vols)
  {
    var vols := m.value.totalVolumes.value;
    var sorted := SortBy(vols, TimeKey);
    var k := ConvertToKlineFormat(m).value[i];
    var j := FindIndex(sorted, k.time);
    assert forall p :: p in sorted <==> p in vols by {
      assert multiset(sorted) == multiset(vols);
      forall p ensures p in sorted <==> p in vols {
        assert p in sorted <==> p in multiset(sorted);
      }
    }
    if j < |sorted| {
      assert sorted[j] == Point(k.time, k.volume);
      assert sorted[j] in sorted;
    } else {
      assert forall p :: p in sorted ==> p.time != k.time;
    }
  }

  /** The `i`-th record is the one built from the `i`-th sorted price point. */
  lemma ConvertAt(m: Option<MarketData>, i: nat)
    requires WellFormed(m)
    requires i < |ConvertToKlineFormat(m).value|
    ensures i < |SortBy(m.value.prices.value, TimeKey)|
    ensures ConvertToKlineFormat(m).value[i] ==
              KlineAt(SortBy(m.value.prices.value, TimeKey), SortBy(m.value.totalVolumes.value, TimeKey), i)
  {
  }

  /** The derived fields of a record: a close time one day on, quote volume as
      volume times close, an estimated trade count of a tenth of the volume rounded
      down, and 60% of the volume as taker buys. */
  lemma DerivedFields(prices: seq<Point>, vols: seq<Point>, i: nat)
    requires i < |prices|
    ensures var k := KlineAt(prices, vols, i);
      && k.time == prices[i].time && k.close == prices[i].value
      && k.closeTime == k.time + 86400000
      && k.quoteAssetVolume == k.volume * k.close
      && k.trades as real <= k.volume / 10.0 < k.trades as real + 1.0
      && k.takerBuyBaseAssetVolume == k.volume * 0.6
      && k.takerBuyQuoteAssetVolume == k.volume * k.close * 0.6
      && k.ignore == "0"
  {
    var k := KlineAt(prices, vols, i);
    var tenth := k.volume / 10.0;
    assert k.trades == tenth.Floor;
  }

  /** With positive prices the synthetic high and low bracket the open and close:
      the high is 0.5% above the larger, the low 0.5% below the smaller. */
  lemma PriceBand(m: Option<MarketData>, i: nat)
    requires WellFormed(m)
    requires forall p :: p in m.value.prices.value ==> p.value > 0.0
    requires i < |ConvertToKlineFormat(m).value|
    ensures var k := ConvertToKlineFormat(m).value[i];
      && k.low < RMin(k.open, k.close) <= RMax(k.open, k.close) < k.high
      && k.high == RMax(k.open, k.close) * 1.005
      && k.low == RMin(k.open, k.close) * 0.995
  {
    var prices := SortBy(m.value.prices.value, TimeKey);
    assert forall p :: p in prices ==> p in m.value.prices.value by {
      forall p | p in prices ensures p in m.value.prices.value {
        assert p in multiset(prices);
      }
    }
    assert prices[i] in prices;
    if i > 0 {
      assert prices[i - 1] in prices;
    }
  }

  /** The upstream outcome: a non-OK status, a failure of the call or of the body's
      parse, or the parsed body (`None` for a falsy one). */
  datatype Upstream = NotOk(status: int, statusText: string) | CallFailed(message: string) | Body(data: Option<MarketData>)

  datatype ResponseBody =
    | Klines(klines: seq<CgKline>)
    | ErrorBody(error: string, message: string, code: string)

  datatype Response = Response(status: nat, body: ResponseBody)

  const Unsupported: Response :=
    Response(400, ErrorBody("Unsupported endpoint", "Currently only kline endpoint is supported with CoinGecko API",
                            "UNSUPPORTED_ENDPOINT"))

  function Failed(details: string): Response {
    Response(500, ErrorBody("Failed to fetch from CoinGecko API", details, "COINGECKO_API_ERROR"))
  }

  function OrDefault(v: Option<string>, d: string): string {
    if Given(v) then v.value else d
  }

  function MarketChartUrl(coin: string, currency: string, days: string): string {
    CoinGeckoApi + "/coins/" + coin + "/market_chart?vs_currency=" + currency + "&days=" + days + "&interval=daily"
  }

  /** `GET`: the response, and the URL fetched, if any. */
  function CryptoGet(entries: seq<(string, string)>, upstream: Upstream): (Response, Option<string>) {
    var coin := OrDefault(Lookup(entries, "coin"), "bitcoin");
    var currency := OrDefault(Lookup(entries, "currency"), "usd");
    var days := OrDefault(Lookup(entries, "days"), "30");
    var endpoint := OrDefault(Lookup(entries, "endpoint"), "kline");
    if endpoint != "kline" then (Unsupported, None)
    else
      var url := MarketChartUrl(coin, currency, days);
      match upstream
      case NotOk(status, text) => (Failed("CoinGecko API error: " + IntToString(status) + " " + text), Some(url))
      case CallFailed(message) => (Failed(message), Some(url))
      case Body(data) =>
        var klines := ConvertToKlineFormat(data);
        if klines.Failure? then (Failed(klines.error), Some(url)) else (Response(200, Klines(klines.value)), Some(url))
  }

  /** Only the kline endpoint is served, and it is the default; any other is a 400
      with code UNSUPPORTED_ENDPOINT and no upstream call. Otherwise the market chart
      of the requested coin (bitcoin in usd over 30 days by default) is fetched, and
      a body that converts is answered with 200. */
  lemma CryptoOutcomes(entries: seq<(string, string)>, upstream: Upstream)
    ensures Given(Lookup(entries, "endpoint")) && Lookup(entries, "endpoint").value != "kline" ==>
              CryptoGet(entries, upstream) == (Unsupported, None)
    ensures !Given(Lookup(entries, "endpoint")) || Lookup(entries, "endpoint").value == "kline" ==>
              CryptoGet(entries, upstream).1 == Some(MarketChartUrl(OrDefault(Lookup(entries, "coin"), "bitcoin"),
                                                                   OrDefault(Lookup(entries, "currency"), "usd"),
                                                                   OrDefault(Lookup(entries, "days"), "30")))
    ensures (!Given(Lookup(entries, "endpoint")) || Lookup(entries, "endpoint").value == "kline") &&
            upstream.Body? && ConvertToKlineFormat(upstream.data).Success? ==>
              CryptoGet(entries, upstream).0 == Response(200, Klines(ConvertToKlineFormat(upstream.data).value))
    ensures CryptoGet(entries, upstream).0.status in {200, 400, 500}
  {
  }
}
