/** The backend in-memory series store (backend/services/storageService.js): one
    FIFO buffer per kline interval, one for trades and one for funding samples, each
    with its own capacity; a single order-book slot that every write replaces;
    running trade-volume totals by size class; an age sweep; and reads with an
    optional time frame such as "24h" or "7d". */
module Storage {

  import opened Wrappers
  import opened Numbers
  import opened Text
  import opened Seqs
  import opened Processor
  import opened QueryParams

  /** Ninety days in milliseconds: the retention horizon. */
  const MaxAgeMs: int := 90 * 24 * 60 * 60 * 1000

  const KlineIntervals: seq<string> := ["1m", "15m", "1h", "4h", "1d"]

  /** Per-interval kline capacities: ninety days of candles of each width. */
  const KlineCaps: map<string, nat> :=
    map["1m" := 129600, "15m" := 8640, "1h" := 2160, "4h" := 540, "1d" := 90]

  const TradeCap: nat := 1000000

  /** Ninety days of hourly funding samples. */
  const FundingCap: nat := 2160

  /** `maxItems.klines[interval]`, which is undefined for an unconfigured interval. */
  function CapOf(interval: string): Option<nat> {
    if interval in KlineCaps then Some(KlineCaps[interval]) else None
  }

  /** Push, then shift once if the buffer is now longer than the cap. An undefined
      cap never compares greater, so nothing is shifted. */
  function AppendCapped<T>(buffer: seq<T>, x: T, cap: Option<nat>): seq<T> {
    var pushed := buffer + [x];
    if cap.Some? && |pushed| > cap.value then pushed[1..] else pushed
  }

  /** Under a cap the buffer stays within it, the new element is last, and the oldest
      element is dropped exactly when the buffer was full. */
  lemma AppendCappedBounded<T>(buffer: seq<T>, x: T, cap: nat)
    requires |buffer| <= cap
    ensures var r := AppendCapped(buffer, x, Some(cap));
      && |r| <= cap
      && (|buffer| < cap ==> r == buffer + [x])
      && (0 < |buffer| == cap ==> r == buffer[1..] + [x])
      && (cap > 0 ==> r[|r| - 1] == x)
  {
    if 0 < |buffer| == cap {
      assert (buffer + [x])[1..] == buffer[1..] + [x];
    }
  }

  /** Without a cap the buffer only grows. */
  lemma AppendUncapped<T>(buffer: seq<T>, x: T)
    ensures AppendCapped(buffer, x, None) == buffer + [x]
    ensures |AppendCapped(buffer, x, None)| == |buffer| + 1
  {
  }

  function KlineTime(k: Kline): int { k.timestamp }
  function TradeTime(t: Trade): int { t.timestamp }
  function FundingTime(f: Funding): int { f.timestamp }

  /** The records whose timestamp is strictly greater than `cutoff`, in order;
      nothing passes a NaN cutoff. */
  function Newer<T>(buffer: seq<T>, time: T -> int, cutoff: Num): seq<T> {
    Filter(buffer, x => Greater(Real(time(x) as real), cutoff))
  }

  /** `r` is what filtering `buffer` by `time(x) > cutoff` leaves: exactly the
      records after the cutoff, every copy of each, in their original order. */
  ghost predicate ExactlyNewer<T(!new)>(r: seq<T>, buffer: seq<T>, time: T -> int, cutoff: real) {
    && (forall x :: x in r <==> x in buffer && time(x) as real > cutoff)
    && (forall x :: multiset(r)[x] == if time(x) as real > cutoff then multiset(buffer)[x] else 0)
    && SubsequenceOf(r, buffer)
  }

  /** Exactly the records after the cutoff survive, with their multiplicity and in
      their original order. */
  lemma NewerKeepsExactly<T(!new)>(buffer: seq<T>, time: T -> int, cutoff: real)
    ensures ExactlyNewer(Newer(buffer, time, Real(cutoff)), buffer, time, cutoff)
  {
    FilterMembers(buffer, x => Greater(Real(time(x) as real), Real(cutoff)));
    FilterCounts(buffer, x => Greater(Real(time(x) as real), Real(cutoff)));
    FilterIsSubsequence(buffer, x => Greater(Real(time(x) as real), Real(cutoff)));
  }

  /** A second sweep with the same cutoff removes nothing more. */
  lemma NewerIdempotent<T>(buffer: seq<T>, time: T -> int, cutoff: Num)
    ensures Newer(Newer(buffer, time, cutoff), time, cutoff) == Newer(buffer, time, cutoff)
  {
    FilterIdempotent(buffer, x => Greater(Real(time(x) as real), cutoff));
  }

  /** Running quantity totals by trade size (price times quantity). */
  datatype Volumes = Volumes(superLarge: Num, large: Num, medium: Num, small: Num)

  const ZeroVolumes: Volumes := Volumes(Real(0.0), Real(0.0), Real(0.0), Real(0.0))

  datatype SizeClass = SuperLarge | Large | Medium | Small

  /** The size class of a trade value; every bound is strict, and a NaN value fails
      every comparison and lands in `Small`. */
  function SizeClassOf(value: Num): SizeClass {
    if Greater(value, Real(100000.0)) then SuperLarge
    else if Greater(value, Real(10000.0)) then Large
    else if Greater(value, Real(1000.0)) then Medium
    else Small
  }

  function Bucket(v: Volumes, c: SizeClass): Num {
    match c
    case SuperLarge => v.superLarge
    case Large => v.large
    case Medium => v.medium
    case Small => v.small
  }

  /** `updateVolumeClassification`: the trade's quantity is added to the total of its
      size class. */
  function Classified(v: Volumes, t: Trade): Volumes {
    var q := t.quantity;
    match SizeClassOf(Times(t.price, t.quantity))
    case SuperLarge => v.(superLarge := Plus(v.superLarge, q))
    case Large => v.(large := Plus(v.large, q))
    case Medium => v.(medium := Plus(v.medium, q))
    case Small => v.(small := Plus(v.small, q))
  }

  /** The thresholds, stated as ranges of the trade value. */
  lemma SizeClassRanges(value: real)
    ensures SizeClassOf(Real(value)) == SuperLarge <==> value > 100000.0
    ensures SizeClassOf(Real(value)) == Large <==> 10000.0 < value <= 100000.0
    ensures SizeClassOf(Real(value)) == Medium <==> 1000.0 < value <= 10000.0
    ensures SizeClassOf(Real(value)) == Small <==> value <= 1000.0
    ensures SizeClassOf(NaN) == Small
  {
  }

  /** Exactly one total changes, by the trade's quantity: that of the trade's size class. */
  lemma ClassifiedTouchesOneBucket(v: Volumes, t: Trade, c: SizeClass)
    ensures var cls := SizeClassOf(Times(t.price, t.quantity));
      Bucket(Classified(v, t), c) == if c == cls then Plus(Bucket(v, c), t.quantity) else Bucket(v, c)
  {
  }

  /** The whole state of the store. */
  datatype StoreState = StoreState(
    klines: map<string, seq<Kline>>,
    orderbook: Option<OrderBook>,
    trades: seq<Trade>,
    funding: seq<Funding>,
    volumes: Volumes)

  /** The capacity invariant: every configured buffer is within its cap. */
  ghost predicate WithinCaps(s: StoreState) {
    && (forall i :: i in s.klines && i in KlineCaps ==> |s.klines[i]| <= KlineCaps[i])
    && |s.trades| <= TradeCap
    && |s.funding| <= FundingCap
  }

  function BufferOf(klines: map<string, seq<Kline>>, interval: string): seq<Kline> {
    if interval in klines then klines[interval] else []
  }

  /** `storeKline`: the interval's buffer (created empty if missing) gets the kline. */
  function StoreKlineSpec(s: StoreState, k: Kline): StoreState {
    s.(klines := s.klines[k.interval := AppendCapped(BufferOf(s.klines, k.interval), k, CapOf(k.interval))])
  }

  /** A kline whose interval has a cap ends up last in its interval's buffer. */
  lemma StoredKlineLast(s: StoreState, k: Kline)
    requires k.interval in KlineCaps
    requires k.interval in s.klines && |s.klines[k.interval]| <= KlineCaps[k.interval]
    ensures var buffer := StoreKlineSpec(s, k).klines[k.interval];
      buffer != [] && buffer[|buffer| - 1] == k
  {
    assert StoreKlineSpec(s, k).klines[k.interval] == AppendCapped(s.klines[k.interval], k, Some(KlineCaps[k.interval]));
    AppendCappedBounded(s.klines[k.interval], k, KlineCaps[k.interval]);
  }

  function StoreTradeSpec(s: StoreState, t: Trade): StoreState {
    s.(trades := AppendCapped(s.trades, t, Some(TradeCap)), volumes := Classified(s.volumes, t))
  }

  function StoreFundingSpec(s: StoreState, f: Funding): StoreState {
    s.(funding := AppendCapped(s.funding, f, Some(FundingCap)))
  }

  /** `store`: dispatch on the record's type tag; an untagged value changes nothing. */
  function StoreSpec(s: StoreState, p: Processed): StoreState {
    match p
    case KlineRecord(k) => StoreKlineSpec(s, k)
    case OrderBookRecord(b) => s.(orderbook := Some(b))
    case TradeRecord(t) => StoreTradeSpec(s, t)
    case FundingRecord(f) => StoreFundingSpec(s, f)
    case Passthrough(_) => s
  }

  /** Every write keeps every configured buffer within its cap. */
  lemma StorePreservesCaps(s: StoreState, p: Processed)
    requires WithinCaps(s)
    ensures WithinCaps(StoreSpec(s, p))
  {
    match p
    case KlineRecord(k) =>
      var r := StoreSpec(s, p);
      forall i | i in r.klines && i in KlineCaps
        ensures |r.klines[i]| <= KlineCaps[i]
      {
        if i == k.interval {
          AppendCappedBounded(BufferOf(s.klines, i), k, KlineCaps[i]);
        }
      }
    case TradeRecord(t) => AppendCappedBounded(s.trades, t, TradeCap);
    case FundingRecord(f) => AppendCappedBounded(s.funding, f, FundingCap);
    case _ =>
  }

  /** A kline for a configured interval that was at capacity drops the oldest candle
      and ends with the new one; no other series changes. */
  lemma StoreKlineAtCapacity(s: StoreState, k: Kline)
    requires k.interval in s.klines && k.interval in KlineCaps
    requires |s.klines[k.interval]| == KlineCaps[k.interval]
    ensures var r := StoreSpec(s, KlineRecord(k));
      && r.klines[k.interval] == s.klines[k.interval][1..] + [k]
      && (forall i :: i in s.klines && i != k.interval ==> i in r.klines && r.klines[i] == s.klines[i])
      && r.trades == s.trades && r.funding == s.funding && r.orderbook == s.orderbook
  {
    AppendCappedBounded(s.klines[k.interval], k, KlineCaps[k.interval]);
  }

  /** A kline for an interval without a configured cap is appended and nothing is
      evicted, however long its buffer is. */
  lemma StoreKlineUncapped(s: StoreState, k: Kline)
    requires k.interval !in KlineCaps
    ensures var r := StoreSpec(s, KlineRecord(k));
      r.klines[k.interval] == BufferOf(s.klines, k.interval) + [k]
  {
  }

  /** A trade stored at capacity evicts the oldest trade (FIFO). */
  lemma StoreTradeFifo(s: StoreState, t: Trade)
    requires |s.trades| == TradeCap
    ensures StoreSpec(s, TradeRecord(t)).trades == s.trades[1..] + [t]
  {
    AppendCappedBounded(s.trades, t, TradeCap);
  }

  /** A funding sample stored at capacity evicts the oldest sample (FIFO). */
  lemma StoreFundingFifo(s: StoreState, f: Funding)
    requires |s.funding| == FundingCap
    ensures StoreSpec(s, FundingRecord(f)).funding == s.funding[1..] + [f]
  {
    AppendCappedBounded(s.funding, f, FundingCap);
  }

  /** The order book is one slot: a new snapshot replaces the old, and nothing else
      changes; an untagged value changes nothing at all. */
  lemma StoreOrderBookReplaces(s: StoreState, b: OrderBook, m: RawMessage)
    ensures StoreSpec(s, OrderBookRecord(b)) == s.(orderbook := Some(b))
    ensures StoreSpec(StoreSpec(s, OrderBookRecord(b)), OrderBookRecord(b)) == StoreSpec(s, OrderBookRecord(b))
    ensures StoreSpec(s, Passthrough(m)) == s
  {
  }

  /** `cleanOldData` at time `now` (milliseconds) whose local wall-clock reading is
      `hours`:`minutes`: every buffer keeps the records strictly newer than
      `now - maxAge`, and the volume totals are zeroed when the sweep runs in the
      first minute after midnight. */
  function CleanSpec(s: StoreState, now: int, hours: nat, minutes: nat): StoreState {
    var cutoff := Real((now - MaxAgeMs) as real);
    s.(klines := map i | i in s.klines :: Newer(s.klines[i], KlineTime, cutoff),
       trades := Newer(s.trades, TradeTime, cutoff),
       funding := Newer(s.funding, FundingTime, cutoff),
       volumes := if hours == 0 && minutes == 0 then ZeroVolumes else s.volumes)
  }

  /** The sweep keeps exactly the records newer than the cutoff, in every buffer,
      with their multiplicity and order; a record stamped at exactly the cutoff is
      removed. */
  lemma CleanKeepsExactlyNewer(s: StoreState, now: int, hours: nat, minutes: nat)
    ensures var r := CleanSpec(s, now, hours, minutes);
      var c := (now - MaxAgeMs) as real;
      && r.klines.Keys == s.klines.Keys
      && (forall i :: i in s.klines ==> ExactlyNewer(r.klines[i], s.klines[i], KlineTime, c))
      && ExactlyNewer(r.trades, s.trades, TradeTime, c)
      && ExactlyNewer(r.funding, s.funding, FundingTime, c)
      && r.orderbook == s.orderbook
      && r.volumes == (if hours == 0 && minutes == 0 then ZeroVolumes else s.volumes)
  {
    var c := (now - MaxAgeMs) as real;
    forall i | i in s.klines
      ensures ExactlyNewer(CleanSpec(s, now, hours, minutes).klines[i], s.klines[i], KlineTime, c)
    {
      NewerKeepsExactly(s.klines[i], KlineTime, c);
    }
    NewerKeepsExactly(s.trades, TradeTime, c);
    NewerKeepsExactly(s.funding, FundingTime, c);
  }

  /** A second sweep at the same time is a no-op. */
  lemma CleanIdempotent(s: StoreState, now: int, hours: nat, minutes: nat)
    ensures CleanSpec(CleanSpec(s, now, hours, minutes), now, hours, minutes) == CleanSpec(s, now, hours, minutes)
  {
    var c := Real((now - MaxAgeMs) as real);
    var once := CleanSpec(s, now, hours, minutes);
    forall i | i in s.klines
      ensures Newer(once.klines[i], KlineTime, c) == once.klines[i]
    {
      NewerIdempotent(s.klines[i], KlineTime, c);
    }
    NewerIdempotent(s.trades, TradeTime, c);
    NewerIdempotent(s.funding, FundingTime, c);
  }

  /** The sweep never grows a buffer, so it keeps the capacity invariant. */
  lemma CleanPreservesCaps(s: StoreState, now: int, hours: nat, minutes: nat)
    requires WithinCaps(s)
    ensures WithinCaps(CleanSpec(s, now, hours, minutes))
  {
  }

  /** `parseTimeframe`: the integer before the last character, times the length of
      the unit the last character names (h, d, w, m, case-insensitive); any other
      unit gives the retention horizon. */
  function ParseTimeframe(timeframe: string): Num {
    var value := ParseInt(if timeframe == [] then [] else timeframe[..|timeframe| - 1]);
    var unit := if timeframe == [] then [] else Lower([timeframe[|timeframe| - 1]]);
    if unit == "h" then Times(value, Real(3600000.0))
    else if unit == "d" then Times(value, Real(86400000.0))
    else if unit == "w" then Times(value, Real(604800000.0))
    else if unit == "m" then Times(value, Real(2592000000.0))
    else Real(MaxAgeMs as real)
  }

  /** A count followed by a unit letter. */
  lemma ParseTimeframeUnits(n: nat, unit: char)
    ensures var tf := NatToString(n) + [unit];
      && (unit == 'h' || unit == 'H' ==> ParseTimeframe(tf) == Real(n as real * 3600000.0))
      && (unit == 'd' || unit == 'D' ==> ParseTimeframe(tf) == Real(n as real * 86400000.0))
      && (unit == 'w' || unit == 'W' ==> ParseTimeframe(tf) == Real(n as real * 604800000.0))
      && (unit == 'm' || unit == 'M' ==> ParseTimeframe(tf) == Real(n as real * 2592000000.0))
      && (LowerChar(unit) !in "hdwm" ==> ParseTimeframe(tf) == Real(MaxAgeMs as real))
  {
    var tf := NatToString(n) + [unit];
    assert tf[..|tf| - 1] == NatToString(n);
    assert tf[|tf| - 1] == unit;
    ParseIntOfInt(n);
    assert IntToString(n) == NatToString(n);
    assert ParseInt(tf[..|tf| - 1]) == Real(n as real);
    var u := Lower([tf[|tf| - 1]]);
    assert u == [LowerChar(unit)];
    if unit == 'h' || unit == 'H' {
      assert u == "h";
    } else if unit == 'd' || unit == 'D' {
      assert u == "d";
    } else if unit == 'w' || unit == 'W' {
      assert u == "w";
    } else if unit == 'm' || unit == 'M' {
      assert u == "m";
    } else if LowerChar(unit) !in "hdwm" {
      assert u != "h" && u != "d" && u != "w" && u != "m";
    }
  }

  /** What `getData` returns. */
  datatype View =
    | KlineList(klines: seq<Kline>)
    | KlineTable(table: map<string, seq<Kline>>)
    | BookView(book: Option<OrderBook>)
    | TradeList(trades: seq<Trade>)
    | FundingList(funding: seq<Funding>)
    | VolumeView(volumes: Volumes)
    | NoData   // undefined

  /** `this.data[type]`. */
  function DataOf(s: StoreState, dataType: string): View {
    if dataType == "klines" then KlineTable(s.klines)
    else if dataType == "orderbook" then BookView(s.orderbook)
    else if dataType == "trades" then TradeList(s.trades)
    else if dataType == "funding" then FundingList(s.funding)
    else if dataType == "volumes" then VolumeView(s.volumes)
    else NoData
  }

  /** `getData(type, timeframe, interval)` at time `now`. */
  function GetDataSpec(s: StoreState, dataType: string, timeframe: Option<string>,
                       interval: Option<string>, now: int): View
  {
    var cutoff := if Given(timeframe) then Minus(Real(now as real), ParseTimeframe(timeframe.value)) else NaN;
    if dataType == "klines" && Given(interval) then
      var buffer := BufferOf(s.klines, interval.value);
      if !Given(timeframe) then KlineList(buffer) else KlineList(Newer(buffer, KlineTime, cutoff))
    else if !Given(timeframe) then DataOf(s, dataType)
    else if dataType == "trades" then TradeList(Newer(s.trades, TradeTime, cutoff))
    else if dataType == "funding" then FundingList(Newer(s.funding, FundingTime, cutoff))
    else DataOf(s, dataType)
  }

  /** Without a time frame a read returns the stored buffer itself. */
  lemma GetDataWithoutTimeframe(s: StoreState, interval: string, now: int)
    requires interval != ""
    ensures GetDataSpec(s, "klines", None, Some(interval), now) == KlineList(BufferOf(s.klines, interval))
    ensures GetDataSpec(s, "klines", None, None, now) == KlineTable(s.klines)
    ensures GetDataSpec(s, "trades", None, None, now) == TradeList(s.trades)
    ensures GetDataSpec(s, "funding", Some(""), None, now) == FundingList(s.funding)
  {
  }

  /** A read with time frame `tf`, which spans `span` milliseconds, returns exactly
      the kline (for `interval`), trade and funding records newer than `now - span`. */
  ghost predicate ReadsExactlyNewer(s: StoreState, interval: string, tf: string, span: real, now: int) {
    var c := now as real - span;
    && GetDataSpec(s, "klines", Some(tf), Some(interval), now).KlineList?
    && ExactlyNewer(GetDataSpec(s, "klines", Some(tf), Some(interval), now).klines,
                    BufferOf(s.klines, interval), KlineTime, c)
    && GetDataSpec(s, "trades", Some(tf), None, now).TradeList?
    && ExactlyNewer(GetDataSpec(s, "trades", Some(tf), None, now).trades, s.trades, TradeTime, c)
    && GetDataSpec(s, "funding", Some(tf), None, now).FundingList?
    && ExactlyNewer(GetDataSpec(s, "funding", Some(tf), None, now).funding, s.funding, FundingTime, c)
  }

  /** With a time frame of n hours, days, weeks or months a read returns exactly the
      records newer than `now` minus that span, in stored order. */
  lemma GetDataWithTimeframe(s: StoreState, interval: string, n: nat, unit: char, now: int)
    requires interval != "" && LowerChar(unit) in "hdwm"
    ensures var tf := NatToString(n) + [unit];
      ParseTimeframe(tf).Real? && ReadsExactlyNewer(s, interval, tf, ParseTimeframe(tf).value, now)
  {
    var tf := NatToString(n) + [unit];
    var lc := LowerChar(unit);
    assert lc == 'h' || lc == 'd' || lc == 'w' || lc == 'm';
    assert unit in "hHdDwWmM" by {
      if 'A' <= unit <= 'Z' {
        assert lc as int == unit as int + 32;
      }
    }
    ParseTimeframeUnits(n, unit);
    GetDataWithSpan(s, interval, tf, now);
  }

  /** The same for any time frame that parses to a number. */
  lemma GetDataWithSpan(s: StoreState, interval: string, tf: string, now: int)
    requires interval != "" && tf != "" && ParseTimeframe(tf).Real?
    ensures ReadsExactlyNewer(s, interval, tf, ParseTimeframe(tf).value, now)
  {
    var span := ParseTimeframe(tf);
    var c := now as real - span.value;
    assert Minus(Real(now as real), span) == Real(c);
    assert GetDataSpec(s, "klines", Some(tf), Some(interval), now) ==
           KlineList(Newer(BufferOf(s.klines, interval), KlineTime, Real(c)));
    assert GetDataSpec(s, "trades", Some(tf), None, now) == TradeList(Newer(s.trades, TradeTime, Real(c)));
    assert GetDataSpec(s, "funding", Some(tf), None, now) == FundingList(Newer(s.funding, FundingTime, Real(c)));
    NewerKeepsExactly(BufferOf(s.klines, interval), KlineTime, c);
    NewerKeepsExactly(s.trades, TradeTime, c);
    NewerKeepsExactly(s.funding, FundingTime, c);
  }

  /** What `getLatestData` returns. */
  datatype Latest = Latest(orderbook: Option<OrderBook>, lastPrice: Option<Num>,
                           volumes: Volumes, fundingRate: Option<Funding>)

  function LatestSpec(s: StoreState): (r: Latest)
    ensures r.lastPrice.Some? <==> s.trades != []
    ensures s.trades != [] ==> r.lastPrice.value == s.trades[|s.trades| - 1].price
    ensures r.fundingRate.Some? <==> s.funding != []
    ensures s.funding != [] ==> r.fundingRate.value == s.funding[|s.funding| - 1]
  {
    Latest(s.orderbook,
           if s.trades == [] then None else Some(s.trades[|s.trades| - 1].price),
           s.volumes,
           if s.funding == [] then None else Some(s.funding[|s.funding| - 1]))
  }

  /** After a trade is stored it is the newest trade, so the latest price is that
      trade's price. */
  lemma LatestPriceAfterTrade(s: StoreState, t: Trade)
    ensures var r := StoreSpec(s, TradeRecord(t));
      r.trades != [] && r.trades[|r.trades| - 1] == t
    ensures LatestSpec(StoreSpec(s, TradeRecord(t))).lastPrice == Some(t.price)
  {
    var pushed := s.trades + [t];
    if |pushed| > TradeCap {
      assert pushed[1..][|pushed| - 2] == t;
    }
  }

  /** The store object; its fields are the service's `data` record. */
  class StorageService {
    var klines: map<string, seq<Kline>>
    var orderbook: Option<OrderBook>
    var trades: seq<Trade>
    var funding: seq<Funding>
    var volumes: Volumes

    function State(): StoreState
      reads this
    {
      StoreState(klines, orderbook, trades, funding, volumes)
    }

    ghost predicate Valid()
      reads this
    {
      WithinCaps(State())
    }

    /** Empty buffers for the five configured intervals, no order book, zero totals. */
    constructor ()
      ensures Valid()
      ensures klines == map["1m" := [], "15m" := [], "1h" := [], "4h" := [], "1d" := []]
      ensures orderbook == None && trades == [] && funding == [] && volumes == ZeroVolumes
    {
      klines := map["1m" := [], "15m" := [], "1h" := [], "4h" := [], "1d" := []];
      orderbook := None;
      trades := [];
      funding := [];
      volumes := ZeroVolumes;
    }

    method StoreKline(k: Kline)
      requires Valid()
      modifies this
      ensures Valid()
      ensures State() == StoreKlineSpec(old(State()), k)
    {
      var interval := k.interval;
      if interval !in klines {
        klines := klines[interval := []];
      }
      var buffer := klines[interval] + [k];
      var cap := CapOf(interval);
      if cap.Some? && |buffer| > cap.value {
        buffer := buffer[1..];
      }
      klines := klines[interval := buffer];
      StorePreservesCaps(old(State()), KlineRecord(k));
    }

    method UpdateVolumeClassification(t: Trade)
      modifies this
      ensures State() == old(State()).(volumes := Classified(old(volumes), t))
    {
      var value := Times(t.price, t.quantity);
      if Greater(value, Real(100000.0)) {
        volumes := volumes.(superLarge := Plus(volumes.superLarge, t.quantity));
      } else if Greater(value, Real(10000.0)) {
        volumes := volumes.(large := Plus(volumes.large, t.quantity));
      } else if Greater(value, Real(1000.0)) {
        volumes := volumes.(medium := Plus(volumes.medium, t.quantity));
      } else {
        volumes := volumes.(small := Plus(volumes.small, t.quantity));
      }
    }

    method StoreTrade(t: Trade)
      requires Valid()
      modifies this
      ensures Valid()
      ensures State() == StoreTradeSpec(old(State()), t)
    {
      trades := trades + [t];
      if |trades| > TradeCap {
        trades := trades[1..];
      }
      UpdateVolumeClassification(t);
      StorePreservesCaps(old(State()), TradeRecord(t));
    }

    method StoreFunding(f: Funding)
      requires Valid()
      modifies this
      ensures Valid()
      ensures State() == StoreFundingSpec(old(State()), f)
    {
      funding := funding + [f];
      if |funding| > FundingCap {
        funding := funding[1..];
      }
      StorePreservesCaps(old(State()), FundingRecord(f));
    }

    method Store(p: Processed)
      requires Valid()
      modifies this
      ensures Valid()
      ensures State() == StoreSpec(old(State()), p)
    {
      match p {
        case KlineRecord(k) => StoreKline(k);
        case OrderBookRecord(b) => orderbook := Some(b);
        case TradeRecord(t) => StoreTrade(t);
        case FundingRecord(f) => StoreFunding(f);
        case Passthrough(_) =>
      }
    }

    /** The hourly sweep, at time `now`, read on the local clock as `hours`:`minutes`. */
    method CleanOldData(now: int, hours: nat, minutes: nat)
      requires Valid()
      modifies this
      ensures Valid()
      ensures State() == CleanSpec(old(State()), now, hours, minutes)
    {
      var cutoff := Real((now - MaxAgeMs) as real);
      klines := map i | i in klines :: Newer(klines[i], KlineTime, cutoff);
      trades := Newer(trades, TradeTime, cutoff);
      funding := Newer(funding, FundingTime, cutoff);
      if hours == 0 && minutes == 0 {
        volumes := ZeroVolumes;
      }
      CleanPreservesCaps(old(State()), now, hours, minutes);
    }

    /** `getData`: the read of the current state (see `GetDataSpec`). */
    function GetData(dataType: string, timeframe: Option<string>, interval: Option<string>, now: int): View
      reads this
    {
      GetDataSpec(State(), dataType, timeframe, interval, now)
    }

    /** `getLatestData`: the summary of the current state (see `LatestSpec`). */
    function GetLatestData(): Latest
      reads this
    {
      LatestSpec(State())
    }
  }
}
