/** The polling data hook (app/hooks/useBinanceData.ts): its option defaults, the
    query string it asks the local API route for, the retry rule of its `onError`
    handler, and its loading flag. The fetches and the timer are left to events. */
module BinanceData {

  import opened Wrappers
  import opened Text
  import opened JsonValue
  import opened QueryParams
  import opened BinanceRoute

  const DefaultSymbol: string := "BTCUSDT"
  const DefaultLimit: int := 20
  const DefaultRefreshMs: int := 1000
  const MaxRetries: nat := 3
  const RetryBaseMs: nat := 500

  /** The hook's options; `None` is an option left undefined. Only the kline
      variant carries an interval. */
  datatype Options = Options(endpoint: string, symbol: Option<string>, limit: Option<int>,
                             refreshInterval: Option<int>, interval: Option<string>)

  function SymbolOf(o: Options): string {
    if o.symbol.Some? then o.symbol.value else DefaultSymbol
  }

  function LimitOf(o: Options): int {
    if o.limit.Some? then o.limit.value else DefaultLimit
  }

  function RefreshOf(o: Options): int {
    if o.refreshInterval.Some? then o.refreshInterval.value else DefaultRefreshMs
  }

  /** The parameters in the order the hook builds them; `interval` is spread in
      only when it is truthy, that is present and non-empty. */
  function QueryEntries(o: Options): (r: seq<(string, string)>)
    ensures |r| == if Given(o.interval) then 4 else 3
  {
    [("endpoint", o.endpoint), ("symbol", SymbolOf(o)), ("limit", IntToString(LimitOf(o)))]
      + (if Given(o.interval) then [("interval", o.interval.value)] else [])
  }

  /** The SWR key: the local route name and the serialised parameters. */
  function SwrKey(o: Options): string {
    "binance?" + Serialize(QueryEntries(o))
  }

  /** The query the fetcher forwards: `url.split('?')[1]`, which interpolates as
      the text "undefined" when the key has no `?`. */
  function ForwardedQuery(key: string): string {
    var q := SecondPiece(key, '?');
    if q.Some? then q.value else "undefined"
  }

  /** Undefined options take the defaults: symbol BTCUSDT, limit 20, a one-second
      refresh; defined ones are kept. */
  lemma Defaults(o: Options)
    ensures o.symbol.None? ==> SymbolOf(o) == "BTCUSDT"
    ensures o.limit.None? ==> LimitOf(o) == 20
    ensures o.refreshInterval.None? ==> RefreshOf(o) == 1000
    ensures o.symbol.Some? ==> SymbolOf(o) == o.symbol.value
    ensures o.limit.Some? ==> LimitOf(o) == o.limit.value
    ensures o.refreshInterval.Some? ==> RefreshOf(o) == o.refreshInterval.value
  {
  }

  /** The query names the endpoint, the symbol and the limit, and carries an
      interval exactly when the options give a non-empty one. */
  lemma QueryParameters(o: Options)
    ensures Lookup(QueryEntries(o), "endpoint") == Some(o.endpoint)
    ensures Lookup(QueryEntries(o), "symbol") == Some(SymbolOf(o))
    ensures Lookup(QueryEntries(o), "limit") == Some(IntToString(LimitOf(o)))
    ensures Lookup(QueryEntries(o), "interval").Some? <==> Given(o.interval)
    ensures Given(o.interval) ==> Lookup(QueryEntries(o), "interval") == o.interval
  {
    var e := QueryEntries(o);
    var tail := if Given(o.interval) then [("interval", o.interval.value)] else [];
    assert e[0].0 == "endpoint" && e[1].0 == "symbol" && e[2].0 == "limit";
    assert "endpoint" != "interval" && "symbol" != "interval" && "limit" != "interval";
    assert "endpoint" != "limit" && "symbol" != "limit" && "endpoint" != "symbol";
    assert e[1..][1..] == e[2..] && e[2..][1..] == tail;
    assert Lookup(e, "interval") == Lookup(e[1..], "interval") == Lookup(e[2..], "interval");
    assert Lookup(e[2..], "interval") == Lookup(tail, "interval");
    assert Lookup(e, "limit") == Lookup(e[2..], "limit");
  }

  /** When no value holds a `?`, the fetcher forwards exactly the serialised query,
      so the route sees the parameters the hook built. */
  lemma ForwardsQuery(o: Options)
    requires '?' !in Serialize(QueryEntries(o))
    ensures ForwardedQuery(SwrKey(o)) == Serialize(QueryEntries(o))
  {
    KeyForwardsQuery(Serialize(QueryEntries(o)));
  }

  lemma KeyForwardsQuery(q: string)
    requires '?' !in q
    ensures ForwardedQuery("binance?" + q) == q
  {
    var key := "binance?" + q;
    assert key == "binance" + ("?" + q);
    IndexOfAppend("binance", "?" + q, '?');
    assert IndexOf("?" + q, '?') == 0;
    assert key[8..] == q;
    assert IndexOf(q, '?') == |q|;
    assert q[..|q|] == q;
  }

  /** The option types admit `depth` and `ticker/24hr`, but the route's URL builder
      rejects both names: a hook opened with either can only fail. */
  lemma DeclaredEndpointsRejected(entries: seq<(string, string)>)
    ensures ApiUrl("depth", entries) == Failure(InvalidEndpoint)
    ensures ApiUrl("ticker/24hr", entries) == Failure(InvalidEndpoint)
  {
    ApiUrlRoutes("depth", entries);
    ApiUrlRoutes("ticker/24hr", entries);
  }

  function Pow2(n: nat): nat {
    if n == 0 then 1 else 2 * Pow2(n - 1)
  }

  /** `Math.pow(2, retryCount) * 500`. */
  function RetryDelay(retryCount: nat): nat {
    Pow2(retryCount) * RetryBaseMs
  }

  /** The three retries wait 500, 1000 and 2000 ms; each wait doubles the last. */
  lemma RetryDelays(n: nat)
    ensures RetryDelay(0) == 500 && RetryDelay(1) == 1000 && RetryDelay(2) == 2000
    ensures RetryDelay(n + 1) == 2 * RetryDelay(n)
  {
  }

  /** `!error && !data`: loading until a payload or an error arrives. */
  function IsLoading(hasError: bool, data: Json): (r: bool)
    ensures r ==> !hasError
    ensures !hasError && Nullish(data) ==> r
    ensures Truthy(data) ==> !r
  {
    !hasError && !Truthy(data)
  }

  /** The retry counter and the retry timers not yet fired. */
  datatype RetryState = RetryState(retryCount: nat, pending: nat)

  const Initial: RetryState := RetryState(0, 0)

  datatype Event =
    | FetchError   // SWR reports a failed fetch to `onError`
    | RetryFired   // a retry timer fires: the counter goes up and `mutate` refetches

  /** `onError` schedules a retry while the counter is below three; the timer
      increments it. A fetch that succeeds does not reset it. */
  function Step(s: RetryState, ev: Event): RetryState {
    match ev
    case FetchError => if s.retryCount < MaxRetries then s.(pending := s.pending + 1) else s
    case RetryFired => if s.pending == 0 then s else RetryState(s.retryCount + 1, s.pending - 1)
  }

  predicate Schedules(s: RetryState, ev: Event) {
    ev == FetchError && s.retryCount < MaxRetries
  }

  function ScheduledCount(s: RetryState, evs: seq<Event>): nat
    decreases |evs|
  {
    if evs == [] then 0
    else (if Schedules(s, evs[0]) then 1 else 0) + ScheduledCount(Step(s, evs[0]), evs[1..])
  }

  /** No fetch fails while a retry is still waiting. */
  predicate NoErrorWhilePending(s: RetryState, evs: seq<Event>)
    decreases |evs|
  {
    evs == [] || ((evs[0] == FetchError ==> s.pending == 0) && NoErrorWhilePending(Step(s, evs[0]), evs[1..]))
  }

  /** While failures never overlap a waiting retry, the counter plus the waiting
      retries stays at most three, and so at most three retries are scheduled in
      the hook's lifetime. */
  lemma {:induction false} RetryBound(s: RetryState, evs: seq<Event>)
    requires s.retryCount + s.pending <= MaxRetries
    requires NoErrorWhilePending(s, evs)
    ensures ScheduledCount(s, evs) <= MaxRetries - (s.retryCount + s.pending)
    decreases |evs|
  {
    if evs != [] {
      RetryBound(Step(s, evs[0]), evs[1..]);
    }
  }

  lemma AtMostThreeRetries(evs: seq<Event>)
    requires NoErrorWhilePending(Initial, evs)
    ensures ScheduledCount(Initial, evs) <= MaxRetries
  {
    RetryBound(Initial, evs);
  }

  /** Without that assumption the limit does not hold: failures that arrive before
      the first retry fires each schedule one more, and the counter passes three. */
  lemma OverlappingErrorsExceedLimit()
    ensures ScheduledCount(Initial, [FetchError, FetchError, FetchError, FetchError]) == 4
    ensures Step(Step(Step(Step(RetryState(0, 4), RetryFired), RetryFired), RetryFired), RetryFired).retryCount == 4
  {
    var s := Initial;
    assert Step(s, FetchError) == RetryState(0, 1);
    assert Step(RetryState(0, 1), FetchError) == RetryState(0, 2);
    assert Step(RetryState(0, 2), FetchError) == RetryState(0, 3);
    assert Step(RetryState(0, 3), FetchError) == RetryState(0, 4);
    assert [FetchError, FetchError, FetchError, FetchError][1..] == [FetchError, FetchError, FetchError];
    assert [FetchError, FetchError, FetchError][1..] == [FetchError, FetchError];
    assert [FetchError, FetchError][1..] == [FetchError];
  }

  /** The rule as evidently intended: a failure schedules a retry only while the
      counter is below three and no retry is already waiting. */
  function GuardedStep(s: RetryState, ev: Event): RetryState {
    match ev
    case FetchError => if s.retryCount < MaxRetries && s.pending == 0 then s.(pending := 1) else s
    case RetryFired => if s.pending == 0 then s else RetryState(s.retryCount + 1, s.pending - 1)
  }

  predicate GuardedSchedules(s: RetryState, ev: Event) {
    ev == FetchError && s.retryCount < MaxRetries && s.pending == 0
  }

  function GuardedCount(s: RetryState, evs: seq<Event>): nat
    decreases |evs|
  {
    if evs == [] then 0
    else (if GuardedSchedules(s, evs[0]) then 1 else 0) + GuardedCount(GuardedStep(s, evs[0]), evs[1..])
  }

  /** Under the guarded rule at most three retries happen, whatever the failures. */
  lemma {:induction false} GuardedRetryBound(s: RetryState, evs: seq<Event>)
    requires s.retryCount + s.pending <= MaxRetries
    ensures GuardedCount(s, evs) <= MaxRetries - (s.retryCount + s.pending)
    decreases |evs|
  {
    if evs != [] {
      GuardedRetryBound(GuardedStep(s, evs[0]), evs[1..]);
    }
  }

  /** The hook's retry state: `retryCount` is React state, and the timers are the
      ones `onError` set and that have not fired. */
  class Retrier {
    var retryCount: nat
    var pending: nat

    function State(): RetryState
      reads this
    {
      RetryState(retryCount, pending)
    }

    constructor ()
      ensures State() == Initial
    {
      retryCount := 0;
      pending := 0;
    }

    /** `onError`: returns whether a retry was scheduled and after how long. */
    method OnError() returns (scheduled: bool, delay: nat)
      modifies this
      ensures State() == Step(old(State()), FetchError)
      ensures scheduled <==> old(retryCount) < MaxRetries
      ensures scheduled ==> delay == RetryDelay(old(retryCount))
    {
      scheduled := retryCount < MaxRetries;
      delay := 0;
      if scheduled {
        delay := Pow2(retryCount) * RetryBaseMs;
        pending := pending + 1;
      }
    }

    /** A retry timer fires: the counter goes up and a refetch starts. */
    method OnRetryFired() returns (refetch: bool)
      modifies this
      ensures State() == Step(old(State()), RetryFired)
      ensures refetch <==> old(pending) > 0
    {
      refetch := pending > 0;
      if refetch {
        pending := pending - 1;
        retryCount := retryCount + 1;
      }
    }
  }
}
