/** The backend exchange-stream client (backend/services/binanceService.js): it opens
    one socket per stream endpoint, keeps a per-endpoint reconnect counter, and turns
    each incoming message into a `(type, data)` event whose type is read off the
    endpoint name. Sockets and timers are replaced by events: a socket's `open`,
    `close`, `error` and `message`, and the expiry of a scheduled reconnect timer.
    Socket objects are represented by fresh numbers. */
module BinanceService {

  import opened Wrappers
  import opened Text
  import opened Processor

  const WsBaseUrl: string := "wss://fstream.binance.com/ws"
  const DefaultSymbol: string := "btcusdt"
  const MaxReconnectAttempts: nat := 5
  const ReconnectDelayMs: nat := 5000
  const Intervals: seq<string> := ["1m", "15m", "1h", "4h", "1d"]

  /** The streams `connect` opens: one kline stream per interval, then the 20-level
      depth, aggregated-trade and mark-price streams. */
  function KlineEndpoint(symbol: string, interval: string): string {
    symbol + "@kline_" + interval
  }

  function Endpoints(symbol: string): (r: seq<string>)
    ensures |r| == 8
  {
    [KlineEndpoint(symbol, Intervals[0]), KlineEndpoint(symbol, Intervals[1]),
     KlineEndpoint(symbol, Intervals[2]), KlineEndpoint(symbol, Intervals[3]),
     KlineEndpoint(symbol, Intervals[4]),
     symbol + "@depth20@100ms", symbol + "@aggTrade", symbol + "@markPrice@1s"]
  }

  /** `endpoint.split('@')[1].split('_')[0]`; None where the first split has no second
      piece, so that the second `split` throws (the message handler catches it). */
  function StreamType(endpoint: string): (r: Option<string>)
    ensures r.None? <==> '@' !in endpoint
    ensures r.Some? ==> '@' !in r.value && '_' !in r.value
  {
    var piece := SecondPiece(endpoint, '@');
    if piece.None? then None else Some(BeforeFirst(piece.value, '_'))
  }

  /** The type of `symbol@name<tail>` is `name` when the tail starts with `_` or `@`. */
  lemma StreamTypeOfEndpoint(symbol: string, name: string, tail: string)
    requires '@' !in symbol && '@' !in name && '_' !in name
    requires tail == [] || tail[0] == '_' || tail[0] == '@'
    ensures StreamType(symbol + "@" + name + tail) == Some(name)
  {
    var rest := "@" + name + tail;
    var ep := symbol + rest;
    assert symbol + "@" + name + tail == ep;
    IndexOfAppend(symbol, rest, '@');
    assert IndexOf(ep, '@') == |symbol|;
    assert ep[|symbol| + 1..] == name + tail;
    BeforeFirstAppend(name, tail, '@');
    var u := BeforeFirst(tail, '@');
    BeforeFirstAppend(name, u, '_');
    if u != [] {
      assert u[0] == tail[0] == '_';
    }
    assert BeforeFirst(u, '_') == [];
  }

  lemma KlineStreamType(symbol: string, interval: string)
    requires '@' !in symbol
    ensures StreamType(KlineEndpoint(symbol, interval)) == Some("kline")
  {
    assert KlineEndpoint(symbol, interval) == symbol + "@" + "kline" + ("_" + interval);
    StreamTypeOfEndpoint(symbol, "kline", "_" + interval);
  }

  lemma DepthStreamType(symbol: string)
    requires '@' !in symbol
    ensures StreamType(symbol + "@depth20@100ms") == Some("depth20")
  {
    assert symbol + "@depth20@100ms" == symbol + "@" + "depth20" + "@100ms";
    StreamTypeOfEndpoint(symbol, "depth20", "@100ms");
  }

  lemma AggTradeStreamType(symbol: string)
    requires '@' !in symbol
    ensures StreamType(symbol + "@aggTrade") == Some("aggTrade")
  {
    assert symbol + "@aggTrade" == symbol + "@" + "aggTrade" + "";
    StreamTypeOfEndpoint(symbol, "aggTrade", "");
  }

  lemma MarkPriceStreamType(symbol: string)
    requires '@' !in symbol
    ensures StreamType(symbol + "@markPrice@1s") == Some("markPrice")
  {
    assert symbol + "@markPrice@1s" == symbol + "@" + "markPrice" + "@1s";
    StreamTypeOfEndpoint(symbol, "markPrice", "@1s");
  }

  /** The eight endpoints yield the four stream types, and each of them reaches a
      typed branch of `processData`: the kline streams the kline mapper, the others
      the order-book, trade and funding mappers. */
  lemma EndpointTypes(symbol: string)
    requires '@' !in symbol
    ensures forall i :: 0 <= i < 5 ==> StreamType(Endpoints(symbol)[i]) == Some("kline")
    ensures StreamType(Endpoints(symbol)[5]) == Some("depth20")
    ensures StreamType(Endpoints(symbol)[6]) == Some("aggTrade")
    ensures StreamType(Endpoints(symbol)[7]) == Some("markPrice")
  {
    var eps := Endpoints(symbol);
    forall i | 0 <= i < 5
      ensures StreamType(eps[i]) == Some("kline")
    {
      KlineStreamType(symbol, Intervals[i]);
    }
    DepthStreamType(symbol);
    AggTradeStreamType(symbol);
    MarkPriceStreamType(symbol);
  }

  /** A parsed message on any of the eight endpoints is emitted with a type that
      `processData` maps to a typed record (or whose mapper throws): it is never
      passed through untagged. */
  lemma EndpointsReachTypedBranches(symbol: string, i: nat, data: RawMessage, now: int)
    requires '@' !in symbol && i < 8
    ensures var ev := Emitted(Endpoints(symbol)[i], Some(data));
      var r := ProcessData(ev.value.streamType, data, now);
      ev.Some? && !(r.Some? && r.value.Passthrough?)
  {
    EndpointTypes(symbol);
    TypedBranches(data, now);
    var ep := Endpoints(symbol)[i];
    var name := if i < 5 then "kline" else if i == 5 then "depth20" else if i == 6 then "aggTrade" else "markPrice";
    assert StreamType(ep) == Some(name);
    var ev := Emitted(ep, Some(data));
    assert ev.Some? && ev.value.streamType == name;
  }

  lemma TypedBranches(data: RawMessage, now: int)
    ensures ProcessData("kline", data, now).Some? ==> ProcessData("kline", data, now).value.KlineRecord?
    ensures ProcessData("depth20", data, now).Some? ==> ProcessData("depth20", data, now).value.OrderBookRecord?
    ensures ProcessData("aggTrade", data, now).Some? && ProcessData("aggTrade", data, now).value.TradeRecord?
    ensures ProcessData("markPrice", data, now).Some? && ProcessData("markPrice", data, now).value.FundingRecord?
  {
    assert StartsWith("kline", "kline");
    ProcessDataRoutes("depth20", data, now);
    ProcessDataRoutes("aggTrade", data, now);
    ProcessDataRoutes("markPrice", data, now);
  }

  /** The service's fields: endpoint to socket, endpoint to attempt counter, the
      reconnect timers still pending per endpoint, and the next fresh socket. */
  datatype ServiceState = ServiceState(
    connections: map<string, nat>,
    attempts: map<string, nat>,
    pending: map<string, nat>,
    nextSocket: nat)

  /** `reconnectAttempts.get(endpoint) || 0`. */
  function AttemptsOf(s: ServiceState, endpoint: string): nat {
    if endpoint in s.attempts then s.attempts[endpoint] else 0
  }

  function PendingOf(s: ServiceState, endpoint: string): nat {
    if endpoint in s.pending then s.pending[endpoint] else 0
  }

  /** `connectToStream`: a fresh socket is stored under the endpoint, replacing any
      earlier one. */
  function ConnectSpec(s: ServiceState, endpoint: string): ServiceState {
    s.(connections := s.connections[endpoint := s.nextSocket], nextSocket := s.nextSocket + 1)
  }

  /** `connect`: `connectToStream` on each endpoint in turn. */
  function ConnectAllSpec(s: ServiceState, endpoints: seq<string>): ServiceState {
    if endpoints == [] then s
    else ConnectSpec(ConnectAllSpec(s, endpoints[..|endpoints| - 1]), endpoints[|endpoints| - 1])
  }

  /** The `open` handler: the endpoint's counter becomes 0. */
  function OpenSpec(s: ServiceState, endpoint: string): ServiceState {
    s.(attempts := s.attempts[endpoint := 0])
  }

  /** The `close` handler (`handleReconnect`): the counter is incremented, and a
      reconnect timer is scheduled when the new count is at most the maximum. */
  function CloseSpec(s: ServiceState, endpoint: string): ServiceState {
    var attempts := AttemptsOf(s, endpoint) + 1;
    s.(attempts := s.attempts[endpoint := attempts],
       pending := if attempts <= MaxReconnectAttempts then s.pending[endpoint := PendingOf(s, endpoint) + 1]
                  else s.pending)
  }

  /** A reconnect timer of the endpoint expires: it reconnects. Without a pending
      timer nothing happens. */
  function TimerSpec(s: ServiceState, endpoint: string): ServiceState {
    var n := PendingOf(s, endpoint);
    if n == 0 then s else ConnectSpec(s.(pending := s.pending[endpoint := n - 1]), endpoint)
  }

  /** `disconnect`: every socket is closed and `connections` is emptied; the attempt
      counters are kept. */
  function DisconnectSpec(s: ServiceState): ServiceState {
    s.(connections := map[])
  }

  /** A message event: the emitted `(type, data)` event, or None when the payload did
      not parse (`parsed` is None) or the endpoint has no type; either failure is
      caught and logged. */
  datatype DataEvent = DataEvent(streamType: string, data: RawMessage)

  function Emitted(endpoint: string, parsed: Option<RawMessage>): (r: Option<DataEvent>)
    ensures r.Some? <==> parsed.Some? && '@' in endpoint
    ensures r.Some? ==> Some(r.value.streamType) == StreamType(endpoint) && r.value.data == parsed.value
  {
    var t := StreamType(endpoint);
    if parsed.None? || t.None? then None else Some(DataEvent(t.value, parsed.value))
  }

  datatype Event =
    | Open(endpoint: string)
    | Close(endpoint: string)
    | SocketError(endpoint: string)
    | Message(endpoint: string, parsed: Option<RawMessage>)
    | TimerFired(endpoint: string)
    | Disconnect

  /** One event. Messages and socket errors change no state: neither closes the
      socket, so neither leads to a reconnect. */
  function Step(s: ServiceState, ev: Event): ServiceState {
    match ev
    case Open(e) => OpenSpec(s, e)
    case Close(e) => CloseSpec(s, e)
    case SocketError(_) => s
    case Message(_, _) => s
    case TimerFired(e) => TimerSpec(s, e)
    case Disconnect => DisconnectSpec(s)
  }

  /** Whether this event is a `close` of `endpoint` that schedules a reconnect. */
  predicate Schedules(s: ServiceState, ev: Event, endpoint: string) {
    ev == Close(endpoint) && AttemptsOf(s, endpoint) + 1 <= MaxReconnectAttempts
  }

  /** The number of reconnects scheduled for `endpoint` along a trace. */
  function ScheduledCount(s: ServiceState, evs: seq<Event>, endpoint: string): nat
    decreases |evs|
  {
    if evs == [] then 0
    else (if Schedules(s, evs[0], endpoint) then 1 else 0) + ScheduledCount(Step(s, evs[0]), evs[1..], endpoint)
  }

  /** Only an `open` or a `close` of the endpoint itself changes its counter; a close
      adds one, and nothing touches another endpoint's counter. */
  lemma StepAttempts(s: ServiceState, ev: Event, endpoint: string)
    ensures ev == Close(endpoint) ==> AttemptsOf(Step(s, ev), endpoint) == AttemptsOf(s, endpoint) + 1
    ensures ev == Open(endpoint) ==> AttemptsOf(Step(s, ev), endpoint) == 0
    ensures ev != Close(endpoint) && ev != Open(endpoint) ==> AttemptsOf(Step(s, ev), endpoint) == AttemptsOf(s, endpoint)
  {
  }

  /** Without an `open` of the endpoint, at most `5 - counter` reconnects are
      scheduled for it, whatever else happens. */
  lemma {:induction false} ReconnectBound(s: ServiceState, evs: seq<Event>, endpoint: string)
    requires forall i :: 0 <= i < |evs| ==> evs[i] != Open(endpoint)
    decreases |evs|
    ensures ScheduledCount(s, evs, endpoint) <=
              if AttemptsOf(s, endpoint) >= MaxReconnectAttempts then 0
              else MaxReconnectAttempts - AttemptsOf(s, endpoint)
  {
    if evs != [] {
      StepAttempts(s, evs[0], endpoint);
      ReconnectBound(Step(s, evs[0]), evs[1..], endpoint);
    }
  }

  /** So at most five reconnects follow the last successful open. */
  lemma AtMostFiveAfterOpen(s: ServiceState, evs: seq<Event>, endpoint: string)
    requires forall i :: 0 <= i < |evs| ==> evs[i] != Open(endpoint)
    ensures ScheduledCount(OpenSpec(s, endpoint), evs, endpoint) <= MaxReconnectAttempts
  {
    ReconnectBound(OpenSpec(s, endpoint), evs, endpoint);
  }

  /** A close schedules a reconnect exactly while the incremented counter is at most
      five; only the closing endpoint's counter and timers change. */
  lemma CloseSchedulesIff(s: ServiceState, endpoint: string)
    ensures var r := CloseSpec(s, endpoint);
      && AttemptsOf(r, endpoint) == AttemptsOf(s, endpoint) + 1
      && (PendingOf(r, endpoint) == PendingOf(s, endpoint) + 1 <==> AttemptsOf(s, endpoint) < MaxReconnectAttempts)
      && (AttemptsOf(s, endpoint) >= MaxReconnectAttempts ==> r.pending == s.pending)
      && (forall e :: e != endpoint ==> AttemptsOf(r, e) == AttemptsOf(s, e) && PendingOf(r, e) == PendingOf(s, e))
      && r.connections == s.connections
  {
  }

  /** Connecting a list of endpoints adds exactly those keys, each with a socket
      newer than every one before, and leaves the counters alone. */
  lemma {:induction false} ConnectAllKeys(s: ServiceState, endpoints: seq<string>)
    ensures forall e :: e in ConnectAllSpec(s, endpoints).connections <==> e in s.connections || e in endpoints
    ensures ConnectAllSpec(s, endpoints).nextSocket == s.nextSocket + |endpoints|
    ensures forall e :: e in endpoints ==>
              s.nextSocket <= ConnectAllSpec(s, endpoints).connections[e] < s.nextSocket + |endpoints|
    ensures forall e :: e in s.connections && e !in endpoints ==>
              ConnectAllSpec(s, endpoints).connections[e] == s.connections[e]
    ensures ConnectAllSpec(s, endpoints).attempts == s.attempts
    ensures ConnectAllSpec(s, endpoints).pending == s.pending
  {
    if endpoints != [] {
      var init := endpoints[..|endpoints| - 1];
      var last := endpoints[|endpoints| - 1];
      ConnectAllKeys(s, init);
      assert endpoints == init + [last];
      assert forall e :: e in endpoints <==> e in init || e == last;
    }
  }

  /** `connect` on a fresh service opens exactly the eight endpoints. */
  lemma ConnectOpensEndpoints(s: ServiceState, symbol: string)
    requires s.connections == map[]
    ensures forall e :: e in ConnectAllSpec(s, Endpoints(symbol)).connections <==> e in Endpoints(symbol)
  {
    ConnectAllKeys(s, Endpoints(symbol));
  }

  /** A second `disconnect` changes nothing, and the counters survive it. */
  lemma DisconnectKeepsCounters(s: ServiceState)
    ensures DisconnectSpec(s).connections == map[]
    ensures DisconnectSpec(s).attempts == s.attempts
    ensures DisconnectSpec(DisconnectSpec(s)) == DisconnectSpec(s)
  {
  }

  /** The close events that `disconnect` provokes still run the reconnect rule: the
      handler stays attached, so a socket closed by `disconnect` is rescheduled
      while its counter allows. */
  lemma CloseAfterDisconnectReconnects(s: ServiceState, endpoint: string)
    requires AttemptsOf(s, endpoint) < MaxReconnectAttempts
    ensures PendingOf(CloseSpec(DisconnectSpec(s), endpoint), endpoint) == PendingOf(s, endpoint) + 1
    ensures TimerSpec(CloseSpec(DisconnectSpec(s), endpoint), endpoint).connections.Keys == {endpoint}
  {
  }

  class BinanceService {
    const symbol: string
    var connections: map<string, nat>
    var reconnectAttempts: map<string, nat>
    var pendingReconnects: map<string, nat>
    var nextSocket: nat

    function State(): ServiceState
      reads this
    {
      ServiceState(connections, reconnectAttempts, pendingReconnects, nextSocket)
    }

    constructor (symbol: string)
      ensures this.symbol == symbol
      ensures State() == ServiceState(map[], map[], map[], 0)
    {
      this.symbol := symbol;
      connections := map[];
      reconnectAttempts := map[];
      pendingReconnects := map[];
      nextSocket := 0;
    }

    /** Returns the URL the socket is opened on. */
    method ConnectToStream(endpoint: string) returns (url: string)
      modifies this
      ensures url == WsBaseUrl + "/" + endpoint
      ensures State() == ConnectSpec(old(State()), endpoint)
    {
      url := WsBaseUrl + "/" + endpoint;
      connections := connections[endpoint := nextSocket];
      nextSocket := nextSocket + 1;
    }

    method Connect()
      modifies this
      ensures State() == ConnectAllSpec(old(State()), Endpoints(symbol))
    {
      var endpoints := Endpoints(symbol);
      var i := 0;
      while i < |endpoints|
        invariant 0 <= i <= |endpoints|
        invariant State() == ConnectAllSpec(old(State()), endpoints[..i])
      {
        assert endpoints[..i + 1][..i] == endpoints[..i];
        var _ := ConnectToStream(endpoints[i]);
        i := i + 1;
      }
      assert endpoints[..i] == endpoints;
    }

    method OnOpen(endpoint: string)
      modifies this
      ensures State() == OpenSpec(old(State()), endpoint)
    {
      reconnectAttempts := reconnectAttempts[endpoint := 0];
    }

    /** Returns whether a reconnect was scheduled, and its delay. */
    method OnClose(endpoint: string) returns (scheduled: bool, delay: nat)
      modifies this
      ensures State() == CloseSpec(old(State()), endpoint)
      ensures scheduled <==> Schedules(old(State()), Close(endpoint), endpoint)
      ensures scheduled ==> delay == ReconnectDelayMs
    {
      var attempts := (if endpoint in reconnectAttempts then reconnectAttempts[endpoint] else 0) + 1;
      reconnectAttempts := reconnectAttempts[endpoint := attempts];
      scheduled := attempts <= MaxReconnectAttempts;
      delay := 0;
      if scheduled {
        var n := if endpoint in pendingReconnects then pendingReconnects[endpoint] else 0;
        pendingReconnects := pendingReconnects[endpoint := n + 1];
        delay := ReconnectDelayMs;
      }
    }

    method OnTimerFired(endpoint: string)
      modifies this
      ensures State() == TimerSpec(old(State()), endpoint)
    {
      var n := if endpoint in pendingReconnects then pendingReconnects[endpoint] else 0;
      if n > 0 {
        pendingReconnects := pendingReconnects[endpoint := n - 1];
        var _ := ConnectToStream(endpoint);
      }
    }

    /** `handleData` behind the message handler; the payload has already been run
        through `JSON.parse`. */
    method OnMessage(endpoint: string, parsed: Option<RawMessage>) returns (emitted: Option<DataEvent>)
      ensures emitted == Emitted(endpoint, parsed)
    {
      emitted := None;
      if parsed.Some? {
        var piece := SecondPiece(endpoint, '@');
        if piece.Some? {
          emitted := Some(DataEvent(BeforeFirst(piece.value, '_'), parsed.value));
        }
      }
    }

    /** Returns the endpoints whose sockets were closed. */
    method Disconnect() returns (closed: set<string>)
      modifies this
      ensures closed == old(connections).Keys
      ensures State() == DisconnectSpec(old(State()))
    {
      closed := connections.Keys;
      connections := map[];
    }
  }
}
