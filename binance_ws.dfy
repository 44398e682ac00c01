/** The browser socket hook for one exchange stream (app/hooks/useBinanceWebSocket.ts).
    Here `close` checks the counter first and the counter is incremented only when
    the reconnect timer fires. Each socket closes at most once, so the model tracks
    whether a live socket exists: a `close` with no live socket does nothing. */
module BinanceWebSocket {

  import opened Wrappers
  import opened Text
  import opened JsonValue

  const BaseUrl: string := "wss://stream.binance.com:9443/ws"
  const MaxReconnectAttempts: nat := 5
  const ReconnectDelayMs: nat := 3000
  const DefaultInterval: string := "1m"

  const ConnectionError: string := "WebSocket connection error"
  const MaxAttemptsError: string := "Max reconnection attempts reached"

  /** `getWebSocketUrl`: the lower-cased symbol's trade, kline or depth stream; the
      bare base URL for any other stream name. An absent interval means one minute. */
  function GetWebSocketUrl(symbol: string, stream: string, interval: Option<string>): string {
    var iv := if interval.Some? then interval.value else DefaultInterval;
    if stream == "trade" then BaseUrl + "/" + Lower(symbol) + "@trade"
    else if stream == "kline" then BaseUrl + "/" + Lower(symbol) + "@kline_" + iv
    else if stream == "depth" then BaseUrl + "/" + Lower(symbol) + "@depth"
    else BaseUrl
  }

  /** Every URL lies under the base; a known stream's path is the lower-cased symbol
      and the stream suffix. */
  lemma WebSocketUrlShape(symbol: string, stream: string, interval: Option<string>)
    ensures var url := GetWebSocketUrl(symbol, stream, interval);
      && StartsWith(url, BaseUrl)
      && (stream == "trade" ==> url[|BaseUrl|..] == "/" + Lower(symbol) + "@trade")
      && (stream == "kline" && interval.None? ==> url[|BaseUrl|..] == "/" + Lower(symbol) + "@kline_1m")
      && (stream == "kline" && interval.Some? ==> url[|BaseUrl|..] == "/" + Lower(symbol) + "@kline_" + interval.value)
      && (stream == "depth" ==> url[|BaseUrl|..] == "/" + Lower(symbol) + "@depth")
      && (stream !in {"trade", "kline", "depth"} ==> url == BaseUrl)
  {
    var url := GetWebSocketUrl(symbol, stream, interval);
    var iv := if interval.Some? then interval.value else DefaultInterval;
    if stream == "trade" {
      assert url == BaseUrl + ("/" + Lower(symbol) + "@trade");
    } else if stream == "kline" {
      assert url == BaseUrl + ("/" + Lower(symbol) + "@kline_" + iv);
    } else if stream == "depth" {
      assert url == BaseUrl + ("/" + Lower(symbol) + "@depth");
    }
  }

  /** The hook's state: the last payload, the error, the connection flag, the
      counter, the pending reconnect timers, and whether a socket exists that has
      not yet closed. */
  datatype HookState = HookState(data: Option<Json>, error: Option<string>, isConnected: bool,
                                 attempts: nat, pending: nat, live: bool)

  /** The first `connect`: with a socket when it could be constructed, else with the
      construction failure's message as the error. */
  function Mount(failure: Option<string>): HookState {
    if failure.None? then HookState(None, None, false, 0, 0, true)
    else HookState(None, failure, false, 0, 0, false)
  }

  datatype Event =
    | Open
    | Message(parsed: Option<Json>)     // None when `JSON.parse` throws
    | SocketError
    | Close
    | TimerFired(failure: Option<string>)  // the reconnect's construction failure, if any

  /** `connect`'s handlers, one event at a time. */
  function Step(s: HookState, ev: Event): HookState {
    match ev
    case Open => s.(isConnected := true, attempts := 0)
    case Message(parsed) => if parsed.Some? then s.(data := parsed, error := None) else s
    case SocketError => s.(error := Some(ConnectionError))
    case Close =>
      if !s.live then s
      else if s.attempts < MaxReconnectAttempts then s.(isConnected := false, live := false, pending := s.pending + 1)
      else s.(isConnected := false, live := false, error := Some(MaxAttemptsError))
    case TimerFired(failure) =>
      if s.pending == 0 then s
      else if failure.None? then s.(pending := s.pending - 1, attempts := s.attempts + 1, live := true)
      else s.(pending := s.pending - 1, attempts := s.attempts + 1, error := failure)
  }

  /** At most one socket or timer is outstanding, and a pending timer was scheduled
      under the limit. */
  predicate Inv(s: HookState) {
    && s.pending <= 1
    && (s.pending == 1 ==> !s.live && s.attempts < MaxReconnectAttempts)
  }

  lemma MountInv(failure: Option<string>)
    ensures Inv(Mount(failure))
  {
  }

  lemma StepInv(s: HookState, ev: Event)
    requires Inv(s)
    ensures Inv(Step(s, ev))
  {
  }

  /** Whether this event is a timer that reconnects. */
  predicate Reconnects(s: HookState, ev: Event) {
    ev.TimerFired? && s.pending > 0
  }

  function ReconnectCount(s: HookState, evs: seq<Event>): nat
    decreases |evs|
  {
    if evs == [] then 0
    else (if Reconnects(s, evs[0]) then 1 else 0) + ReconnectCount(Step(s, evs[0]), evs[1..])
  }

  /** Without an `open`, at most `5 - counter` reconnects happen. */
  lemma {:induction false} ReconnectBound(s: HookState, evs: seq<Event>)
    requires Inv(s)
    requires forall i :: 0 <= i < |evs| ==> evs[i] != Open
    ensures ReconnectCount(s, evs) <=
              if s.attempts >= MaxReconnectAttempts then 0 else MaxReconnectAttempts - s.attempts
    decreases |evs|
  {
    if evs != [] {
      StepInv(s, evs[0]);
      ReconnectBound(Step(s, evs[0]), evs[1..]);
    }
  }

  /** An open resets the counter and keeps the invariant. */
  lemma OpenResets(s: HookState)
    requires Inv(s)
    ensures Step(s, Open).attempts == 0 && Inv(Step(s, Open))
  {
    StepInv(s, Open);
  }

  /** So this version too allows at most five reconnects after an open (which
      leaves the counter at 0). */
  lemma AtMostFiveAfterOpen(s: HookState, evs: seq<Event>)
    requires Inv(s) && s.attempts == 0
    requires forall i :: 0 <= i < |evs| ==> evs[i] != Open
    ensures ReconnectCount(s, evs) <= MaxReconnectAttempts
  {
    ReconnectBound(s, evs);
  }

  /** A close at the limit gives up with the error; below it, it schedules a timer
      and leaves the counter for the timer to increment. */
  lemma CloseChecksBeforeIncrement(s: HookState)
    requires s.live
    ensures s.attempts < MaxReconnectAttempts ==>
              Step(s, Close).pending == s.pending + 1 && Step(s, Close).attempts == s.attempts
    ensures s.attempts >= MaxReconnectAttempts ==>
              Step(s, Close).pending == s.pending && Step(s, Close).error == Some(MaxAttemptsError)
  {
  }

  /** A good payload replaces the data and clears the error; a bad one changes
      nothing; a socket error sets the error and schedules nothing. */
  lemma MessageAndErrorEffects(s: HookState, v: Json)
    ensures Step(s, Message(Some(v))).data == Some(v) && Step(s, Message(Some(v))).error == None
    ensures Step(s, Message(None)) == s
    ensures Step(s, SocketError) == s.(error := Some(ConnectionError))
  {
  }

  /** A construction failure leaves no socket, so nothing more happens until the
      hook remounts: no later event reconnects. */
  lemma FailureStops(failure: string, evs: seq<Event>)
    requires forall i :: 0 <= i < |evs| ==> evs[i] != Open
    ensures ReconnectCount(Mount(Some(failure)), evs) == 0
  {
    FailedStaysDead(Mount(Some(failure)), evs);
  }

  lemma {:induction false} FailedStaysDead(s: HookState, evs: seq<Event>)
    requires !s.live && s.pending == 0
    ensures ReconnectCount(s, evs) == 0
    decreases |evs|
  {
    if evs != [] {
      FailedStaysDead(Step(s, evs[0]), evs[1..]);
    }
  }

  class Hook {
    const symbol: string
    const stream: string
    const interval: Option<string>
    var data: Option<Json>
    var error: Option<string>
    var isConnected: bool
    var reconnectAttempts: nat
    var pendingReconnects: nat
    var live: bool

    function State(): HookState
      reads this
    {
      HookState(data, error, isConnected, reconnectAttempts, pendingReconnects, live)
    }

    constructor (symbol: string, stream: string, interval: Option<string>, failure: Option<string>)
      ensures this.symbol == symbol && this.stream == stream && this.interval == interval
      ensures State() == Mount(failure)
    {
      this.symbol := symbol;
      this.stream := stream;
      this.interval := interval;
      data := None;
      error := failure;
      isConnected := false;
      reconnectAttempts := 0;
      pendingReconnects := 0;
      live := failure.None?;
    }

    method OnOpen()
      modifies this
      ensures State() == Step(old(State()), Open)
    {
      isConnected := true;
      reconnectAttempts := 0;
    }

    method OnMessage(parsed: Option<Json>)
      modifies this
      ensures State() == Step(old(State()), Message(parsed))
    {
      if parsed.Some? {
        data := parsed;
        error := None;
      }
    }

    method OnError()
      modifies this
      ensures State() == Step(old(State()), SocketError)
    {
      error := Some(ConnectionError);
    }

    /** Returns whether a reconnect was scheduled, and its delay. */
    method OnClose() returns (scheduled: bool, delay: nat)
      modifies this
      ensures State() == Step(old(State()), Close)
      ensures scheduled <==> old(live) && old(reconnectAttempts) < MaxReconnectAttempts
      ensures scheduled ==> delay == ReconnectDelayMs
    {
      scheduled := false;
      delay := 0;
      if live {
        isConnected := false;
        live := false;
        if reconnectAttempts < MaxReconnectAttempts {
          pendingReconnects := pendingReconnects + 1;
          scheduled := true;
          delay := ReconnectDelayMs;
        } else {
          error := Some(MaxAttemptsError);
        }
      }
    }

    /** The timer increments the counter, then reconnects; returns the URL it
        opens. */
    method OnTimerFired(failure: Option<string>) returns (url: Option<string>)
      modifies this
      ensures State() == Step(old(State()), TimerFired(failure))
      ensures url.Some? <==> old(pendingReconnects) > 0
      ensures url.Some? ==> url.value == GetWebSocketUrl(symbol, stream, interval)
    {
      url := None;
      if pendingReconnects > 0 {
        pendingReconnects := pendingReconnects - 1;
        reconnectAttempts := reconnectAttempts + 1;
        url := Some(GetWebSocketUrl(symbol, stream, interval));
        if failure.None? {
          live := true;
        } else {
          error := failure;
        }
      }
    }
  }
}
