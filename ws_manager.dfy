/** The browser socket hook with a shared reconnect counter
    (app/hooks/useWebSocketManager.ts). The socket and the timer are replaced by
    events; each `close` increments the counter first and then schedules a reconnect
    while the counter is at most five. */
module WebSocketManager {

  import opened Wrappers

  const WsUrl: string := "wss://fstream.binance.com/ws"
  const ReconnectIntervalMs: nat := 3000
  const MaxReconnectAttempts: nat := 5

  const ProcessingError: string := "Error processing market data"
  const ConnectionError: string := "WebSocket connection error"
  const MaxAttemptsError: string := "Maximum reconnection attempts reached"
  const CreateError: string := "Failed to create WebSocket connection"

  /** The URL `connect` opens for an endpoint. */
  function SocketUrl(endpoint: string): (url: string)
    ensures url == WsUrl + "/" + endpoint
    ensures url[..|WsUrl| + 1] == "wss://fstream.binance.com/ws/" && url[|WsUrl| + 1..] == endpoint
  {
    WsUrl + "/" + endpoint
  }

  /** The hook's state: its two React state values, the counter held in a ref, and
      the reconnect timers still pending. */
  datatype ManagerState = ManagerState(isConnected: bool, error: Option<string>, attempts: nat, pending: nat)

  const Initial: ManagerState := ManagerState(false, None, 0, 0)

  datatype Event =
    | Open
    | Message(parsed: bool)      // whether `JSON.parse` accepted the payload
    | SocketError
    | Close
    | TimerFired(created: bool)  // whether the reconnect could construct a socket

  /** `connect`'s handlers, one event at a time. */
  function Step(s: ManagerState, ev: Event): ManagerState {
    match ev
    case Open => s.(isConnected := true, error := None, attempts := 0)
    case Message(parsed) => if parsed then s else s.(error := Some(ProcessingError))
    case SocketError => s.(error := Some(ConnectionError))
    case Close =>
      var attempts := s.attempts + 1;
      if attempts <= MaxReconnectAttempts then s.(isConnected := false, attempts := attempts, pending := s.pending + 1)
      else s.(isConnected := false, attempts := attempts, error := Some(MaxAttemptsError))
    case TimerFired(created) =>
      if s.pending == 0 then s
      else if created then s.(pending := s.pending - 1)
      else s.(pending := s.pending - 1, error := Some(CreateError))
  }

  /** Whether this event is a `close` that schedules a reconnect. */
  predicate Schedules(s: ManagerState, ev: Event) {
    ev == Close && s.attempts + 1 <= MaxReconnectAttempts
  }

  function ScheduledCount(s: ManagerState, evs: seq<Event>): nat
    decreases |evs|
  {
    if evs == [] then 0
    else (if Schedules(s, evs[0]) then 1 else 0) + ScheduledCount(Step(s, evs[0]), evs[1..])
  }

  /** Without an `open`, at most `5 - counter` reconnects are scheduled. */
  lemma {:induction false} ReconnectBound(s: ManagerState, evs: seq<Event>)
    requires forall i :: 0 <= i < |evs| ==> evs[i] != Open
    ensures ScheduledCount(s, evs) <=
              if s.attempts >= MaxReconnectAttempts then 0 else MaxReconnectAttempts - s.attempts
    decreases |evs|
  {
    if evs != [] {
      ReconnectBound(Step(s, evs[0]), evs[1..]);
    }
  }

  /** So at most five reconnects follow an open. */
  lemma AtMostFiveAfterOpen(s: ManagerState, evs: seq<Event>)
    requires forall i :: 0 <= i < |evs| ==> evs[i] != Open
    ensures ScheduledCount(Step(s, Open), evs) <= MaxReconnectAttempts
  {
    ReconnectBound(Step(s, Open), evs);
  }

  function Closes(n: nat): (r: seq<Event>)
    ensures |r| == n && forall i :: 0 <= i < n ==> r[i] == Close
  {
    if n == 0 then [] else Closes(n - 1) + [Close]
  }

  function Run(s: ManagerState, evs: seq<Event>): ManagerState
    decreases |evs|
  {
    if evs == [] then s else Run(Step(s, evs[0]), evs[1..])
  }

  lemma {:induction false} RunCloses(s: ManagerState, n: nat)
    ensures Run(s, Closes(n)).attempts == s.attempts + n
  {
    if n > 0 {
      RunCloses(s, n - 1);
      RunAppend(s, Closes(n - 1), Close);
    }
  }

  lemma {:induction false} RunAppend(s: ManagerState, evs: seq<Event>, ev: Event)
    ensures Run(s, evs + [ev]) == Step(Run(s, evs), ev)
    decreases |evs|
  {
    if evs != [] {
      assert (evs + [ev])[1..] == evs[1..] + [ev];
      RunAppend(Step(s, evs[0]), evs[1..], ev);
    } else {
      assert Run(Step(s, ev), []) == Step(s, ev);
    }
  }

  /** After an open and five closes, a sixth close schedules nothing and reports
      that the maximum was reached. */
  lemma SixthCloseGivesUp(s: ManagerState)
    ensures var afterOpen := Step(s, Open);
      var five := Run(afterOpen, Closes(5));
      && !Schedules(five, Close)
      && Step(five, Close).pending == five.pending
      && Step(five, Close).error == Some(MaxAttemptsError)
  {
    RunCloses(Step(s, Open), 5);
  }

  /** A payload that fails to parse sets the processing error and nothing else: the
      socket stays up and no reconnect follows. */
  lemma BadMessageOnlySetsError(s: ManagerState)
    ensures Step(s, Message(false)) == s.(error := Some(ProcessingError))
    ensures Step(s, Message(true)) == s
    ensures Step(s, SocketError).attempts == s.attempts && Step(s, SocketError).pending == s.pending
  {
  }

  class Manager {
    const endpoint: string
    var isConnected: bool
    var error: Option<string>
    var reconnectAttempts: nat
    var pendingReconnects: nat

    function State(): ManagerState
      reads this
    {
      ManagerState(isConnected, error, reconnectAttempts, pendingReconnects)
    }

    /** Mounting the hook: state starts empty and `connect` runs once; `created` says
        whether the first socket could be constructed. */
    constructor (endpoint: string, created: bool)
      ensures this.endpoint == endpoint
      ensures State() == if created then Initial else Initial.(error := Some(CreateError))
    {
      this.endpoint := endpoint;
      isConnected := false;
      error := if created then None else Some(CreateError);
      reconnectAttempts := 0;
      pendingReconnects := 0;
    }

    method Url() returns (url: string)
      ensures url == SocketUrl(endpoint)
    {
      url := WsUrl + "/" + endpoint;
    }

    method OnOpen()
      modifies this
      ensures State() == Step(old(State()), Open)
    {
      isConnected := true;
      error := None;
      reconnectAttempts := 0;
    }

    method OnMessage(parsed: bool)
      modifies this
      ensures State() == Step(old(State()), Message(parsed))
    {
      if !parsed {
        error := Some(ProcessingError);
      }
    }

    method OnError()
      modifies this
      ensures State() == Step(old(State()), SocketError)
    {
      error := Some(ConnectionError);
    }

    /** Returns whether a reconnect was scheduled, and its delay. */
    method OnClose() returns (scheduled: bool, delay: nat)
      modifies this
      ensures State() == Step(old(State()), Close)
      ensures scheduled <==> Schedules(old(State()), Close)
      ensures scheduled ==> delay == ReconnectIntervalMs
    {
      isConnected := false;
      reconnectAttempts := reconnectAttempts + 1;
      delay := 0;
      scheduled := reconnectAttempts <= MaxReconnectAttempts;
      if scheduled {
        pendingReconnects := pendingReconnects + 1;
        delay := ReconnectIntervalMs;
      } else {
        error := Some(MaxAttemptsError);
      }
    }

    method OnTimerFired(created: bool)
      modifies this
      ensures State() == Step(old(State()), TimerFired(created))
    {
      if pendingReconnects > 0 {
        pendingReconnects := pendingReconnects - 1;
        if !created {
          error := Some(CreateError);
        }
      }
    }
  }
}
