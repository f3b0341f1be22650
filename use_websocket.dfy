// The browser side of the notifications (client/src/hooks/useWebSocket.ts):
// a connection status, the messages received so far, and a reconnect
// counter that a run of closes can raise only up to its maximum. The
// browser `WebSocket`, `setTimeout` and `JSON.parse` are opaque: their
// outcomes arrive as parameters.

module WebSocketHookModel {
  import opened Common
  import opened Notifications

  /** `connectionStatus`. */
  datatype Status = Connecting | Connected | Disconnected | Failed

  datatype Options = Options(
    reconnectOnClose: Option<bool>,
    reconnectInterval: Option<int>,
    maxReconnectAttempts: Option<int>)

  const DefaultMaxReconnectAttempts := 5
  const DefaultReconnectInterval := 3000

  /** `options?.maxReconnectAttempts || 5`: a missing value and 0 both give 5. */
  function MaxAttempts(o: Options): (r: int)
    ensures o.maxReconnectAttempts.None? ==> r == DefaultMaxReconnectAttempts
    ensures o.maxReconnectAttempts == Some(0) ==> r == DefaultMaxReconnectAttempts
    ensures o.maxReconnectAttempts.Some? && o.maxReconnectAttempts.value != 0 ==> r == o.maxReconnectAttempts.value
  {
    match o.maxReconnectAttempts
    case None => DefaultMaxReconnectAttempts
    case Some(m) => if m == 0 then DefaultMaxReconnectAttempts else m
  }

  /** `options?.reconnectInterval || 3000`. */
  function Interval(o: Options): int {
    match o.reconnectInterval
    case None => DefaultReconnectInterval
    case Some(i) => if i == 0 then DefaultReconnectInterval else i
  }

  /** The attempt counter after one close event. */
  function CloseStep(attempts: nat, reconnect: bool, max: int): nat {
    if reconnect && attempts < max then attempts + 1 else attempts
  }

  /** The attempt counter after `n` close events with no successful open between them. */
  function AfterCloses(attempts: nat, n: nat, reconnect: bool, max: int): nat {
    if n == 0 then attempts else CloseStep(AfterCloses(attempts, n - 1, reconnect, max), reconnect, max)
  }

  /** However many closes arrive, the counter never passes the maximum (or
      0 when the maximum is negative); with reconnection on, it climbs one per
      close until it reaches the maximum; with it off, it never moves. */
  lemma {:induction false} AfterClosesSpec(attempts: nat, n: nat, reconnect: bool, max: int)
    requires attempts <= Max(max, 0)
    ensures AfterCloses(attempts, n, reconnect, max) <= Max(max, 0)
    ensures reconnect && attempts <= max ==> AfterCloses(attempts, n, reconnect, max) == Min(attempts + n, max)
    ensures !reconnect ==> AfterCloses(attempts, n, reconnect, max) == attempts
  {
    if n > 0 {
      AfterClosesSpec(attempts, n - 1, reconnect, max);
    }
  }

  /** The state the hook keeps in React state and refs. A socket is a handle;
      its `readyState` belongs to the browser and is passed in where read. */
  class WebSocketHook {
    const options: Options
    const maxReconnectAttempts: int
    var isConnected: bool
    var messages: seq<Message>
    var status: Status
    /** `webSocketRef.current`. */
    var socket: Option<nat>
    /** `reconnectAttemptsRef.current`. */
    var attempts: nat
    /** Whether `reconnectIntervalRef.current` holds a timer. */
    var timerSet: bool
    /** Sockets `disconnect` has closed, in order. */
    var closed: seq<nat>

    ghost predicate Valid()
      reads this
    {
      maxReconnectAttempts == MaxAttempts(options) && attempts <= Max(maxReconnectAttempts, 0)
    }

    constructor(options: Options)
      ensures Valid()
      ensures this.options == options && !isConnected && messages == [] && status == Disconnected
      ensures socket == None && attempts == 0 && !timerSet && closed == []
    {
      this.options := options;
      maxReconnectAttempts := MaxAttempts(options);
      isConnected := false;
      messages := [];
      status := Disconnected;
      socket := None;
      attempts := 0;
      timerSet := false;
      closed := [];
    }

    /** `connect`: nothing when the current socket is open; otherwise status
        `connecting` and a new socket `handle`, or status `error` when the
        `WebSocket` constructor throws. */
    method Connect(currentState: ReadyState, handle: nat, constructorThrows: bool)
      requires Valid()
      modifies this
      ensures Valid()
      ensures old(socket).Some? && currentState == Open ==>
        status == old(status) && socket == old(socket)
      ensures !(old(socket).Some? && currentState == Open) ==>
        status == (if constructorThrows then Failed else Status.Connecting) &&
        socket == (if constructorThrows then old(socket) else Some(handle))
      ensures isConnected == old(isConnected) && messages == old(messages) && attempts == old(attempts)
      ensures timerSet == old(timerSet) && closed == old(closed)
    {
      if socket.Some? && currentState == Open {
        return;
      }
      status := Status.Connecting;
      if constructorThrows {
        status := Failed;
      } else {
        socket := Some(handle);
      }
    }

    /** `onopen`: connected, and the attempt counter starts over. */
    method OnOpen()
      requires Valid()
      modifies this
      ensures Valid()
      ensures isConnected && status == Connected && attempts == 0
      ensures messages == old(messages) && socket == old(socket) && timerSet == old(timerSet) && closed == old(closed)
    {
      isConnected := true;
      status := Connected;
      attempts := 0;
    }

    /** `onclose`: disconnected; a reconnect is scheduled, and counted, only
        when reconnection is on and the counter is below the maximum. */
    method OnClose()
      requires Valid()
      modifies this
      ensures Valid()
      ensures !isConnected && status == Disconnected
      ensures attempts == CloseStep(old(attempts), options.reconnectOnClose == Some(true), maxReconnectAttempts)
      ensures timerSet == (old(timerSet) || attempts != old(attempts))
      ensures messages == old(messages) && socket == old(socket) && closed == old(closed)
    {
      isConnected := false;
      status := Disconnected;
      if options.reconnectOnClose == Some(true) && attempts < maxReconnectAttempts {
        attempts := attempts + 1;
        timerSet := true;
      }
    }

    /** `onerror`: status `error`, nothing else. */
    method OnError()
      requires Valid()
      modifies this
      ensures Valid()
      ensures status == Failed
      ensures isConnected == old(isConnected) && attempts == old(attempts) && messages == old(messages)
      ensures socket == old(socket) && timerSet == old(timerSet) && closed == old(closed)
    {
      status := Failed;
    }

    /** `onmessage`: `parsed` is what `JSON.parse` gave, `None` when it threw;
        a parsed message goes to the end of the list. */
    method OnMessage(parsed: Option<Message>)
      requires Valid()
      modifies this
      ensures Valid()
      ensures messages == old(messages) + (if parsed.Some? then [parsed.value] else [])
      ensures isConnected == old(isConnected) && status == old(status) && attempts == old(attempts)
      ensures socket == old(socket) && timerSet == old(timerSet) && closed == old(closed)
    {
      if parsed.Some? {
        messages := messages + [parsed.value];
      }
    }

    /** `disconnect`: cancel any pending reconnect, close and drop the socket. */
    method Disconnect()
      requires Valid()
      modifies this
      ensures Valid()
      ensures !timerSet && socket == None && !isConnected && status == Disconnected
      ensures closed == old(closed) + (if old(socket).Some? then [old(socket).value] else [])
      ensures attempts == old(attempts) && messages == old(messages)
    {
      timerSet := false;
      if socket.Some? {
        closed := closed + [socket.value];
        socket := None;
      }
      isConnected := false;
      status := Disconnected;
    }
  }
}
