/**
 * `lib/websocket.ts`: the browser side of the chat socket, a small state
 * machine that connects with the session token, keeps a heartbeat, retries
 * a bounded number of times after the socket closes, and fans events out
 * to subscribed handlers. Socket events and timer expiries are method
 * calls; handlers are named by an identity, and the model records which
 * were called in which order.
 */
module WebSocketClient {
  import opened Base
  import JsArray

  /** The `readyState` of the browser socket. */
  datatype ReadyState = Connecting | Open | Closing | Closed

  /** The four handler lists. */
  datatype Channel = MessageChannel | ConnectChannel | DisconnectChannel | ErrorChannel

  /** A handler, compared by identity as `!==` does. */
  type HandlerId = nat

  const MaxReconnectAttempts: nat := 5
  const ReconnectDelay: nat := 1000

  /** The text the heartbeat sends every 30 seconds. */
  const PingFrame := "{\"type\":\"ping\",\"content\":\"ping\"}"

  /** The delays of the first `k` retries: the k-th waits `k` times the base delay. */
  function RetryDelays(k: nat): (r: seq<nat>)
    ensures |r| == k
    ensures forall i :: 0 <= i < k ==> r[i] == ReconnectDelay * (i + 1)
  {
    if k == 0 then [] else RetryDelays(k - 1) + [ReconnectDelay * k]
  }

  function Min(a: nat, b: nat): nat {
    if a < b then a else b
  }

  class Client {
    const baseUrl: string
    /** `ws`: `None` for null, else the socket's state. */
    var socket: Option<ReadyState>
    var token: Option<string>
    var reconnectAttempts: nat
    var isConnecting: bool
    /** Whether a heartbeat interval is installed. */
    var heartbeat: bool
    var messageHandlers: seq<HandlerId>
    var connectionHandlers: seq<HandlerId>
    var disconnectionHandlers: seq<HandlerId>
    var errorHandlers: seq<HandlerId>
    /** The tokens sockets were opened with, in order. */
    var dialed: seq<string>
    /** The delays of the reconnect timers set, in order. */
    var scheduled: seq<nat>
    /** The frames written to an open socket, in order. */
    var sent: seq<string>
    /** The handlers called, in order. */
    var calls: seq<HandlerId>

    /** The retry counter never passes its maximum. */
    predicate Valid()
      reads this
    {
      reconnectAttempts <= MaxReconnectAttempts
    }

    predicate IsConnected()
      reads this
    {
      socket == Some(Open)
    }

    function Handlers(channel: Channel): seq<HandlerId>
      reads this
    {
      match channel
      case MessageChannel => messageHandlers
      case ConnectChannel => connectionHandlers
      case DisconnectChannel => disconnectionHandlers
      case ErrorChannel => errorHandlers
    }

    constructor (baseUrl: string)
      ensures Valid() && this.baseUrl == baseUrl
      ensures socket == None && token == None && reconnectAttempts == 0 && !isConnecting && !heartbeat
      ensures forall ch :: Handlers(ch) == []
      ensures dialed == [] && scheduled == [] && sent == [] && calls == []
    {
      this.baseUrl := baseUrl;
      socket := None;
      token := None;
      reconnectAttempts := 0;
      isConnecting := false;
      heartbeat := false;
      messageHandlers := [];
      connectionHandlers := [];
      disconnectionHandlers := [];
      errorHandlers := [];
      dialed := [];
      scheduled := [];
      sent := [];
      calls := [];
    }

    method SetToken(t: Option<string>)
      modifies this
      ensures token == t
      ensures socket == old(socket) && reconnectAttempts == old(reconnectAttempts) && isConnecting == old(isConnecting)
      ensures heartbeat == old(heartbeat) && dialed == old(dialed) && scheduled == old(scheduled)
      ensures sent == old(sent) && calls == old(calls) && forall ch :: Handlers(ch) == old(Handlers(ch))
    {
      token := t;
    }

    /**
     * `connect`: does nothing while the socket is open or a connect is in
     * progress, or without a (non-empty) token; otherwise opens a new
     * socket with the token. `created` is false when building the URL or
     * the socket throws, which only clears the in-progress flag.
     */
    method Connect(created: bool)
      requires Valid()
      modifies this
      ensures Valid()
      ensures (old(socket) == Some(Open) || old(isConnecting) || old(token) == None || old(token) == Some("")) ==>
        (socket == old(socket) && isConnecting == old(isConnecting) && dialed == old(dialed))
      ensures !(old(socket) == Some(Open) || old(isConnecting) || old(token) == None || old(token) == Some("")) ==>
        (if created then socket == Some(Connecting) && isConnecting && dialed == old(dialed) + [old(token).value]
         else socket == old(socket) && !isConnecting && dialed == old(dialed))
      ensures token == old(token) && reconnectAttempts == old(reconnectAttempts) && heartbeat == old(heartbeat)
      ensures scheduled == old(scheduled) && sent == old(sent) && calls == old(calls)
      ensures forall ch :: Handlers(ch) == old(Handlers(ch))
    {
      if socket == Some(Open) {
        return;
      }
      if isConnecting {
        return;
      }
      if token == None || token == Some("") {
        return;
      }
      isConnecting := true;
      if created {
        dialed := dialed + [token.value];
        socket := Some(Connecting);
      } else {
        isConnecting := false;
      }
    }

    /** The socket's `onopen`: the retry counter is reset, the heartbeat starts and the connect handlers run. */
    method OnOpen()
      requires Valid() && socket == Some(Connecting)
      modifies this
      ensures Valid() && IsConnected()
      ensures reconnectAttempts == 0 && !isConnecting && heartbeat
      ensures calls == old(calls) + connectionHandlers
      ensures token == old(token) && dialed == old(dialed) && scheduled == old(scheduled) && sent == old(sent)
      ensures forall ch :: Handlers(ch) == old(Handlers(ch))
    {
      socket := Some(Open);
      isConnecting := false;
      reconnectAttempts := 0;
      heartbeat := true;
      calls := calls + connectionHandlers;
    }

    /** The socket's `onmessage`: the message handlers run when the frame parses as JSON. */
    method OnMessage(parses: bool)
      modifies this
      ensures parses ==> calls == old(calls) + messageHandlers
      ensures !parses ==> calls == old(calls)
      ensures socket == old(socket) && token == old(token) && reconnectAttempts == old(reconnectAttempts)
      ensures isConnecting == old(isConnecting) && heartbeat == old(heartbeat)
      ensures dialed == old(dialed) && scheduled == old(scheduled) && sent == old(sent)
      ensures forall ch :: Handlers(ch) == old(Handlers(ch))
    {
      if parses {
        calls := calls + messageHandlers;
      }
    }

    /**
     * `handleReconnect`: while retries remain, counts one more and sets a
     * timer for that many base delays; afterwards gives up.
     */
    method HandleReconnect()
      requires Valid()
      modifies this
      ensures Valid()
      ensures old(reconnectAttempts) < MaxReconnectAttempts ==>
        reconnectAttempts == old(reconnectAttempts) + 1 && scheduled == old(scheduled) + [ReconnectDelay * reconnectAttempts]
      ensures old(reconnectAttempts) >= MaxReconnectAttempts ==>
        reconnectAttempts == old(reconnectAttempts) && scheduled == old(scheduled)
      ensures socket == old(socket) && token == old(token) && isConnecting == old(isConnecting)
      ensures heartbeat == old(heartbeat) && dialed == old(dialed) && sent == old(sent) && calls == old(calls)
      ensures forall ch :: Handlers(ch) == old(Handlers(ch))
    {
      if reconnectAttempts < MaxReconnectAttempts {
        reconnectAttempts := reconnectAttempts + 1;
        scheduled := scheduled + [ReconnectDelay * reconnectAttempts];
      }
    }

    /**
     * The socket's `onclose`: the heartbeat stops, the disconnect handlers
     * run and a retry is considered. A socket already dropped by
     * `disconnect` stays dropped.
     */
    method OnClose()
      requires Valid()
      modifies this
      ensures Valid()
      ensures socket == (if old(socket) == None then None else Some(Closed))
      ensures !isConnecting && !heartbeat
      ensures calls == old(calls) + disconnectionHandlers
      ensures old(reconnectAttempts) < MaxReconnectAttempts ==>
        reconnectAttempts == old(reconnectAttempts) + 1 && scheduled == old(scheduled) + [ReconnectDelay * reconnectAttempts]
      ensures old(reconnectAttempts) >= MaxReconnectAttempts ==>
        reconnectAttempts == old(reconnectAttempts) && scheduled == old(scheduled)
      ensures token == old(token) && dialed == old(dialed) && sent == old(sent)
      ensures forall ch :: Handlers(ch) == old(Handlers(ch))
    {
      if socket != None {
        socket := Some(Closed);
      }
      isConnecting := false;
      heartbeat := false;
      calls := calls + disconnectionHandlers;
      HandleReconnect();
      assert disconnectionHandlers == Handlers(DisconnectChannel);
    }

    /** The socket's `onerror`: the in-progress flag clears and the error handlers run. */
    method OnError()
      modifies this
      ensures !isConnecting && calls == old(calls) + errorHandlers
      ensures socket == old(socket) && token == old(token) && reconnectAttempts == old(reconnectAttempts)
      ensures heartbeat == old(heartbeat) && dialed == old(dialed) && scheduled == old(scheduled) && sent == old(sent)
      ensures forall ch :: Handlers(ch) == old(Handlers(ch))
    {
      isConnecting := false;
      calls := calls + errorHandlers;
    }

    /** `disconnect`: uses up the retries so a later close schedules nothing, stops the heartbeat and drops the socket. */
    method Disconnect()
      modifies this
      ensures Valid()
      ensures reconnectAttempts == MaxReconnectAttempts && !heartbeat && socket == None
      ensures token == old(token) && isConnecting == old(isConnecting) && dialed == old(dialed)
      ensures scheduled == old(scheduled) && sent == old(sent) && calls == old(calls)
      ensures forall ch :: Handlers(ch) == old(Handlers(ch))
    {
      reconnectAttempts := MaxReconnectAttempts;
      heartbeat := false;
      socket := None;
    }

    /** `send`: written only to an open socket, dropped otherwise. */
    method Send(frame: string)
      modifies this
      ensures old(IsConnected()) ==> sent == old(sent) + [frame]
      ensures !old(IsConnected()) ==> sent == old(sent)
      ensures socket == old(socket) && token == old(token) && reconnectAttempts == old(reconnectAttempts)
      ensures isConnecting == old(isConnecting) && heartbeat == old(heartbeat)
      ensures dialed == old(dialed) && scheduled == old(scheduled) && calls == old(calls)
      ensures forall ch :: Handlers(ch) == old(Handlers(ch))
    {
      if socket == Some(Open) {
        sent := sent + [frame];
      }
    }

    /** One tick of the heartbeat interval: a ping, sent like any other frame. */
    method Heartbeat()
      requires heartbeat
      modifies this
      ensures old(IsConnected()) ==> sent == old(sent) + [PingFrame]
      ensures !old(IsConnected()) ==> sent == old(sent)
      ensures socket == old(socket) && token == old(token) && reconnectAttempts == old(reconnectAttempts)
      ensures isConnecting == old(isConnecting) && heartbeat == old(heartbeat)
      ensures dialed == old(dialed) && scheduled == old(scheduled) && calls == old(calls)
      ensures forall ch :: Handlers(ch) == old(Handlers(ch))
    {
      Send(PingFrame);
    }

    method SetHandlers(channel: Channel, handlers: seq<HandlerId>)
      modifies this
      ensures Handlers(channel) == handlers
      ensures forall ch :: ch != channel ==> Handlers(ch) == old(Handlers(ch))
      ensures socket == old(socket) && token == old(token) && reconnectAttempts == old(reconnectAttempts)
      ensures isConnecting == old(isConnecting) && heartbeat == old(heartbeat)
      ensures dialed == old(dialed) && scheduled == old(scheduled) && sent == old(sent) && calls == old(calls)
    {
      match channel
      case MessageChannel => messageHandlers := handlers;
      case ConnectChannel => connectionHandlers := handlers;
      case DisconnectChannel => disconnectionHandlers := handlers;
      case ErrorChannel => errorHandlers := handlers;
    }

    /** `onMessage`, `onConnect`, `onDisconnect`, `onError`: the handler goes last in its list. */
    method Subscribe(channel: Channel, handler: HandlerId)
      modifies this
      ensures Handlers(channel) == old(Handlers(channel)) + [handler]
      ensures forall ch :: ch != channel ==> Handlers(ch) == old(Handlers(ch))
      ensures socket == old(socket) && token == old(token) && reconnectAttempts == old(reconnectAttempts)
      ensures isConnecting == old(isConnecting) && heartbeat == old(heartbeat)
      ensures dialed == old(dialed) && scheduled == old(scheduled) && sent == old(sent) && calls == old(calls)
    {
      SetHandlers(channel, Handlers(channel) + [handler]);
    }

    /** The function a subscription returns: every occurrence of the handler leaves its list. */
    method Unsubscribe(channel: Channel, handler: HandlerId)
      modifies this
      ensures Handlers(channel) == JsArray.Filter(old(Handlers(channel)), (h: HandlerId) => h != handler)
      ensures handler !in Handlers(channel)
      ensures forall ch :: ch != channel ==> Handlers(ch) == old(Handlers(ch))
      ensures socket == old(socket) && token == old(token) && reconnectAttempts == old(reconnectAttempts)
      ensures isConnecting == old(isConnecting) && heartbeat == old(heartbeat)
      ensures dialed == old(dialed) && scheduled == old(scheduled) && sent == old(sent) && calls == old(calls)
    {
      SetHandlers(channel, JsArray.Filter(Handlers(channel), (h: HandlerId) => h != handler));
    }
  }

  /**
   * A socket that keeps failing: `n` connect-then-close rounds from a
   * fresh client schedule retries after 1, 2, ... seconds, and no more
   * than five of them.
   */
  method FailingServer(n: nat) returns (delays: seq<nat>, attempts: nat)
    ensures delays == RetryDelays(Min(n, MaxReconnectAttempts))
    ensures attempts == Min(n, MaxReconnectAttempts)
  {
    var c := new Client("ws://localhost:8080/api/v1/ws/chat");
    c.SetToken(Some("token"));
    var i := 0;
    while i < n
      invariant 0 <= i <= n
      invariant c.Valid() && !c.isConnecting && c.socket != Some(Open) && c.token == Some("token")
      invariant c.reconnectAttempts == Min(i, MaxReconnectAttempts)
      invariant c.scheduled == RetryDelays(Min(i, MaxReconnectAttempts))
    {
      c.Connect(true);
      c.OnClose();
      i := i + 1;
    }
    delays := c.scheduled;
    attempts := c.reconnectAttempts;
  }

  /**
   * After `disconnect`, the close that follows schedules nothing, and a
   * frame sent meanwhile is dropped.
   */
  method DisconnectThenClose(frame: string) returns (scheduledAfter: seq<nat>, sentAfter: seq<string>, dialedAfter: seq<string>)
    ensures scheduledAfter == [] && sentAfter == [] && dialedAfter == ["token"]
  {
    var c := new Client("ws://localhost:8080/api/v1/ws/chat");
    c.SetToken(Some("token"));
    c.Connect(true);
    c.OnOpen();
    c.Disconnect();
    c.Send(frame);
    c.OnClose();
    scheduledAfter := c.scheduled;
    sentAfter := c.sent;
    dialedAfter := c.dialed;
  }
}
