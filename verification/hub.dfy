/**
 * The WebSocket hub of `websocket/hub.go`: the table of live clients, the
 * per-user lists of clients, and one bounded mailbox per client.
 *
 * Each case of the hub's `Run` loop (register, unregister, broadcast), each
 * `SendToUser` call and each inbound message is one sequential step on
 * the shared state. A mailbox is a FIFO queue of encoded payloads holding
 * at most `MailboxCapacity` entries, with a flag saying whether it has
 * been closed.
 */
module Hub {
  import opened Base

  /** The buffer size of every client's `send` channel. */
  const MailboxCapacity: nat := 256

  const WelcomeText := "欢迎使用智能聊天助手！"

  /** A Go value handed to `json.Marshal`; `Unsupported` stands for a channel, a function or the like. */
  datatype Value =
    | Null
    | Bool(b: bool)
    | Number(n: int)
    | Str(s: string)
    | List(items: seq<Value>)
    | Object(fields: seq<Field>)
    | Unsupported(kind: string)

  datatype Field = Field(key: string, val: Value)

  /** `json.Marshal` succeeds exactly on values holding nothing unsupported. */
  predicate Encodable(v: Value) {
    match v
    case List(items) => forall i :: 0 <= i < |items| ==> Encodable(items[i])
    case Object(fields) => forall i :: 0 <= i < |fields| ==> Encodable(fields[i].val)
    case Unsupported(_) => false
    case _ => true
  }

  /** The bytes `json.Marshal` produced, kept as the document they encode. */
  datatype Payload = Payload(doc: Value)

  function Marshal(v: Value): (r: Result<Payload>)
    ensures r.Ok? <==> Encodable(v)
    ensures r.Ok? ==> r.value.doc == v
  {
    if Encodable(v) then Ok(Payload(v)) else Err("json: unsupported type")
  }

  /** The hub's `Message` struct. The timestamp is a parameter of whoever builds one. */
  datatype Message = Message(
    msgType: string, content: string, userID: Uuid, username: string,
    data: Option<Value>, timestamp: int)

  /**
   * The JSON object of a message. `username` and `data` carry `omitempty`;
   * `user_id` is a fixed-size array, which `omitempty` never drops.
   */
  function ToValue(m: Message): Value {
    Object(
      [Field("type", Str(m.msgType)), Field("content", Str(m.content)), Field("user_id", Str(m.userID))]
      + (if m.username == "" then [] else [Field("username", Str(m.username))])
      + (match m.data case None => [] case Some(d) => [Field("data", d)])
      + [Field("timestamp", Number(m.timestamp))])
  }

  /** A message can be encoded exactly when its `data`, if any, can. */
  lemma MessageEncodable(m: Message)
    ensures Encodable(ToValue(m)) <==> (m.data.None? || Encodable(m.data.value))
  {
    var fields := ToValue(m).fields;
    if m.data.Some? {
      var k := if m.username == "" then 3 else 4;
      assert fields[k] == Field("data", m.data.value);
    }
    if m.data.None? || Encodable(m.data.value) {
      forall i | 0 <= i < |fields| ensures Encodable(fields[i].val) {
        assert fields[i].val.Str? || fields[i].val.Number? || fields[i].val == m.data.value;
      }
    }
  }

  /** A message from the server itself: no user, no data. */
  function ServerMessage(msgType: string, content: string, now: int): Message {
    Message(msgType, content, NilUuid, "", None, now)
  }

  function WelcomeFrame(now: int): Payload {
    Payload(ToValue(ServerMessage("system", WelcomeText, now)))
  }

  function PongFrame(now: int): Payload {
    Payload(ToValue(ServerMessage("pong", "pong", now)))
  }

  /** Server messages always encode. */
  lemma ServerMessageMarshals(msgType: string, content: string, now: int)
    ensures Marshal(ToValue(ServerMessage(msgType, content, now))) == Ok(Payload(ToValue(ServerMessage(msgType, content, now))))
  {
    MessageEncodable(ServerMessage(msgType, content, now));
  }

  /** What `readPump` does with an inbound message type. */
  datatype Action = ReplyPong | LogChat | WarnUnknown

  function Dispatch(msgType: string): (a: Action)
    ensures a == ReplyPong <==> msgType == "ping"
    ensures a == LogChat <==> msgType == "chat"
  {
    if msgType == "ping" then ReplyPong
    else if msgType == "chat" then LogChat
    else WarnUnknown
  }

  /** An inbound message with the session's identity and the arrival time written over the sender's. */
  function Stamp(msg: Message, userID: Uuid, username: string, now: int): (r: Message)
    ensures r.userID == userID && r.username == username && r.timestamp == now
    ensures r.msgType == msg.msgType && r.content == msg.content && r.data == msg.data
  {
    msg.(userID := userID, username := username, timestamp := now)
  }

  /** The outcome of handling an inbound message: done, or a send on a closed mailbox, which panics in Go. */
  datatype InboundOutcome = Handled | InboundPanicked

  /** One WebSocket session. */
  class Client {
    const id: Uuid
    const userID: Uuid
    const username: string
    /** The queued payloads, oldest first. */
    var send: seq<Payload>
    var closed: bool

    /** A client as `HandleWebSocket` builds it: an empty, open mailbox. */
    constructor (id: Uuid, userID: Uuid, username: string)
      ensures this.id == id && this.userID == userID && this.username == username
      ensures send == [] && !closed
    {
      this.id := id;
      this.userID := userID;
      this.username := username;
      send := [];
      closed := false;
    }

    /** `c.send <- p` that does not block: the mailbox is open and has room. */
    method Push(p: Payload)
      requires !closed && |send| < MailboxCapacity
      modifies this
      ensures send == old(send) + [p] && !closed
    {
      send := send + [p];
    }

    /** `select { case c.send <- p: default: }` on an open mailbox: queued when there is room. */
    method Offer(p: Payload) returns (accepted: bool)
      requires !closed
      modifies this
      ensures accepted <==> old(|send|) < MailboxCapacity
      ensures send == (if accepted then old(send) + [p] else old(send))
      ensures !closed
    {
      accepted := |send| < MailboxCapacity;
      if accepted {
        send := send + [p];
      }
    }

    /** `close(c.send)`; closing twice panics in Go, so the mailbox must be open. */
    method Close()
      requires !closed
      modifies this
      ensures closed && send == old(send)
    {
      closed := true;
    }

    /**
     * `message, ok := <-c.send` in `writePump`: the oldest payload, or
     * `None` once the mailbox is closed and drained. Receiving from an
     * empty open mailbox blocks, so that is excluded.
     */
    method Receive() returns (next: Option<Payload>)
      requires send != [] || closed
      modifies this
      ensures old(send) != [] ==> next == Some(old(send)[0]) && send == old(send)[1..]
      ensures old(send) == [] ==> next == None && send == []
      ensures closed == old(closed)
    {
      if send != [] {
        next := Some(send[0]);
        send := send[1..];
      } else {
        next := None;
      }
    }

    /**
     * The body of `readPump`'s loop for one decoded message: stamp it, and
     * answer a `"ping"` with a `"pong"` in this client's own mailbox. That
     * send blocks on a full mailbox, so the room is a precondition; on a
     * mailbox the hub has already closed it panics.
     */
    method HandleInbound(msg: Message, now: int) returns (stamped: Message, outcome: InboundOutcome)
      requires Dispatch(msg.msgType) == ReplyPong && !closed ==> |send| < MailboxCapacity
      modifies this
      ensures stamped == Stamp(msg, userID, username, now)
      ensures Dispatch(msg.msgType) == ReplyPong && !old(closed) ==>
        outcome == Handled && send == old(send) + [PongFrame(now)]
      ensures Dispatch(msg.msgType) == ReplyPong && old(closed) ==>
        outcome == InboundPanicked && send == old(send)
      ensures Dispatch(msg.msgType) != ReplyPong ==> outcome == Handled && send == old(send)
      ensures closed == old(closed)
    {
      stamped := Stamp(msg, userID, username, now);
      outcome := Handled;
      match Dispatch(stamped.msgType)
      case ReplyPong =>
        ServerMessageMarshals("pong", "pong", now);
        var data := Marshal(ToValue(ServerMessage("pong", "pong", now)));
        if data.Ok? {
          if closed {
            outcome := InboundPanicked;
          } else {
            Push(data.value);
          }
        }
      case LogChat =>
      case WarnUnknown =>
    }
  }

  /** The list under a user, empty when the user has no entry. */
  function Lookup(m: map<Uuid, seq<Client>>, u: Uuid): seq<Client> {
    if u in m then m[u] else []
  }

  /** The list with the first occurrence of `x` removed. */
  function RemoveFirst<T(==)>(s: seq<T>, x: T): seq<T> {
    if s == [] then []
    else if s[0] == x then s[1..]
    else [s[0]] + RemoveFirst(s[1..], x)
  }

  /** Removing the first occurrence takes exactly one `x` out, and nothing when there is none. */
  lemma {:induction false} RemoveFirstCount<T>(s: seq<T>, x: T)
    ensures x in s ==> multiset(RemoveFirst(s, x)) == multiset(s) - multiset{x}
    ensures x !in s ==> RemoveFirst(s, x) == s
  {
    if s != [] {
      RemoveFirstCount(s[1..], x);
      assert s == [s[0]] + s[1..];
      if s[0] != x {
        assert x in s ==> x in s[1..];
      }
    }
  }

  /** The splice at the first matching index is `RemoveFirst`. */
  lemma {:induction false} RemoveFirstAt<T>(s: seq<T>, x: T, i: int)
    requires 0 <= i < |s| && s[i] == x && x !in s[..i]
    ensures RemoveFirst(s, x) == s[..i] + s[i + 1..]
  {
    if i > 0 {
      assert s[0] == s[..i][0];
      assert s[1..][..i - 1] == s[1..i];
      var t := s[1..][..i - 1];
      assert x !in t by {
        forall k | 0 <= k < |t| ensures t[k] != x {
          assert t[k] == s[..i][k + 1];
        }
      }
      RemoveFirstAt(s[1..], x, i - 1);
      assert s[1..][i..] == s[i + 1..];
      assert [s[0]] + s[1..i] == s[..i];
    }
  }

  /** No element occurs twice. */
  predicate Distinct<T(==)>(s: seq<T>) {
    forall i, j :: 0 <= i < j < |s| ==> s[i] != s[j]
  }

  /** Splicing one element out of a duplicate-free list removes every trace of it and keeps the rest. */
  lemma SpliceDistinct<T>(s: seq<T>, i: int)
    requires Distinct(s) && 0 <= i < |s|
    ensures var r := s[..i] + s[i + 1..];
      && Distinct(r) && s[i] !in r
      && (forall y :: y in r ==> y in s)
      && (forall y :: y in s && y != s[i] ==> y in r)
  {
    var r := s[..i] + s[i + 1..];
    assert forall k :: 0 <= k < |r| ==> r[k] == if k < i then s[k] else s[k + 1];
    forall y | y in s && y != s[i] ensures y in r {
      var k :| 0 <= k < |s| && s[k] == y;
      if k < i { assert r[k] == y; } else { assert r[k - 1] == y; }
    }
  }

  /** The table `Unregister` leaves: the client spliced out, and the key dropped when the list empties. */
  function Detach(m: map<Uuid, seq<Client>>, u: Uuid, c: Client): map<Uuid, seq<Client>>
    requires u in m
  {
    var rest := RemoveFirst(m[u], c);
    if rest == [] then m - {u} else m[u := rest]
  }

  /**
   * A user's list in a consistent hub: non-empty, each client at most once,
   * every client of that user, every mailbox within capacity, and every
   * client that has left the live table already closed.
   */
  ghost predicate ListOk(u: Uuid, list: seq<Client>, live: set<Client>)
    reads list
  {
    && |list| > 0
    && Distinct(list)
    && forall c :: c in list ==>
         c.userID == u && |c.send| <= MailboxCapacity && (c !in live ==> c.closed)
  }

  /** What `SendToUser` returns: `nil`, the marshal error, or a panic at the `at`-th listed client. */
  datatype SendOutcome = Sent | MarshalFailed(error: string) | Panicked(at: nat)

  class Hub {
    /** The `clients` map used as a set. */
    var clients: set<Client>
    /** `userClients`: each user's clients in the order they registered. */
    var userClients: map<Uuid, seq<Client>>

    /** Every client ever registered: the live ones and all the listed ones are among them. */
    ghost var registered: set<Client>

    ghost function ListedUnder(u: Uuid): seq<Client>
      reads this
    {
      Lookup(userClients, u)
    }

    /**
     * The invariant the hub keeps: a live client is open and listed under
     * its own user, and every list is well formed. A listed client need
     * not be live: a mailbox evicted for being full stays listed.
     */
    ghost predicate Valid()
      reads this, registered
    {
      && clients <= registered
      && (forall c :: c in clients ==> c.userID in userClients && c in userClients[c.userID] && !c.closed)
      && (forall u :: u in userClients ==> (forall c :: c in userClients[u] ==> c in registered) && ListOk(u, userClients[u], clients))
    }

    /** `NewHub`: both tables empty. */
    constructor ()
      ensures Valid()
      ensures clients == {} && userClients == map[] && registered == {}
    {
      clients := {};
      userClients := map[];
      registered := {};
    }

    /**
     * The register case: the client becomes live, goes to the end of its
     * user's list (which is created when absent), and gets the welcome
     * message. That send blocks on a full mailbox, so it needs room.
     */
    method Register(c: Client, now: int)
      requires Valid()
      requires c !in registered
      requires !c.closed && |c.send| < MailboxCapacity
      modifies this, c
      ensures Valid()
      ensures registered == old(registered) + {c}
      ensures clients == old(clients) + {c}
      ensures userClients == old(userClients)[c.userID := Lookup(old(userClients), c.userID) + [c]]
      ensures c.send == old(c.send) + [WelcomeFrame(now)] && !c.closed
    {
      var list := Lookup(userClients, c.userID);
      assert Distinct(list + [c]) by {
        assert forall k :: 0 <= k < |list| ==> list[k] in list;
      }
      registered := registered + {c};
      clients := clients + {c};
      userClients := userClients[c.userID := list + [c]];
      ServerMessageMarshals("system", WelcomeText, now);
      var data := Marshal(ToValue(ServerMessage("system", WelcomeText, now)));
      if data.Ok? {
        c.Push(data.value);
      }
      forall u | u in userClients
        ensures (forall x :: x in userClients[u] ==> x in registered) && ListOk(u, userClients[u], clients)
      {
        var l := userClients[u];
        if u != c.userID {
          assert l == old(userClients[u]) && c !in l;
          assert old(ListOk(u, l, clients));
        }
      }
    }

    /**
     * The unregister case: for a live client, drop it from the live table,
     * close its mailbox, splice its first occurrence out of its user's list
     * and delete the user's entry once the list is empty. Anything else is
     * left exactly as it was.
     */
    method Unregister(c: Client)
      requires Valid()
      modifies this, c
      ensures Valid()
      ensures registered == old(registered)
      ensures c.send == old(c.send)
      ensures old(c in clients) ==>
        && c.userID in old(userClients)
        && clients == old(clients) - {c}
        && c.closed
        && userClients == Detach(old(userClients), c.userID, c)
      ensures old(c !in clients) ==>
        clients == old(clients) && userClients == old(userClients) && c.closed == old(c.closed)
    {
      if c in clients {
        var list := userClients[c.userID];
        assert ListOk(c.userID, list, clients);
        clients := clients - {c};
        c.Close();
        // the client is listed under its user, so the scan stops at it
        var i := 0;
        while list[i] != c
          invariant 0 <= i < |list|
          invariant c !in list[..i]
          invariant c in list[i..]
          decreases |list| - i
        {
          assert list[i..] == [list[i]] + list[i + 1..];
          i := i + 1;
        }
        RemoveFirstAt(list, c, i);
        SpliceDistinct(list, i);
        var rest := list[..i] + list[i + 1..];
        userClients := userClients[c.userID := rest];
        if |userClients[c.userID]| == 0 {
          userClients := userClients - {c.userID};
        }
        forall u | u in userClients
          ensures (forall x :: x in userClients[u] ==> x in registered) && ListOk(u, userClients[u], clients)
        {
          var l := userClients[u];
          if u != c.userID {
            assert l == old(userClients[u]);
            assert old(ListOk(u, l, clients));
            assert c !in l;
          } else {
            assert l == rest;
          }
        }
      }
    }

    /**
     * The effect of the push-or-evict rule on a client whose mailbox held
     * `before`: the payload queued when there was room, otherwise the
     * mailbox closed and the client out of the live table.
     */
    ghost predicate Served(c: Client, before: seq<Payload>, p: Payload)
      reads this, c
    {
      && (|before| < MailboxCapacity ==> c in clients && c.send == before + [p] && !c.closed)
      && (|before| >= MailboxCapacity ==> c !in clients && c.send == before && c.closed)
    }

    /**
     * The `select` that `SendToUser` and the broadcast case run on one live
     * client: queue the payload when the mailbox has room, otherwise close
     * the mailbox and drop the client from the live table only.
     */
    method Deliver(c: Client, p: Payload)
      requires Valid() && c in clients
      modifies this, c
      ensures Valid()
      ensures userClients == old(userClients) && registered == old(registered)
      ensures clients == old(clients) || clients == old(clients) - {c}
      ensures Served(c, old(c.send), p)
    {
      var accepted := c.Offer(p);
      if !accepted {
        c.Close();
        clients := clients - {c};
      }
    }

    /**
     * The broadcast case: every live client's mailbox gets the payload
     * when it has room; a full one is closed and its client leaves the live
     * table, while the user lists stay as they are.
     */
    method Broadcast(p: Payload)
      requires Valid()
      modifies this, clients
      ensures Valid()
      ensures userClients == old(userClients) && registered == old(registered)
      ensures clients <= old(clients)
      ensures forall c :: c in old(clients) ==> Served(c, old(c.send), p)
    {
      var pending := clients;
      while pending != {}
        invariant pending <= clients <= old(clients)
        invariant userClients == old(userClients) && registered == old(registered)
        invariant forall c :: c in pending ==> unchanged(c)
        invariant forall c :: c in old(clients) && c !in pending ==> Served(c, old(c.send), p)
        invariant Valid()
        decreases pending
      {
        var c :| c in pending;
        Deliver(c, p);
        pending := pending - {c};
      }
    }

    /** `BroadcastMessage`: the marshal error, or the broadcast case run on the encoded message. */
    method BroadcastMessage(message: Value) returns (err: Option<string>)
      requires Valid()
      modifies this, clients
      ensures Valid()
      ensures err.Some? <==> !Encodable(message)
      ensures userClients == old(userClients) && registered == old(registered)
      ensures err.Some? ==> clients == old(clients) && forall c :: c in old(clients) ==> unchanged(c)
      ensures err.None? ==> clients <= old(clients) && forall c :: c in old(clients) ==> Served(c, old(c.send), Payload(message))
    {
      var data := Marshal(message);
      if data.Err? {
        return Some(data.error);
      }
      Broadcast(data.value);
      err := None;
    }

    /**
     * `SendToUser`: a marshal error comes back before anything is touched;
     * a user without clients gets nothing. Otherwise the listed clients are
     * visited in order with the broadcast rule, except that a mailbox
     * already closed makes the send panic at that client, after the earlier
     * ones have been served. The user lists never change.
     */
    method SendToUser(userID: Uuid, message: Value) returns (outcome: SendOutcome)
      requires Valid()
      modifies this, ListedUnder(userID)
      ensures Valid()
      ensures userClients == old(userClients) && registered == old(registered)
      ensures !Encodable(message) <==> outcome.MarshalFailed?
      ensures var L := ListedUnder(userID);
        && clients <= old(clients)
        && (forall c :: c in old(clients) && c !in L ==> c in clients)
        && (outcome.MarshalFailed? ==> clients == old(clients) && forall j :: 0 <= j < |L| ==> unchanged(L[j]))
        && (outcome == Sent ==> forall j :: 0 <= j < |L| ==>
              L[j] in old(clients) && Served(L[j], old(L[j].send), Payload(message)))
        && (outcome.Panicked? ==>
              && outcome.at < |L| && L[outcome.at] !in old(clients)
              && (forall j :: 0 <= j < outcome.at ==>
                   L[j] in old(clients) && Served(L[j], old(L[j].send), Payload(message)))
              && (forall j :: outcome.at <= j < |L| ==>
                   unchanged(L[j]) && (L[j] in clients <==> L[j] in old(clients))))
      ensures Encodable(message) ==>
        (outcome.Panicked? <==> exists c :: c in ListedUnder(userID) && c !in old(clients))
    {
      var data := Marshal(message);
      if data.Err? {
        return MarshalFailed(data.error);
      }
      if userID !in userClients || |userClients[userID]| == 0 {
        return Sent;
      }
      var L := userClients[userID];
      assert ListOk(userID, L, clients);
      var i := 0;
      while i < |L|
        invariant 0 <= i <= |L|
        invariant userClients == old(userClients) && registered == old(registered) && L == ListedUnder(userID)
        invariant clients <= old(clients)
        invariant forall c :: c in old(clients) && c !in L[..i] ==> c in clients
        invariant forall j :: 0 <= j < i ==> L[j] in old(clients) && Served(L[j], old(L[j].send), data.value)
        invariant forall j :: i <= j < |L| ==> unchanged(L[j]) && (L[j] in clients <==> L[j] in old(clients))
        invariant Valid()
      {
        var client := L[i];
        if client.closed {
          assert client in L && client !in old(clients);
          return Panicked(i);
        }
        Deliver(client, data.value);
        assert L[..i + 1] == L[..i] + [client];
        i := i + 1;
      }
      assert L[..i] == L;
      outcome := Sent;
    }

    /** `GetConnectedUsers`: the number of users with an entry. */
    function GetConnectedUsers(): nat
      reads this
    {
      |userClients|
    }

    /** `GetTotalConnections`: the number of live clients. */
    function GetTotalConnections(): nat
      reads this
    {
      |clients|
    }

    /** Every user with a live client is counted among the connected users. */
    lemma ConnectedUsersCoverConnections()
      requires Valid()
      ensures (set c | c in clients :: c.userID) <= userClients.Keys
      ensures GetTotalConnections() > 0 ==> GetConnectedUsers() > 0
    {
      if clients != {} {
        var c :| c in clients;
        assert c.userID in userClients.Keys;
      }
    }
  }

  /** A hub holding one session of user `u-1`, with the welcome message queued. */
  method SingleSession() returns (hub: Hub, client: Client)
    ensures fresh(hub) && fresh(client)
    ensures hub.Valid() && hub.registered == {client}
    ensures hub.clients == {client} && hub.userClients == map["u-1" := [client]]
    ensures client.userID == "u-1" && |client.send| == 1 && !client.closed
  {
    hub := new Hub();
    client := new Client("c-1", "u-1", "alice");
    hub.Register(client, 0);
    assert [] + [client] == [client];
  }

  /** Sends to the single session until its mailbox is full. */
  method FillMailbox(hub: Hub, client: Client)
    requires hub.Valid() && hub.registered == {client}
    requires hub.clients == {client} && hub.userClients == map["u-1" := [client]]
    requires client.userID == "u-1" && |client.send| == 1 && !client.closed
    modifies hub, client
    ensures hub.Valid() && hub.registered == {client}
    ensures hub.clients == {client} && hub.userClients == map["u-1" := [client]]
    ensures |client.send| == MailboxCapacity && !client.closed
  {
    assert hub.ListedUnder("u-1") == [client];
    var queued := 1;
    while queued < MailboxCapacity
      invariant 1 <= queued <= MailboxCapacity
      invariant hub.Valid() && hub.registered == {client}
      invariant hub.clients == {client}
      invariant hub.userClients == map["u-1" := [client]]
      invariant |client.send| == queued && !client.closed
    {
      var _ := hub.SendToUser("u-1", Str("tick"));
      queued := queued + 1;
    }
  }

  /** One more send to the full mailbox evicts the session but leaves it listed. */
  method Overflow(hub: Hub, client: Client)
    requires hub.Valid() && hub.registered == {client}
    requires hub.clients == {client} && hub.userClients == map["u-1" := [client]]
    requires |client.send| == MailboxCapacity && !client.closed
    modifies hub, client
    ensures hub.Valid() && hub.registered == {client}
    ensures hub.clients == {} && hub.userClients == map["u-1" := [client]]
    ensures client.closed
  {
    assert hub.ListedUnder("u-1") == [client];
    var outcome := hub.SendToUser("u-1", Str("tick"));
    assert forall c :: c in hub.ListedUnder("u-1") ==> c == client;
    assert outcome == Sent;
    assert hub.ListedUnder("u-1")[0] == client;
  }

  /**
   * A single session whose mailbox fills up: the 256th payload after the
   * welcome message evicts it, its later unregister does nothing, the
   * user stays counted with no connection left, and the next send to that
   * user panics on the closed mailbox.
   */
  method HalfEvictionScenario() returns (users: nat, total: nat, last: SendOutcome)
    ensures users == 1 && total == 0 && last == Panicked(0)
  {
    var hub, client := SingleSession();
    FillMailbox(hub, client);
    Overflow(hub, client);
    hub.Unregister(client);
    assert hub.clients == {} && hub.userClients == map["u-1" := [client]];
    users := hub.GetConnectedUsers();
    total := hub.GetTotalConnections();
    assert hub.ListedUnder("u-1") == [client] && hub.ListedUnder("u-1")[0] !in hub.clients;
    last := hub.SendToUser("u-1", Str("tick"));
    assert client in hub.ListedUnder("u-1");
  }

  /** A hub holding two sessions of user `u-1`, in registration order. */
  method TwoSessions() returns (hub: Hub, first: Client, second: Client)
    ensures fresh(hub) && fresh(first) && fresh(second) && first != second
    ensures hub.Valid() && hub.registered == {first, second}
    ensures hub.clients == {first, second} && hub.userClients == map["u-1" := [first, second]]
    ensures first.userID == "u-1" && second.userID == "u-1"
  {
    hub := new Hub();
    first := new Client("c-1", "u-1", "alice");
    second := new Client("c-2", "u-1", "alice");
    hub.Register(first, 0);
    assert [] + [first] == [first];
    hub.Register(second, 1);
    assert [first] + [second] == [first, second];
  }

  /**
   * Two sessions of one user: unregistering the first leaves the user
   * connected with one client, unregistering the second removes the user.
   */
  method TwoSessionsScenario() returns (usersAfterOne: nat, totalAfterOne: nat, usersAfterBoth: nat, totalAfterBoth: nat)
    ensures usersAfterOne == 1 && totalAfterOne == 1
    ensures usersAfterBoth == 0 && totalAfterBoth == 0
  {
    var hub, first, second := TwoSessions();
    hub.Unregister(first);
    assert RemoveFirst([first, second], first) == [second];
    assert hub.userClients == map["u-1" := [second]] && hub.clients == {second};
    usersAfterOne := hub.GetConnectedUsers();
    totalAfterOne := hub.GetTotalConnections();
    hub.Unregister(second);
    assert RemoveFirst([second], second) == [];
    assert hub.userClients == map[] && hub.clients == {};
    usersAfterBoth := hub.GetConnectedUsers();
    totalAfterBoth := hub.GetTotalConnections();
  }
}
