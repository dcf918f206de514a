/** The client's single WebSocket/STOMP connection (`WsService`): the connect
    state machine, capped exponential reconnect delays, the registry of active
    subscriptions, the duplicate filter on inbound messages and the send guard.

    The transport is abstract. Every SockJS socket the service opens gets a
    number, and the STOMP client over it carries the same number. Callbacks the
    transport would invoke (connect success, connect failure, socket close) are
    methods the environment calls. What the service asks of the transport
    (open, subscribe, send, disconnect) and what it asks of the timer queue
    (scheduled reconnects and the delayed queue subscription) is appended to
    the ghost `log`. */
module ChatSocket {
  import opened Wrappers
  import opened WireMessage

  const BaseDelay: nat := 3000
  const MaxDelay: nat := 30000
  const QueueSubscribeDelay: nat := 300
  const PrivateQueue := "/user/queue/private"
  const ChatsQueue := "/user/queue/chats"
  const SendDestination := "/app/send-message"
  const RoomTopicPrefix := "/topic/messages/"
  const NoTokenReason := "No JWT token found."

  function Pow2(n: nat): (p: nat)
    ensures p >= 1
  {
    if n == 0 then 1 else 2 * Pow2(n - 1)
  }

  lemma {:induction false} Pow2Monotone(m: nat, n: nat)
    requires m <= n
    ensures Pow2(m) <= Pow2(n)
  {
    if m < n {
      Pow2Monotone(m, n - 1);
    }
  }

  /** `Math.min(baseDelay * Math.pow(2, n), 30000)` for the attempt count n
      before the call. */
  function ReconnectDelay(n: nat): (d: nat)
    ensures BaseDelay <= d <= MaxDelay
    ensures n < 4 ==> d == BaseDelay * Pow2(n)
    ensures n >= 4 ==> d == MaxDelay
  {
    if n >= 4 then Pow2Monotone(4, n); MaxDelay
    else if BaseDelay * Pow2(n) < MaxDelay then BaseDelay * Pow2(n) else MaxDelay
  }

  /** The delays grow with the attempt count until they hit the ceiling. */
  lemma ReconnectDelayMonotone(m: nat, n: nat)
    requires m <= n
    ensures ReconnectDelay(m) <= ReconnectDelay(n)
  {
    if n < 4 {
      Pow2Monotone(m, n);
    }
  }

  lemma ReconnectDelaySequence()
    ensures [ReconnectDelay(0), ReconnectDelay(1), ReconnectDelay(2), ReconnectDelay(3), ReconnectDelay(4), ReconnectDelay(5)]
         == [3000, 6000, 12000, 24000, 30000, 30000]
  {
    assert Pow2(3) == 8;
  }

  /** The per-room destination `/topic/messages/{roomId}`. */
  function RoomTopic(roomId: string): string {
    RoomTopicPrefix + roomId
  }

  /** Which callback a transport subscription feeds. */
  datatype SubKind = InboundMessages | ChatListUpdates
  /** A transport subscription handle: the STOMP client it was made on. */
  datatype Sub = Sub(client: nat, kind: SubKind)

  datatype Task = Reconnect | SubscribeQueues

  datatype Effect =
    | OpenSocket(socket: nat, url: string)
    | Subscribe(client: nat, destination: string)
    | UnsubscribeAll(subs: map<string, Sub>)
    | Transmit(client: nat, destination: string, payload: Msg)
    | Schedule(delay: nat, task: Task)
    | CloseClient(client: nat)
    | Settle(promise: nat, resolved: bool)

  /** What `connect()` hands back: a rejected promise, a resolved one, or the
      pending promise of socket `promise`. */
  datatype ConnectResult = Rejected(reason: string) | Resolved | Awaiting(promise: nat)

  /** How many transport subscriptions to `d` the log shows since the registry
      was last emptied. */
  ghost function SubscribesSinceClear(log: seq<Effect>, d: string): nat {
    if log == [] then 0
    else
      var e := log[|log| - 1];
      if e.UnsubscribeAll? then 0
      else SubscribesSinceClear(log[..|log| - 1], d) + (if e.Subscribe? && e.destination == d then 1 else 0)
  }

  lemma AppendOther(log: seq<Effect>, e: Effect)
    requires !e.Subscribe? && !e.UnsubscribeAll?
    ensures forall d :: SubscribesSinceClear(log + [e], d) == SubscribesSinceClear(log, d)
  {
    assert (log + [e])[..|log|] == log;
  }

  lemma AppendSubscribe(log: seq<Effect>, c: nat, dest: string)
    ensures forall d :: SubscribesSinceClear(log + [Subscribe(c, dest)], d)
                     == SubscribesSinceClear(log, d) + (if d == dest then 1 else 0)
  {
    assert (log + [Subscribe(c, dest)])[..|log|] == log;
  }

  /** The payload `sendMessage` serialises. */
  function OutgoingPayload(roomId: string, content: string, receiver: Option<string>,
                           clientId: Option<string>, freshId: string,
                           sender: Option<string>, now: int): (p: Msg)
    ensures p.clientId == (if Truthy(clientId) then clientId else Some(freshId))
    ensures p.roomId == Some(roomId) && p.content == Some(content) && p.timestamp == Some(now)
    ensures p.senderUsername == sender && p.receiverUsername == receiver
    ensures p.id.None? && p.sender.None? && p.receiver.None? && p.createdAt.None?
  {
    NoFields.(roomId := Some(roomId), senderUsername := sender, receiverUsername := receiver,
              content := Some(content), clientId := Or(clientId, Some(freshId)), timestamp := Some(now))
  }

  /** One step of the inbound duplicate filter: the message emitted (if any)
      and the new set of seen client ids. */
  function Admit(seen: set<string>, msg: Option<Msg>): (r: (Option<Msg>, set<string>))
    ensures r.0.Some? ==> r.0 == msg
    ensures r.0.Some? <==> msg.Some? && Truthy(msg.value.content)
                             && !(Truthy(msg.value.clientId) && msg.value.clientId.value in seen)
    ensures r.1 == if r.0.Some? && Truthy(msg.value.clientId) then seen + {msg.value.clientId.value} else seen
  {
    match msg
    case None => (None, seen)
    case Some(m) =>
      if !Truthy(m.content) then (None, seen)
      else if Truthy(m.clientId) && m.clientId.value in seen then (None, seen)
      else if Truthy(m.clientId) then (Some(m), seen + {m.clientId.value})
      else (Some(m), seen)
  }

  /** The messages the filter emits for a run of deliveries, in order. */
  function EmitRun(seen: set<string>, msgs: seq<Option<Msg>>): seq<Msg>
    decreases |msgs|
  {
    if msgs == [] then []
    else
      var r := Admit(seen, msgs[0]);
      (if r.0.Some? then [r.0.value] else []) + EmitRun(r.1, msgs[1..])
  }

  /** The seen set after a run of deliveries. */
  function SeenAfter(seen: set<string>, msgs: seq<Option<Msg>>): set<string>
    decreases |msgs|
  {
    if msgs == [] then seen else SeenAfter(Admit(seen, msgs[0]).1, msgs[1..])
  }

  /** Each client id is emitted at most once over a run, never one seen
      before the run, and the seen set only grows. */
  lemma {:induction false} EmitRunUnique(seen: set<string>, msgs: seq<Option<Msg>>)
    ensures seen <= SeenAfter(seen, msgs)
    ensures forall i :: 0 <= i < |EmitRun(seen, msgs)| && Truthy(EmitRun(seen, msgs)[i].clientId)
              ==> EmitRun(seen, msgs)[i].clientId.value !in seen
                  && EmitRun(seen, msgs)[i].clientId.value in SeenAfter(seen, msgs)
    ensures forall i, j :: 0 <= i < j < |EmitRun(seen, msgs)| && Truthy(EmitRun(seen, msgs)[i].clientId)
              ==> EmitRun(seen, msgs)[i].clientId != EmitRun(seen, msgs)[j].clientId
    decreases |msgs|
  {
    if msgs != [] {
      var r := Admit(seen, msgs[0]);
      EmitRunUnique(r.1, msgs[1..]);
      var rest := EmitRun(r.1, msgs[1..]);
      var out := EmitRun(seen, msgs);
      assert out == (if r.0.Some? then [r.0.value] else []) + rest;
      if r.0.Some? {
        assert out[0] == r.0.value;
        forall i | 1 <= i < |out| ensures out[i] == rest[i - 1] { }
      }
    }
  }

  /** Messages without a client id pass the filter whenever they have content. */
  lemma {:induction false} EmitRunWithoutClientIds(seen: set<string>, msgs: seq<Msg>)
    requires forall i :: 0 <= i < |msgs| ==> !Truthy(msgs[i].clientId) && Truthy(msgs[i].content)
    ensures EmitRun(seen, seq(|msgs|, i requires 0 <= i < |msgs| => Some(msgs[i]))) == msgs
    decreases |msgs|
  {
    if msgs != [] {
      var wrapped := seq(|msgs|, i requires 0 <= i < |msgs| => Some(msgs[i]));
      var tail := seq(|msgs| - 1, i requires 0 <= i < |msgs| - 1 => Some(msgs[1..][i]));
      assert wrapped[1..] == tail;
      EmitRunWithoutClientIds(seen, msgs[1..]);
      assert msgs == [msgs[0]] + msgs[1..];
    }
  }

  class WsService {
    const wsUrl: string
    /** The current STOMP client, if a socket was ever opened. */
    var stompClient: Option<nat>
    /** The STOMP clients whose own `connected` flag is up. */
    var liveClients: set<nat>
    var connected: bool
    var connectPromise: Option<nat>
    var activeSubscriptions: map<string, Sub>
    var reconnectAttempts: nat
    var seenClientIds: set<string>
    /** Number of sockets opened so far, also the number of the next one. */
    var socketsOpened: nat
    /** Sockets whose `close` listener could be attached when they were opened. */
    var hookedSockets: set<nat>
    ghost var log: seq<Effect>

    ghost predicate Valid()
      reads this
    {
      && stompClient == (if socketsOpened == 0 then None else Some(socketsOpened - 1))
      && (connectPromise.Some? ==> connectPromise == stompClient)
      && (connected ==> stompClient.Some?)
      && (forall c :: c in liveClients ==> c < socketsOpened)
      && (forall c :: c in hookedSockets ==> c < socketsOpened)
      && (forall d :: d in activeSubscriptions ==> activeSubscriptions[d].client < socketsOpened)
      && (forall d :: SubscribesSinceClear(log, d) == if d in activeSubscriptions then 1 else 0)
    }

    /** `this.connected && this.stompClient?.connected`. */
    predicate Ready()
      reads this
    {
      connected && stompClient.Some? && stompClient.value in liveClients
    }

    constructor (wsUrl: string)
      ensures Valid() && this.wsUrl == wsUrl
      ensures stompClient.None? && !connected && connectPromise.None? && reconnectAttempts == 0
      ensures activeSubscriptions == map[] && seenClientIds == {} && log == []
    {
      this.wsUrl := wsUrl;
      stompClient := None;
      liveClients := {};
      connected := false;
      connectPromise := None;
      activeSubscriptions := map[];
      reconnectAttempts := 0;
      seenClientIds := {};
      socketsOpened := 0;
      hookedSockets := {};
      log := [];
    }

    /** `connect()`. `token` is what the auth service holds; `hooked` says
        whether the new socket exposed its inner WebSocket when the close
        listener was attached. */
    method Connect(token: Option<string>, hooked: bool) returns (r: ConnectResult)
      requires Valid()
      modifies this`stompClient, this`connectPromise, this`socketsOpened, this`hookedSockets, this`log
      ensures Valid()
      ensures !Truthy(token) ==> r == Rejected(NoTokenReason) && unchanged(this)
      ensures Truthy(token) && old(Ready()) ==> r == Resolved && unchanged(this)
      ensures Truthy(token) && !old(Ready()) && old(connectPromise).Some? ==>
                r == Awaiting(old(connectPromise).value) && unchanged(this)
      ensures Truthy(token) && !old(Ready()) && old(connectPromise).None? ==>
                && r == Awaiting(old(socketsOpened))
                && socketsOpened == old(socketsOpened) + 1
                && stompClient == Some(old(socketsOpened)) && connectPromise == stompClient
                && hookedSockets == (if hooked then old(hookedSockets) + {old(socketsOpened)} else old(hookedSockets))
                && log == old(log) + [OpenSocket(old(socketsOpened), wsUrl + "?token=" + token.value)]
    {
      if !Truthy(token) {
        return Rejected(NoTokenReason);
      }
      if connected && stompClient.Some? && stompClient.value in liveClients {
        return Resolved;
      }
      if connectPromise.Some? {
        return Awaiting(connectPromise.value);
      }
      var id := socketsOpened;
      socketsOpened := socketsOpened + 1;
      stompClient := Some(id);
      AppendOther(log, OpenSocket(id, wsUrl + "?token=" + token.value));
      log := log + [OpenSocket(id, wsUrl + "?token=" + token.value)];
      if hooked {
        hookedSockets := hookedSockets + {id};
      }
      connectPromise := Some(id);
      r := Awaiting(id);
    }

    /** The STOMP connect callback of client `client`. */
    method OnConnected(client: nat)
      requires Valid() && client < socketsOpened
      modifies this`liveClients, this`connected, this`reconnectAttempts, this`connectPromise, this`log
      ensures Valid() && Ready() == (stompClient == Some(client) || old(Ready()) || (stompClient.Some? && stompClient.value in old(liveClients)))
      ensures connected && reconnectAttempts == 0 && connectPromise.None?
      ensures liveClients == old(liveClients) + {client}
      ensures log == old(log) + [Schedule(QueueSubscribeDelay, SubscribeQueues), Settle(client, true)]
    {
      liveClients := liveClients + {client};
      connected := true;
      reconnectAttempts := 0;
      AppendOther(log, Schedule(QueueSubscribeDelay, SubscribeQueues));
      log := log + [Schedule(QueueSubscribeDelay, SubscribeQueues)];
      connectPromise := None;
      AppendOther(log, Settle(client, true));
      log := log + [Settle(client, true)];
    }

    /** `scheduleReconnect()`: returns the delay it scheduled. */
    method ScheduleReconnect() returns (delay: nat)
      requires Valid()
      modifies this`reconnectAttempts, this`log
      ensures Valid()
      ensures delay == ReconnectDelay(old(reconnectAttempts))
      ensures reconnectAttempts == old(reconnectAttempts) + 1
      ensures log == old(log) + [Schedule(delay, Reconnect)]
    {
      delay := ReconnectDelay(reconnectAttempts);
      reconnectAttempts := reconnectAttempts + 1;
      AppendOther(log, Schedule(delay, Reconnect));
      log := log + [Schedule(delay, Reconnect)];
    }

    /** The STOMP error callback of client `client`. */
    method OnConnectFailed(client: nat) returns (delay: nat)
      requires Valid() && client < socketsOpened
      modifies this`liveClients, this`connected, this`connectPromise, this`reconnectAttempts, this`log
      ensures Valid()
      ensures !connected && connectPromise.None? && liveClients == old(liveClients) - {client}
      ensures delay == ReconnectDelay(old(reconnectAttempts)) && reconnectAttempts == old(reconnectAttempts) + 1
      ensures log == old(log) + [Schedule(delay, Reconnect), Settle(client, false)]
    {
      liveClients := liveClients - {client};
      connected := false;
      connectPromise := None;
      delay := ScheduleReconnect();
      AppendOther(log, Settle(client, false));
      log := log + [Settle(client, false)];
    }

    /** The underlying socket `socket` closed. Its STOMP client goes down; the
        service reacts only if its close listener was attached. */
    method OnSocketClosed(socket: nat) returns (delay: Option<nat>)
      requires Valid() && socket < socketsOpened
      modifies this`liveClients, this`connected, this`connectPromise, this`reconnectAttempts, this`log
      ensures Valid()
      ensures liveClients == old(liveClients) - {socket}
      ensures socket in hookedSockets ==>
                && !connected && connectPromise.None?
                && delay == Some(ReconnectDelay(old(reconnectAttempts)))
                && reconnectAttempts == old(reconnectAttempts) + 1
                && log == old(log) + [Schedule(delay.value, Reconnect)]
      ensures socket !in hookedSockets ==>
                && delay.None? && connected == old(connected) && connectPromise == old(connectPromise)
                && reconnectAttempts == old(reconnectAttempts) && log == old(log)
    {
      liveClients := liveClients - {socket};
      delay := None;
      if socket in hookedSockets {
        connected := false;
        connectPromise := None;
        var d := ScheduleReconnect();
        delay := Some(d);
      }
    }

    /** `stompClient.subscribe(destination, ...)` followed by
        `activeSubscriptions.set(destination, sub)`. */
    method TransportSubscribe(destination: string, kind: SubKind)
      requires Valid() && stompClient.Some? && destination !in activeSubscriptions
      modifies this`activeSubscriptions, this`log
      ensures Valid()
      ensures activeSubscriptions == old(activeSubscriptions)[destination := Sub(stompClient.value, kind)]
      ensures log == old(log) + [Subscribe(stompClient.value, destination)]
    {
      AppendSubscribe(log, stompClient.value, destination);
      log := log + [Subscribe(stompClient.value, destination)];
      activeSubscriptions := activeSubscriptions[destination := Sub(stompClient.value, kind)];
    }

    /** `subscribeToPrivateQueue()`: needs a client but not a connection. */
    method SubscribeToPrivateQueue()
      requires Valid()
      modifies this`activeSubscriptions, this`log
      ensures Valid()
      ensures old(stompClient.None? || PrivateQueue in activeSubscriptions) ==> unchanged(this)
      ensures old(stompClient.Some? && PrivateQueue !in activeSubscriptions) ==>
                && activeSubscriptions == old(activeSubscriptions)[PrivateQueue := Sub(stompClient.value, InboundMessages)]
                && log == old(log) + [Subscribe(stompClient.value, PrivateQueue)]
    {
      if stompClient.None? {
        return;
      }
      if PrivateQueue in activeSubscriptions {
        return;
      }
      TransportSubscribe(PrivateQueue, InboundMessages);
    }

    /** `subscribeToUserUpdates()`: needs a client and the connected flag. */
    method SubscribeToUserUpdates()
      requires Valid()
      modifies this`activeSubscriptions, this`log
      ensures Valid()
      ensures old(stompClient.None? || !connected || ChatsQueue in activeSubscriptions) ==> unchanged(this)
      ensures old(stompClient.Some? && connected && ChatsQueue !in activeSubscriptions) ==>
                && activeSubscriptions == old(activeSubscriptions)[ChatsQueue := Sub(stompClient.value, ChatListUpdates)]
                && log == old(log) + [Subscribe(stompClient.value, ChatsQueue)]
    {
      if stompClient.None? || !connected {
        return;
      }
      if ChatsQueue in activeSubscriptions {
        return;
      }
      TransportSubscribe(ChatsQueue, ChatListUpdates);
    }

    /** The 300 ms timer set by a successful connect. */
    method OnQueueTimer()
      requires Valid()
      modifies this`activeSubscriptions, this`log
      ensures Valid()
      ensures stompClient.None? ==> activeSubscriptions == old(activeSubscriptions) && log == old(log)
      ensures stompClient.Some? ==>
                var c := stompClient.value;
                var addPrivate := PrivateQueue !in old(activeSubscriptions);
                var addChats := connected && ChatsQueue !in old(activeSubscriptions);
                var afterPrivate := if addPrivate then old(activeSubscriptions)[PrivateQueue := Sub(c, InboundMessages)]
                                    else old(activeSubscriptions);
                && activeSubscriptions == (if addChats then afterPrivate[ChatsQueue := Sub(c, ChatListUpdates)] else afterPrivate)
                && log == old(log) + (if addPrivate then [Subscribe(c, PrivateQueue)] else [])
                                   + (if addChats then [Subscribe(c, ChatsQueue)] else [])
    {
      SubscribeToPrivateQueue();
      SubscribeToUserUpdates();
    }

    /** `ensureConnected()` in a sequential run: when the client is not ready,
        one `connect()` and the success of the awaited socket. Returns false
        when `connect()` rejects (the source then retries every two seconds). */
    method EnsureConnected(token: Option<string>, hooked: bool) returns (ok: bool)
      requires Valid()
      modifies this`stompClient, this`connectPromise, this`socketsOpened, this`hookedSockets, this`log,
               this`liveClients, this`connected, this`reconnectAttempts
      ensures Valid()
      ensures ok <==> old(Ready()) || Truthy(token)
      ensures ok ==> Ready()
      ensures !ok ==> unchanged(this)
      ensures old(Ready()) ==> unchanged(this)
      ensures !old(Ready()) && old(connectPromise).Some? ==> socketsOpened == old(socketsOpened)
      ensures socketsOpened <= old(socketsOpened) + 1
      ensures activeSubscriptions == old(activeSubscriptions) && seenClientIds == old(seenClientIds)
    {
      if Ready() {
        return true;
      }
      var r := Connect(token, hooked);
      if r.Rejected? {
        return false;
      }
      OnConnected(r.promise);
      ok := true;
    }

    /** `subscribeToRoom(roomId)` in a sequential run (see EnsureConnected). */
    method SubscribeToRoom(roomId: Option<string>, token: Option<string>, hooked: bool)
      requires Valid()
      modifies this`stompClient, this`connectPromise, this`socketsOpened, this`hookedSockets, this`log,
               this`liveClients, this`connected, this`reconnectAttempts, this`activeSubscriptions
      ensures Valid()
      ensures !Truthy(roomId) || RoomTopic(roomId.value) in old(activeSubscriptions) ==> unchanged(this)
      ensures Truthy(roomId) && (old(Ready()) || Truthy(token)) ==> RoomTopic(roomId.value) in activeSubscriptions
      ensures Truthy(roomId) && RoomTopic(roomId.value) !in old(activeSubscriptions) && (old(Ready()) || Truthy(token)) ==>
                && Ready()
                && activeSubscriptions == old(activeSubscriptions)[RoomTopic(roomId.value) := Sub(stompClient.value, InboundMessages)]
                && log[|log| - 1] == Subscribe(stompClient.value, RoomTopic(roomId.value))
      ensures Truthy(roomId) && RoomTopic(roomId.value) !in old(activeSubscriptions) && old(Ready()) ==>
                && stompClient == old(stompClient) && socketsOpened == old(socketsOpened)
                && log == old(log) + [Subscribe(stompClient.value, RoomTopic(roomId.value))]
      ensures socketsOpened <= old(socketsOpened) + 1
      ensures forall d :: d in old(activeSubscriptions) ==> d in activeSubscriptions && activeSubscriptions[d] == old(activeSubscriptions)[d]
      ensures seenClientIds == old(seenClientIds)
    {
      if !Truthy(roomId) {
        return;
      }
      var destination := RoomTopic(roomId.value);
      if destination in activeSubscriptions {
        return;
      }
      var ok := EnsureConnected(token, hooked);
      if !ok {
        return;
      }
      TransportSubscribe(destination, InboundMessages);
    }

    /** `sendMessage(roomId, content, receiverUsername?, clientId?)`;
        `freshId` is the uuid it would draw, `sender` what the auth service
        reports as the username, `now` the clock. */
    method SendMessage(roomId: string, content: string, receiver: Option<string>, clientId: Option<string>,
                       freshId: string, sender: Option<string>, now: int) returns (sent: Option<Msg>)
      requires Valid()
      modifies this`log
      ensures Valid()
      ensures stompClient.None? || !connected ==> sent.None? && log == old(log)
      ensures stompClient.Some? && connected ==>
                && sent == Some(OutgoingPayload(roomId, content, receiver, clientId, freshId, sender, now))
                && log == old(log) + [Transmit(stompClient.value, SendDestination, sent.value)]
    {
      if stompClient.None? || !connected {
        return None;
      }
      var payload := OutgoingPayload(roomId, content, receiver, clientId, freshId, sender, now);
      AppendOther(log, Transmit(stompClient.value, SendDestination, payload));
      log := log + [Transmit(stompClient.value, SendDestination, payload)];
      sent := Some(payload);
    }

    /** `handleIncoming(msg)`: the parsed frame of an inbound subscription;
        returns what it emits to the views. */
    method HandleIncoming(msg: Option<Msg>) returns (emitted: Option<Msg>)
      modifies this`seenClientIds
      ensures emitted == Admit(old(seenClientIds), msg).0
      ensures seenClientIds == Admit(old(seenClientIds), msg).1
    {
      if msg.None? || !Truthy(msg.value.content) {
        return None;
      }
      var m := msg.value;
      if Truthy(m.clientId) && m.clientId.value in seenClientIds {
        return None;
      }
      if Truthy(m.clientId) {
        seenClientIds := seenClientIds + {m.clientId.value};
      }
      emitted := Some(m);
    }

    /** `disconnect()`. */
    method Disconnect()
      requires Valid()
      modifies this`activeSubscriptions, this`connected, this`connectPromise, this`liveClients, this`log
      ensures Valid()
      ensures connectPromise.None?
      ensures old(stompClient.Some? && connected) ==>
                && activeSubscriptions == map[] && !connected
                && liveClients == old(liveClients) - {stompClient.value}
                && log == old(log) + [UnsubscribeAll(old(activeSubscriptions)), CloseClient(stompClient.value)]
      ensures old(stompClient.None? || !connected) ==>
                && activeSubscriptions == old(activeSubscriptions) && connected == old(connected)
                && liveClients == old(liveClients) && log == old(log)
    {
      if stompClient.Some? && connected {
        var c := stompClient.value;
        log := log + [UnsubscribeAll(activeSubscriptions)];
        activeSubscriptions := map[];
        AppendOther(log, CloseClient(c));
        log := log + [CloseClient(c)];
        liveClients := liveClients - {c};
        connected := false;
      }
      connectPromise := None;
    }
  }
}
