/**
 * The room-oriented controller: client events arriving over Socket.IO
 * (`token`, `publish`, `subscribe`, `signaling_message`), the RPCs it sends
 * to media nodes with their retry rule, and the translation of
 * agent-originated signaling messages into client events.
 *
 * The broker, the Redis store and the Socket.IO server are replaced by
 * inputs: each RPC attempt consumes the next reply of `replies`, each store
 * command reads a `reachable` flag, and the values of `rand()` come from
 * `draws`.  What the controller sends is returned, not performed.
 */
module RoomController {
  import opened Wrappers
  import opened Json
  import opened SubscriberModel
  import opened Session
  import opened Store
  import Utils

  /** Attempts each RPC helper makes before it gives up. */
  const MaxAttempts: nat := 3

  /** The node id the `getErizo` placeholder always hands out. */
  const StubErizoId: string := "2222222222"

  /** The room and agent a `token` event assigns. */
  const TokenRoomId: string := "test_room_id"
  const TokenAgentId: string := "1111111111"

  // =====================================================================
  // RPC to media nodes
  // =====================================================================

  /** A request published to a node's queue: the queue name and the body
      `{method, args}`. */
  datatype RpcRequest = RpcRequest(queue: string, body: Value)

  /** Requests for node `erizoId` go to the queue `Erizo_<erizoId>`. */
  function QueueOf(erizoId: string): string
  {
    "Erizo_" + erizoId
  }

  /** The `ret` an RPC callback records for one reply: 1 for a null reply or
      one without an int-typed `ret` member, the member's value otherwise. */
  function ReplyCode(reply: Value): (ret: int)
    ensures ret == 0 <==> Get(reply, "ret") == Int(0)
    ensures !Get(reply, "ret").Int? ==> ret == 1
    ensures Get(reply, "ret").Int? ==> ret == Get(reply, "ret").i
  {
    if reply.Null? then 1
    else if !Get(reply, "ret").Int? then 1
    else Get(reply, "ret").i
  }

  /** How many attempts the retry loop makes with `budget` attempts left,
      each attempt consuming the next reply. */
  function Attempts(replies: seq<Value>, budget: nat): nat
    requires 1 <= budget <= |replies|
    decreases budget
  {
    if ReplyCode(replies[0]) == 0 || budget == 1 then 1
    else 1 + Attempts(replies[1..], budget - 1)
  }

  /** Between 1 and `budget` attempts; every attempt but the last failed;
      the last one succeeded unless the budget ran out. */
  lemma {:induction false} AttemptsBounds(replies: seq<Value>, budget: nat)
    requires 1 <= budget <= |replies|
    ensures 1 <= Attempts(replies, budget) <= budget
    ensures forall k :: 0 <= k < Attempts(replies, budget) - 1 ==> ReplyCode(replies[k]) != 0
    ensures ReplyCode(replies[Attempts(replies, budget) - 1]) == 0 || Attempts(replies, budget) == budget
    decreases budget
  {
    if ReplyCode(replies[0]) != 0 && budget > 1 {
      AttemptsBounds(replies[1..], budget - 1);
      var n := Attempts(replies[1..], budget - 1);
      forall k | 1 <= k < n + 1 - 1 ensures ReplyCode(replies[k]) != 0 {
        assert replies[k] == replies[1..][k - 1];
      }
      assert replies[n] == replies[1..][n - 1];
    }
  }

  /** Those three facts pin the number of attempts down. */
  lemma {:induction false} AttemptsUnique(replies: seq<Value>, budget: nat, n: nat)
    requires 1 <= n <= budget <= |replies|
    requires forall k :: 0 <= k < n - 1 ==> ReplyCode(replies[k]) != 0
    requires ReplyCode(replies[n - 1]) == 0 || n == budget
    ensures Attempts(replies, budget) == n
    decreases budget
  {
    if n > 1 {
      assert ReplyCode(replies[0]) != 0;
      forall k | 0 <= k < n - 2 ensures ReplyCode(replies[1..][k]) != 0 {
        assert replies[1..][k] == replies[k + 1];
      }
      assert replies[1..][n - 2] == replies[n - 1];
      AttemptsUnique(replies[1..], budget - 1, n - 1);
    }
  }

  /** The `ret` the retry loop returns: that of its last attempt. */
  function FinalCode(replies: seq<Value>): int
    requires |replies| >= MaxAttempts
  {
    AttemptsBounds(replies, MaxAttempts);
    ReplyCode(replies[Attempts(replies, MaxAttempts) - 1])
  }

  /** The retry rule: the helper succeeds exactly when one of the first
      three replies carries `ret == 0`, and makes all three attempts exactly
      when the first two fail. */
  lemma RetryRule(replies: seq<Value>)
    requires |replies| >= MaxAttempts
    ensures FinalCode(replies) == 0 <==> exists k :: 0 <= k < MaxAttempts && ReplyCode(replies[k]) == 0
    ensures Attempts(replies, MaxAttempts) == MaxAttempts <==> ReplyCode(replies[0]) != 0 && ReplyCode(replies[1]) != 0
    ensures FinalCode(replies) != 0 ==> Attempts(replies, MaxAttempts) == MaxAttempts
  {
    AttemptsBounds(replies, MaxAttempts);
    var n := Attempts(replies, MaxAttempts);
    if FinalCode(replies) != 0 {
      forall k | 0 <= k < MaxAttempts ensures ReplyCode(replies[k]) != 0 {
      }
    }
  }

  /** The do/while shared by `addPublisher`, `addSubscriber` and
      `processSignaling`: publish `request`, wait for its reply, and repeat
      while `ret` is nonzero and attempts remain.  `sent` lists the requests
      published, one per attempt. */
  method Call(request: RpcRequest, replies: seq<Value>) returns (ret: int, sent: seq<RpcRequest>)
    requires |replies| >= MaxAttempts
    ensures 1 <= |sent| <= MaxAttempts
    ensures forall k :: 0 <= k < |sent| ==> sent[k] == request
    ensures forall k :: 0 <= k < |sent| - 1 ==> ReplyCode(replies[k]) != 0
    ensures ret == ReplyCode(replies[|sent| - 1])
    ensures ret != 0 ==> |sent| == MaxAttempts
    ensures |sent| == Attempts(replies, MaxAttempts) && ret == FinalCode(replies)
  {
    var tryTime := MaxAttempts;
    tryTime := tryTime - 1;
    sent := [request];
    ret := ReplyCode(replies[0]);
    while ret != 0 && tryTime != 0
      invariant 0 <= tryTime < MaxAttempts
      invariant |sent| + tryTime == MaxAttempts
      invariant forall k :: 0 <= k < |sent| ==> sent[k] == request
      invariant forall k :: 0 <= k < |sent| - 1 ==> ReplyCode(replies[k]) != 0
      invariant ret == ReplyCode(replies[|sent| - 1])
      decreases tryTime
    {
      tryTime := tryTime - 1;
      sent := sent + [request];
      ret := ReplyCode(replies[|sent| - 1]);
    }
    AttemptsUnique(replies, MaxAttempts, |sent|);
  }

  function AddPublisherRequest(erizoId: string, clientId: string, streamId: string, streamLabel: string, replyTo: string): RpcRequest
  {
    RpcRequest(QueueOf(erizoId), Obj(map[
      "method" := Str("addPublisher"),
      "args" := Arr([Str(clientId), Str(streamId), Str(streamLabel), Str(replyTo)])]))
  }

  function AddSubscriberRequest(erizoId: string, clientId: string, streamId: string, streamLabel: string, replyTo: string): RpcRequest
  {
    RpcRequest(QueueOf(erizoId), Obj(map[
      "method" := Str("addSubscriber"),
      "args" := Arr([Str(clientId), Str(streamId), Str(streamLabel), Str(replyTo)])]))
  }

  function ProcessSignalingRequest(erizoId: string, clientId: string, streamId: string, msg: Value): RpcRequest
  {
    RpcRequest(QueueOf(erizoId), Obj(map[
      "method" := Str("processSignaling"),
      "args" := Arr([Str(clientId), Str(streamId), msg])]))
  }

  /** `addPublisher`: ask node `erizoId` to accept a new stream. */
  method AddPublisherRpc(erizoId: string, clientId: string, streamId: string, streamLabel: string,
                         replyTo: string, replies: seq<Value>) returns (ret: int, sent: seq<RpcRequest>)
    requires |replies| >= MaxAttempts
    ensures ret == FinalCode(replies) && |sent| == Attempts(replies, MaxAttempts)
    ensures forall k :: 0 <= k < |sent| ==> sent[k] == AddPublisherRequest(erizoId, clientId, streamId, streamLabel, replyTo)
  {
    ret, sent := Call(AddPublisherRequest(erizoId, clientId, streamId, streamLabel, replyTo), replies);
  }

  /** `addSubscriber`: ask node `erizoId` to forward a stream to the client. */
  method AddSubscriberRpc(erizoId: string, clientId: string, streamId: string, streamLabel: string,
                          replyTo: string, replies: seq<Value>) returns (ret: int, sent: seq<RpcRequest>)
    requires |replies| >= MaxAttempts
    ensures ret == FinalCode(replies) && |sent| == Attempts(replies, MaxAttempts)
    ensures forall k :: 0 <= k < |sent| ==> sent[k] == AddSubscriberRequest(erizoId, clientId, streamId, streamLabel, replyTo)
  {
    ret, sent := Call(AddSubscriberRequest(erizoId, clientId, streamId, streamLabel, replyTo), replies);
  }

  /** `processSignaling`: forward a client's signaling message to its node. */
  method ProcessSignalingRpc(erizoId: string, clientId: string, streamId: string, msg: Value,
                             replies: seq<Value>) returns (ret: int, sent: seq<RpcRequest>)
    requires |replies| >= MaxAttempts
    ensures ret == FinalCode(replies) && |sent| == Attempts(replies, MaxAttempts)
    ensures forall k :: 0 <= k < |sent| ==> sent[k] == ProcessSignalingRequest(erizoId, clientId, streamId, msg)
  {
    ret, sent := Call(ProcessSignalingRequest(erizoId, clientId, streamId, msg), replies);
  }

  /** `getErizo`: a placeholder that always succeeds with the same node. */
  function GetErizo(agentId: string, roomId: string): (r: (int, string))
    ensures r.0 == 0 && r.1 == StubErizoId
  {
    (0, StubErizoId)
  }

  // =====================================================================
  // Client event handlers
  // =====================================================================

  /** What the collaborators answer while one event is handled: the Redis
      outcomes, the values of `rand()`, the RPC replies, the reply queue of
      the signaling receiver, and the value an uninitialised `is_bridge`
      happens to hold. */
  datatype Oracle = Oracle(
    addClientOk: bool,
    listOk: bool,
    lookupOk: bool,
    savePublisherOk: bool,
    draws: seq<nat>,
    replies: seq<Value>,
    replyTo: string,
    bridgeBit: bool)
  {
    predicate Sufficient()
    {
      |draws| >= Utils.StreamIdLength && |replies| >= MaxAttempts
    }
  }

  /** One entry of the `streams` list of a token reply. */
  function StreamInfo(p: Publisher): Value
  {
    Obj(map[
      "id" := Str(p.id),
      "audio" := Bool(true),
      "video" := Bool(true),
      "data" := Bool(true),
      "label" := Str(p.streamLabel),
      "screen" := Str("")])
  }

  /** The body of a token reply.  `streams` is appended to inside the loop
      over publishers only, so it is absent when the room has none. */
  function TokenData(roomId: string, clientId: string, pubs: seq<Publisher>): Value
  {
    var base := map[
      "id" := Str(roomId),
      "clientId" := Str(clientId),
      "singlePC" := Bool(false),
      "defaultVideoBW" := Int(300),
      "maxVideoBW" := Int(300),
      "iceServers" := Arr([Obj(map["url" := Str("stun:stun.l.google.com:19302")])])];
    if pubs == [] then Obj(base)
    else Obj(base["streams" := Arr(seq(|pubs|, i requires 0 <= i < |pubs| => StreamInfo(pubs[i])))])
  }

  function TokenReply(roomId: string, clientId: string, pubs: seq<Publisher>): Value
  {
    Arr([Str("success"), TokenData(roomId, clientId, pubs)])
  }

  /** A token reply names the room and the client and lists the room's
      publishers, in directory order, with their ids and labels; a room
      without publishers gives a reply with no `streams` member at all. */
  lemma TokenReplyListsRoom(roomId: string, clientId: string, pubs: seq<Publisher>)
    ensures var r := TokenReply(roomId, clientId, pubs);
      && r.Arr? && |r.elems| == 2 && r.elems[0] == Str("success")
      && Get(r.elems[1], "id") == Str(roomId)
      && Get(r.elems[1], "clientId") == Str(clientId)
      && (Get(r.elems[1], "streams").Null? <==> pubs == [])
      && (pubs != [] ==>
            var streams := Get(r.elems[1], "streams");
            && streams.Arr? && |streams.elems| == |pubs|
            && forall i :: 0 <= i < |pubs| ==>
                 Get(streams.elems[i], "id") == Str(pubs[i].id) &&
                 Get(streams.elems[i], "label") == Str(pubs[i].streamLabel))
  {
  }

  /** What a token event does: the client moves to the fixed room and
      agent, joins the room's client list when the store accepts it, and
      the reply lists the room's publishers, or is null when either store
      call fails. */
  twostate predicate TokenEffect(client: Client, store: RoomStore, env: Oracle, reply: Value)
    reads client, store
  {
    && client.roomId == TokenRoomId && client.agentId == TokenAgentId
    && client.id == old(client.id) && client.erizoId == old(client.erizoId)
    && client.publishers == old(client.publishers) && client.subscribers == old(client.subscribers)
    && store.publishers == old(store.publishers)
    && store.clients == (if env.addClientOk
                         then old(store.clients)[TokenRoomId := old(store.ClientsIn(TokenRoomId)) + [client.id]]
                         else old(store.clients))
    && reply == (if env.addClientOk && env.listOk
                 then TokenReply(TokenRoomId, client.id, old(store.PublishersIn(TokenRoomId)))
                 else Null)
  }

  /** `handleToken`: put the client in the fixed room and agent, register it
      with the store, and reply with the room's publishers. */
  method HandleToken(client: Client, store: RoomStore, body: Value, env: Oracle) returns (reply: Value)
    modifies client, store
    ensures TokenEffect(client, store, env, reply)
  {
    client.roomId := TokenRoomId;
    client.agentId := TokenAgentId;
    var ret := store.AddClient(client.roomId, client.id, env.addClientOk);
    if ret != 0 {
      return Null;
    }
    if !env.listOk {
      return Null;
    }
    var publishers := store.PublishersIn(client.roomId);
    reply := TokenReply(client.roomId, client.id, publishers);
  }

  /** What a publish event does: nothing without a string label;
      otherwise the client takes the stub node and records a new publisher,
      the node is asked to add it, and the room stores it only when the node
      and the store both accept; the reply is the stream id and node id, or
      null. */
  twostate predicate PublishEffect(client: Client, store: RoomStore, body: Value, env: Oracle,
                                   reply: Value, sent: seq<RpcRequest>)
    requires env.Sufficient()
    reads client, store
  {
    && (!HasString(body, "label") ==>
          reply == Null && sent == [] && unchanged(client) && unchanged(store))
    && (HasString(body, "label") ==>
      var p := Publisher(Utils.StreamIdOf(env.draws), StubErizoId, old(client.agentId), StringAt(body, "label"));
      var ok := FinalCode(env.replies) == 0 && env.savePublisherOk;
      && client.id == old(client.id) && client.roomId == old(client.roomId)
      && client.agentId == old(client.agentId) && client.subscribers == old(client.subscribers)
      && client.erizoId == StubErizoId
      && client.publishers == old(client.publishers) + [p]
      && |sent| == Attempts(env.replies, MaxAttempts)
      && (forall k :: 0 <= k < |sent| ==>
            sent[k] == AddPublisherRequest(StubErizoId, client.id, p.id, p.streamLabel, env.replyTo))
      && store.clients == old(store.clients)
      && store.publishers == (if ok then old(store.publishers)[client.roomId := old(store.PublishersIn(client.roomId)) + [p]]
                              else old(store.publishers))
      && reply == (if ok then Arr([Str(p.id), Str(StubErizoId)]) else Null))
  }

  /** `handlePublish`: validate the label, take a node, record a new
      publisher on the client, ask the node to accept it, then store it. */
  method HandlePublish(client: Client, store: RoomStore, body: Value, env: Oracle)
    returns (reply: Value, sent: seq<RpcRequest>)
    requires env.Sufficient()
    modifies client, store
    ensures PublishEffect(client, store, body, env, reply, sent)
  {
    if !HasString(body, "label") {
      return Null, [];
    }
    var (ret, erizoId) := GetErizo(client.agentId, client.roomId);
    client.erizoId := erizoId;
    var streamLabel := StringAt(body, "label");
    var id := Utils.GetStreamId(env.draws);
    var publisher := Publisher(id, client.erizoId, client.agentId, streamLabel);
    client.publishers := client.publishers + [publisher];
    ret, sent := AddPublisherRpc(publisher.erizoId, client.id, publisher.id, streamLabel, env.replyTo, env.replies);
    if ret != 0 {
      return Null, sent;
    }
    ret := store.AddPublisher(client.roomId, publisher, env.savePublisherOk);
    if ret != 0 {
      return Null, sent;
    }
    reply := Arr([Str(publisher.id), Str(publisher.erizoId)]);
  }

  /** The subscriber record `handleSubscribe` appends: only its id and node
      fields are set. */
  function NewSubscriber(streamId: string, erizoId: string, agentId: string, bridgeBit: bool): Subscriber
  {
    Subscriber(streamId, "", erizoId, agentId, "", "", bridgeBit)
  }

  /** The publisher a subscribe event names, as the store reports it. */
  function SubscribeTarget(body: Value, roomId: string, store: RoomStore, lookupOk: bool): Option<Publisher>
    reads store
  {
    if !HasString(body, "streamId") then None
    else store.Lookup(roomId, StringAt(body, "streamId"), lookupOk)
  }

  /** What a subscribe event does: nothing when the stream id is missing or
      its publisher is not found; otherwise the client records a new
      subscriber and the node is asked to add it; the reply is `true` and
      the client's node id, or null when the node refuses.  The store never
      changes. */
  twostate predicate SubscribeEffect(client: Client, store: RoomStore, body: Value, env: Oracle,
                                     reply: Value, sent: seq<RpcRequest>)
    requires env.Sufficient()
    reads client, store
  {
    && unchanged(store)
    && (old(SubscribeTarget(body, client.roomId, store, env.lookupOk)).None? ==>
          reply == Null && sent == [] && unchanged(client))
    && (old(SubscribeTarget(body, client.roomId, store, env.lookupOk)).Some? ==>
      var target := old(SubscribeTarget(body, client.roomId, store, env.lookupOk)).value;
      && client.id == old(client.id) && client.roomId == old(client.roomId)
      && client.agentId == old(client.agentId) && client.erizoId == old(client.erizoId)
      && client.publishers == old(client.publishers)
      && client.subscribers == old(client.subscribers) +
           [NewSubscriber(target.id, client.erizoId, client.agentId, env.bridgeBit)]
      && target.id == StringAt(body, "streamId")
      && |sent| == Attempts(env.replies, MaxAttempts)
      && (forall k :: 0 <= k < |sent| ==>
            sent[k] == AddSubscriberRequest(client.erizoId, client.id, target.id, target.streamLabel, env.replyTo))
      && reply == (if FinalCode(env.replies) == 0 then Arr([Bool(true), Str(client.erizoId)]) else Null))
  }

  /** `handleSubscribe`: validate the stream id, look its publisher up,
      record a subscriber on the client, and ask the node to add it. */
  method HandleSubscribe(client: Client, store: RoomStore, body: Value, env: Oracle)
    returns (reply: Value, sent: seq<RpcRequest>)
    requires env.Sufficient()
    modifies client
    ensures SubscribeEffect(client, store, body, env, reply, sent)
  {
    if !HasString(body, "streamId") {
      return Null, [];
    }
    var streamId := StringAt(body, "streamId");
    var found := store.Lookup(client.roomId, streamId, env.lookupOk);
    if found.None? {
      return Null, [];
    }
    var publisher := found.value;
    var subscriber := NewSubscriber(streamId, client.erizoId, client.agentId, env.bridgeBit);
    client.subscribers := client.subscribers + [subscriber];
    var ret;
    ret, sent := AddSubscriberRpc(client.erizoId, client.id, subscriber.id, publisher.streamLabel, env.replyTo, env.replies);
    if ret != 0 {
      return Null, sent;
    }
    reply := Arr([Bool(true), Str(subscriber.erizoId)]);
  }

  /** The body checks of `handleSignaling`: a string `streamId` and an
      object `msg`. */
  predicate SignalingBodyOk(body: Value)
  {
    HasString(body, "streamId") && Get(body, "msg").Obj?
  }

  /** What a signaling event sends and replies: nothing and null on a
      malformed body; otherwise the message goes to the client's node and
      the reply is an empty array when the node accepts it, null when not. */
  predicate SignalingEffect(client: Client, body: Value, env: Oracle, reply: Value, sent: seq<RpcRequest>)
    requires env.Sufficient()
    reads client
  {
    && (!SignalingBodyOk(body) ==> reply == Null && sent == [])
    && (SignalingBodyOk(body) ==>
      && |sent| == Attempts(env.replies, MaxAttempts)
      && (forall k :: 0 <= k < |sent| ==>
            sent[k] == ProcessSignalingRequest(client.erizoId, client.id, StringAt(body, "streamId"), Get(body, "msg")))
      && reply == (if FinalCode(env.replies) == 0 then Arr([]) else Null))
  }

  /** `handleSignaling`: forward the message to the client's node; an
      empty array on success. */
  method HandleSignaling(client: Client, body: Value, env: Oracle) returns (reply: Value, sent: seq<RpcRequest>)
    requires env.Sufficient()
    ensures SignalingEffect(client, body, env, reply, sent)
  {
    if !SignalingBodyOk(body) {
      return Null, [];
    }
    var ret;
    ret, sent := ProcessSignalingRpc(client.erizoId, client.id, StringAt(body, "streamId"), Get(body, "msg"), env.replies);
    if ret != 0 {
      return Null, sent;
    }
    reply := Arr([]);
  }

  // =====================================================================
  // Event dispatch
  // =====================================================================

  /** What `onMessage` tells the Socket.IO layer: close the connection, keep
      it without replying, or send the serialised reply. */
  datatype Outcome = Disconnect | Keep | Reply(value: Value)

  datatype Event = Event(name: string, body: Value)

  const KnownEvents: set<string> := {"token", "publish", "subscribe", "signaling_message"}

  /** The envelope check of `onMessage`: an array of at least two elements,
      a string first and an object second; later elements are ignored. */
  function ParseEvent(doc: Option<Value>): (r: Option<Event>)
    ensures r.Some? <==> doc.Some? && doc.value.Arr? && |doc.value.elems| >= 2
                         && doc.value.elems[0].Str? && doc.value.elems[1].Obj?
    ensures r.Some? ==> r.value.name == doc.value.elems[0].s && r.value.body == doc.value.elems[1]
  {
    if doc.None? then None
    else
      var root := doc.value;
      if !root.Arr? || |root.elems| < 2 || !root.elems[0].Str? || !root.elems[1].Obj? then None
      else Some(Event(root.elems[0].s, root.elems[1]))
  }

  /** Elements after the second do not change the parsed event. */
  lemma ExtraElementsIgnored(name: string, body: map<string, Value>, extra: seq<Value>)
    ensures ParseEvent(Some(Arr([Str(name), Obj(body)] + extra))) == Some(Event(name, Obj(body)))
  {
    assert ([Str(name), Obj(body)] + extra)[0] == Str(name);
    assert ([Str(name), Obj(body)] + extra)[1] == Obj(body);
  }

  /** The handler reply an outcome stands for. */
  function ReplyOf(o: Outcome): Value
  {
    match o
    case Disconnect => Null
    case Keep => Arr([])
    case Reply(value) => value
  }

  /** How `onMessage` turns a handler's reply into its result; no reply is
      lost, since `ReplyOf` recovers it. */
  function ReplyOutcome(reply: Value): (o: Outcome)
    ensures o == Disconnect <==> reply.Null?
    ensures o == Keep <==> reply == Arr([])
    ensures ReplyOf(o) == reply
  {
    if reply.Null? then Disconnect
    else if reply.Arr? && |reply.elems| == 0 then Keep
    else Reply(reply)
  }

  /** `onMessage`: check the envelope, dispatch by event name, and map the
      handler's reply to the connection's fate.  `doc` is the reader's
      result for the message text. */
  method OnMessage(client: Client, store: RoomStore, doc: Option<Value>, env: Oracle)
    returns (out: Outcome, sent: seq<RpcRequest>)
    requires env.Sufficient()
    modifies client, store
    ensures ParseEvent(doc).None? ==> out == Disconnect && sent == [] && unchanged(client, store)
    ensures ParseEvent(doc).Some? && ParseEvent(doc).value.name !in KnownEvents ==>
      out == Disconnect && sent == [] && unchanged(client, store)
    ensures out == Keep ==> ParseEvent(doc).Some? && ParseEvent(doc).value.name == "signaling_message"
    ensures ParseEvent(doc).Some? && ParseEvent(doc).value.name == "token" ==>
      (out != Disconnect <==> env.addClientOk && env.listOk)
    ensures ParseEvent(doc).Some? && ParseEvent(doc).value.name == "publish" ==>
      (out != Disconnect <==> HasString(ParseEvent(doc).value.body, "label") &&
                              FinalCode(env.replies) == 0 && env.savePublisherOk)
    ensures ParseEvent(doc).Some? && ParseEvent(doc).value.name == "subscribe" ==>
      (out != Disconnect <==> old(SubscribeTarget(ParseEvent(doc).value.body, client.roomId, store, env.lookupOk)).Some? &&
                              FinalCode(env.replies) == 0)
    ensures ParseEvent(doc).Some? && ParseEvent(doc).value.name == "signaling_message" ==>
      (out == Keep <==> SignalingBodyOk(ParseEvent(doc).value.body) && FinalCode(env.replies) == 0) &&
      (out != Keep ==> out == Disconnect)
    ensures ParseEvent(doc).Some? && ParseEvent(doc).value.name == "token" ==>
      TokenEffect(client, store, env, ReplyOf(out)) && sent == []
    ensures ParseEvent(doc).Some? && ParseEvent(doc).value.name == "publish" ==>
      PublishEffect(client, store, ParseEvent(doc).value.body, env, ReplyOf(out), sent)
    ensures ParseEvent(doc).Some? && ParseEvent(doc).value.name == "subscribe" ==>
      SubscribeEffect(client, store, ParseEvent(doc).value.body, env, ReplyOf(out), sent)
    ensures ParseEvent(doc).Some? && ParseEvent(doc).value.name == "signaling_message" ==>
      SignalingEffect(client, ParseEvent(doc).value.body, env, ReplyOf(out), sent) && unchanged(client, store)
  {
    var event := ParseEvent(doc);
    if event.None? {
      return Disconnect, [];
    }
    var name, body := event.value.name, event.value.body;
    var reply := Null;
    sent := [];
    if name == "token" {
      reply := HandleToken(client, store, body, env);
    } else if name == "publish" {
      reply, sent := HandlePublish(client, store, body, env);
    } else if name == "subscribe" {
      reply, sent := HandleSubscribe(client, store, body, env);
    } else if name == "signaling_message" {
      reply, sent := HandleSignaling(client, body, env);
    }
    out := ReplyOutcome(reply);
  }

  // =====================================================================
  // Agent-originated signaling
  // =====================================================================

  /** An event pushed to a client connection. */
  datatype Delivery = Delivery(clientId: string, event: Value)

  /** The checks of `onSignalingMessage`: an object `data` with string
      `type`, `streamId`, `clientId`, `erizoId` and `agentId`. */
  predicate SignalWellFormed(doc: Option<Value>)
  {
    && doc.Some?
    && Get(doc.value, "data").Obj?
    && var data := Get(doc.value, "data");
    && HasString(data, "type")
    && HasString(data, "streamId")
    && HasString(data, "clientId")
    && HasString(data, "erizoId")
    && HasString(data, "agentId")
  }

  /** A named string field of a well-formed signaling message. */
  function SignalField(doc: Option<Value>, key: string): string
    requires SignalWellFormed(doc)
    requires key in {"type", "streamId", "clientId", "erizoId", "agentId"}
  {
    StringAt(Get(doc.value, "data"), key)
  }

  /** `["signaling_message_erizo", {key: streamId, mess: mess}]`. */
  function ErizoEvent(key: string, streamId: string, mess: map<string, Value>): Value
  {
    Arr([Str("signaling_message_erizo"), Obj(map[key := Str(streamId), "mess" := Obj(mess)])])
  }

  /** The name of a client event `[name, data]`. */
  function EventName(event: Value): Value
  {
    if event.Arr? && |event.elems| == 2 then event.elems[0] else Null
  }

  /** The members of the data object of a client event `[name, data]`. */
  function EventData(event: Value): map<string, Value>
  {
    if event.Arr? && |event.elems| == 2 && event.elems[1].Obj? then event.elems[1].members else map[]
  }

  /** The members of the `mess` object inside an event's data. */
  function Mess(event: Value): map<string, Value>
  {
    if "mess" in EventData(event) && EventData(event)["mess"].Obj? then EventData(event)["mess"].members else map[]
  }

  /** The member naming the stream: `peerId` in an answer to a subscriber,
      `streamId` otherwise. */
  function StreamKey(messageType: string): string
  {
    if messageType == "subscriber_answer" then "peerId" else "streamId"
  }

  /** The events vector `onSignalingMessage` builds.  Every event is a
      `signaling_message_erizo` whose data holds the stream under its key
      and a `mess` object; what `mess` carries depends on the type. */
  function SignalEvents(doc: Option<Value>): (events: seq<Value>)
    ensures !SignalWellFormed(doc) ==> events == []
    ensures forall i :: 0 <= i < |events| ==> EventName(events[i]) == Str("signaling_message_erizo")
    ensures SignalWellFormed(doc) ==>
      var t := SignalField(doc, "type");
      forall i :: 0 <= i < |events| ==>
        EventData(events[i]) == map[StreamKey(t) := Str(SignalField(doc, "streamId")), "mess" := Obj(Mess(events[i]))]
    ensures SignalWellFormed(doc) && SignalField(doc, "type") == "started" ==>
      && |events| == 2
      && Mess(events[0]) == map["type" := Str("initializing"),
                                "agentId" := Str(SignalField(doc, "agentId")),
                                "erizoId" := Str(SignalField(doc, "erizoId"))]
      && Mess(events[1]) == map["type" := Str("started")]
    ensures SignalWellFormed(doc) && SignalField(doc, "type") in {"publisher_answer", "subscriber_answer"} ==>
      var data := Get(doc.value, "data");
      && (|events| == 1 <==> HasString(data, "sdp"))
      && |events| <= 1
      && (|events| == 1 ==>
            && Mess(events[0])["type" := Str("answer")] == Mess(events[0])
            && "sdp" in Mess(events[0]) && Mess(events[0])["sdp"] == Get(data, "sdp")
            && (SignalField(doc, "type") == "publisher_answer" ==> Mess(events[0]).Keys == {"type", "sdp"})
            && (SignalField(doc, "type") == "subscriber_answer" ==>
                  Mess(events[0]).Keys == {"type", "sdp", "erizoId"} &&
                  Mess(events[0])["erizoId"] == Str(SignalField(doc, "erizoId"))))
    ensures SignalWellFormed(doc) && SignalField(doc, "type") !in {"started", "publisher_answer", "subscriber_answer"} ==>
      events == []
  {
    if !SignalWellFormed(doc) then []
    else
      var data := Get(doc.value, "data");
      var agentId := StringAt(data, "agentId");
      var erizoId := StringAt(data, "erizoId");
      var streamId := StringAt(data, "streamId");
      var t := StringAt(data, "type");
      if t == "started" then
        [ErizoEvent("streamId", streamId, map["agentId" := Str(agentId), "erizoId" := Str(erizoId), "type" := Str("initializing")]),
         ErizoEvent("streamId", streamId, map["type" := Str("started")])]
      else if t == "publisher_answer" then
        if !HasString(data, "sdp") then []
        else [ErizoEvent("streamId", streamId, map["type" := Str("answer"), "sdp" := Str(StringAt(data, "sdp"))])]
      else if t == "subscriber_answer" then
        if !HasString(data, "sdp") then []
        else [ErizoEvent("peerId", streamId, map["type" := Str("answer"), "sdp" := Str(StringAt(data, "sdp")),
                                                "erizoId" := Str(erizoId)])]
      else []
  }

  /** The number of events per message type: two for `started`, one for an
      answer carrying a string `sdp`, none otherwise. */
  lemma SignalEventCount(doc: Option<Value>)
    ensures |SignalEvents(doc)| <= 2
    ensures |SignalEvents(doc)| == 2 <==> SignalWellFormed(doc) && SignalField(doc, "type") == "started"
    ensures |SignalEvents(doc)| == 1 <==>
      SignalWellFormed(doc) && SignalField(doc, "type") in {"publisher_answer", "subscriber_answer"} &&
      HasString(Get(doc.value, "data"), "sdp")
  {
  }

  /** `onSignalingMessage`: translate the message, then send every event to
      the client it names, in order. */
  method OnSignalingMessage(doc: Option<Value>) returns (outbox: seq<Delivery>)
    ensures |outbox| == |SignalEvents(doc)|
    ensures forall i :: 0 <= i < |outbox| ==>
      outbox[i] == Delivery(SignalField(doc, "clientId"), SignalEvents(doc)[i])
  {
    var events := SignalEvents(doc);
    outbox := [];
    if events == [] {
      return;
    }
    var clientId := StringAt(Get(doc.value, "data"), "clientId");
    for i := 0 to |events|
      invariant |outbox| == i
      invariant forall j :: 0 <= j < i ==> outbox[j] == Delivery(clientId, events[j])
    {
      outbox := outbox + [Delivery(clientId, events[i])];
    }
  }
}
