/**
 * The `Subscriber` record and its JSON codec.  `toJSON` fills an object with
 * the seven fields; `fromJSON` checks every member's presence and type
 * before it writes any field of its out-parameter.
 */
module SubscriberModel {
  import opened Wrappers
  import opened Json

  datatype Subscriber = Subscriber(
    id: string,
    clientId: string,
    erizoId: string,
    agentId: string,
    subscribeTo: string,
    replyTo: string,
    isBridge: bool)

  /** The member names `toJSON` writes and `fromJSON` demands. */
  const MemberNames: set<string> :=
    {"id", "agent_id", "erizo_id", "client_id", "subscribe_to", "reply_to", "is_bridge"}

  /** The checks of `fromJSON`: six string members and a boolean `is_bridge`. */
  predicate WellFormed(v: Value)
  {
    && HasString(v, "id")
    && HasString(v, "client_id")
    && HasString(v, "erizo_id")
    && HasString(v, "agent_id")
    && HasString(v, "subscribe_to")
    && HasString(v, "reply_to")
    && Get(v, "is_bridge").Bool?
  }

  /** `Subscriber::toJSON`, before the writer turns the object into text. */
  function ToJson(s: Subscriber): (v: Value)
    ensures v.Obj? && v.members.Keys == MemberNames
    ensures WellFormed(v)
  {
    Obj(map[
      "id" := Str(s.id),
      "agent_id" := Str(s.agentId),
      "erizo_id" := Str(s.erizoId),
      "client_id" := Str(s.clientId),
      "subscribe_to" := Str(s.subscribeTo),
      "reply_to" := Str(s.replyTo),
      "is_bridge" := Bool(s.isBridge)])
  }

  /** `Subscriber::fromJSON(json, subscriber)`.  `doc` is what the strict
      reader makes of `json` (None when it does not parse); `sub` is the
      out-parameter's value before the call. */
  function FromJson(doc: Option<Value>, sub: Subscriber): (r: Decoded<Subscriber>)
    ensures r.ret == 0 || r.ret == 1
    ensures r.ret == 0 <==> doc.Some? && WellFormed(doc.value)
    ensures r.ret == 1 ==> r.out == sub
    ensures r.ret == 0 ==>
      && Str(r.out.id) == Get(doc.value, "id")
      && Str(r.out.clientId) == Get(doc.value, "client_id")
      && Str(r.out.erizoId) == Get(doc.value, "erizo_id")
      && Str(r.out.agentId) == Get(doc.value, "agent_id")
      && Str(r.out.subscribeTo) == Get(doc.value, "subscribe_to")
      && Str(r.out.replyTo) == Get(doc.value, "reply_to")
      && Bool(r.out.isBridge) == Get(doc.value, "is_bridge")
  {
    if doc.None? || !WellFormed(doc.value) then Decoded(1, sub)
    else
      var v := doc.value;
      Decoded(0, Subscriber(
        StringAt(v, "id"),
        StringAt(v, "client_id"),
        StringAt(v, "erizo_id"),
        StringAt(v, "agent_id"),
        StringAt(v, "subscribe_to"),
        StringAt(v, "reply_to"),
        Get(v, "is_bridge").b))
  }

  /** Decoding what `toJSON` wrote succeeds and gives the record back,
      whatever the out-parameter held before. */
  lemma RoundTrip(s: Subscriber, before: Subscriber)
    ensures FromJson(Some(ToJson(s)), before) == Decoded(0, s)
  {
  }

  /** The other direction: a document `fromJSON` accepts agrees with the
      encoding of the decoded record on every member `toJSON` writes. */
  lemma DecodeThenEncode(v: Value, before: Subscriber)
    requires FromJson(Some(v), before).ret == 0
    ensures forall k :: k in MemberNames ==> Get(v, k) == ToJson(FromJson(Some(v), before).out).members[k]
  {
  }
}
