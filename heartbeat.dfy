/**
 * The controller-instance liveness record `HEARTBEAT` and its JSON codec.
 * `toJSON` stores `last_update` as an unsigned 64-bit number; `fromJSON`
 * insists that the member it reads back is typed unsigned.
 */
module Heartbeat {
  import opened Wrappers
  import opened Json

  datatype Heartbeat = Heartbeat(id: string, lastUpdate: Uint64)

  /** The default constructor `HEARTBEAT()`. */
  function Initial(): (h: Heartbeat)
    ensures h.id == "" && h.lastUpdate == 0
  {
    Heartbeat("", 0)
  }

  /** The checks of `fromJSON`: a string `id` and a `last_update` whose
      type is `Json::uintValue`. */
  predicate WellFormed(v: Value)
  {
    HasString(v, "id") && Get(v, "last_update").UInt?
  }

  /** `HEARTBEAT::toJSON`, before the writer turns the object into text. */
  function ToJson(h: Heartbeat): (v: Value)
    ensures v.Obj? && v.members.Keys == {"id", "last_update"}
    ensures WellFormed(v)
  {
    Obj(map["id" := Str(h.id), "last_update" := UInt(h.lastUpdate)])
  }

  /** `HEARTBEAT::fromJSON(json, data)`: `doc` is what the strict reader
      makes of `json`, `data` the out-parameter before the call. */
  function FromJson(doc: Option<Value>, data: Heartbeat): (r: Decoded<Heartbeat>)
    ensures r.ret == 0 || r.ret == 1
    ensures r.ret == 0 <==> doc.Some? && WellFormed(doc.value)
    ensures r.ret == 1 ==> r.out == data
    ensures r.ret == 0 ==>
      Str(r.out.id) == Get(doc.value, "id") && UInt(r.out.lastUpdate) == Get(doc.value, "last_update")
  {
    if doc.None? || !WellFormed(doc.value) then Decoded(1, data)
    else Decoded(0, Heartbeat(StringAt(doc.value, "id"), Get(doc.value, "last_update").u))
  }

  /** On the tree `toJSON` builds, decoding gives the record back. */
  lemma RoundTripOnTree(h: Heartbeat, before: Heartbeat)
    ensures FromJson(Some(ToJson(h)), before) == Decoded(0, h)
  {
  }

  // ---------------------------------------------------------------------
  // Reading the written text back
  // ---------------------------------------------------------------------

  /** How a reader types a non-negative integer it reads from text. */
  datatype NumberTyping = AsInt | AsUInt

  /** jsoncpp's reader: a non-negative number up to `Json::Value::maxInt`
      becomes `intValue`, a larger one `uintValue`. */
  function JsoncppTyping(n: Uint64): (t: NumberTyping)
    ensures t == AsUInt <==> n > MaxInt
  {
    if n <= MaxInt then AsInt else AsUInt
  }

  /** The object a reader rebuilds from the text of a flat object whose
      unsigned members it types with `typing`. */
  function Reread(v: Value, typing: Uint64 -> NumberTyping): (w: Value)
    ensures v.Obj? ==> w.Obj? && w.members.Keys == v.members.Keys
  {
    if !v.Obj? then v
    else Obj(map k | k in v.members ::
      match v.members[k]
      case UInt(n) => if typing(n) == AsUInt then UInt(n) else Int(n)
      case other => other)
  }

  /** Through text, the round trip holds exactly when the reader types the
      timestamp as unsigned; when it does, the record comes back. */
  lemma RoundTripThroughText(h: Heartbeat, before: Heartbeat, typing: Uint64 -> NumberTyping)
    ensures FromJson(Some(Reread(ToJson(h), typing)), before).ret == 0
            <==> typing(h.lastUpdate) == AsUInt
    ensures typing(h.lastUpdate) == AsUInt ==>
            FromJson(Some(Reread(ToJson(h), typing)), before).out == h
  {
    var w := Reread(ToJson(h), typing);
    assert Get(w, "last_update") == (if typing(h.lastUpdate) == AsUInt then UInt(h.lastUpdate) else Int(h.lastUpdate));
    assert Get(w, "id") == Str(h.id);
  }

  /** With jsoncpp's reader, a heartbeat whose timestamp is at most 2^31 - 1
      does not survive its own encoding: `fromJSON` fails and leaves the
      out-parameter as it was. */
  lemma SmallTimestampRejected(h: Heartbeat, before: Heartbeat)
    requires h.lastUpdate <= MaxInt
    ensures FromJson(Some(Reread(ToJson(h), JsoncppTyping)), before) == Decoded(1, before)
  {
    RoundTripThroughText(h, before, JsoncppTyping);
  }

  /** A concrete instance: a controller that reports 1000 ms. */
  lemma SmallTimestampExample()
    ensures FromJson(Some(Reread(ToJson(Heartbeat("controller", 1000)), JsoncppTyping)), Initial()).ret == 1
  {
    SmallTimestampRejected(Heartbeat("controller", 1000), Initial());
  }

  // ---------------------------------------------------------------------
  // A decoder that accepts either integer typing
  // ---------------------------------------------------------------------

  /** `last_update` holds an unsigned number or an int-typed non-negative
      number in the 64-bit range. */
  predicate WellFormedAnyTyping(v: Value)
  {
    && HasString(v, "id")
    && (Get(v, "last_update").UInt? ||
        (Get(v, "last_update").Int? && 0 <= Get(v, "last_update").i < 0x1_0000_0000_0000_0000))
  }

  /** `fromJSON` with the type test widened to accept int-typed
      non-negative numbers, as `isUInt64()` would. */
  function FromJsonAnyTyping(doc: Option<Value>, data: Heartbeat): (r: Decoded<Heartbeat>)
    ensures r.ret == 0 <==> doc.Some? && WellFormedAnyTyping(doc.value)
    ensures r.ret == 1 ==> r.out == data
    ensures r.ret == 0 ==> Str(r.out.id) == Get(doc.value, "id")
    ensures r.ret == 0 ==> Get(doc.value, "last_update") in {UInt(r.out.lastUpdate), Int(r.out.lastUpdate)}
  {
    if doc.None? || !WellFormedAnyTyping(doc.value) then Decoded(1, data)
    else
      var n := Get(doc.value, "last_update");
      Decoded(0, Heartbeat(StringAt(doc.value, "id"), if n.UInt? then n.u else n.i))
  }

  /** The widened decoder completes the round trip whatever the reader's
      typing, and agrees with `fromJSON` wherever `fromJSON` succeeds. */
  lemma RoundTripAnyTyping(h: Heartbeat, before: Heartbeat, typing: Uint64 -> NumberTyping)
    ensures FromJsonAnyTyping(Some(Reread(ToJson(h), typing)), before) == Decoded(0, h)
    ensures forall doc :: FromJson(doc, before).ret == 0 ==> FromJsonAnyTyping(doc, before) == FromJson(doc, before)
  {
    var w := Reread(ToJson(h), typing);
    assert Get(w, "last_update") == (if typing(h.lastUpdate) == AsUInt then UInt(h.lastUpdate) else Int(h.lastUpdate));
    assert Get(w, "id") == Str(h.id);
  }
}
