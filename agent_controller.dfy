/**
 * The token-only controller: a directory of media agents kept alive by
 * periodic discovery replies, and the framing of Socket.IO packets on its
 * plain websocket endpoint.
 *
 * The keep-alive thread, the broadcast it publishes and the websocket
 * servers are left out: a discovery reply arrives as a JSON tree, the
 * websocket text reader and writer are function parameters, and the fresh
 * client id is an input.
 */
module AgentController {
  import opened Wrappers
  import opened Json
  import Decimal

  // =====================================================================
  // Agent directory
  // =====================================================================

  /** One media agent as the directory records it. */
  datatype Agent = Agent(id: string, ip: string, timeout: int)

  /** An entry whose timeout passes this bound is evicted by a sweep. */
  const MaxTimeout: int := 3

  /** The id and ip of a discovery reply: `data` must be an object with a
      string `id` and a string `ip`. */
  function DiscoveryData(root: Value): (r: Option<(string, string)>)
    ensures r.Some? <==> Get(root, "data").Obj? && HasString(Get(root, "data"), "id") && HasString(Get(root, "data"), "ip")
    ensures r.Some? ==> r.value == (StringAt(Get(root, "data"), "id"), StringAt(Get(root, "data"), "ip"))
  {
    var data := Get(root, "data");
    if !data.Obj? || !HasString(data, "id") || !HasString(data, "ip") then None
    else Some((StringAt(data, "id"), StringAt(data, "ip")))
  }

  /** The directory after `getErizoAgents` handles `root`. */
  function Refreshed(agents: map<string, Agent>, root: Value): (r: map<string, Agent>)
    ensures DiscoveryData(root).None? ==> r == agents
    ensures DiscoveryData(root).Some? ==>
      var (id, ip) := DiscoveryData(root).value;
      && r.Keys == agents.Keys + {id}
      && r[id] == Agent(id, ip, 0)
      && forall k :: k in agents && k != id ==> r[k] == agents[k]
  {
    match DiscoveryData(root)
    case None => agents
    case Some((id, ip)) => agents[id := Agent(id, ip, 0)]
  }

  /** The directory after one pass of the keep-alive loop: every timeout
      goes up by one and entries past `MaxTimeout` are erased. */
  function Swept(agents: map<string, Agent>): (r: map<string, Agent>)
    ensures forall k :: k in r <==> k in agents && agents[k].timeout + 1 <= MaxTimeout
    ensures forall k :: k in r ==> r[k] == agents[k].(timeout := agents[k].timeout + 1)
  {
    map k | k in agents && agents[k].timeout + 1 <= MaxTimeout :: agents[k].(timeout := agents[k].timeout + 1)
  }

  /** Every entry is filed under its own id and its timeout is in range. */
  predicate Healthy(agents: map<string, Agent>)
  {
    forall k :: k in agents ==> agents[k].id == k && 0 <= agents[k].timeout <= MaxTimeout
  }

  /** Both steps keep the directory healthy; a sweep leaves no timeout
      above `MaxTimeout` whatever it starts from. */
  lemma StepsKeepHealthy(agents: map<string, Agent>, root: Value)
    requires Healthy(agents)
    ensures Healthy(Refreshed(agents, root))
    ensures Healthy(Swept(agents))
  {
  }

  /** The directory of agents, updated in place by discovery replies and by
      the keep-alive sweep. */
  class AgentDirectory {
    var agents: map<string, Agent>

    ghost predicate Valid()
      reads this
    {
      Healthy(agents)
    }

    constructor()
      ensures agents == map[] && Valid()
    {
      agents := map[];
    }

    /** `getErizoAgents`. */
    method Refresh(root: Value)
      requires Valid()
      modifies this
      ensures Valid()
      ensures agents == Refreshed(old(agents), root)
    {
      var data := Get(root, "data");
      if !data.Obj? || !HasString(data, "id") || !HasString(data, "ip") {
        return;
      }
      var id := StringAt(data, "id");
      var ip := StringAt(data, "ip");
      agents := agents[id := Agent(id, ip, 0)];
      StepsKeepHealthy(old(agents), root);
    }

    /** The broadcast consumer: a parsed message whose `method` is the
        string `getErizoAgents` is a discovery reply. */
    method OnBroadcast(doc: Option<Value>)
      requires Valid()
      modifies this
      ensures Valid()
      ensures agents == if doc.Some? && Get(doc.value, "method") == Str("getErizoAgents")
                        then Refreshed(old(agents), doc.value)
                        else old(agents)
    {
      if doc.None? {
        return;
      }
      var root := doc.value;
      if !Get(root, "method").Str? {
        return;
      }
      if Get(root, "method").s == "getErizoAgents" {
        Refresh(root);
      }
    }

    /** The body of the keep-alive loop: walk the entries, bump each
        timeout, and erase those past `MaxTimeout`. */
    method Sweep()
      requires Valid()
      modifies this
      ensures Valid()
      ensures agents == Swept(old(agents))
    {
      var pending := agents.Keys;
      while pending != {}
        invariant pending <= old(agents).Keys
        invariant agents.Keys <= old(agents).Keys
        invariant forall k :: k in pending ==> k in agents && agents[k] == old(agents)[k]
        invariant forall k :: k in old(agents) && k !in pending ==>
                    (k in agents <==> k in Swept(old(agents))) &&
                    (k in agents ==> agents[k] == Swept(old(agents))[k])
        decreases pending
      {
        var k :| k in pending;
        var entry := agents[k].(timeout := agents[k].timeout + 1);
        if entry.timeout > MaxTimeout {
          agents := agents - {k};
        } else {
          agents := agents[k := entry];
        }
        pending := pending - {k};
      }
      assert agents.Keys == Swept(old(agents)).Keys;
      StepsKeepHealthy(old(agents), Null);
    }
  }

  // ---------------------------------------------------------------------
  // Liveness over a run of steps
  // ---------------------------------------------------------------------

  /** A step of the directory's life: a discovery reply or a sweep. */
  datatype Step = Discovery(root: Value) | Tick

  function Apply(agents: map<string, Agent>, step: Step): map<string, Agent>
  {
    match step
    case Discovery(root) => Refreshed(agents, root)
    case Tick => Swept(agents)
  }

  function Run(agents: map<string, Agent>, steps: seq<Step>): map<string, Agent>
    decreases |steps|
  {
    if steps == [] then agents else Run(Apply(agents, steps[0]), steps[1..])
  }

  function Sweeps(steps: seq<Step>): nat
  {
    if steps == [] then 0 else (if steps[0].Tick? then 1 else 0) + Sweeps(steps[1..])
  }

  /** `step` is a valid discovery reply from agent `id`. */
  predicate RefreshesId(step: Step, id: string)
  {
    step.Discovery? && DiscoveryData(step.root).Some? && DiscoveryData(step.root).value.0 == id
  }

  /** An entry nobody refreshes ages by one per sweep and is gone once its
      age passes `MaxTimeout`; an absent one stays absent. */
  lemma {:induction false} Unrefreshed(agents: map<string, Agent>, steps: seq<Step>, id: string)
    requires id in agents ==> agents[id].timeout <= MaxTimeout
    requires forall i :: 0 <= i < |steps| ==> !RefreshesId(steps[i], id)
    ensures id in Run(agents, steps) <==> id in agents && agents[id].timeout + Sweeps(steps) <= MaxTimeout
    ensures id in Run(agents, steps) ==>
      Run(agents, steps)[id] == agents[id].(timeout := agents[id].timeout + Sweeps(steps))
    decreases |steps|
  {
    if steps != [] {
      var next := Apply(agents, steps[0]);
      assert Sweeps(steps) == (if steps[0].Tick? then 1 else 0) + Sweeps(steps[1..]);
      assert Run(agents, steps) == Run(next, steps[1..]);
      assert !RefreshesId(steps[0], id);
      assert id in next <==> id in agents && (steps[0].Tick? ==> agents[id].timeout + 1 <= MaxTimeout);
      assert id in next ==> next[id] == agents[id].(timeout := agents[id].timeout + (if steps[0].Tick? then 1 else 0));
      forall i | 0 <= i < |steps[1..]| ensures !RefreshesId(steps[1..][i], id) {
        assert steps[1..][i] == steps[i + 1];
      }
      Unrefreshed(next, steps[1..], id);
    } else {
      assert Sweeps(steps) == 0;
    }
  }

  /** After a discovery reply from `id`, the entry survives exactly the
      first three sweeps that are not followed by another reply from it:
      the fourth evicts it. */
  lemma EvictedOnFourthSweep(agents: map<string, Agent>, root: Value, steps: seq<Step>, id: string)
    requires RefreshesId(Discovery(root), id)
    requires forall i :: 0 <= i < |steps| ==> !RefreshesId(steps[i], id)
    ensures id in Run(Refreshed(agents, root), steps) <==> Sweeps(steps) <= 3
    ensures id in Run(Refreshed(agents, root), steps) ==> Run(Refreshed(agents, root), steps)[id].timeout == Sweeps(steps)
  {
    Unrefreshed(Refreshed(agents, root), steps, id);
  }

  /** Between any two sweeps of `steps` there is a reply from `id`. */
  predicate RefreshedBetweenSweeps(steps: seq<Step>, id: string)
  {
    forall i, j :: 0 <= i < j < |steps| && steps[i].Tick? && steps[j].Tick? ==>
      exists k :: i < k < j && RefreshesId(steps[k], id)
  }

  /** Every sweep of `steps` has a reply from `id` before it. */
  predicate RefreshedBeforeSweeps(steps: seq<Step>, id: string)
  {
    forall j :: 0 <= j < |steps| && steps[j].Tick? ==> exists k :: 0 <= k < j && RefreshesId(steps[k], id)
  }

  /** An agent that answers between every two sweeps is never evicted,
      provided it is present with room for one more sweep to begin with. */
  lemma NeverEvicted(agents: map<string, Agent>, steps: seq<Step>, id: string)
    requires id in agents && 0 <= agents[id].timeout < MaxTimeout
    requires RefreshedBetweenSweeps(steps, id)
    ensures id in Run(agents, steps) && Run(agents, steps)[id].timeout <= MaxTimeout
  {
    KeptAlive(agents, steps, id, false);
  }

  /** The induction behind `NeverEvicted`: `spent` records that a sweep
      happened since the last reply, so the next sweep must wait for one. */
  lemma {:induction false} KeptAlive(agents: map<string, Agent>, steps: seq<Step>, id: string, spent: bool)
    requires id in agents && 0 <= agents[id].timeout <= MaxTimeout
    requires !spent ==> agents[id].timeout < MaxTimeout
    requires RefreshedBetweenSweeps(steps, id)
    requires spent ==> RefreshedBeforeSweeps(steps, id)
    ensures id in Run(agents, steps) && Run(agents, steps)[id].timeout <= MaxTimeout
    decreases |steps|
  {
    if steps != [] {
      var rest := steps[1..];
      forall i, j | 0 <= i < j < |rest| && rest[i].Tick? && rest[j].Tick?
        ensures exists k :: i < k < j && RefreshesId(rest[k], id)
      {
        assert steps[i + 1].Tick? && steps[j + 1].Tick?;
        var k :| i + 1 < k < j + 1 && RefreshesId(steps[k], id);
        assert rest[k - 1] == steps[k];
      }
      var next := Apply(agents, steps[0]);
      if RefreshesId(steps[0], id) {
        KeptAlive(next, rest, id, false);
      } else if steps[0].Tick? {
        assert !spent;
        forall j | 0 <= j < |rest| && rest[j].Tick?
          ensures exists k :: 0 <= k < j && RefreshesId(rest[k], id)
        {
          assert steps[j + 1].Tick?;
          var k :| 0 < k < j + 1 && RefreshesId(steps[k], id);
          assert rest[k - 1] == steps[k];
        }
        KeptAlive(next, rest, id, true);
      } else {
        if spent {
          forall j | 0 <= j < |rest| && rest[j].Tick?
            ensures exists k :: 0 <= k < j && RefreshesId(rest[k], id)
          {
            assert steps[j + 1].Tick?;
            var k :| 0 <= k < j + 1 && RefreshesId(steps[k], id);
            assert k != 0;
            assert rest[k - 1] == steps[k];
          }
        }
        KeptAlive(next, rest, id, spent);
      }
    }
  }

  // =====================================================================
  // Socket.IO framing
  // =====================================================================

  /** The room id every token reply names. */
  const TokenRoomId: string := "00000"

  /** The reply of `handleToken`, before it is written out. */
  function TokenReply(clientId: string): (v: Value)
    ensures v.Arr? && |v.elems| == 2 && v.elems[0] == Str("success")
    ensures Get(v.elems[1], "id") == Str(TokenRoomId)
    ensures Get(v.elems[1], "clientId") == Str(clientId)
    ensures Get(v.elems[1], "streams") == Arr([])
  {
    Arr([Str("success"), Obj(map[
      "id" := Str(TokenRoomId),
      "clientId" := Str(clientId),
      "streams" := Arr([]),
      "singlePC" := Bool(false),
      "defaultVideoBW" := Int(300),
      "maxVideoBW" := Int(300),
      "iceServers" := Arr([Obj(map["url" := Str("stun:stun.l.google.com:19302")])])])])
  }

  /** The index of the first `c` in `s`, or `|s|` when there is none. */
  function FirstIndex(s: string, c: char): (r: nat)
    ensures r <= |s|
    ensures r < |s| ==> s[r] == c
    ensures forall i :: 0 <= i < r ==> s[i] != c
    decreases |s|
  {
    if s == [] then 0
    else if s[0] == c then 0
    else 1 + FirstIndex(s[1..], c)
  }

  /** The text `stoi` reads the ack id from: `substr(2, pos)`, which counts
      `pos` characters and is cut at the end of the message. */
  function AckText(msg: string): (t: string)
    requires '[' in msg && FirstIndex(msg, '[') > 2
    ensures t <= msg[2..] && |t| <= FirstIndex(msg, '[')
    ensures |t| > FirstIndex(msg, '[') - 2 && t[FirstIndex(msg, '[') - 2] == '['
  {
    var pos := FirstIndex(msg, '[');
    msg[2..if 2 + pos <= |msg| then 2 + pos else |msg|]
  }

  /** A packet whose ack id `stoi` can read: it needs leading digits, and
      the value must fit in an `int`. */
  predicate AckReadable(msg: string)
    requires '[' in msg
  {
    FirstIndex(msg, '[') > 2 ==>
      var mid := Decimal.LeadingInt(AckText(msg));
      mid.Some? && -0x8000_0000 <= mid.value <= MaxInt
  }

  /** The event `handleEvent` accepts: exactly `[string, object]`. */
  predicate EventShape(doc: Option<Value>)
  {
    doc.Some? && doc.value.Arr? && |doc.value.elems| == 2 && doc.value.elems[0].Str? && doc.value.elems[1].Obj?
  }

  /** `handleEvent`: read the ack id between index 2 and the first `[`,
      parse the rest as an event, and answer with a `43` ack packet that
      echoes the id and carries the token reply for a `token` event.
      `parse` and `write` are the JSON reader and writer; `clientId` is the
      fresh id `handleToken` draws. */
  function HandleEvent(msg: string, parse: string -> Option<Value>, write: Value -> string, clientId: string)
    : (r: Option<string>)
    requires '[' in msg && AckReadable(msg)
    ensures r.None? <==> !EventShape(parse(msg[FirstIndex(msg, '[')..]))
    ensures r.Some? ==> |r.value| >= 2 && r.value[..2] == "43"
  {
    var doc := parse(msg[FirstIndex(msg, '[')..]);
    if !EventShape(doc) then None
    else
      var packet := "43" + AckId(msg) + EventOutput(doc, write, clientId);
      assert packet[..2] == "43";
      Some(packet)
  }

  /** The ack id `handleEvent` writes back: the integer `stoi` read, put
      through `ostream <<`, or nothing when the `[` is at index 2 or before. */
  function AckId(msg: string): string
    requires '[' in msg && AckReadable(msg)
  {
    if FirstIndex(msg, '[') > 2 then Decimal.RenderInt(Decimal.LeadingInt(AckText(msg)).value) else ""
  }

  /** The ack id written back is read by `stoi` as the number that was read
      from the packet. */
  lemma AckIdReadsBack(msg: string)
    requires '[' in msg && AckReadable(msg) && FirstIndex(msg, '[') > 2
    ensures Decimal.LeadingInt(AckId(msg)) == Decimal.LeadingInt(AckText(msg))
  {
    Decimal.LeadingIntOfRenderInt(Decimal.LeadingInt(AckText(msg)).value);
  }

  /** The text after the ack id: the token reply for `token`, nothing for
      any other event. */
  function EventOutput(doc: Option<Value>, write: Value -> string, clientId: string): string
    requires EventShape(doc)
  {
    if doc.value.elems[0].s == "token" then write(TokenReply(clientId)) else ""
  }

  /** Where the ack id of `42<digits><event>` ends and what `stoi` sees:
      the digits, then at most two characters of the event, the first of
      them `[`. */
  lemma AckTextOf(digits: string, event: string)
    requires Decimal.AllDigits(digits) && |digits| > 0
    requires |event| > 0 && event[0] == '['
    ensures var msg := "42" + digits + event;
      && '[' in msg && FirstIndex(msg, '[') == 2 + |digits|
      && AckText(msg) == digits + event[..if |event| < 2 then |event| else 2]
      && msg[FirstIndex(msg, '[')..] == event
  {
    var msg := "42" + digits + event;
    assert msg[2 + |digits|] == '[';
    forall i | 0 <= i < 2 + |digits| ensures msg[i] != '[' {
      if i >= 2 {
        assert msg[i] == digits[i - 2];
        assert Decimal.IsDigit(digits[i - 2]);
      }
    }
    assert FirstIndex(msg, '[') == 2 + |digits|;
    assert msg[2 + |digits|..] == event;
  }

  /** A `42<id>[...]` packet is answered by `43<id>` followed by the
      event's output: the ack id is echoed unchanged. */
  lemma AckIdEchoed(n: nat, event: string, parse: string -> Option<Value>, write: Value -> string, clientId: string)
    requires n <= MaxInt
    requires |event| > 0 && event[0] == '['
    requires EventShape(parse(event))
    ensures var msg := "42" + Decimal.Render(n) + event;
      && '[' in msg && AckReadable(msg)
      && HandleEvent(msg, parse, write, clientId) == Some("43" + Decimal.Render(n) + EventOutput(parse(event), write, clientId))
  {
    var ds := Decimal.Render(n);
    Decimal.ValueOfRender(n);
    AckIdNormalised(ds, event, parse, write, clientId);
  }

  /** Any run of digits is read as the number it spells: leading zeros in
      the ack id are dropped from the echo. */
  lemma AckIdNormalised(ds: string, event: string, parse: string -> Option<Value>, write: Value -> string, clientId: string)
    requires Decimal.AllDigits(ds) && |ds| > 0 && Decimal.Value(ds) <= MaxInt
    requires |event| > 0 && event[0] == '['
    requires EventShape(parse(event))
    ensures var msg := "42" + ds + event;
      && '[' in msg && AckReadable(msg)
      && HandleEvent(msg, parse, write, clientId) ==
         Some("43" + Decimal.Render(Decimal.Value(ds)) + EventOutput(parse(event), write, clientId))
  {
    AckIdOfDigits(ds, event);
    AckTextOf(ds, event);
  }

  /** The ack id of `42<digits>[...]` is the digits' value, rendered. */
  lemma AckIdOfDigits(ds: string, event: string)
    requires Decimal.AllDigits(ds) && |ds| > 0 && Decimal.Value(ds) <= MaxInt
    requires |event| > 0 && event[0] == '['
    ensures var msg := "42" + ds + event;
      && '[' in msg && AckReadable(msg)
      && AckId(msg) == Decimal.Render(Decimal.Value(ds))
  {
    var tail := event[..if |event| < 2 then |event| else 2];
    AckTextOf(ds, event);
    assert tail[0] == '[';
    Decimal.LeadingIntOfDigits(ds, tail);
  }

  /** An ack id written without leading zeros is echoed character for
      character. */
  lemma CanonicalAckIdEchoed(ds: string, event: string, parse: string -> Option<Value>, write: Value -> string, clientId: string)
    requires Decimal.Canonical(ds) && Decimal.Value(ds) <= MaxInt
    requires |event| > 0 && event[0] == '['
    requires EventShape(parse(event))
    ensures var msg := "42" + ds + event;
      && '[' in msg && AckReadable(msg)
      && HandleEvent(msg, parse, write, clientId) == Some("43" + ds + EventOutput(parse(event), write, clientId))
  {
    assert Decimal.AllDigits(ds) && |ds| > 0;
    AckIdNormalised(ds, event, parse, write, clientId);
    var echo := Decimal.Render(Decimal.Value(ds));
    assert echo == ds by { Decimal.RenderOfValue(ds); }
  }

  /** A packet with its `[` at index 2 or earlier carries no ack id: the
      reply is `43` and the event's output. */
  lemma NoAckId(msg: string, parse: string -> Option<Value>, write: Value -> string, clientId: string)
    requires '[' in msg && FirstIndex(msg, '[') <= 2
    requires EventShape(parse(msg[FirstIndex(msg, '[')..]))
    ensures HandleEvent(msg, parse, write, clientId) ==
            Some("43" + EventOutput(parse(msg[FirstIndex(msg, '[')..]), write, clientId))
  {
  }

  /** Only a `token` event puts anything after the ack id. */
  lemma OnlyTokenAnswers(event: string, parse: string -> Option<Value>, write: Value -> string, clientId: string)
    requires EventShape(parse(event))
    ensures parse(event).value.elems[0].s != "token" ==> EventOutput(parse(event), write, clientId) == ""
    ensures parse(event).value.elems[0].s == "token" ==> EventOutput(parse(event), write, clientId) == write(TokenReply(clientId))
  {
  }
}
