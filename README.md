# erizo_controller (C++) — a Dafny model of the controller's request handling

The erizo controller sits between WebRTC clients and media nodes ("erizos")
run by agents. Clients talk to it over Socket.IO. It relays their requests
to media nodes over AMQP RPC and keeps a room directory in Redis. This
project models the decision logic of that controller:

- **`RoomController`** (`core/erizo_controller.cpp`). The `Client`
  session is a class that the handlers update in place.
  - `onMessage` checks the `[eventName, body]` envelope and dispatches to
    one of four handlers. It turns the handler's reply into one of three
    outcomes: disconnect, keep, or reply.
  - `handleToken`, `handlePublish`, `handleSubscribe` and `handleSignaling`
    append `Publisher` and `Subscriber` records to the client.
  - The three RPC helpers share one do/while retry rule, modelled as a
    method with a loop.
  - `onSignalingMessage` translates an agent's message into 0, 1 or 2
    client events.
- **`AgentController`** (`erizo_controller/erizo_controller.cpp`).
  - The agent liveness directory is a class holding a map. A discovery
    reply refreshes an entry; the keep-alive sweep bumps every timeout
    and erases stale entries in place.
  - Over runs of such steps the model proves when an agent is evicted
    and when it is kept.
  - `handleEvent` frames Socket.IO ack packets, and `handleToken` gives
    the fixed token reply.
- **`SubscriberModel`** and **`Heartbeat`** (`model/subscriber.h`,
  `core/erizo_controller.h`): the validate-then-fill JSON decoders and
  their encoders.
- **`Utils`** (`common/utils.h`).
  - `getStreamID` is a loop over a digit source.
  - `searchAddress` is specified as the leftmost match of the IPv4 octet
    grammar.
- Supporting modules:
  - `Json` is JSON as a tree.
  - `Decimal` holds decimal digits, `stoi`'s leading-integer reading, and
    integer rendering.
  - `Session` holds the `Client` and `Publisher` records.
  - `Store` is the Redis room directory: room → publishers, room →
    client ids, with a reachability flag per command.
  - `Wrappers` holds `Option`.

Collaborators are inputs:
- Parsed JSON text is an `Option<Value>`, where `None` means the text
  does not parse.
- Each RPC attempt consumes the next element of a sequence of replies.
- Each Redis command reads a success flag.
- The values of `rand()` are a sequence of naturals.
- The fresh UUID is a string parameter.
- The websocket JSON reader and writer are function parameters.
- Messages the controller sends are returned as values: RPC requests
  and deliveries to clients.

Points where the code's behaviour is easy to mistake, and which the model
follows as written:
- A token reply for a room without publishers has no `streams` member at
  all, rather than an empty `streams` array.
  `RoomController.TokenReplyListsRoom` states this.
- Closing a connection does nothing (`onClose` is empty): the client's
  publishers stay in the directory.
- `handleSignaling` returns a JSON value (the `.cpp` body), not `void`
  (the header's declaration).
- In `erizo_controller/erizo_controller.cpp`, `handleToken` returns the
  written string, not a JSON value as that header declares.

## Model

| member | source | states |
|---|---|---|
| Decimal.TrimSpace | erizo_controller_cpp/erizo_controller/erizo_controller.cpp:140 | `stoi` skips a prefix made only of white space, and what remains does not start with white space |
| Decimal.LeadingInt | erizo_controller_cpp/erizo_controller/erizo_controller.cpp:140 | `stoi` reads an integer exactly when, after leading white space and an optional sign, at least one digit follows |
| Decimal.LeadingIntDecomposed | erizo_controller_cpp/erizo_controller/erizo_controller.cpp:140 | for text split into white space, a sign (none, `+` or `-`), a maximal non-empty digit run and the rest, `stoi` reads the digits' value, negated after `-` |
| Decimal.LeadingIntSplits | erizo_controller_cpp/erizo_controller/erizo_controller.cpp:140 | conversely, whenever `stoi` reads an integer, the text has such a split |
| Decimal.LeadingIntOfDigits | erizo_controller_cpp/erizo_controller/erizo_controller.cpp:140 | unsigned digits at the front of the text, followed by a non-digit or nothing, are read as their value, leading zeros included |
| Decimal.Render | erizo_controller_cpp/erizo_controller/erizo_controller.cpp:174 | `ostream <<` writes a non-negative integer as canonical decimal text: digits only, no leading zero, one digit exactly below 10 |
| Decimal.RenderInt | erizo_controller_cpp/erizo_controller/erizo_controller.cpp:174 | a signed integer is written as the digits of a non-negative one, and starts with `-` exactly when it is negative |
| Decimal.LeadingIntOfRenderInt | erizo_controller_cpp/erizo_controller/erizo_controller.cpp:140-174 | `stoi` reads back every integer `ostream <<` writes, negative ones included |
| Decimal.LeadingIntOfRender | erizo_controller_cpp/erizo_controller/erizo_controller.cpp:140-174 | `stoi` reads back the value that was written in decimal, whatever non-digit text follows it |
| Utils.GetStreamId | erizo_controller_cpp/common/utils.h:53-66 | the id has exactly 18 characters, all decimal digits, with no leading zero; digit i comes from the i-th value of `rand()` (first digit `r % 9 + 1`, the others `r % 10`) |
| Utils.StreamIdRange | erizo_controller_cpp/common/utils.h:56-63 | the number a stream id denotes lies in [10^17, 10^18) |
| Utils.MatchAt | erizo_controller_cpp/common/utils.h:29 | what the matcher reports at a start position is an address `a.b.c.d`: a and d are 1..254, b and c are 0..255, no octet has a leading zero |
| Utils.MatchAtComplete | erizo_controller_cpp/common/utils.h:29 | every address that starts at a position is found there, and the match is the longest one |
| Utils.SearchFromLeftmost | erizo_controller_cpp/common/utils.h:38-41 | no address starts before the position the search reports, and none at all when it reports nothing |
| Utils.SearchAddress | erizo_controller_cpp/common/utils.h:27-44 | on false `ip` is unchanged; on true `ip` is a substring `str[i..k]` of the text at whose start `i` the address matcher succeeds and ends at `k` |
| Utils.SearchAddressMiss | erizo_controller_cpp/common/utils.h:38-43 | on false, no substring of `str` is an address and `ip` is unchanged |
| Utils.SearchAddressHit | erizo_controller_cpp/common/utils.h:29-41 | on true, `ip` is a substring of `str` that is an address; it starts at the leftmost position where any address starts and is the longest address there |
| SubscriberModel.ToJson | erizo_controller_cpp/model/subscriber.h:19-31 | the object has exactly the seven members `id`, `agent_id`, `erizo_id`, `client_id`, `subscribe_to`, `reply_to`, `is_bridge`, and it passes the decoder's checks |
| SubscriberModel.FromJson | erizo_controller_cpp/model/subscriber.h:33-64 | returns 0 or 1; 0 exactly when the text parses and six members are strings and `is_bridge` is a boolean; on 1 the out-parameter is unchanged; on 0 every field equals its member |
| SubscriberModel.RoundTrip | erizo_controller_cpp/model/subscriber.h:19-64 | decoding what `toJSON` builds returns 0 and gives the subscriber back |
| SubscriberModel.DecodeThenEncode | erizo_controller_cpp/model/subscriber.h:19-64 | an object the decoder accepts agrees, on each of the seven members, with the encoding of the subscriber decoded from it |
| Heartbeat.Initial | erizo_controller_cpp/core/erizo_controller.h:36-37 | a new heartbeat has an empty id and `last_update` 0 |
| Heartbeat.ToJson | erizo_controller_cpp/core/erizo_controller.h:39-46 | the object has exactly the members `id` and `last_update`, the latter unsigned |
| Heartbeat.FromJson | erizo_controller_cpp/core/erizo_controller.h:48-63 | returns 0 exactly when the text parses, `id` is a string and `last_update` is unsigned-typed; on 1 the out-parameter is unchanged; on 0 both fields equal their members |
| Heartbeat.RoundTripOnTree | erizo_controller_cpp/core/erizo_controller.h:39-63 | on the tree `toJSON` builds, decoding returns 0 and the heartbeat |
| Heartbeat.RoundTripThroughText | erizo_controller_cpp/core/erizo_controller.h:39-63 | through text, decoding succeeds exactly when the reader types the timestamp unsigned, and then gives the heartbeat back |
| Heartbeat.SmallTimestampRejected | erizo_controller_cpp/core/erizo_controller.h:57 | with jsoncpp's typing, a heartbeat whose timestamp is at most 2^31 - 1 fails to decode from its own encoding |
| Heartbeat.SmallTimestampExample | erizo_controller_cpp/core/erizo_controller.h:57 | the heartbeat ("controller", 1000) fails to decode from its own encoding |
| Heartbeat.FromJsonAnyTyping | erizo_controller_cpp/core/erizo_controller.h:54-61 | the widened decoder succeeds exactly on a string `id` and a non-negative 64-bit `last_update` of either integer type; on success the fields are the document's `id` and `last_update`; on failure the out-parameter is unchanged |
| Heartbeat.RoundTripAnyTyping | erizo_controller_cpp/core/erizo_controller.h:39-63 | the widened decoder completes the round trip under any typing, and agrees with `fromJSON` wherever `fromJSON` succeeds |
| Store.Find | erizo_controller_cpp/core/erizo_controller.cpp:573 | the publisher found has the id and sits at a position of the list before which no publisher has that id, so it is the first one; none exactly when no publisher has that id |
| Store.RoomStore.Lookup | erizo_controller_cpp/core/erizo_controller.cpp:571-577 | `getPublisher` finds a publisher exactly when the store answers and the room lists one with that id |
| Store.RoomStore.AddClient | erizo_controller_cpp/core/erizo_controller.cpp:476-481 | `addClient` returns 0 exactly when the store answers, and appends the client id to the room's list then and only then |
| Store.RoomStore.AddPublisher | erizo_controller_cpp/core/erizo_controller.cpp:549-553 | `addPublisher` returns 0 exactly when the store answers, and appends the publisher to the room's list then and only then |
| RoomController.ReplyCode | erizo_controller_cpp/core/erizo_controller.cpp:313-329 | a null reply, or one without an int `ret`, counts as 1; otherwise `ret` is the member's value; success means `ret` is int 0 |
| RoomController.AttemptsBounds | erizo_controller_cpp/core/erizo_controller.cpp:306-334 | the loop makes between 1 and the budget's attempts; every attempt but the last failed; the last succeeded or used up the budget |
| RoomController.AttemptsUnique | erizo_controller_cpp/core/erizo_controller.cpp:306-334 | those three facts determine the number of attempts |
| RoomController.RetryRule | erizo_controller_cpp/core/erizo_controller.cpp:306-334 | the helper succeeds exactly when one of the first three replies succeeds; it makes all three attempts exactly when the first two fail, and always when it fails |
| RoomController.Call | erizo_controller_cpp/core/erizo_controller.cpp:306-334 | the do/while sends the request one to three times, stops at the first success, and returns the last attempt's `ret` |
| RoomController.AddPublisherRpc | erizo_controller_cpp/core/erizo_controller.cpp:291-334 | every attempt sends `addPublisher` with `[client, stream, label, replyTo]` to queue `Erizo_<erizo>`; it returns the retry rule's result |
| RoomController.AddSubscriberRpc | erizo_controller_cpp/core/erizo_controller.cpp:337-379 | every attempt sends `addSubscriber` with `[client, stream, label, replyTo]` to queue `Erizo_<erizo>`; it returns the retry rule's result |
| RoomController.ProcessSignalingRpc | erizo_controller_cpp/core/erizo_controller.cpp:382-423 | every attempt sends `processSignaling` with `[client, stream, msg]` to queue `Erizo_<erizo>`; it returns the retry rule's result |
| RoomController.GetErizo | erizo_controller_cpp/core/erizo_controller.cpp:249-289 | always succeeds with node `2222222222` |
| RoomController.TokenReplyListsRoom | erizo_controller_cpp/core/erizo_controller.cpp:490-515 | the token reply is `["success", data]`; data names the room and the client; `streams` is absent exactly when the room has no publishers, and otherwise lists every publisher's id and label in directory order |
| RoomController.HandleToken | erizo_controller_cpp/core/erizo_controller.cpp:472-516 | sets room `test_room_id` and agent `1111111111`; registers the client in the room when the store answers; replies with the room's publishers, or null when either store command fails; nothing else changes |
| RoomController.HandlePublish | erizo_controller_cpp/core/erizo_controller.cpp:518-560 | without a string label: null, nothing sent, nothing changed. Otherwise: the client gets node `2222222222` and a new publisher with a fresh stream id, appended before the RPC and kept even if the RPC or the store fails; the store gets the publisher only when the RPC succeeds and the store answers; the reply is then `[id, erizo]`, else null |
| RoomController.HandleSubscribe | erizo_controller_cpp/core/erizo_controller.cpp:562-595 | without a string `streamId`, or with no such publisher in the room: null, nothing sent, client unchanged. Otherwise a subscriber with `id == streamId` and the client's node and agent is appended before the RPC; the reply is `[true, erizo]` on RPC success, else null |
| RoomController.HandleSignaling | erizo_controller_cpp/core/erizo_controller.cpp:597-619 | without a string `streamId` and an object `msg`: null and nothing sent; otherwise it forwards the message to the client's node and returns an empty array exactly when the RPC succeeds, else null |
| RoomController.ParseEvent | erizo_controller_cpp/core/erizo_controller.cpp:435-451 | an event is read exactly when the text parses to an array of at least two elements, a string first and an object second |
| RoomController.ExtraElementsIgnored | erizo_controller_cpp/core/erizo_controller.cpp:441-451 | elements after the second do not change the event |
| RoomController.ReplyOutcome | erizo_controller_cpp/core/erizo_controller.cpp:461-469 | null gives disconnect, an empty array gives keep, and any other reply is sent; the handler's reply can always be recovered from the outcome |
| RoomController.OnMessage | erizo_controller_cpp/core/erizo_controller.cpp:430-470 | a bad envelope or an unknown event name disconnects and changes nothing; for each of the four events the outcome carries exactly that handler's reply, and the client, the store and the requests sent are exactly that handler's effect (the same facts as the handler rows above); a handler's failure disconnects; keep happens only for `signaling_message`, and always when it succeeds; subscribe never changes the store and signaling changes neither client nor store |
| RoomController.SignalEvents | erizo_controller_cpp/core/erizo_controller.cpp:139-230 | every event is named `signaling_message_erizo`; its data holds exactly the message's `streamId`, under `peerId` for `subscriber_answer` and `streamId` otherwise, and a `mess` object. No events unless `data` is an object with string `type`, `streamId`, `clientId`, `erizoId`, `agentId`. `started` gives two: `mess` is `{type: initializing, agentId, erizoId}` from the message, then `{type: started}`. An answer gives one event exactly when `sdp` is a string: `mess` is `{type: answer, sdp}` with the message's `sdp`, plus the message's `erizoId` for `subscriber_answer`. Other types give none |
| RoomController.SignalEventCount | erizo_controller_cpp/core/erizo_controller.cpp:163-230 | at most two events: two exactly for `started`, one exactly for an answer with a string `sdp` |
| RoomController.OnSignalingMessage | erizo_controller_cpp/core/erizo_controller.cpp:136-246 | every translated event is sent, in order, to the client the message names |
| AgentController.DiscoveryData | erizo_controller_cpp/erizo_controller/erizo_controller.cpp:217-230 | a discovery reply is accepted exactly when `data` is an object with a string `id` and a string `ip` |
| AgentController.Refreshed | erizo_controller_cpp/erizo_controller/erizo_controller.cpp:215-233 | a rejected reply leaves the directory unchanged; an accepted one inserts or overwrites `{id, ip, 0}` under `id` and leaves every other entry as it was |
| AgentController.Swept | erizo_controller_cpp/erizo_controller/erizo_controller.cpp:97-107 | an entry survives a sweep exactly when its incremented timeout is at most 3; survivors keep id and ip and their timeout goes up by exactly 1 |
| AgentController.StepsKeepHealthy | erizo_controller_cpp/erizo_controller/erizo_controller.cpp:97-107 | refresh and sweep keep every entry under its own id with timeout in 0..3 |
| AgentController.AgentDirectory.Refresh | erizo_controller_cpp/erizo_controller/erizo_controller.cpp:215-233 | the map after `getErizoAgents` is the refreshed map, and stays healthy |
| AgentController.AgentDirectory.OnBroadcast | erizo_controller_cpp/erizo_controller/erizo_controller.cpp:56-76 | only a parsed message whose `method` is the string `getErizoAgents` refreshes the directory |
| AgentController.AgentDirectory.Sweep | erizo_controller_cpp/erizo_controller/erizo_controller.cpp:95-108 | the in-place loop over the entries leaves the swept map, and the directory stays healthy |
| AgentController.Unrefreshed | erizo_controller_cpp/erizo_controller/erizo_controller.cpp:97-107 | an entry no reply refreshes ages by one per sweep and is present exactly while its age stays at most 3 |
| AgentController.EvictedOnFourthSweep | erizo_controller_cpp/erizo_controller/erizo_controller.cpp:97-107 | after a discovery reply from an agent, with no later reply from it, the entry survives up to three sweeps and is gone after the fourth |
| AgentController.NeverEvicted | erizo_controller_cpp/erizo_controller/erizo_controller.cpp:97-107 | an agent that answers between every two sweeps is never evicted |
| AgentController.TokenReply | erizo_controller_cpp/erizo_controller/erizo_controller.cpp:181-202 | the reply is `["success", data]` with room `00000`, the fresh client id, and an empty `streams` array |
| AgentController.FirstIndex | erizo_controller_cpp/erizo_controller/erizo_controller.cpp:136 | the position of the first `[`, with none before it |
| AgentController.AckText | erizo_controller_cpp/erizo_controller/erizo_controller.cpp:140 | `substr(2, pos)` is a prefix of the text after index 2, of at most `pos` characters, that reaches past the ack digits to the first `[` |
| AgentController.AckIdReadsBack | erizo_controller_cpp/erizo_controller/erizo_controller.cpp:140-174 | the ack id written back is read by `stoi` as the same number that was read from the packet |
| AgentController.HandleEvent | erizo_controller_cpp/erizo_controller/erizo_controller.cpp:131-179 | fails exactly when the text from the first `[` is not an array of exactly `[string, object]`; every reply starts with `43` |
| AgentController.AckIdEchoed | erizo_controller_cpp/erizo_controller/erizo_controller.cpp:136-176 | a packet `42<id>[...]` with `id` the decimal text of a number is answered by `43<id>` followed by the event's output |
| AgentController.AckIdOfDigits | erizo_controller_cpp/erizo_controller/erizo_controller.cpp:136-174 | the ack id of `42<digits>[...]` is the value of the digits, written in decimal |
| AgentController.AckIdNormalised | erizo_controller_cpp/erizo_controller/erizo_controller.cpp:136-176 | for any digit run as the ack id (leading zeros allowed) within the 32-bit range, the reply echoes the number it spells, written without leading zeros |
| AgentController.CanonicalAckIdEchoed | erizo_controller_cpp/erizo_controller/erizo_controller.cpp:136-176 | an ack id without leading zeros is echoed character for character |
| AgentController.NoAckId | erizo_controller_cpp/erizo_controller/erizo_controller.cpp:136-176 | with the `[` at index 2 or earlier, the reply is `43` followed by the event's output |
| AgentController.OnlyTokenAnswers | erizo_controller_cpp/erizo_controller/erizo_controller.cpp:163-175 | only a `token` event puts output after the ack id; that output is the written token reply |

## Left out

- Broker, database and socket plumbing are not modelled: AMQP clients, the Redis helper, the Socket.IO and websocket servers, every `init` and `close`. RPC replies, Redis outcomes and parsed texts are inputs; requests and deliveries are returned.
- Concurrency is not modelled: the `callback_done` spin-wait (one attempt consumes one reply), `asyncTask` and the thread pool, the keep-alive thread with its `run_` flag and 500 ms sleep, and the lock. The keep-alive loop takes a lock-named local and no lock; refresh and sweep are atomic steps here.
- The order in which the sweep visits entries is not modelled; the resulting map does not depend on it.
- The broadcast `getErizoAgents` request the keep-alive loop publishes (erizo_controller/erizo_controller.cpp:87-93) is output only and is left out.
- `thread/thread_pool.h` holds declarations only and is not part of this model.
- `getUUID`, `getCurrentMs` and `initPath` (random UUIDs, the clock, `/proc` and `popen`) are not modelled; the UUID is a parameter.
- JSON text is not modelled: the reader and the writer are an `Option<Value>` input or a function parameter.
- A jsoncpp `isMember`, or a non-const `operator[]` with a string key, on a value that is neither an object nor null throws; the model reads such a member as absent (`Json.Get` gives null), which gives the rejection path instead of the exception.
- AgentController.AgentDirectory.OnBroadcast: a broadcast whose text parses to an array, a string, a number or a boolean (for example `[1]`) makes `root["method"]` throw in erizo_controller/erizo_controller.cpp:64; the model leaves the directory unchanged for it, as for a message without a `method`, and does not model the exception escaping the consumer callback.
- RoomController.ReplyCode: a `ret` outside the 32-bit range, on which `asInt()` throws, is taken as its value and so as failure.
- AgentController.HandleEvent: requires a `[` in the message (without one `substr` throws). When the `[` is after index 2 it also requires an integer in the 32-bit range where `stoi` reads, since `stoi` throws otherwise.
- `handleToken` in erizo_controller/erizo_controller.cpp also pushes the client id to Redis and reads the list back; the result does not affect the reply, and that write is left out.
- The Redis helper's own bodies are not part of this model: `Store.RoomStore` keeps a room → publisher list and a room → client list and reads a success flag per command.
- `getErizo`'s failure branch in `handlePublish` cannot be taken, because the stub always returns 0; it is not modelled.
- `handleSubscribe` leaves `is_bridge` uninitialised; the value it happens to hold is an input (`Oracle.bridgeBit`).
- `onClose` is empty and is not modelled; no disconnect transition exists.
- Commented-out code is not modelled: the real `getErizo` RPC, the websocket senders and `notifyNewPublisher`.
- Header-only declarations without bodies are not modelled, such as `allocAgent`, `removeClient` and `notifyToSubscribe`.
- Logging is not modelled.

## Findings

| source | as written | input that shows it | evidently intended | confidence | as-written member | corrected member |
|---|---|---|---|---|---|---|
| erizo_controller_cpp/core/erizo_controller.h:57 | `fromJSON` requires `last_update` to be typed `uintValue`, but jsoncpp's reader types every non-negative number up to 2^31 - 1 as `intValue` | the heartbeat `{"id":"controller","last_update":1000}` written by `toJSON` is rejected by `fromJSON` | accept any non-negative integer in the 64-bit range, so that `fromJSON(toJSON(h))` gives `h` back | medium, not executed (rests on jsoncpp's documented number typing) | Heartbeat.SmallTimestampRejected | Heartbeat.RoundTripAnyTyping |
