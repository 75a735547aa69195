/**
 * The persistent room directory the controller reaches through its Redis
 * helper.  The helper's own code is not part of this model: the directory
 * is an abstract map from room to its publishers in insertion order and
 * from room to its client ids, and every command takes an input saying
 * whether the store answered (`reachable`).  A command that fails changes
 * nothing.
 */
module Store {
  import opened Wrappers
  import opened Session

  /** The first publisher of `list` whose id is `streamId`. */
  function Find(list: seq<Publisher>, streamId: string): (r: Option<Publisher>)
    ensures r.Some? ==> r.value in list && r.value.id == streamId
    ensures r.None? <==> forall i :: 0 <= i < |list| ==> list[i].id != streamId
    ensures r.Some? ==> exists i :: 0 <= i < |list| && list[i] == r.value &&
                                    forall j :: 0 <= j < i ==> list[j].id != streamId
  {
    if list == [] then None
    else if list[0].id == streamId then Some(list[0])
    else
      var r := Find(list[1..], streamId);
      assert r.Some? ==> exists i :: 0 <= i < |list| && list[i] == r.value &&
                                     forall j :: 0 <= j < i ==> list[j].id != streamId by {
        if r.Some? {
          var i :| 0 <= i < |list[1..]| && list[1..][i] == r.value &&
                   forall j :: 0 <= j < i ==> list[1..][j].id != streamId;
          assert list[i + 1] == r.value;
          forall j | 0 <= j < i + 1 ensures list[j].id != streamId {
            if j > 0 {
              assert list[j] == list[1..][j - 1];
            }
          }
        }
      }
      r
  }

  class RoomStore {
    var publishers: map<string, seq<Publisher>>
    var clients: map<string, seq<string>>

    constructor ()
      ensures publishers == map[] && clients == map[]
    {
      publishers, clients := map[], map[];
    }

    /** The publishers recorded for `room`, none for an unknown room. */
    function PublishersIn(room: string): seq<Publisher>
      reads this
    {
      if room in publishers then publishers[room] else []
    }

    function ClientsIn(room: string): seq<string>
      reads this
    {
      if room in clients then clients[room] else []
    }

    /** `getPublisher(room, streamId, publisher)`: fails (None) when the
        store does not answer or the room has no such publisher. */
    function Lookup(room: string, streamId: string, reachable: bool): (r: Option<Publisher>)
      reads this
      ensures r.Some? <==> reachable && exists i :: 0 <= i < |PublishersIn(room)| && PublishersIn(room)[i].id == streamId
      ensures r.Some? ==> r.value in PublishersIn(room) && r.value.id == streamId
    {
      if reachable then Find(PublishersIn(room), streamId) else None
    }

    /** `addClient(room, clientId)`; 0 on success. */
    method AddClient(room: string, clientId: string, reachable: bool) returns (ret: int)
      modifies this
      ensures ret == 0 <==> reachable
      ensures publishers == old(publishers)
      ensures clients == if reachable then old(clients)[room := old(ClientsIn(room)) + [clientId]] else old(clients)
    {
      if !reachable {
        return 1;
      }
      clients := clients[room := ClientsIn(room) + [clientId]];
      return 0;
    }

    /** `addPublisher(room, publisher)`; 0 on success. */
    method AddPublisher(room: string, p: Publisher, reachable: bool) returns (ret: int)
      modifies this
      ensures ret == 0 <==> reachable
      ensures clients == old(clients)
      ensures publishers == if reachable then old(publishers)[room := old(PublishersIn(room)) + [p]] else old(publishers)
    {
      if !reachable {
        return 1;
      }
      publishers := publishers[room := PublishersIn(room) + [p]];
      return 0;
    }
  }
}
