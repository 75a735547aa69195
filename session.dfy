/**
 * The per-connection session records the controller mutates: a `Client`
 * owns the publishers and subscribers it created.  The headers declaring
 * them are not part of this model; the fields are the ones the controller
 * reads and writes.
 */
module Session {
  import opened SubscriberModel

  datatype Publisher = Publisher(id: string, erizoId: string, agentId: string, streamLabel: string)

  /** One client connection's state, updated in place by the event handlers. */
  class Client {
    var id: string
    var roomId: string
    var agentId: string
    var erizoId: string
    var publishers: seq<Publisher>
    var subscribers: seq<Subscriber>

    /** A fresh connection: only its id is set. */
    constructor (id: string)
      ensures this.id == id
      ensures roomId == "" && agentId == "" && erizoId == ""
      ensures publishers == [] && subscribers == []
    {
      this.id := id;
      roomId, agentId, erizoId := "", "", "";
      publishers, subscribers := [], [];
    }
  }
}
