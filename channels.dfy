/** The backend's registry of client sockets (backend/src/services/slides/generator.ts:13-28):
    a process-wide map from a job id to the socket that subscribed to it, with
    best-effort delivery of events to that socket. */
module Channels {
  import opened Protocol

  /** The WebSocket `readyState` of an open connection. */
  const Open := 1

  /** A client's socket: its connection state and the events it has been sent,
      oldest first. */
  class Socket {
    var readyState: int
    var sent: seq<Event>

    constructor (readyState: int)
      ensures this.readyState == readyState && sent == []
    {
      this.readyState := readyState;
      sent := [];
    }

    /** `ws.send(JSON.stringify(event))`. */
    method Send(ev: Event)
      modifies this
      ensures sent == old(sent) + [ev]
      ensures readyState == old(readyState)
    {
      sent := sent + [ev];
    }
  }

  class ClientRegistry {
    var clients: map<string, Socket>

    constructor ()
      ensures clients == map[]
    {
      clients := map[];
    }

    /** The socket bound to `slidesId`, as a frame: at most one object. */
    function Bound(slidesId: string): set<Socket>
      reads this
    {
      if slidesId in clients then {clients[slidesId]} else {}
    }

    /** The `readyState` of the socket bound to `slidesId`, if any. */
    function Status(slidesId: string): Option<int>
      reads this, Bound(slidesId)
    {
      if slidesId in clients then Some(clients[slidesId].readyState) else None
    }

    /** An event for `slidesId` reaches a client only when a socket is bound and open. */
    predicate Delivers(slidesId: string)
      reads this, Bound(slidesId)
    {
      Status(slidesId) == Some(Open)
    }

    /** What the socket bound to `slidesId` has received so far (nothing when unbound). */
    function Log(slidesId: string): seq<Event>
      reads this, Bound(slidesId)
    {
      if slidesId in clients then clients[slidesId].sent else []
    }

    /** Binds `ws` to `slidesId`, replacing any earlier binding; every other
        binding stays as it was. */
    method RegisterClient(slidesId: string, ws: Socket)
      modifies this
      ensures clients == old(clients)[slidesId := ws]
      ensures slidesId in clients && clients[slidesId] == ws
      ensures forall id | id != slidesId :: (id in clients <==> id in old(clients))
      ensures forall id | id != slidesId && id in clients :: clients[id] == old(clients)[id]
    {
      clients := clients[slidesId := ws];
    }

    /** Removes the binding of `slidesId` and nothing else; on an unbound id the
        registry is unchanged. */
    method UnregisterClient(slidesId: string)
      modifies this
      ensures clients == old(clients) - {slidesId}
      ensures slidesId !in clients
      ensures slidesId !in old(clients) ==> clients == old(clients)
    {
      clients := clients - {slidesId};
    }

    /** Best-effort push: the bound socket receives `ev` when it is open; otherwise
        the event is dropped. Nothing is queued: the registry itself is unchanged,
        so a socket that is bound or opened later never sees the event. */
    method SendEvent(slidesId: string, ev: Event)
      modifies Bound(slidesId)
      ensures clients == old(clients)
      ensures Status(slidesId) == old(Status(slidesId))
      ensures Log(slidesId) == old(Log(slidesId)) + (if old(Delivers(slidesId)) then [ev] else [])
    {
      if slidesId in clients {
        var ws := clients[slidesId];
        if ws.readyState == Open {
          ws.Send(ev);
        }
      }
    }
  }
}
