/** The event hub of internal/ws/hub.go: the simulation hands events to the hub,
    whose single dispatch loop copies each one into the bounded send queue of
    every connected observer, evicting observers whose queue is full. */
module Ws {
  import opened Common

  /** Capacity of an observer's send queue (`make(chan Event, 256)` in ServeWS). */
  const SendCapacity: nat := 256

  /** Capacity of the hub's broadcast buffer (`make(chan Event, 256)` in NewHub). */
  const BroadcastCapacity: nat := 256

  /** The seven event types of the simulation. */
  datatype EventType = Received | DroppedTtl | Decrypted | DecryptFailed | Forwarded | DroppedNetwork | Delivered
  {
    /** The `type` string the event carries on the wire. */
    function Name(): string
    {
      match this
      case Received => "received"
      case DroppedTtl => "dropped_ttl"
      case Decrypted => "decrypted"
      case DecryptFailed => "decrypt_failed"
      case Forwarded => "forwarded"
      case DroppedNetwork => "dropped_network"
      case Delivered => "delivered"
    }
  }

  /** An event; the payload's values are all strings in this program. */
  datatype Event = Event(kind: EventType, from: NodeId, to: NodeId, ttl: int,
                         payload: map<string, string>, timestamp: int)

  /** Distinct event types have distinct wire names. */
  lemma NamesDistinct(a: EventType, b: EventType)
    requires a != b
    ensures a.Name() != b.Name()
  {
  }

  /** One connected observer (the `client` struct) with its bounded send queue. */
  class Client {
    var send: seq<Event>
    var closed: bool
    /** Every event ever put into `send` since registration (consumed ones included). */
    ghost var delivered: seq<Event>
    /** Length of the hub's dispatch log when this client registered. */
    ghost var joined: nat

    ghost predicate Valid()
      reads this
    {
      |send| <= SendCapacity && IsSuffix(send, delivered)
    }

    /** A fresh client, as ServeWS creates it: an empty, open send queue. */
    constructor ()
      ensures Valid()
      ensures send == [] && !closed && delivered == []
    {
      send := [];
      closed := false;
      delivered := [];
      joined := 0;
    }

    /** The writer side takes the oldest queued event; `None` when the queue is empty. */
    method Take() returns (ev: Option<Event>)
      requires Valid()
      modifies this`send
      ensures Valid()
      ensures old(send) == [] ==> ev == None && send == []
      ensures old(send) != [] ==> ev == Some(old(send)[0]) && send == old(send)[1..]
    {
      if send == [] {
        ev := None;
      } else {
        ev := Some(send[0]);
        send := send[1..];
      }
    }

    /** One iteration of the broadcast loop for this client: a non-blocking send
        that appends when the queue has room and otherwise closes the queue. */
    method Offer(ev: Event) returns (kept: bool)
      requires Valid()
      requires !closed  // a send on a closed channel panics, even inside a select
      modifies this`send, this`delivered, this`closed
      ensures kept == (|old(send)| < SendCapacity)
      ensures Offered(this, old(send), old(delivered), old(closed), ev)
    {
      kept := |send| < SendCapacity;
      if kept {
        send := send + [ev];
        delivered := delivered + [ev];
      } else {
        closed := true;
      }
    }
  }

  class Hub {
    /** The registered clients (the keys of `clients map[*client]bool`). */
    var clients: set<Client>
    /** Events handed to BroadcastEvent and not yet dispatched, oldest first. */
    var broadcast: seq<Event>
    /** Every event dispatched so far, in dispatch order. */
    ghost var log: seq<Event>

    /** Every registered client is open, within its bound, and has received
        exactly the dispatch log from the moment it registered. */
    ghost predicate Valid()
      reads this, clients
    {
      forall c :: c in clients ==>
        c.Valid() && !c.closed && c.joined <= |log| && c.delivered == log[c.joined..]
    }

    constructor ()
      ensures Valid()
      ensures clients == {} && broadcast == [] && log == []
    {
      clients := {};
      broadcast := [];
      log := [];
    }

    /** Hands an event to the dispatch loop. */
    method BroadcastEvent(ev: Event)
      modifies this`broadcast
      ensures broadcast == old(broadcast) + [ev]
    {
      broadcast := broadcast + [ev];
    }

    /** The register case of Run: the client joins the set; a client already
        registered is left as it is. */
    method Register(c: Client)
      requires Valid()
      requires c in clients || (c.send == [] && !c.closed)
      modifies this`clients, c`delivered, c`joined
      ensures Valid()
      ensures clients == old(clients) + {c}
      ensures broadcast == old(broadcast) && log == old(log)
      ensures c.send == old(c.send) && c.closed == old(c.closed)
    {
      if c !in clients {
        c.delivered := [];
        c.joined := |log|;
        clients := clients + {c};
      }
    }

    /** The unregister case of Run: a registered client is removed and its queue
        closed; any other client is ignored, so a second call changes nothing. */
    method Unregister(c: Client)
      requires Valid()
      modifies this`clients, c`closed
      ensures Valid()
      ensures clients == old(clients) - {c}
      ensures c.closed == (old(c.closed) || c in old(clients))
      ensures c !in old(clients) ==> clients == old(clients) && c.closed == old(c.closed)
      ensures broadcast == old(broadcast) && log == old(log)
    {
      if c in clients {
        clients := clients - {c};
        c.closed := true;
      }
    }

    /** The broadcast case of Run: the oldest pending event goes to every client
        with room in its queue; every client whose queue is full is closed and
        removed. Nothing happens when no event is pending. */
    method Dispatch() returns (dispatched: bool)
      requires Valid()
      modifies this`clients, this`broadcast, this`log, clients
      ensures Valid()
      ensures dispatched == (old(broadcast) != [])
      ensures log + broadcast == old(log + broadcast)
      ensures !dispatched ==> log == old(log) && clients == old(clients)
      ensures !dispatched ==> forall c :: c in old(clients) ==> c.send == old(c.send) && c.closed == old(c.closed)
      ensures dispatched ==> log == old(log) + [old(broadcast)[0]]
      ensures dispatched ==> forall c :: c in clients <==> c in old(clients) && |old(c.send)| < SendCapacity
      ensures dispatched ==> forall c :: c in old(clients) ==>
        Offered(c, old(c.send), old(c.delivered), false, old(broadcast)[0])
    {
      if broadcast == [] {
        return false;
      }
      dispatched := true;
      var ev := broadcast[0];
      broadcast := broadcast[1..];
      log := log + [ev];
      var pending := clients;
      while pending != {}
        invariant pending <= old(clients)
        invariant log == old(log) + [ev] && broadcast == old(broadcast)[1..]
        invariant forall c :: c in clients <==> c in old(clients) && (c in pending || |old(c.send)| < SendCapacity)
        invariant forall c :: c in old(clients) ==> c.joined == old(c.joined)
        invariant forall c :: c in pending ==>
          c.send == old(c.send) && c.closed == old(c.closed) && c.delivered == old(c.delivered)
        invariant forall c :: c in old(clients) - pending ==> Offered(c, old(c.send), old(c.delivered), false, ev)
        decreases pending
      {
        var c :| c in pending;
        var kept := c.Offer(ev);
        if !kept {
          clients := clients - {c};
        }
        pending := pending - {c};
      }
      assert log + broadcast == old(log) + ([ev] + broadcast);
      forall c | c in clients
        ensures c.Valid() && !c.closed && c.joined <= |log| && c.delivered == log[c.joined..]
      {
        assert old(c.delivered) == old(log)[c.joined..];
        assert log[c.joined..] == old(log)[c.joined..] + [ev];
      }
    }
  }

  /** What Dispatch leaves in a client that held `send` and had received
      `delivered`: the event appended when there was room, else the client closed. */
  ghost predicate Offered(c: Client, send: seq<Event>, delivered: seq<Event>, closed: bool, ev: Event)
    reads c
  {
    if |send| < SendCapacity
    then c.send == send + [ev] && c.delivered == delivered + [ev] && c.closed == closed && c.Valid()
    else c.send == send && c.delivered == delivered && c.closed
  }

  /** Two registered clients have received the same dispatch log from the
      moment each joined, so one's history is a suffix of the other's: no two
      observers see two events in different relative order. */
  lemma SameRelativeOrder(h: Hub, c1: Client, c2: Client)
    requires h.Valid() && c1 in h.clients && c2 in h.clients
    ensures IsSuffix(c1.delivered, c2.delivered) || IsSuffix(c2.delivered, c1.delivered)
  {
    var l := h.log;
    if c1.joined <= c2.joined {
      assert c2.delivered == c1.delivered[c2.joined - c1.joined..];
    } else {
      assert c1.delivered == c2.delivered[c1.joined - c2.joined..];
    }
  }
}
