/** The network fabric of internal/network/network.go: a registry of nodes and,
    per node, a fan-out worker that copies each outbound message to every
    registered neighbour unless a random draw drops it. */
module Fabric {
  import opened Common
  import opened Ws
  import opened Mesh

  /** The events of one fan-out, in order, and the neighbours it delivered to, in order. */
  datatype FanOut = FanOut(events: seq<Event>, targets: seq<NodeId>)

  /** The fan-out of `msg` from `from` over the first `k` neighbours; `draws[p]`
      is the random value drawn when neighbour `p` is visited. */
  function Fan(from: NodeId, neighbors: seq<NodeId>, registered: set<NodeId>, msg: Message,
               dropRate: real, draws: seq<real>, now: int, k: nat): FanOut
    requires k <= |neighbors| && k <= |draws|
    decreases k
  {
    if k == 0 then FanOut([], [])
    else
      var f := Fan(from, neighbors, registered, msg, dropRate, draws, now, k - 1);
      var id := neighbors[k - 1];
      if id !in registered then f
      else if draws[k - 1] < dropRate then
        FanOut(f.events + [Event(DroppedNetwork, from, id, msg.ttl, map[], now)], f.targets)
      else
        FanOut(f.events + [Event(Delivered, from, id, msg.ttl, map[], now)], f.targets + [id])
  }

  /** The positions below `k` whose neighbour is registered, in list order. */
  function Visited(neighbors: seq<NodeId>, registered: set<NodeId>, k: nat): (ps: seq<nat>)
    requires k <= |neighbors|
    ensures forall i :: 0 <= i < |ps| ==> ps[i] < k && neighbors[ps[i]] in registered
    decreases k
  {
    if k == 0 then []
    else
      var ps := Visited(neighbors, registered, k - 1);
      if neighbors[k - 1] in registered then ps + [k - 1] else ps
  }

  /** The recipients named by the `delivered` events of `evs`, in order. */
  function Recipients(evs: seq<Event>): seq<NodeId>
  {
    if evs == [] then []
    else Recipients(evs[..|evs| - 1])
         + (if evs[|evs| - 1].kind == Delivered then [evs[|evs| - 1].to] else [])
  }

  /** `n` copies of `msg`. */
  function Copies(msg: Message, n: nat): (s: seq<Message>)
    ensures |s| == n && forall i :: 0 <= i < n ==> s[i] == msg
  {
    seq(n, _ => msg)
  }

  /** Every registered neighbour, in list order, gets exactly one event, which is
      `dropped_network` when its draw is below the drop rate and `delivered`
      otherwise; an unregistered neighbour gets none. Every event carries the
      sender, that neighbour and the message's unchanged TTL, and the message
      is enqueued exactly for the `delivered` events, in the same order. */
  lemma {:induction false} FanEvents(from: NodeId, neighbors: seq<NodeId>, registered: set<NodeId>,
                                     msg: Message, dropRate: real, draws: seq<real>, now: int, k: nat)
    requires k <= |neighbors| && k <= |draws|
    ensures var f := Fan(from, neighbors, registered, msg, dropRate, draws, now, k);
            var ps := Visited(neighbors, registered, k);
            && |f.events| == |ps|
            && (forall i :: 0 <= i < |ps| ==>
                  f.events[i] == Event(if draws[ps[i]] < dropRate then DroppedNetwork else Delivered,
                                       from, neighbors[ps[i]], msg.ttl, map[], now))
            && f.targets == Recipients(f.events)
    decreases k
  {
    if k > 0 {
      FanEvents(from, neighbors, registered, msg, dropRate, draws, now, k - 1);
      var f := Fan(from, neighbors, registered, msg, dropRate, draws, now, k - 1);
      var g := Fan(from, neighbors, registered, msg, dropRate, draws, now, k);
      if neighbors[k - 1] in registered {
        assert g.events[..|g.events| - 1] == f.events;
      }
    }
  }

  /** With draws in [0, 1): drop rate 0 never drops, so every registered
      neighbour is delivered to; drop rate 1 always drops and delivers nothing. */
  lemma {:induction false} FanExtremes(from: NodeId, neighbors: seq<NodeId>, registered: set<NodeId>,
                                       msg: Message, dropRate: real, draws: seq<real>, now: int, k: nat)
    requires k <= |neighbors| && k <= |draws|
    requires forall p :: 0 <= p < k ==> 0.0 <= draws[p] < 1.0
    ensures var f := Fan(from, neighbors, registered, msg, dropRate, draws, now, k);
            && (dropRate == 0.0 ==>
                  |f.targets| == |f.events| && forall e :: e in f.events ==> e.kind == Delivered)
            && (dropRate == 1.0 ==>
                  f.targets == [] && forall e :: e in f.events ==> e.kind == DroppedNetwork)
    decreases k
  {
    if k > 0 {
      FanExtremes(from, neighbors, registered, msg, dropRate, draws, now, k - 1);
    }
  }

  /** The node registry and the drop rate of one simulation. */
  class Network {
    var nodes: map<NodeId, Node>
    const dropRate: real
    const hub: Hub

    /** Each node is registered under its own id. */
    ghost predicate Valid()
      reads this
    {
      forall id :: id in nodes ==> nodes[id].id == id
    }

    /** NewNetwork: an empty registry with the given drop rate. */
    constructor (dropRate: real, hub: Hub)
      ensures Valid()
      ensures nodes == map[] && this.dropRate == dropRate && this.hub == hub
    {
      nodes := map[];
      this.dropRate := dropRate;
      this.hub := hub;
    }

    /** AddNode registers `n` under its id, replacing any node registered there. */
    method AddNode(n: Node)
      requires Valid()
      modifies this`nodes
      ensures Valid()
      ensures nodes == old(nodes)[n.id := n]
      ensures forall id :: id in old(nodes) && id != n.id ==> id in nodes && nodes[id] == old(nodes)[id]
    {
      nodes := nodes[n.id := n];
    }

    /** Teardown before a new simulation: no node is registered any more. */
    method Shutdown()
      modifies this`nodes
      ensures Valid()
      ensures nodes == map[]
    {
      nodes := map[];
    }

    /** One iteration of `sender`'s fan-out worker: take the oldest outbound
        message and fan it out over the sender's neighbour list; `draws[p]` is
        the random value drawn when neighbour `p` is visited. */
    method Pump(sender: Node, draws: seq<real>, now: int) returns (pumped: bool)
      requires Valid()
      requires |draws| == |sender.neighbors|
      // a delivery into a closed inbound queue panics
      requires forall k :: 0 <= k < |sender.neighbors| && sender.neighbors[k] in nodes && !(draws[k] < dropRate) ==>
        !nodes[sender.neighbors[k]].inboundClosed
      modifies sender`outbound, nodes.Values`inbound, hub`broadcast
      ensures pumped == (old(sender.outbound) != [])
      ensures !pumped ==> sender.outbound == old(sender.outbound) && hub.broadcast == old(hub.broadcast)
      ensures !pumped ==> forall id :: id in nodes ==> nodes[id].inbound == old(nodes[id].inbound)
      ensures pumped ==>
        var msg := old(sender.outbound)[0];
        var f := Fan(sender.id, sender.neighbors, nodes.Keys, msg, dropRate, draws, now, |sender.neighbors|);
        && sender.outbound == old(sender.outbound)[1..]
        && hub.broadcast == old(hub.broadcast) + f.events
        && forall id :: id in nodes ==>
             nodes[id].inbound == old(nodes[id].inbound) + Copies(msg, multiset(f.targets)[id])
    {
      if sender.outbound == [] {
        return false;
      }
      pumped := true;
      var msg := sender.outbound[0];
      sender.outbound := sender.outbound[1..];
      var k := 0;
      while k < |sender.neighbors|
        invariant 0 <= k <= |sender.neighbors|
        invariant sender.outbound == old(sender.outbound)[1..]
        invariant hub.broadcast
               == old(hub.broadcast) + Fan(sender.id, sender.neighbors, nodes.Keys, msg, dropRate, draws, now, k).events
        invariant forall id :: id in nodes ==>
          nodes[id].inbound == old(nodes[id].inbound)
            + Copies(msg, multiset(Fan(sender.id, sender.neighbors, nodes.Keys, msg, dropRate, draws, now, k).targets)[id])
      {
        var neighborId := sender.neighbors[k];
        if neighborId in nodes {
          var target := nodes[neighborId];
          if draws[k] < dropRate {
            hub.BroadcastEvent(Event(DroppedNetwork, sender.id, neighborId, msg.ttl, map[], now));
          } else {
            hub.BroadcastEvent(Event(Delivered, sender.id, neighborId, msg.ttl, map[], now));
            ghost var n := multiset(Fan(sender.id, sender.neighbors, nodes.Keys, msg, dropRate, draws, now, k).targets)[neighborId];
            assert Copies(msg, n + 1) == Copies(msg, n) + [msg];
            target.inbound := target.inbound + [msg];
          }
        }
        k := k + 1;
      }
    }
  }
}
