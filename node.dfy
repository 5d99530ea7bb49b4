/** The node actor of internal/node/node.go: one mesh participant that takes
    messages from its inbound queue, drops expired ones, decrypts the ones
    addressed to it and forwards the rest with one hop less. */
module Mesh {
  import opened Common
  import opened Ws

  /** Capacity of a node's inbound and outbound queues (`make(chan Message, 10)`). */
  const QueueCapacity: nat := 10

  /** The error text carried by a `decrypt_failed` event. */
  const DecryptFailure: string := "decryption failed"

  /** An encrypted packet; `ttl` is the number of hops it may still be forwarded. */
  datatype Message = Message(from: NodeId, to: NodeId, ttl: int, timestamp: int,
                             cipher: Bytes, nonce: Bytes)

  /** Authenticated decryption (`box.Open`): ciphertext, nonce, sender public key,
      recipient private key; `None` when the tag does not verify. */
  type Opener = (Bytes, Bytes, Bytes, Bytes) -> Option<string>

  /** The effect of processing one message: the events it emits, in order, and
      the message it puts on the outbound queue, if any. */
  datatype Step = Step(events: seq<Event>, out: Option<Message>)

  /** Copying a key's bytes into a 32-byte array: extra bytes are cut off and
      missing ones stay zero (a missing map entry is the empty slice). */
  function Key32(b: Bytes): (k: Bytes)
    ensures |k| == 32
    ensures forall i :: 0 <= i < 32 ==> k[i] == if i < |b| then b[i] else 0
  {
    if |b| >= 32 then b[..32] else b + seq(32 - |b|, _ => 0)
  }

  /** The public key a node uses for the sender of `msg`. */
  function SenderKey(keys: map<NodeId, Bytes>, from: NodeId): Bytes
  {
    Key32(if from in keys then keys[from] else [])
  }

  /** The decision rule for one dequeued message at node `self`. */
  function Handle(self: NodeId, keys: map<NodeId, Bytes>, priv: Bytes, open: Opener,
                  msg: Message, now: int): (s: Step)
    ensures |s.events| == 2
    ensures s.events[0] == Event(Received, msg.from, self, msg.ttl, map[], now)
    ensures s.events[1].timestamp == now
    ensures s.events[1].kind == DroppedTtl <==> msg.ttl <= 0
    ensures s.events[1].kind in {Decrypted, DecryptFailed} <==> msg.ttl > 0 && msg.to == self
    ensures s.events[1].kind == Forwarded <==> msg.ttl > 0 && msg.to != self
    ensures s.out.Some? <==> s.events[1].kind == Forwarded
    ensures s.out.Some? ==> s.out.value == msg.(ttl := msg.ttl - 1) && s.out.value.ttl >= 0
    ensures s.events[1].kind == Forwarded ==>
      s.events[1] == Event(Forwarded, self, "", msg.ttl - 1, map[], now)
    ensures s.events[1].kind != Forwarded ==>
      s.events[1].from == msg.from && s.events[1].to == self && s.events[1].ttl == msg.ttl
    ensures s.events[1].kind == DroppedTtl ==> s.events[1].payload == map[]
    ensures s.events[1].kind == Decrypted <==>
      msg.ttl > 0 && msg.to == self && open(msg.cipher, msg.nonce, SenderKey(keys, msg.from), priv).Some?
    ensures s.events[1].kind == Decrypted ==>
      s.events[1].payload == map["plaintext" := open(msg.cipher, msg.nonce, SenderKey(keys, msg.from), priv).value]
    ensures s.events[1].kind == DecryptFailed ==> s.events[1].payload == map["error" := DecryptFailure]
  {
    var received := Event(Received, msg.from, self, msg.ttl, map[], now);
    if msg.ttl <= 0 then
      Step([received, Event(DroppedTtl, msg.from, self, msg.ttl, map[], now)], None)
    else if msg.to == self then
      match open(msg.cipher, msg.nonce, SenderKey(keys, msg.from), priv)
      case Some(text) =>
        Step([received, Event(Decrypted, msg.from, self, msg.ttl, map["plaintext" := text], now)], None)
      case None =>
        Step([received, Event(DecryptFailed, msg.from, self, msg.ttl, map["error" := DecryptFailure], now)], None)
    else
      var fwd := msg.(ttl := msg.ttl - 1);
      Step([received, Event(Forwarded, self, "", fwd.ttl, map[], now)], Some(fwd))
  }

  /** The events and forwarded messages of processing `msgs` in order. */
  datatype Batch = Batch(events: seq<Event>, out: seq<Message>)

  function OutSeq(o: Option<Message>): seq<Message>
  {
    if o.Some? then [o.value] else []
  }

  /** The batch of `x` followed by the batch of `y`. */
  function Then(x: Batch, y: Batch): Batch
  {
    Batch(x.events + y.events, x.out + y.out)
  }

  /** The batch of a single message. */
  function One(self: NodeId, keys: map<NodeId, Bytes>, priv: Bytes, open: Opener,
               m: Message, now: int): Batch
  {
    var s := Handle(self, keys, priv, open, m, now);
    Batch(s.events, OutSeq(s.out))
  }

  /** Processing the messages `msgs` one after another, first to last. */
  function Trace(self: NodeId, keys: map<NodeId, Bytes>, priv: Bytes, open: Opener,
                 msgs: seq<Message>, now: int): Batch
    decreases |msgs|
  {
    if msgs == [] then Batch([], [])
    else Then(One(self, keys, priv, open, msgs[0], now), Trace(self, keys, priv, open, msgs[1..], now))
  }

  /** Messages are handled in arrival order: processing `a` then `b` gives the
      events and forwarded messages of `a` followed by those of `b`. */
  lemma {:induction false} TraceAppend(self: NodeId, keys: map<NodeId, Bytes>, priv: Bytes,
                                       open: Opener, a: seq<Message>, b: seq<Message>, now: int)
    ensures Trace(self, keys, priv, open, a + b, now)
         == Then(Trace(self, keys, priv, open, a, now), Trace(self, keys, priv, open, b, now))
    decreases |a|
  {
    if a == [] {
      assert a + b == b;
    } else {
      assert (a + b)[0] == a[0];
      assert (a + b)[1..] == a[1..] + b;
      TraceAppend(self, keys, priv, open, a[1..], b, now);
      var x := One(self, keys, priv, open, a[0], now);
      var ta := Trace(self, keys, priv, open, a[1..], now);
      var tb := Trace(self, keys, priv, open, b, now);
      assert x.events + (ta.events + tb.events) == x.events + ta.events + tb.events;
      assert x.out + (ta.out + tb.out) == x.out + ta.out + tb.out;
    }
  }

  /** Processing one more message of `all` extends the trace of the prefix. */
  lemma TracePrefix(self: NodeId, keys: map<NodeId, Bytes>, priv: Bytes, open: Opener,
                    all: seq<Message>, k: nat, now: int)
    requires k < |all|
    ensures Trace(self, keys, priv, open, all[..k + 1], now)
         == Then(Trace(self, keys, priv, open, all[..k], now), One(self, keys, priv, open, all[k], now))
  {
    assert all[..k + 1] == all[..k] + [all[k]];
    TraceAppend(self, keys, priv, open, all[..k], [all[k]], now);
    var x := One(self, keys, priv, open, all[k], now);
    assert Trace(self, keys, priv, open, [all[k]], now) == Then(x, Batch([], []));
    assert x.events + [] == x.events && x.out + [] == x.out;
  }

  /** Two events per message, one at most forwarded message per message, and
      every forwarded message still has a non-negative TTL. */
  lemma {:induction false} TraceBounds(self: NodeId, keys: map<NodeId, Bytes>, priv: Bytes,
                                       open: Opener, msgs: seq<Message>, now: int)
    ensures |Trace(self, keys, priv, open, msgs, now).events| == 2 * |msgs|
    ensures |Trace(self, keys, priv, open, msgs, now).out| <= |msgs|
    ensures forall m :: m in Trace(self, keys, priv, open, msgs, now).out ==> m.ttl >= 0
    decreases |msgs|
  {
    if msgs != [] {
      TraceBounds(self, keys, priv, open, msgs[1..], now);
      var s := Handle(self, keys, priv, open, msgs[0], now);
      var t := Trace(self, keys, priv, open, msgs[1..], now);
      assert Trace(self, keys, priv, open, msgs, now).out == OutSeq(s.out) + t.out;
    }
  }

  /** For every message, the event pair it produces starts with `received` for
      that message at this node. */
  lemma {:induction false} TraceReceivedFirst(self: NodeId, keys: map<NodeId, Bytes>, priv: Bytes,
                                              open: Opener, msgs: seq<Message>, now: int, i: nat)
    requires i < |msgs|
    ensures |Trace(self, keys, priv, open, msgs, now).events| == 2 * |msgs|
    ensures Trace(self, keys, priv, open, msgs, now).events[2 * i]
         == Event(Received, msgs[i].from, self, msgs[i].ttl, map[], now)
    decreases |msgs|
  {
    TraceBounds(self, keys, priv, open, msgs, now);
    TraceBounds(self, keys, priv, open, msgs[1..], now);
    var s := Handle(self, keys, priv, open, msgs[0], now);
    var t := Trace(self, keys, priv, open, msgs[1..], now);
    assert Trace(self, keys, priv, open, msgs, now).events == s.events + t.events;
    if i > 0 {
      TraceReceivedFirst(self, keys, priv, open, msgs[1..], now, i - 1);
    }
  }

  /** A node: identity, neighbours and keys fixed at creation, two message queues. */
  class Node {
    const id: NodeId
    const neighbors: seq<NodeId>
    const publicKeys: map<NodeId, Bytes>
    const privateKey: Bytes
    const hub: Hub
    /** Declared capacity of both queues; see README for why it is not enforced. */
    const capacity: nat
    var inbound: seq<Message>
    var outbound: seq<Message>
    var inboundClosed: bool
    var outboundClosed: bool

    /** NewNode: the given identity and keys, and two empty open queues. */
    constructor (id: NodeId, neighbors: seq<NodeId>, publicKeys: map<NodeId, Bytes>,
                 privateKey: Bytes, hub: Hub)
      ensures this.id == id && this.neighbors == neighbors
      ensures this.publicKeys == publicKeys && this.privateKey == privateKey && this.hub == hub
      ensures capacity == QueueCapacity
      ensures inbound == [] && outbound == [] && !inboundClosed && !outboundClosed
    {
      this.id := id;
      this.neighbors := neighbors;
      this.publicKeys := publicKeys;
      this.privateKey := privateKey;
      this.hub := hub;
      capacity := QueueCapacity;
      inbound := [];
      outbound := [];
      inboundClosed := false;
      outboundClosed := false;
    }

    /** Stop closes the inbound queue (closing it twice would panic). */
    method Stop()
      requires !inboundClosed
      modifies this`inboundClosed
      ensures inboundClosed
    {
      inboundClosed := true;
    }

    /** One turn of the processing loop: with a message waiting, take it, emit
        its events to the hub and push what it forwards; with none waiting and
        the inbound queue closed, the loop ends and closes the outbound queue. */
    method Step(open: Opener, now: int) returns (processed: bool)
      modifies this`inbound, this`outbound, this`outboundClosed, hub`broadcast
      ensures processed == (old(inbound) != [])
      ensures processed ==>
        var s := One(id, publicKeys, privateKey, open, old(inbound)[0], now);
        && inbound == old(inbound)[1..]
        && outbound == old(outbound) + s.out
        && hub.broadcast == old(hub.broadcast) + s.events
        && outboundClosed == old(outboundClosed)
      ensures !processed ==>
        && inbound == old(inbound) && outbound == old(outbound)
        && hub.broadcast == old(hub.broadcast)
        && outboundClosed == (old(outboundClosed) || inboundClosed)
    {
      if inbound == [] {
        if inboundClosed {
          outboundClosed := true;
        }
        return false;
      }
      processed := true;
      var msg := inbound[0];
      inbound := inbound[1..];
      hub.BroadcastEvent(Event(Received, msg.from, id, msg.ttl, map[], now));
      if msg.ttl <= 0 {
        hub.BroadcastEvent(Event(DroppedTtl, msg.from, id, msg.ttl, map[], now));
        return;
      }
      if msg.to == id {
        var plaintext := open(msg.cipher, msg.nonce, SenderKey(publicKeys, msg.from), privateKey);
        if plaintext.None? {
          hub.BroadcastEvent(Event(DecryptFailed, msg.from, id, msg.ttl, map["error" := DecryptFailure], now));
        } else {
          hub.BroadcastEvent(Event(Decrypted, msg.from, id, msg.ttl, map["plaintext" := plaintext.value], now));
        }
        return;
      }
      msg := msg.(ttl := msg.ttl - 1);
      hub.BroadcastEvent(Event(Forwarded, id, "", msg.ttl, map[], now));
      outbound := outbound + [msg];
    }

    /** The processing loop run until the inbound queue is empty: the waiting
        messages are handled in FIFO order; if the inbound queue is closed the
        loop then ends and closes the outbound queue. */
    method Drain(open: Opener, now: int)
      modifies this`inbound, this`outbound, this`outboundClosed, hub`broadcast
      ensures inbound == []
      ensures outbound == old(outbound) + Trace(id, publicKeys, privateKey, open, old(inbound), now).out
      ensures hub.broadcast == old(hub.broadcast) + Trace(id, publicKeys, privateKey, open, old(inbound), now).events
      ensures outboundClosed == (old(outboundClosed) || inboundClosed)
    {
      ghost var all := inbound;
      ghost var k := 0;
      while inbound != []
        invariant 0 <= k <= |all| && inbound == all[k..]
        invariant outbound == old(outbound) + Trace(id, publicKeys, privateKey, open, all[..k], now).out
        invariant hub.broadcast == old(hub.broadcast) + Trace(id, publicKeys, privateKey, open, all[..k], now).events
        invariant outboundClosed == old(outboundClosed)
        decreases |inbound|
      {
        ghost var done := Trace(id, publicKeys, privateKey, open, all[..k], now);
        ghost var next := One(id, publicKeys, privateKey, open, all[k], now);
        var _ := Step(open, now);
        TracePrefix(id, publicKeys, privateKey, open, all, k, now);
        assert old(outbound) + done.out + next.out == old(outbound) + (done.out + next.out);
        assert old(hub.broadcast) + done.events + next.events == old(hub.broadcast) + (done.events + next.events);
        k := k + 1;
      }
      assert all[..k] == all;
      var _ := Step(open, now);
    }
  }

  /** A message injected at its own sender with a positive TTL is forwarded
      by the sender unless it is addressed to the sender itself. */
  lemma InjectedMessageFate(from: NodeId, to: NodeId, ttl: int, keys: map<NodeId, Bytes>,
                            priv: Bytes, open: Opener, t: int, cipher: Bytes, nonce: Bytes, now: int)
    requires ttl >= 1
    ensures var s := Handle(from, keys, priv, open, Message(from, to, ttl, t, cipher, nonce), now);
      (s.out.Some? <==> from != to)
      && (s.out.Some? ==> s.out.value.ttl == ttl - 1)
      && (from == to ==> s.events[1].kind in {Decrypted, DecryptFailed})
  {
  }
}
