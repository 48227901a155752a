/** The relay's shared state, updated in place: the registry of channels and the message store. */
module RelayStates {
  import opened Outcomes
  import opened Relay
  import opened RelayStore
  import RelayOrder

  /** What the relay hands a connection's writer. */
  datatype Frame =
    | Carry(msg: Msg)
    | Queued(to: string, count: nat)   // tells a sender that its payload waits in a queue
    | TooLarge(size: nat, max: nat)    // tells a sender that its payload was refused
    | NotEncoded                       // tells a sender that its room message does not encode

  /** An unbounded channel; sending fails once the receiving half is gone. */
  class Channel {
    var open: bool
    var items: seq<Frame>

    constructor ()
      ensures open && items == []
    { open, items := true, []; }

    method Send(frame: Frame) returns (ok: bool)
      modifies this
      ensures ok == old(open) && open == old(open)
      ensures items == if ok then old(items) + [frame] else old(items)
    {
      ok := open;
      if open { items := items + [frame]; }
    }
  }

  /** The shared state as a value, with the channels that some set of them shows. */
  datatype Value = Value(
    connections: map<string, Channel>,
    open: map<Channel, bool>,
    items: map<Channel, seq<Frame>>,
    queues: Queues<Msg>)
  {
    /** Every registered channel is shown. */
    ghost predicate Valid() { connections.Values <= items.Keys && items.Keys == open.Keys }

    /** The peer is registered, and its channel can take a frame. */
    predicate Reachable(peer: string)
      requires Valid()
    { peer in connections && open[connections[peer]] }

    /** A frame for a registered peer's channel, if that can take it; nobody learns if not. */
    function Sent(peer: string, frame: Frame, encodes: bool): (v: Value)
      requires Valid()
      ensures v.Valid() && v.connections == connections
    {
      if encodes && Reachable(peer) then this.(items := items[connections[peer] := items[connections[peer]] + [frame]])
      else this
    }

    function Stored(msg: Msg, cap: nat): Value { this.(queues := Enqueue(queues, msg.to, msg, cap)) }

    /** Into the recipient's channel while that can take it, else into the store, unregistering one that is gone. */
    function Routed(msg: Msg, encodes: bool, cap: nat): (v: Value)
      requires Valid()
      ensures v.Valid()
    {
      if msg.to !in connections then Stored(msg, cap)
      else if !encodes then this
      else if Reachable(msg.to) then Sent(msg.to, Carry(msg), true)
      else Stored(msg, cap).(connections := connections - {msg.to})
    }

    /** A payload for a peer that is not registered is acknowledged with the length of the queue. */
    function PayloadRouted(msg: Msg, encodes: bool, acks: bool, cap: nat): (v: Value)
      requires Valid()
      ensures v.Valid()
    {
      var routed := Routed(msg, encodes, cap);
      if msg.to in connections then routed
      else routed.Sent(msg.from, Queued(msg.to, AsU32(|QueueOf(routed.queues, msg.to)|)), acks)
    }
  }

  class RelayState {
    var connections: map<string, Channel>
    const store: MessageStore<Msg>
    const maxPayload: nat

    constructor (maxPayload: nat, store: MessageStore<Msg>)
      ensures connections == map[] && this.store == store && this.maxPayload == maxPayload
    {
      this.store, this.maxPayload := store, maxPayload;
      connections := map[];
    }

    /** The state as a value, showing these channels. */
    ghost function Now(channels: set<Channel>): Value
      reads this, store, channels
    {
      Value(connections, map c | c in channels :: c.open, map c | c in channels :: c.items, store.queues)
    }

    method RegisterPeer(peer: string, sender: Channel) returns (replaced: Option<Channel>)
      modifies this
      ensures connections == old(connections)[peer := sender]
      ensures replaced == if peer in old(connections) then Some(old(connections)[peer]) else None
    {
      replaced := if peer in connections then Some(connections[peer]) else None;
      connections := connections[peer := sender];
    }

    /** By id only: it removes whichever connection the id stands for by now. */
    method UnregisterPeer(peer: string) returns (removed: Option<Channel>)
      modifies this
      ensures connections == old(connections) - {peer}
      ensures removed == if peer in old(connections) then Some(old(connections)[peer]) else None
    {
      removed := if peer in connections then Some(connections[peer]) else None;
      connections := connections - {peer};
    }

    method GetSender(peer: string) returns (sender: Option<Channel>)
      ensures sender == if peer in connections then Some(connections[peer]) else None
    {
      sender := if peer in connections then Some(connections[peer]) else None;
    }

    method SendToPeer(peer: string, frame: Frame, encodes: bool, ghost channels: set<Channel>)
      requires connections.Values <= channels
      modifies connections.Values
      ensures Now(channels) == old(Now(channels)).Sent(peer, frame, encodes)
    {
      var sender := GetSender(peer);
      if sender.Some? && encodes {
        ghost var before := Now(channels);
        var ok := sender.value.Send(frame);
        assert ok ==> Now(channels).items == before.items[sender.value := before.items[sender.value] + [frame]];
        assert Now(channels).open == before.open;
      }
    }

    /** Route one message with nothing in between; the count is for a payload whose recipient was not registered. */
    method Route(msg: Msg, encodes: bool, ghost channels: set<Channel>) returns (queued: Option<nat>)
      requires connections.Values <= channels
      modifies this, store, connections.Values
      ensures Now(channels) == old(Now(channels)).Routed(msg, encodes, store.maxQueueSize)
      ensures queued == if msg.to in old(connections) then None else Some(AsU32(|QueueOf(store.queues, msg.to)|))
    {
      queued := None;
      ghost var before := Now(channels);
      var sender := GetSender(msg.to);
      if sender.Some? {
        if encodes {
          var ok := sender.value.Send(Carry(msg));
          assert ok ==> Now(channels).items == before.items[sender.value := before.items[sender.value] + [Carry(msg)]];
          assert Now(channels).open == before.open;
          if !ok {
            assert Now(channels).items == before.items;
            var _ := UnregisterPeer(msg.to);
            var _ := store.EnqueueFor(msg.to, msg);
          }
        }
      } else {
        var count := store.EnqueueFor(msg.to, msg);
        queued := Some(count);
      }
    }

    method RoutePayload(msg: Msg, encodes: bool, acks: bool, ghost channels: set<Channel>)
      requires connections.Values <= channels
      modifies this, store, connections.Values
      ensures Now(channels) == old(Now(channels)).PayloadRouted(msg, encodes, acks, store.maxQueueSize)
    {
      var queued := Route(msg, encodes, channels);
      if queued.Some? {
        assert connections == old(connections);
        SendToPeer(msg.from, Queued(msg.to, queued.value), acks, channels);
      }
    }

    /** A room message for another peer: one that does not encode is refused, and the sender told. */
    method RouteRoomToPeer(msg: Msg, roomEncodes: bool, encodes: bool, acks: bool, ghost channels: set<Channel>)
      requires connections.Values <= channels
      modifies this, store, connections.Values
      ensures Now(channels) == if roomEncodes then old(Now(channels)).Routed(msg, encodes, store.maxQueueSize)
                               else old(Now(channels)).Sent(msg.from, NotEncoded, acks)
    {
      if !roomEncodes {
        SendToPeer(msg.from, NotEncoded, acks, channels);
      } else {
        var _ := Route(msg, encodes, channels);
      }
    }

    /**
     A client's frame: the limit on payloads, and the registered id in place of whatever sender the client claimed.
     A refusal is told to the client and changes nothing else.
     */
    method HandleBinaryMessage(
        peer: string, claimed: Msg, roomEncodes: bool, encodes: bool, acks: bool, ghost channels: set<Channel>)
      returns (accepted: Option<Msg>)
      requires connections.Values <= channels
      modifies this, store, connections.Values
      ensures accepted == if (if claimed.body.Payload? then claimed.body.Fits(maxPayload) else roomEncodes)
                          then Some(claimed.(from := peer)) else None
      ensures Now(channels) ==
        var (before, msg, cap) := (old(Now(channels)), claimed.(from := peer), store.maxQueueSize);
        if accepted.None? then
          var refusal := if claimed.body.Payload? then TooLarge(|claimed.body.bytes|, maxPayload) else NotEncoded;
          before.Sent(peer, refusal, acks)
        else if claimed.body.Payload? then before.PayloadRouted(msg, encodes, acks, cap)
        else before.Routed(msg, encodes, cap)
    {
      var msg := claimed.(from := peer);
      if msg.body.RoomMessage? {
        RouteRoomToPeer(msg, roomEncodes, encodes, acks, channels);
        accepted := if roomEncodes then Some(msg) else None;
      } else if msg.body.Fits(maxPayload) {
        RoutePayload(msg, encodes, acks, channels);
        accepted := Some(msg);
      } else {
        SendToPeer(peer, TooLarge(|msg.body.bytes|, maxPayload), acks, channels);
        accepted := None;
      }
    }
  }

  // ---------- What is put into which channel ----------

  /** A frame for a peer is appended to its own registered channel, if that is open; nothing else changes. */
  lemma SentFrames(v: Value, peer: string, frame: Frame, encodes: bool, c: Channel)
    requires v.Valid() && c in v.items
    ensures var v' := v.Sent(peer, frame, encodes);
            var due := encodes && peer in v.connections && v.connections[peer] == c && v.open[c];
      && v'.items.Keys == v.items.Keys && v'.items[c] == v.items[c] + (if due then [frame] else [])
      && v'.connections == v.connections && v'.open == v.open && v'.queues == v.queues
  {
  }

  /** How a payload is received by channel `c`: passed on to its recipient, or acknowledged to its sender. */
  function PayloadFrames(v: Value, msg: Msg, encodes: bool, acks: bool, cap: nat, c: Channel): seq<Frame>
    requires v.Valid() && c in v.items
  {
    var before := |QueueOf(v.queues, msg.to)|;
    if msg.to in v.connections then
      if encodes && v.connections[msg.to] == c && v.open[c] then [Carry(msg)] else []
    else if acks && msg.from in v.connections && v.connections[msg.from] == c && v.open[c] then
      [Queued(msg.to, AsU32(if before < cap then before + 1 else before))]
    else []
  }

  /**
   A payload for a registered peer goes into its open channel, if it encodes, and nobody is told. One for a peer that
   is not registered is acknowledged, into its sender's open channel alone, with the length of the queue it is now in:
   one more than before, or the same once the queue is at its cap. No other channel gets anything.
   */
  lemma PayloadIsAcknowledged(v: Value, msg: Msg, encodes: bool, acks: bool, cap: nat, c: Channel)
    requires v.Valid() && c in v.items
    ensures var v' := v.PayloadRouted(msg, encodes, acks, cap);
      v'.items.Keys == v.items.Keys && v'.items[c] == v.items[c] + PayloadFrames(v, msg, encodes, acks, cap, c)
  {
    var routed := v.Routed(msg, encodes, cap);
    SentFrames(v, msg.to, Carry(msg), true, c);
    SentFrames(routed, msg.from, Queued(msg.to, AsU32(|QueueOf(routed.queues, msg.to)|)), acks, c);
  }

  /** A payload is stored when its recipient is not registered, or its channel is gone; only then is anything stored. */
  lemma PayloadIsStored(v: Value, msg: Msg, encodes: bool, acks: bool, cap: nat)
    requires v.Valid()
    ensures var v' := v.PayloadRouted(msg, encodes, acks, cap);
            var gone := msg.to in v.connections && encodes && !v.open[v.connections[msg.to]];
      && v'.queues == (if msg.to !in v.connections || gone then Enqueue(v.queues, msg.to, msg, cap) else v.queues)
      && v'.connections == (if gone then v.connections - {msg.to} else v.connections)
      && v'.open == v.open
  {
  }

  // ---------- The same as the step model ----------

  /** The routed messages among the frames of a channel. */
  function Contents(frames: seq<Frame>): seq<Msg> {
    if frames == [] then []
    else
      var last := frames[|frames| - 1];
      Contents(frames[..|frames| - 1]) + (if last.Carry? then [last.msg] else [])
  }

  lemma ContentsMore(frames: seq<Frame>, frame: Frame)
    ensures Contents(frames + [frame]) == Contents(frames) + (if frame.Carry? then [frame.msg] else [])
  {
    assert (frames + [frame])[..|frames|] == frames;
  }

  /** Peer `p`'s registered channel, as the step model has it. */
  predicate PeerDepicted(v: Value, y: Relay, index: map<Channel, nat>, p: string)
    requires v.Valid() && p in v.connections
  {
    var c := v.connections[p];
    && p in y.registry && c in index && y.registry[p] == index[c] < |y.conns|
    && y.conns[y.registry[p]].open == v.open[c] && y.conns[y.registry[p]].channel == Contents(v.items[c])
  }

  /** `y` is a state of the step model that `v` shows, connections numbered by `index`. */
  ghost predicate Depicts(v: Value, y: Relay, index: map<Channel, nat>) {
    && v.Valid() && y.registry.Keys == v.connections.Keys && y.queues == v.queues
    && (forall c, d :: c in index && d in index && index[c] == index[d] ==> c == d)
    && (forall p :: p in v.connections ==> PeerDepicted(v, y, index, p))
  }

  /** Frames for the client itself do not show in the step model. */
  lemma ToldDepicts(v: Value, y: Relay, index: map<Channel, nat>, peer: string, frame: Frame, encodes: bool)
    requires Depicts(v, y, index) && !frame.Carry?
    ensures Depicts(v.Sent(peer, frame, encodes), y, index)
  {
    var v' := v.Sent(peer, frame, encodes);
    forall p | p in v'.connections ensures PeerDepicted(v', y, index, p) {
      assert PeerDepicted(v, y, index, p);
      ContentsMore(v.items[v.connections[p]], frame);
    }
  }

  lemma ForwardDepicts(v: Value, y: Relay, cfg: Config, index: map<Channel, nat>, msg: Msg)
    requires Depicts(v, y, index) && RelayOrder.Registry(y) && v.Reachable(msg.to)
    ensures Depicts(v.Sent(msg.to, Carry(msg), true), RelayOrder.Routed(y, cfg, msg, true), index)
  {
    var (v', y') := (v.Sent(msg.to, Carry(msg), true), RelayOrder.Routed(y, cfg, msg, true));
    assert PeerDepicted(v, y, index, msg.to);
    forall p | p in v'.connections ensures PeerDepicted(v', y', index, p) {
      assert PeerDepicted(v, y, index, p);
      ContentsMore(v.items[v.connections[p]], Carry(msg));
    }
  }

  /** Routing in one go does here what it does in the step model. */
  lemma RoutingDepicts(v: Value, y: Relay, cfg: Config, index: map<Channel, nat>, msg: Msg, encodes: bool)
    requires Depicts(v, y, index) && RelayOrder.Registry(y)
    ensures Depicts(v.Routed(msg, encodes, cfg.maxQueue), RelayOrder.Routed(y, cfg, msg, encodes), index)
  {
    if msg.to in v.connections { assert PeerDepicted(v, y, index, msg.to); }
    if msg.to in v.connections && encodes && v.Reachable(msg.to) {
      ForwardDepicts(v, y, cfg, index, msg);
    } else {
      var (v', y') := (v.Routed(msg, encodes, cfg.maxQueue), RelayOrder.Routed(y, cfg, msg, encodes));
      forall p | p in v'.connections ensures PeerDepicted(v', y', index, p) { assert PeerDepicted(v, y, index, p); }
    }
  }

  /** And so does routing a payload, acknowledgement and all. */
  lemma PayloadDepicts(v: Value, y: Relay, cfg: Config, index: map<Channel, nat>, msg: Msg, encodes: bool, acks: bool)
    requires Depicts(v, y, index) && RelayOrder.Registry(y)
    ensures Depicts(v.PayloadRouted(msg, encodes, acks, cfg.maxQueue), RelayOrder.Routed(y, cfg, msg, encodes), index)
  {
    var (routed, y') := (v.Routed(msg, encodes, cfg.maxQueue), RelayOrder.Routed(y, cfg, msg, encodes));
    RoutingDepicts(v, y, cfg, index, msg, encodes);
    ToldDepicts(routed, y', index, msg.from, Queued(msg.to, AsU32(|QueueOf(routed.queues, msg.to)|)), acks);
  }
}
