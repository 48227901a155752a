/**
 The chat manager's receive and send pipelines: duplicate detection by a bounded set, automatic
 acknowledgement, delivery status, and retry on transport failure.
 */
module Chat {
  import opened Arithmetic
  import opened Outcomes
  import opened History

  const MAX_MESSAGE_SIZE := 64 * 1024

  datatype Envelope =
    | Chat(message: ChatMessage)
    | Ack(messageId: MessageId)
    | Nack(rejected: MessageId)
    | Other   // handshake, task sync, presence, typing: handled elsewhere

  datatype SendError = Validation | Codec | Crypto | Transport | OversizedPayload(size: nat, max: nat)

  datatype Manager = Manager(
    statuses: map<MessageId, MessageStatus>,
    seen: set<MessageId>,
    pendingAcks: seq<(MessageId, string)>)

  datatype ChatConfig = ChatConfig(maxPayloadSize: nat, maxDuplicateTracking: nat)

  // ---------- Receiving ----------

  /** What came out of decrypting and decoding a payload. */
  datatype Opened = Undecryptable | Undecodable(nackId: MessageId) | Decoded(envelope: Envelope)

  datatype Incoming = RecvFailed | Payload(from: string, size: nat, contents: Opened)

  /** Duplicate detection: whether the id is new, and the set of seen ids afterwards. */
  function Admit(seen: set<MessageId>, id: MessageId, limit: nat): (set<MessageId>, bool) {
    if id in seen then (seen, false)
    else if |seen| >= limit then ({id}, true)
    else (seen + {id}, true)
  }

  /** The outcome of one receive: the returned result, the reply handed to the transport, the history writes. */
  datatype Received = Received(
    manager: Manager,
    result: Result<Envelope, SendError>,
    reply: Option<Envelope>,
    writes: seq<HistoryWrite>)

  /** `replySent` says whether the transport takes the reply. */
  function Receive(m: Manager, cfg: ChatConfig, incoming: Incoming, replySent: bool): Received {
    match incoming
    case RecvFailed => Received(m, Err(Transport), None, [])
    case Payload(from, size, contents) =>
      if size > cfg.maxPayloadSize then Received(m, Err(OversizedPayload(size, cfg.maxPayloadSize)), None, [])
      else match contents
        case Undecryptable => Received(m, Err(Crypto), None, [])
        case Undecodable(nackId) => Received(m, Err(Codec), Some(Nack(nackId)), [])
        case Decoded(env) => (
          match env
          case Chat(msg) =>
            var (seen, isNew) := Admit(m.seen, msg.id, cfg.maxDuplicateTracking);
            if !isNew then Received(m, Ok(env), None, [])
            else
              var acks := if replySent then m.pendingAcks else m.pendingAcks + [(msg.id, from)];
              Received(m.(seen := seen, pendingAcks := acks), Ok(env), Some(Ack(msg.id)), [Save(msg, Delivered)])
          case Ack(id) =>
            var statuses := if id in m.statuses then m.statuses[id := Delivered] else m.statuses;
            Received(m.(statuses := statuses), Ok(env), None, [StatusUpdate(id, Delivered)])
          case _ => Received(m, Ok(env), None, [])
        )
  }

  // ---------- Sending ----------

  function Utf8Width(c: char): nat {
    if c as int < 0x80 then 1 else if c as int < 0x800 then 2 else if c as int < 0x10000 then 3 else 4
  }

  function Utf8Length(s: string): nat {
    if s == "" then 0 else Utf8Width(s[0]) + Utf8Length(s[1..])
  }

  predicate ValidContent(content: string) {
    content != "" && Utf8Length(content) <= MAX_MESSAGE_SIZE
  }

  /** How far one attempt gets once the message is valid. */
  datatype Attempted = EncodeFails | EncryptFails | TransportFails | Transmitted

  function Send(m: Manager, msg: ChatMessage, attempted: Attempted)
    : (Manager, Result<(MessageId, MessageStatus), SendError>, seq<HistoryWrite>)
  {
    if !ValidContent(msg.content) then (m, Err(Validation), [])
    else match attempted
      case EncodeFails => (m, Err(Codec), [])
      case EncryptFails => (m, Err(Crypto), [])
      case TransportFails => (m, Err(Transport), [])
      case Transmitted => (m.(statuses := m.statuses[msg.id := Sent]), Ok((msg.id, Sent)), [Save(msg, Sent)])
  }

  // ---------- What one call comes to ----------

  /** A chat message within the size limit whose id has not been seen is admitted. */
  predicate Admitted(m: Manager, cfg: ChatConfig, incoming: Incoming) {
    && incoming.Payload? && incoming.size <= cfg.maxPayloadSize && incoming.contents.Decoded?
    && incoming.contents.envelope.Chat? && incoming.contents.envelope.message.id !in m.seen
  }

  /** An acknowledgement within the size limit is processed. */
  predicate Acknowledged(cfg: ChatConfig, incoming: Incoming) {
    && incoming.Payload? && incoming.size <= cfg.maxPayloadSize && incoming.contents.Decoded?
    && incoming.contents.envelope.Ack?
  }

  /**
   What is requested of history: to save an admitted message as Delivered, and to mark as Delivered what is
   acknowledged; nothing else.
   */
  lemma ReceiveRequests(m: Manager, cfg: ChatConfig, incoming: Incoming, replySent: bool)
    ensures var writes := Receive(m, cfg, incoming, replySent).writes;
      && (Admitted(m, cfg, incoming) ==> writes == [Save(incoming.contents.envelope.message, Delivered)])
      && (Acknowledged(cfg, incoming) ==> writes == [StatusUpdate(incoming.contents.envelope.messageId, Delivered)])
      && (!Admitted(m, cfg, incoming) && !Acknowledged(cfg, incoming) ==> writes == [])
  {
  }

  /** What is replied: an ack to an admitted message, a rejection of what does not decode, and nothing else. */
  lemma ReceiveReplies(m: Manager, cfg: ChatConfig, incoming: Incoming, replySent: bool)
    ensures var reply := Receive(m, cfg, incoming, replySent).reply;
      && (Admitted(m, cfg, incoming) <==> reply.Some? && reply.value.Ack?)
      && (Admitted(m, cfg, incoming) ==> reply == Some(Ack(incoming.contents.envelope.message.id)))
      && (forall id :: reply == Some(Nack(id)) <==>
            incoming.Payload? && incoming.size <= cfg.maxPayloadSize && incoming.contents == Undecodable(id))
      && (reply == None || reply.value.Ack? || reply.value.Nack?)
  {
  }

  /** What is returned: the envelope, duplicates included, or the first thing that went wrong, in this order. */
  lemma ReceiveReturns(m: Manager, cfg: ChatConfig, incoming: Incoming, replySent: bool)
    ensures var result := Receive(m, cfg, incoming, replySent).result;
      && (result == Err(Transport) <==> incoming.RecvFailed?)
      && (forall size, max :: result == Err(OversizedPayload(size, max)) <==>
            incoming.Payload? && incoming.size == size > max == cfg.maxPayloadSize)
      && (result == Err(Crypto) <==>
            incoming.Payload? && incoming.size <= cfg.maxPayloadSize && incoming.contents.Undecryptable?)
      && (result == Err(Codec) <==>
            incoming.Payload? && incoming.size <= cfg.maxPayloadSize && incoming.contents.Undecodable?)
      && (forall env :: result == Ok(env) <==>
            incoming.Payload? && incoming.size <= cfg.maxPayloadSize && incoming.contents == Decoded(env))
      && result != Err(Validation)
  {
  }

  /**
   What changes: an admitted id is seen, and waits with its sender if the ack was not taken; an acknowledged message
   that is known becomes Delivered. Anything else changes nothing.
   */
  lemma ReceiveChanges(m: Manager, cfg: ChatConfig, incoming: Incoming, replySent: bool)
    ensures var m' := Receive(m, cfg, incoming, replySent).manager;
      && (Admitted(m, cfg, incoming) ==>
            var id := incoming.contents.envelope.message.id;
            && id in m'.seen && m'.statuses == m.statuses
            && m'.pendingAcks == m.pendingAcks + (if replySent then [] else [(id, incoming.from)]))
      && (Acknowledged(cfg, incoming) ==>
            var id := incoming.contents.envelope.messageId;
            && m'.seen == m.seen && m'.pendingAcks == m.pendingAcks
            && m'.statuses == if id in m.statuses then m.statuses[id := Delivered] else m.statuses)
      && (!Admitted(m, cfg, incoming) && !Acknowledged(cfg, incoming) ==> m' == m)
  {
  }

  /**
   A message that is transmitted is recorded as Sent, saved as Sent, and reported so; every failure is reported as
   what it is and leaves no trace. Invalid content never gets as far as the transport.
   */
  lemma SendComesTo(m: Manager, msg: ChatMessage, attempted: Attempted)
    ensures var (m', r, writes) := Send(m, msg, attempted);
      && (r.Ok? <==> ValidContent(msg.content) && attempted == Transmitted)
      && (r.Ok? ==>
            && r == Ok((msg.id, Sent)) && writes == [Save(msg, Sent)]
            && m' == Manager(m.statuses[msg.id := Sent], m.seen, m.pendingAcks))
      && (r.Err? ==> m' == m && writes == [])
      && (r == Err(Validation) <==> !ValidContent(msg.content))
      && (r == Err(Codec) <==> ValidContent(msg.content) && attempted == EncodeFails)
      && (r == Err(Crypto) <==> ValidContent(msg.content) && attempted == EncryptFails)
      && (r == Err(Transport) <==> ValidContent(msg.content) && attempted == TransportFails)
  {
  }

  /** Content is measured in bytes, character by character. */
  lemma {:induction false} Utf8Joins(s: string, t: string)
    ensures Utf8Length(s + t) == Utf8Length(s) + Utf8Length(t)
    ensures |s| <= Utf8Length(s) <= 4 * |s|
  {
    if s == [] {
      assert s + t == t;
    } else {
      assert (s + t)[1..] == s[1..] + t;
      Utf8Joins(s[1..], t);
    }
  }

  predicate Ascii(s: string) { forall i :: 0 <= i < |s| ==> s[i] as int < 0x80 }

  /** For plain text the limit is on its length; any other character takes more than one byte. */
  lemma {:induction false} AsciiLength(s: string)
    ensures Utf8Length(s) == |s| <==> Ascii(s)
    ensures Ascii(s) ==> (ValidContent(s) <==> 0 < |s| <= 65536)
  {
    if s == [] {
    } else {
      assert s == [s[0]] + s[1..];
      AsciiLength(s[1..]);
      Utf8Joins(s[1..], []);
      assert forall i :: 0 < i < |s| ==> s[i] == s[1..][i - 1];
      assert Ascii(s) <==> s[0] as int < 0x80 && Ascii(s[1..]);
    }
  }

  class ChatManager {
    var statuses: map<MessageId, MessageStatus>
    var seen: set<MessageId>
    var pendingAcks: seq<(MessageId, string)>
    const senderId: string
    const cfg: ChatConfig

    ghost function Value(): Manager reads this { Manager(statuses, seen, pendingAcks) }

    constructor (senderId: string, cfg: ChatConfig)
      ensures Value() == Manager(map[], {}, []) && this.senderId == senderId && this.cfg == cfg
    {
      this.senderId, this.cfg := senderId, cfg;
      statuses, seen, pendingAcks := map[], {}, [];
    }

    method ReceiveOne(incoming: Incoming, replySent: bool)
      returns (result: Result<Envelope, SendError>, reply: Option<Envelope>, writes: seq<HistoryWrite>)
      modifies this
      ensures Received(Value(), result, reply, writes) == Receive(old(Value()), cfg, incoming, replySent)
    {
      reply, writes := None, [];
      if incoming.RecvFailed? { return Err(Transport), None, []; }
      if incoming.size > cfg.maxPayloadSize {
        return Err(OversizedPayload(incoming.size, cfg.maxPayloadSize)), None, [];
      }
      match incoming.contents
      case Undecryptable => result := Err(Crypto);
      case Undecodable(nackId) => result, reply := Err(Codec), Some(Nack(nackId));
      case Decoded(env) =>
        result := Ok(env);
        match env {
          case Chat(msg) =>
            if msg.id in seen { return; }
            if |seen| >= cfg.maxDuplicateTracking {
              seen := {};
            }
            seen := seen + {msg.id};
            writes := [Save(msg, Delivered)];
            reply := Some(Ack(msg.id));
            if !replySent {
              pendingAcks := pendingAcks + [(msg.id, incoming.from)];
            }
          case Ack(id) =>
            if id in statuses {
              statuses := statuses[id := Delivered];
            }
            writes := [StatusUpdate(id, Delivered)];
          case _ =>
        }
    }

    method SendMessage(id: MessageId, content: string, attempted: Attempted)
      returns (r: Result<(MessageId, MessageStatus), SendError>, writes: seq<HistoryWrite>)
      modifies this
      ensures (Value(), r, writes) == Send(old(Value()), ChatMessage(id, senderId, content), attempted)
    {
      writes := [];
      if !ValidContent(content) { return Err(Validation), []; }
      match attempted
      case EncodeFails => r := Err(Codec);
      case EncryptFails => r := Err(Crypto);
      case TransportFails => r := Err(Transport);
      case Transmitted =>
        statuses := statuses[id := Sent];
        writes := [Save(ChatMessage(id, senderId, content), Sent)];
        r := Ok((id, Sent));
    }

    /**
     Each attempt draws a fresh id from `ids`. The loop stops at the first attempt that does not fail
     in the transport, or after `retries + 1`; only a successful attempt leaves a trace, of its own id.
     */
    method SendWithRetry(content: string, retries: nat, ids: seq<MessageId>, outcomes: seq<Attempted>)
      returns (r: Result<(MessageId, MessageStatus), SendError>, writes: seq<HistoryWrite>, attempts: nat)
      requires |ids| == |outcomes| == retries + 1
      modifies this
      ensures 1 <= attempts <= retries + 1
      ensures ValidContent(content) ==>
        && (forall i :: 0 <= i < attempts - 1 ==> outcomes[i] == TransportFails)
        && (outcomes[attempts - 1] != TransportFails || attempts == retries + 1)
      ensures !ValidContent(content) ==> attempts == 1
      ensures (Value(), r, writes)
        == Send(old(Value()), ChatMessage(ids[attempts - 1], senderId, content), outcomes[attempts - 1])
    {
      attempts, writes := 0, [];
      r := Err(Transport);
      while attempts <= retries
        invariant 0 <= attempts <= retries + 1
        invariant Value() == old(Value()) && r == Err(Transport) && writes == []
        invariant attempts > 0 ==> ValidContent(content)
        invariant forall i :: 0 <= i < attempts ==> outcomes[i] == TransportFails
      {
        r, writes := SendMessage(ids[attempts], content, outcomes[attempts]);
        attempts := attempts + 1;
        if r.Ok? || r.error != Transport { return; }
      }
    }
  }

  // ---------- Duplicate detection over a whole stream ----------

  /** The seen-set, with the acceptances of each epoch: an epoch ends when the set is cleared. */
  datatype Epochs = Epochs(seen: set<MessageId>, closed: seq<seq<MessageId>>, current: seq<MessageId>)

  const FIRST := Epochs({}, [], [])

  function Observe(e: Epochs, id: MessageId, limit: nat): Epochs {
    var (seen, isNew) := Admit(e.seen, id, limit);
    if !isNew then e
    else if |e.seen| >= limit && e.current != [] then Epochs(seen, e.closed + [e.current], [id])
    else Epochs(seen, e.closed, e.current + [id])
  }

  function ObserveAll(e: Epochs, ids: seq<MessageId>, limit: nat): Epochs
    decreases |ids|
  {
    if ids == [] then e else ObserveAll(Observe(e, ids[0], limit), ids[1..], limit)
  }

  predicate Distinct(ids: seq<MessageId>) {
    forall i, j :: 0 <= i < j < |ids| ==> ids[i] != ids[j]
  }

  function Flatten(ss: seq<seq<MessageId>>): seq<MessageId> {
    if ss == [] then [] else Flatten(ss[..|ss| - 1]) + ss[|ss| - 1]
  }

  function Accepted(e: Epochs): seq<MessageId> { Flatten(e.closed) + e.current }

  /** A limit of zero behaves as one: the id just accepted is always kept. */
  function Bound(limit: nat): nat { if limit == 0 then 1 else limit }

  ghost predicate EpochInv(e: Epochs, limit: nat) {
    && (forall id :: id in e.seen <==> id in e.current)
    && |e.seen| == |e.current| <= Bound(limit)
    && Distinct(e.current)
    && (e.closed != [] ==> e.current != [])
    && (forall i :: 0 <= i < |e.closed| ==> |e.closed[i]| == Bound(limit) && Distinct(e.closed[i]))
  }

  lemma ObserveKeepsInv(e: Epochs, id: MessageId, limit: nat)
    requires EpochInv(e, limit)
    ensures EpochInv(Observe(e, id, limit), limit)
  {
  }

  /** The seen-set is that of the receive pipeline, and exactly the fresh ids are accepted. */
  lemma ReceiveObserves(
      m: Manager, cfg: ChatConfig, from: string, size: nat, msg: ChatMessage, replySent: bool, e: Epochs)
    requires e.seen == m.seen && size <= cfg.maxPayloadSize
    ensures var r := Receive(m, cfg, Payload(from, size, Decoded(Chat(msg))), replySent);
            var e' := Observe(e, msg.id, cfg.maxDuplicateTracking);
      && e'.seen == r.manager.seen
      && Accepted(e') == Accepted(e) + (if r.reply == Some(Ack(msg.id)) then [msg.id] else [])
      && (r.reply == None <==> msg.id in m.seen)
  {
    var limit := cfg.maxDuplicateTracking;
    if msg.id !in e.seen && |e.seen| >= limit && e.current != [] {
      assert (e.closed + [e.current])[..|e.closed|] == e.closed;
    } else if msg.id !in e.seen {
      assert Flatten(e.closed) + (e.current + [msg.id]) == Accepted(e) + [msg.id];
    }
  }

  lemma {:induction false} ObserveAllKeepsInv(e: Epochs, ids: seq<MessageId>, limit: nat)
    requires EpochInv(e, limit)
    ensures EpochInv(ObserveAll(e, ids, limit), limit)
    decreases |ids|
  {
    if ids == [] {
    } else {
      ObserveKeepsInv(e, ids[0], limit);
      ObserveAllKeepsInv(Observe(e, ids[0], limit), ids[1..], limit);
    }
  }

  lemma {:induction false} OncePerEpoch(ids: seq<MessageId>, id: MessageId)
    requires Distinct(ids)
    ensures multiset(ids)[id] <= 1
  {
    if ids == [] {
    } else {
      OncePerEpoch(ids[1..], id);
      assert ids == [ids[0]] + ids[1..];
      assert ids[0] !in ids[1..];
    }
  }

  lemma {:induction false} CountInEpochs(ss: seq<seq<MessageId>>, bound: nat, id: MessageId)
    requires forall i :: 0 <= i < |ss| ==> |ss[i]| == bound && Distinct(ss[i])
    ensures multiset(Flatten(ss))[id] <= |ss|
    ensures |Flatten(ss)| == |ss| * bound
  {
    if ss == [] {
    } else {
      CountInEpochs(ss[..|ss| - 1], bound, id);
      OncePerEpoch(ss[|ss| - 1], id);
      assert (|ss| - 1) * bound + bound == |ss| * bound;
    }
  }

  /** An id's share of the acceptances: at most one in each epoch. */
  lemma AcceptedTimes(e: Epochs, limit: nat, id: MessageId)
    requires EpochInv(e, limit)
    ensures var times := multiset(Accepted(e))[id]; times > 0 ==> (times - 1) * Bound(limit) < |Accepted(e)|
  {
    CountInEpochs(e.closed, Bound(limit), id);
    OncePerEpoch(e.current, id);
    BoundArithmetic(multiset(Accepted(e))[id], |e.closed|, |e.current|, Bound(limit));
  }

  lemma BoundArithmetic(times: nat, closed: nat, current: nat, bound: nat)
    requires times <= closed + (if current > 0 then 1 else 0) && (closed > 0 ==> current > 0)
    ensures times > 0 ==> (times - 1) * bound < closed * bound + current
  {
    if times > 0 { MulMonotone(times - 1, closed, bound); }
  }

  lemma {:induction false} EveryIdAdmitted(e: Epochs, ids: seq<MessageId>, limit: nat, id: MessageId)
    requires EpochInv(e, limit) && (id in ids || id in Accepted(e))
    ensures id in Accepted(ObserveAll(e, ids, limit))
    decreases |ids|
  {
    if ids == [] {
    } else {
      ObserveKeepsInv(e, ids[0], limit);
      var e' := Observe(e, ids[0], limit);
      if |e.seen| >= limit && e.current != [] {
        assert (e.closed + [e.current])[..|e.closed|] == e.closed;
      }
      assert id in Accepted(e) || id == ids[0] ==> id in Accepted(e');
      EveryIdAdmitted(e', ids[1..], limit, id);
    }
  }

  // ---------- Acknowledgements ----------

  /** The ids accepted, and those whose ack the transport took, over a run of receives. */
  function ReceiveAll(m: Manager, cfg: ChatConfig, inputs: seq<(Incoming, bool)>)
    : (Manager, seq<MessageId>, seq<MessageId>)
    decreases |inputs|
  {
    if inputs == [] then (m, [], [])
    else
      var (incoming, replySent) := inputs[0];
      var r := Receive(m, cfg, incoming, replySent);
      var (m', accepted, acked) := ReceiveAll(r.manager, cfg, inputs[1..]);
      if r.reply.Some? && r.reply.value.Ack? then
        var id := r.reply.value.messageId;
        (m', [id] + accepted, if replySent then [id] + acked else acked)
      else (m', accepted, acked)
  }

  function IdsOf(acks: seq<(MessageId, string)>): seq<MessageId> {
    seq(|acks|, i requires 0 <= i < |acks| => acks[i].0)
  }

  /** One receive: an accepted id is acked or appended to the queue of pending acks. */
  lemma ReceiveAcks(m: Manager, cfg: ChatConfig, incoming: Incoming, replySent: bool)
    ensures var r := Receive(m, cfg, incoming, replySent);
      if r.reply.Some? && r.reply.value.Ack? && !replySent
      then |r.manager.pendingAcks| == |m.pendingAcks| + 1 && m.pendingAcks <= r.manager.pendingAcks
           && r.manager.pendingAcks[|m.pendingAcks|].0 == r.reply.value.messageId
      else r.manager.pendingAcks == m.pendingAcks
  {
  }

  lemma MultisetHead(id: MessageId, ids: seq<MessageId>)
    ensures multiset([id] + ids) == multiset{id} + multiset(ids)
  {
  }

  lemma IdsOfSplit(acks: seq<(MessageId, string)>, n: nat)
    requires n < |acks|
    ensures IdsOf(acks[n..]) == [acks[n].0] + IdsOf(acks[n + 1..])
  {
  }

  /** Each acceptance yields one ack: taken by the transport, or else queued, never both and never neither. */
  lemma {:induction false} OneAckPerAcceptance(m: Manager, cfg: ChatConfig, inputs: seq<(Incoming, bool)>)
    ensures var (m', accepted, acked) := ReceiveAll(m, cfg, inputs);
      && m.pendingAcks <= m'.pendingAcks
      && multiset(accepted) == multiset(acked) + multiset(IdsOf(m'.pendingAcks[|m.pendingAcks|..]))
    decreases |inputs|
  {
    if inputs == [] {
      assert IdsOf(m.pendingAcks[|m.pendingAcks|..]) == [];
    } else {
      var (incoming, replySent) := inputs[0];
      var r := Receive(m, cfg, incoming, replySent);
      ReceiveAcks(m, cfg, incoming, replySent);
      OneAckPerAcceptance(r.manager, cfg, inputs[1..]);
      if r.reply.Some? && r.reply.value.Ack? {
        var id, n := r.reply.value.messageId, |m.pendingAcks|;
        var (m', accepted, acked) := ReceiveAll(r.manager, cfg, inputs[1..]);
        MultisetHead(id, accepted);
        if replySent {
          MultisetHead(id, acked);
        } else {
          assert m'.pendingAcks[n] == r.manager.pendingAcks[n];
          IdsOfSplit(m'.pendingAcks, n);
          MultisetHead(id, IdsOf(m'.pendingAcks[n + 1..]));
        }
      }
    }
  }

  // ---------- Duplicate detection over a run of receives ----------

  /** The id of the chat message that an input gets through to duplicate detection, if it does. */
  function ChatId(cfg: ChatConfig, incoming: Incoming): Option<MessageId> {
    match incoming
    case Payload(_, size, Decoded(Chat(msg))) => if size <= cfg.maxPayloadSize then Some(msg.id) else None
    case _ => None
  }

  function ChatIds(cfg: ChatConfig, inputs: seq<(Incoming, bool)>): seq<MessageId> {
    if inputs == [] then []
    else
      var id := ChatId(cfg, inputs[0].0);
      (if id.Some? then [id.value] else []) + ChatIds(cfg, inputs[1..])
  }

  /** Nothing but a chat message within the size limit is acknowledged or touches the seen-set. */
  lemma OthersPass(m: Manager, cfg: ChatConfig, incoming: Incoming, replySent: bool)
    requires ChatId(cfg, incoming).None?
    ensures var r := Receive(m, cfg, incoming, replySent);
      r.manager.seen == m.seen && !(r.reply.Some? && r.reply.value.Ack?)
  {
  }

  function ObserveInput(e: Epochs, cfg: ChatConfig, incoming: Incoming): Epochs {
    var id := ChatId(cfg, incoming);
    if id.Some? then Observe(e, id.value, cfg.maxDuplicateTracking) else e
  }

  function AcceptedBy(r: Received): seq<MessageId> {
    if r.reply.Some? && r.reply.value.Ack? then [r.reply.value.messageId] else []
  }

  lemma InputObserved(m: Manager, cfg: ChatConfig, incoming: Incoming, replySent: bool, e: Epochs)
    requires e.seen == m.seen
    ensures var (r, e') := (Receive(m, cfg, incoming, replySent), ObserveInput(e, cfg, incoming));
      e'.seen == r.manager.seen && Accepted(e') == Accepted(e) + AcceptedBy(r)
  {
    if ChatId(cfg, incoming).None? {
      OthersPass(m, cfg, incoming, replySent);
      assert Accepted(e) + [] == Accepted(e);
    } else {
      ReceiveObserves(m, cfg, incoming.from, incoming.size, incoming.contents.envelope.message, replySent, e);
    }
  }

  lemma ObserveAllInputs(e: Epochs, cfg: ChatConfig, inputs: seq<(Incoming, bool)>)
    requires inputs != []
    ensures var limit := cfg.maxDuplicateTracking;
      ObserveAll(e, ChatIds(cfg, inputs), limit)
      == ObserveAll(ObserveInput(e, cfg, inputs[0].0), ChatIds(cfg, inputs[1..]), limit)
  {
    var (id, rest) := (ChatId(cfg, inputs[0].0), ChatIds(cfg, inputs[1..]));
    if id.Some? { assert ([id.value] + rest)[1..] == rest; } else { assert [] + rest == rest; }
  }

  lemma ReceiveAllStep(m: Manager, cfg: ChatConfig, inputs: seq<(Incoming, bool)>)
    requires inputs != []
    ensures var r := Receive(m, cfg, inputs[0].0, inputs[0].1);
            var (m', accepted, _) := ReceiveAll(r.manager, cfg, inputs[1..]);
      ReceiveAll(m, cfg, inputs).0 == m' && ReceiveAll(m, cfg, inputs).1 == AcceptedBy(r) + accepted
  {
    var r := Receive(m, cfg, inputs[0].0, inputs[0].1);
    var accepted := ReceiveAll(r.manager, cfg, inputs[1..]).1;
    assert [] + accepted == accepted;
  }

  /** Duplicate detection ends where the receives do, and admits what they accept. */
  ghost predicate Observes(e: Epochs, m: Manager, cfg: ChatConfig, inputs: seq<(Incoming, bool)>) {
    var (m', accepted, _) := ReceiveAll(m, cfg, inputs);
    var e' := ObserveAll(e, ChatIds(cfg, inputs), cfg.maxDuplicateTracking);
    e'.seen == m'.seen && Accepted(e') == Accepted(e) + accepted
  }

  lemma Regrouped(a: seq<MessageId>, b: seq<MessageId>, c: seq<MessageId>)
    ensures a + b + c == a + (b + c)
  {
  }

  lemma ObservesOneMore(e: Epochs, m: Manager, cfg: ChatConfig, inputs: seq<(Incoming, bool)>, r: Received)
    requires inputs != [] && e.seen == m.seen && r == Receive(m, cfg, inputs[0].0, inputs[0].1)
    requires Observes(ObserveInput(e, cfg, inputs[0].0), r.manager, cfg, inputs[1..])
    ensures Observes(e, m, cfg, inputs)
  {
    InputObserved(m, cfg, inputs[0].0, inputs[0].1, e);
    ObserveAllInputs(e, cfg, inputs);
    ReceiveAllStep(m, cfg, inputs);
    Regrouped(Accepted(e), AcceptedBy(r), ReceiveAll(r.manager, cfg, inputs[1..]).1);
  }

  /** The ids that a run of receives accepts are those that duplicate detection admits, in order. */
  lemma {:induction false} ReceiveAllObserves(m: Manager, cfg: ChatConfig, inputs: seq<(Incoming, bool)>, e: Epochs)
    requires e.seen == m.seen
    ensures var (m', accepted, _) := ReceiveAll(m, cfg, inputs);
            var e' := ObserveAll(e, ChatIds(cfg, inputs), cfg.maxDuplicateTracking);
      e'.seen == m'.seen && Accepted(e') == Accepted(e) + accepted
    decreases |inputs|
  {
    if inputs == [] {
      assert Accepted(e) + [] == Accepted(e);
    } else {
      var (incoming, replySent) := inputs[0];
      var r := Receive(m, cfg, incoming, replySent);
      InputObserved(m, cfg, incoming, replySent, e);
      ReceiveAllObserves(r.manager, cfg, inputs[1..], ObserveInput(e, cfg, incoming));
      ObservesOneMore(e, m, cfg, inputs, r);
      assert Observes(e, m, cfg, inputs);
    }
  }

  /** What the epochs of any stream of ids are like. */
  lemma EpochsBound(ids: seq<MessageId>, limit: nat, id: MessageId)
    ensures var e := ObserveAll(FIRST, ids, limit);
      EpochInv(e, limit) && multiset(Accepted(e))[id] <= CeilDiv(|Accepted(e)|, Bound(limit))
  {
    ObserveAllKeepsInv(FIRST, ids, limit);
    var e := ObserveAll(FIRST, ids, limit);
    AcceptedTimes(e, limit, id);
    AtMostCeil(multiset(Accepted(e))[id], |Accepted(e)|, Bound(limit));
  }

  /** The epochs that a run of receives goes through. */
  function EpochsOf(cfg: ChatConfig, inputs: seq<(Incoming, bool)>): Epochs {
    ObserveAll(FIRST, ChatIds(cfg, inputs), cfg.maxDuplicateTracking)
  }

  lemma ReceivedEpochs(m: Manager, cfg: ChatConfig, inputs: seq<(Incoming, bool)>)
    requires m.seen == {}
    ensures var (m', accepted, _) := ReceiveAll(m, cfg, inputs);
      m'.seen == EpochsOf(cfg, inputs).seen && accepted == Accepted(EpochsOf(cfg, inputs))
  {
    ReceiveAllObserves(m, cfg, inputs, FIRST);
    var accepted := ReceiveAll(m, cfg, inputs).1;
    assert Accepted(FIRST) == [] && [] + accepted == accepted;
  }

  /**
   Over any run of receives: the acceptances fall into epochs of distinct ids, the finished ones of exactly as many as
   the limit. The seen ids are those of the current epoch, so a repeat is refused exactly when it is among the
   acceptances since the set was last cleared. Among N acceptances an id occurs at most N / limit times, rounded up.
   */
  lemma DedupBound(m: Manager, cfg: ChatConfig, inputs: seq<(Incoming, bool)>, id: MessageId)
    requires m.seen == {}
    ensures var ((m', accepted, _), e) := (ReceiveAll(m, cfg, inputs), EpochsOf(cfg, inputs));
            var limit := Bound(cfg.maxDuplicateTracking);
      && (id in m'.seen <==> id in e.current)
      && |m'.seen| <= limit
      && accepted == Flatten(e.closed) + e.current && Distinct(e.current)
      && (forall i :: 0 <= i < |e.closed| ==> |e.closed[i]| == limit && Distinct(e.closed[i]))
      && multiset(accepted)[id] <= CeilDiv(|accepted|, limit)
  {
    EpochsBound(ChatIds(cfg, inputs), cfg.maxDuplicateTracking, id);
    ReceivedEpochs(m, cfg, inputs);
  }

  lemma RefusedIffSeen(m: Manager, cfg: ChatConfig, from: string, size: nat, msg: ChatMessage, sent: bool)
    requires size <= cfg.maxPayloadSize
    ensures Receive(m, cfg, Payload(from, size, Decoded(Chat(msg))), sent).reply == None <==> msg.id in m.seen
  {
  }

  lemma SeenIffCurrent(m: Manager, cfg: ChatConfig, inputs: seq<(Incoming, bool)>, id: MessageId)
    requires m.seen == {}
    ensures id in ReceiveAll(m, cfg, inputs).0.seen <==> id in EpochsOf(cfg, inputs).current
  {
    DedupBound(m, cfg, inputs, id);
  }

  /** The next chat message is refused exactly when its id is among the acceptances since the last clear. */
  lemma RepeatRefusedIff(
      m: Manager, cfg: ChatConfig, inputs: seq<(Incoming, bool)>, from: string, size: nat, msg: ChatMessage, sent: bool)
    requires m.seen == {} && size <= cfg.maxPayloadSize
    ensures Receive(ReceiveAll(m, cfg, inputs).0, cfg, Payload(from, size, Decoded(Chat(msg))), sent).reply == None
      <==> msg.id in EpochsOf(cfg, inputs).current
  {
    SeenIffCurrent(m, cfg, inputs, msg.id);
    RefusedIffSeen(ReceiveAll(m, cfg, inputs).0, cfg, from, size, msg, sent);
  }

  lemma ObserveNext(e: Epochs, id: MessageId, rest: seq<MessageId>, limit: nat, e': Epochs)
    requires Observe(e, id, limit) == e'
    ensures ObserveAll(e, [id] + rest, limit) == ObserveAll(e', rest, limit)
  {
    assert ([id] + rest)[1..] == rest;
  }

  /** With limit 3: an epoch fills up, and the next id starts another. */
  lemma FourthClears(a: MessageId, b: MessageId, c: MessageId, d: MessageId)
    requires a != b && a != c && b != c && d !in {a, b, c}
    ensures Observe(FIRST, a, 3) == Epochs({a}, [], [a])
    ensures Observe(Epochs({a}, [], [a]), b, 3) == Epochs({a, b}, [], [a, b])
    ensures Observe(Epochs({a, b}, [], [a, b]), c, 3) == Epochs({a, b, c}, [], [a, b, c])
    ensures Observe(Epochs({a, b, c}, [], [a, b, c]), d, 3) == Epochs({d}, [[a, b, c]], [d])
  {
  }

  /** A repeat can be accepted after just one other acceptance, if that one cleared the set: a, b, c, d, c. */
  lemma RepeatAfterClear(a: MessageId, b: MessageId, c: MessageId, d: MessageId)
    requires a != b && a != c && b != c && d !in {a, b, c}
    ensures ObserveAll(FIRST, [a] + ([b] + ([c] + ([d] + ([c] + [])))), 3) == Epochs({d, c}, [[a, b, c]], [d, c])
  {
    var (third, fourth) := (Epochs({a, b, c}, [], [a, b, c]), Epochs({d}, [[a, b, c]], [d]));
    FourthClears(a, b, c, d);
    ObserveNext(fourth, c, [], 3, Epochs({d, c}, [[a, b, c]], [d, c]));
    ObserveNext(third, d, [c] + [], 3, fourth);
    ObserveNext(Epochs({a, b}, [], [a, b]), c, [d] + ([c] + []), 3, third);
    ObserveNext(Epochs({a}, [], [a]), b, [c] + ([d] + ([c] + [])), 3, Epochs({a, b}, [], [a, b]));
    ObserveNext(FIRST, a, [b] + ([c] + ([d] + ([c] + []))), 3, Epochs({a}, [], [a]));
  }

  /** Nothing is refused for good: every chat message that arrives has its id accepted at least once. */
  lemma EveryIdAccepted(m: Manager, cfg: ChatConfig, inputs: seq<(Incoming, bool)>, id: MessageId)
    requires m.seen == {} && id in ChatIds(cfg, inputs)
    ensures id in ReceiveAll(m, cfg, inputs).1
  {
    EveryIdAdmitted(FIRST, ChatIds(cfg, inputs), cfg.maxDuplicateTracking, id);
    ReceivedEpochs(m, cfg, inputs);
  }

  // ---------- What a run of receives requests of history ----------

  /** What a run of receives requests of history, in order. */
  function RequestedBy(m: Manager, cfg: ChatConfig, inputs: seq<(Incoming, bool)>): seq<HistoryWrite>
    decreases |inputs|
  {
    if inputs == [] then []
    else
      var r := Receive(m, cfg, inputs[0].0, inputs[0].1);
      r.writes + RequestedBy(r.manager, cfg, inputs[1..])
  }

  function SavedId(w: HistoryWrite): seq<MessageId> { if w.Save? then [w.message.id] else [] }

  /** The ids of the messages to save. */
  function SavedIds(ws: seq<HistoryWrite>): seq<MessageId> {
    if ws == [] then [] else SavedId(ws[0]) + SavedIds(ws[1..])
  }

  lemma {:induction false} SavedIdsJoin(v: seq<HistoryWrite>, w: seq<HistoryWrite>)
    ensures SavedIds(v + w) == SavedIds(v) + SavedIds(w)
  {
    if v == [] {
      assert v + w == w;
    } else {
      assert (v + w)[0] == v[0] && (v + w)[1..] == v[1..] + w;
      SavedIdsJoin(v[1..], w);
      assert SavedId(v[0]) + (SavedIds(v[1..]) + SavedIds(w)) == SavedId(v[0]) + SavedIds(v[1..]) + SavedIds(w);
    }
  }

  /** The message was among the inputs, in full, and the request is what receiving it calls for. */
  predicate CalledFor(cfg: ChatConfig, inputs: seq<(Incoming, bool)>, w: HistoryWrite) {
    exists i :: 0 <= i < |inputs| && inputs[i].0.Payload? && inputs[i].0.size <= cfg.maxPayloadSize
      && match w
         case Save(msg, status) => status == Delivered && inputs[i].0.contents == Decoded(Chat(msg))
         case StatusUpdate(id, status) => status == Delivered && inputs[i].0.contents == Decoded(Ack(id))
  }

  lemma OneCalledFor(m: Manager, cfg: ChatConfig, inputs: seq<(Incoming, bool)>, w: HistoryWrite)
    requires inputs != [] && w in Receive(m, cfg, inputs[0].0, inputs[0].1).writes
    ensures CalledFor(cfg, inputs, w)
  {
    ReceiveRequests(m, cfg, inputs[0].0, inputs[0].1);
    assert inputs[0].0.Payload?;
  }

  lemma LaterCalledFor(cfg: ChatConfig, inputs: seq<(Incoming, bool)>, w: HistoryWrite)
    requires inputs != [] && CalledFor(cfg, inputs[1..], w)
    ensures CalledFor(cfg, inputs, w)
  {
    var i :| 0 <= i < |inputs| - 1 && inputs[1..][i].0.Payload? && inputs[1..][i].0.size <= cfg.maxPayloadSize
      && match w
         case Save(msg, status) => status == Delivered && inputs[1..][i].0.contents == Decoded(Chat(msg))
         case StatusUpdate(id, status) => status == Delivered && inputs[1..][i].0.contents == Decoded(Ack(id));
    assert inputs[i + 1] == inputs[1..][i];
  }

  /**
   Over any run of receives the messages saved are exactly those accepted, one save per acceptance, in order; and
   every request is for a message that arrived, as Delivered, or for an acknowledgement that did.
   */
  lemma {:induction false} AcceptedAreSaved(m: Manager, cfg: ChatConfig, inputs: seq<(Incoming, bool)>)
    ensures SavedIds(RequestedBy(m, cfg, inputs)) == ReceiveAll(m, cfg, inputs).1
    ensures forall w :: w in RequestedBy(m, cfg, inputs) ==> CalledFor(cfg, inputs, w)
    decreases |inputs|
  {
    if inputs == [] {
    } else {
      var r := Receive(m, cfg, inputs[0].0, inputs[0].1);
      AcceptedAreSaved(r.manager, cfg, inputs[1..]);
      ReceiveAllStep(m, cfg, inputs);
      SavedIdsJoin(r.writes, RequestedBy(r.manager, cfg, inputs[1..]));
      SavesWhatItAccepts(m, cfg, inputs[0].0, inputs[0].1);
      forall w | w in RequestedBy(m, cfg, inputs) ensures CalledFor(cfg, inputs, w) {
        if w in r.writes { OneCalledFor(m, cfg, inputs, w); } else { LaterCalledFor(cfg, inputs, w); }
      }
    }
  }

  lemma SavesWhatItAccepts(m: Manager, cfg: ChatConfig, incoming: Incoming, replySent: bool)
    ensures var r := Receive(m, cfg, incoming, replySent); SavedIds(r.writes) == AcceptedBy(r)
  {
    ReceiveRequests(m, cfg, incoming, replySent);
    ReceiveReplies(m, cfg, incoming, replySent);
    var r := Receive(m, cfg, incoming, replySent);
    if r.writes != [] { assert r.writes[1..] == [] && SavedIds([]) == []; }
  }

  /** Every acknowledgement that arrives requests its update. */
  lemma {:induction false} AcksAreRequested(m: Manager, cfg: ChatConfig, inputs: seq<(Incoming, bool)>, i: nat)
    requires i < |inputs| && Acknowledged(cfg, inputs[i].0)
    ensures StatusUpdate(inputs[i].0.contents.envelope.messageId, Delivered) in RequestedBy(m, cfg, inputs)
    decreases |inputs|
  {
    var r := Receive(m, cfg, inputs[0].0, inputs[0].1);
    if i == 0 {
      ReceiveRequests(m, cfg, inputs[0].0, inputs[0].1);
    } else {
      AcksAreRequested(r.manager, cfg, inputs[1..], i - 1);
    }
  }
}
