/**
 Two chat managers over a network that may drop, duplicate and reorder envelopes but not forge them. Transmitting a
 message, recording it as Sent and saving it to history are separate steps, so an ack may come in between.
 */
module ChatProtocol {
  import opened Outcomes
  import opened History
  import opened Chat

  datatype Side = Alice | Bob {
    function Peer(): Side { if Alice? then Bob else Alice }
  }

  /** One manager with what surrounds it. */
  datatype End = End(
    manager: Manager,
    sent: set<ChatMessage>,         // every message handed to the transport
    unrecorded: set<ChatMessage>,   // transmitted, not yet recorded as Sent
    unsaved: set<ChatMessage>,      // recorded, not yet saved to history
    inbox: set<Envelope>,           // what the network may hand it
    accepted: set<MessageId>,
    log: seq<HistoryWrite>)         // what it has requested of its history

  datatype Pair = Pair(alice: End, bob: End, used: set<MessageId>) {
    function At(x: Side): End { if x.Alice? then alice else bob }

    function With(x: Side, e: End): Pair {
      if x.Alice? then this.(alice := e) else this.(bob := e)
    }

    /** Put an envelope where the network may deliver it, any number of times or never. */
    function Posted(x: Side, env: Option<Envelope>): Pair {
      if env.None? then this else With(x, At(x).(inbox := At(x).inbox + {env.value}))
    }
  }

  datatype Step =
    // the transport takes the message; or it reports failure, having perhaps let it out all the same
    | Transmit(side: Side, message: ChatMessage, ok: bool, leaked: bool)
    | Record(side: Side, message: ChatMessage)
    | Archive(side: Side, message: ChatMessage)
    | Deliver(side: Side, incoming: Incoming, replySent: bool, leaked: bool)

  ghost predicate Enabled(y: Pair, step: Step) {
    match step
    case Transmit(_, msg, _, _) => msg.id !in y.used
    case Record(x, msg) => msg in y.At(x).unrecorded
    case Archive(x, msg) => msg in y.At(x).unsaved
    case Deliver(x, incoming, _, _) =>
      incoming.Payload? && incoming.contents.Decoded? ==> incoming.contents.envelope in y.At(x).inbox
  }

  function Accepting(r: Received): set<MessageId> {
    if r.reply.Some? && r.reply.value.Ack? then {r.reply.value.messageId} else {}
  }

  ghost function Next(y: Pair, cfg: ChatConfig, step: Step): Pair
    requires Enabled(y, step)
  {
    var (x, e) := (step.side, y.At(step.side));
    match step
    case Transmit(_, msg, ok, leaked) =>
      var e' := e.(sent := e.sent + {msg}, unrecorded := if ok then e.unrecorded + {msg} else e.unrecorded);
      y.With(x, e').(used := y.used + {msg.id}).Posted(x.Peer(), if ok || leaked then Some(Chat(msg)) else None)
    case Record(_, msg) =>
      var m := e.manager.(statuses := e.manager.statuses[msg.id := Sent]);
      y.With(x, e.(manager := m, unrecorded := e.unrecorded - {msg}, unsaved := e.unsaved + {msg}))
    case Archive(_, msg) =>
      y.With(x, e.(unsaved := e.unsaved - {msg}, log := e.log + [Save(msg, Sent)]))
    case Deliver(_, incoming, replySent, leaked) =>
      var r := Receive(e.manager, cfg, incoming, replySent);
      var e' := e.(manager := r.manager, accepted := e.accepted + Accepting(r), log := e.log + r.writes);
      y.With(x, e').Posted(x.Peer(), if replySent || leaked then r.reply else None)
  }

  ghost predicate ValidRun(y: Pair, cfg: ChatConfig, steps: seq<Step>)
    decreases |steps|
  {
    steps == [] || (Enabled(y, steps[0]) && ValidRun(Next(y, cfg, steps[0]), cfg, steps[1..]))
  }

  ghost function Run(y: Pair, cfg: ChatConfig, steps: seq<Step>): Pair
    requires ValidRun(y, cfg, steps)
    decreases |steps|
  {
    if steps == [] then y else Run(Next(y, cfg, steps[0]), cfg, steps[1..])
  }

  const IDLE := End(Manager(map[], {}, []), {}, {}, {}, {}, {}, [])
  const INIT := Pair(IDLE, IDLE, {})

  /** The ids of `mine` are used, and tell these messages from one another and from `theirs`. */
  ghost predicate ToldApart(used: set<MessageId>, mine: set<ChatMessage>, theirs: set<ChatMessage>) {
    && (forall v :: v in mine ==> v.id in used)
    && (forall v, w :: v in mine && w in mine && v.id == w.id ==> v == w)
    && (forall v, w :: v in mine && w in theirs ==> v.id != w.id)
  }

  ghost predicate IdsInv(y: Pair, x: Side) { ToldApart(y.used, y.At(x).sent, y.At(x.Peer()).sent) }

  ghost predicate EndInv(y: Pair, x: Side) {
    var (e, peer) := (y.At(x), y.At(x.Peer()));
    && (forall id :: Ack(id) in e.inbox ==> id in peer.accepted)
    && (forall msg :: Chat(msg) in e.inbox ==> msg in peer.sent)
    && e.unrecorded <= e.sent && e.unsaved <= e.sent && e.unrecorded !! e.unsaved
    && (forall msg :: msg in e.unrecorded ==> msg.id !in e.manager.statuses)
    && e.manager.statuses.Keys <= y.used
    && (forall id :: id in e.manager.statuses ==>
          e.manager.statuses[id] == Sent || (e.manager.statuses[id] == Delivered && id in peer.accepted))
    && e.accepted <= y.used
  }

  /** What an end has requested of its history: its own messages once, as Sent, and its peer's, as Delivered. */
  ghost predicate LogOf(e: End, theirs: set<ChatMessage>) {
    && Disciplined(e.log)
    && (forall w :: w in e.log && w.Save? ==>
          || (w.status == Sent && w.message in e.sent && w.message !in e.unrecorded && w.message !in e.unsaved)
          || (w.status == Delivered && w.message in theirs))
  }

  ghost predicate LogInv(y: Pair, x: Side) { LogOf(y.At(x), y.At(x.Peer()).sent) }

  /** And nothing accepted or sent is missing from it. */
  ghost predicate NothingMissing(e: End) {
    && (forall id :: id in e.accepted ==> SavedAs(e.log, id, Delivered))
    && (forall id :: id in e.manager.statuses ==>
          SavedAs(e.log, id, Sent) || exists msg :: msg in e.unsaved && msg.id == id)
  }

  predicate SavedAs(log: seq<HistoryWrite>, id: MessageId, status: MessageStatus) {
    exists w :: w in log && w.Save? && w.message.id == id && w.status == status
  }

  ghost predicate SideInv(y: Pair, x: Side) { IdsInv(y, x) && EndInv(y, x) && LogInv(y, x) && NothingMissing(y.At(x)) }

  ghost predicate Inv(y: Pair) { SideInv(y, Alice) && SideInv(y, Bob) }

  // Each step keeps each part of the invariant, at the end that steps and at the other.

  /** Only transmitting adds to what is sent, at its own end. */
  lemma StepSends(y: Pair, cfg: ChatConfig, step: Step, z: Side)
    requires Enabled(y, step)
    ensures var (y', added) := (Next(y, cfg, step), if step.Transmit? then {step.message} else {});
      && y'.At(z).sent == (if z == step.side then y.At(z).sent + added else y.At(z).sent)
      && y'.used == y.used + (set msg | msg in added :: msg.id)
  {
  }

  lemma FreshIsToldApart(used: set<MessageId>, mine: set<ChatMessage>, theirs: set<ChatMessage>, msg: ChatMessage)
    requires ToldApart(used, mine, theirs) && ToldApart(used, theirs, mine) && msg.id !in used
    ensures ToldApart(used + {msg.id}, mine + {msg}, theirs) && ToldApart(used + {msg.id}, theirs, mine + {msg})
  {
  }

  lemma StepKeepsIds(y: Pair, cfg: ChatConfig, step: Step, z: Side)
    requires Inv(y) && Enabled(y, step)
    ensures IdsInv(Next(y, cfg, step), z)
  {
    var (x, y') := (step.side, Next(y, cfg, step));
    assert IdsInv(y, x) && IdsInv(y, x.Peer());
    StepSends(y, cfg, step, x);
    StepSends(y, cfg, step, x.Peer());
    if step.Transmit? {
      FreshIsToldApart(y.used, y.At(x).sent, y.At(x.Peer()).sent, step.message);
      assert y'.used == y.used + {step.message.id};
    } else {
      assert y'.At(x).sent == y.At(x).sent && y'.used == y.used;
    }
    assert IdsInv(y', x) && IdsInv(y', x.Peer());
  }

  lemma TransmitKeepsSelf(y: Pair, cfg: ChatConfig, step: Step)
    requires Inv(y) && Enabled(y, step) && step.Transmit?
    ensures EndInv(Next(y, cfg, step), step.side)
  {
    assert EndInv(y, step.side) && IdsInv(y, step.side);
  }

  lemma TransmitKeepsPeer(y: Pair, cfg: ChatConfig, step: Step)
    requires Inv(y) && Enabled(y, step) && step.Transmit?
    ensures EndInv(Next(y, cfg, step), step.side.Peer())
  {
    assert EndInv(y, step.side.Peer());
  }

  lemma RecordKeepsSelf(y: Pair, cfg: ChatConfig, step: Step)
    requires Inv(y) && Enabled(y, step) && step.Record?
    ensures EndInv(Next(y, cfg, step), step.side)
  {
    assert EndInv(y, step.side) && IdsInv(y, step.side);
  }

  lemma ArchiveKeepsSelf(y: Pair, cfg: ChatConfig, step: Step)
    requires Inv(y) && Enabled(y, step) && step.Archive?
    ensures EndInv(Next(y, cfg, step), step.side)
  {
    assert EndInv(y, step.side);
  }

  /** Neither concerns the other end. */
  lemma RecordKeepsPeer(y: Pair, cfg: ChatConfig, step: Step)
    requires Inv(y) && Enabled(y, step) && (step.Record? || step.Archive?)
    ensures EndInv(Next(y, cfg, step), step.side.Peer())
  {
    assert EndInv(y, step.side.Peer());
  }

  /** What one receive can do to a manager: mark a known message Delivered for an ack it was given, no more. */
  lemma ReceiveStatuses(m: Manager, cfg: ChatConfig, incoming: Incoming, replySent: bool)
    ensures var (before, after) := (m.statuses, Receive(m, cfg, incoming, replySent).manager.statuses);
      && after.Keys == before.Keys
      && forall id :: (id in after ==>
          || after[id] == before[id]
          || (after[id] == Delivered && incoming.Payload? && incoming.contents == Decoded(Ack(id))))
  {
  }

  lemma DeliverToSelf(y: Pair, cfg: ChatConfig, step: Step)
    requires Inv(y) && Enabled(y, step) && step.Deliver?
    ensures EndInv(Next(y, cfg, step), step.side)
  {
    assert EndInv(y, step.side) && IdsInv(y, step.side.Peer());
    ReceiveStatuses(y.At(step.side).manager, cfg, step.incoming, step.replySent);
    ReceiveReplies(y.At(step.side).manager, cfg, step.incoming, step.replySent);
  }

  lemma DeliverToPeer(y: Pair, cfg: ChatConfig, step: Step)
    requires Inv(y) && Enabled(y, step) && step.Deliver?
    ensures EndInv(Next(y, cfg, step), step.side.Peer())
  {
    assert EndInv(y, step.side.Peer()) && EndInv(y, step.side);
    ReceiveReplies(y.At(step.side).manager, cfg, step.incoming, step.replySent);
  }

  lemma StepKeepsEnd(y: Pair, cfg: ChatConfig, step: Step, z: Side)
    requires Inv(y) && Enabled(y, step)
    ensures EndInv(Next(y, cfg, step), z)
  {
    match step
    case Transmit(x, _, _, _) =>
      if z == x { TransmitKeepsSelf(y, cfg, step); } else { TransmitKeepsPeer(y, cfg, step); }
    case Record(x, _) => if z == x { RecordKeepsSelf(y, cfg, step); } else { RecordKeepsPeer(y, cfg, step); }
    case Archive(x, _) => if z == x { ArchiveKeepsSelf(y, cfg, step); } else { RecordKeepsPeer(y, cfg, step); }
    case Deliver(x, _, _, _) => if z == x { DeliverToSelf(y, cfg, step); } else { DeliverToPeer(y, cfg, step); }
  }

  lemma DisciplinedAppend(log: seq<HistoryWrite>, w: HistoryWrite)
    requires Disciplined(log) && (w.StatusUpdate? ==> w.newStatus == Delivered)
    requires w.Save? ==> w.status == Delivered || forall v :: v in log && v.Save? ==> v.message.id != w.message.id
    requires w.Save? ==> forall v :: v in log && v.Save? && v.message.id == w.message.id ==> v == w
    ensures Disciplined(log + [w])
  {
  }

  lemma ArchiveKeepsLog(y: Pair, cfg: ChatConfig, step: Step)
    requires Inv(y) && Enabled(y, step) && step.Archive?
    ensures LogInv(Next(y, cfg, step), step.side)
  {
    var (x, w) := (step.side, Save(step.message, Sent));
    var log := y.At(x).log;
    assert LogInv(y, x) && EndInv(y, x) && IdsInv(y, x);
    assert forall v :: v in log && v.Save? ==> v.message.id != w.message.id;
    DisciplinedAppend(log, w);
  }

  lemma InboundKeepsLog(e: End, theirs: set<ChatMessage>, used: set<MessageId>, w: HistoryWrite)
    requires LogOf(e, theirs) && ToldApart(used, e.sent, theirs) && ToldApart(used, theirs, e.sent)
    requires if w.Save? then w.status == Delivered && w.message in theirs else w.newStatus == Delivered
    ensures LogOf(e.(log := e.log + [w]), theirs)
  {
    DisciplinedAppend(e.log, w);
  }

  lemma DeliverKeepsLog(y: Pair, cfg: ChatConfig, step: Step)
    requires Inv(y) && Enabled(y, step) && step.Deliver?
    ensures LogInv(Next(y, cfg, step), step.side)
  {
    var x := step.side;
    var (e, theirs) := (y.At(x), y.At(x.Peer()).sent);
    assert LogInv(y, x) && EndInv(y, x) && IdsInv(y, x) && IdsInv(y, x.Peer());
    var writes := Receive(e.manager, cfg, step.incoming, step.replySent).writes;
    ReceiveRequests(e.manager, cfg, step.incoming, step.replySent);
    if writes != [] {
      InboundKeepsLog(e, theirs, y.used, writes[0]);
    } else {
      assert e.log + [] == e.log;
    }
    DeliverAppends(y, cfg, step);
  }

  lemma DeliverAppends(y: Pair, cfg: ChatConfig, step: Step)
    requires Enabled(y, step) && step.Deliver?
    ensures var (e, e') := (y.At(step.side), Next(y, cfg, step).At(step.side));
      && e'.log == e.log + Receive(e.manager, cfg, step.incoming, step.replySent).writes
      && e'.sent == e.sent && e'.unrecorded == e.unrecorded && e'.unsaved == e.unsaved
    ensures Next(y, cfg, step).At(step.side.Peer()).sent == y.At(step.side.Peer()).sent
  {
  }

  lemma StepKeepsLog(y: Pair, cfg: ChatConfig, step: Step, z: Side)
    requires Inv(y) && Enabled(y, step)
    ensures LogInv(Next(y, cfg, step), z)
  {
    assert LogInv(y, z) && EndInv(y, z) && IdsInv(y, z);
    if z == step.side && step.Archive? {
      ArchiveKeepsLog(y, cfg, step);
    } else if z == step.side && step.Deliver? {
      DeliverKeepsLog(y, cfg, step);
    }
  }

  lemma SavedAsLonger(log: seq<HistoryWrite>, more: seq<HistoryWrite>, id: MessageId, status: MessageStatus)
    ensures SavedAs(log + more, id, status) <==> SavedAs(log, id, status) || SavedAs(more, id, status)
  {
    assert forall w :: w in log + more <==> w in log || w in more;
  }

  lemma DeliverSaves(y: Pair, cfg: ChatConfig, step: Step)
    requires Inv(y) && Enabled(y, step) && step.Deliver?
    ensures NothingMissing(Next(y, cfg, step).At(step.side))
  {
    var (e, e') := (y.At(step.side), Next(y, cfg, step).At(step.side));
    assert NothingMissing(e);
    DeliverAppends(y, cfg, step);
    ReceiveRequests(e.manager, cfg, step.incoming, step.replySent);
    ReceiveReplies(e.manager, cfg, step.incoming, step.replySent);
    ReceiveStatuses(e.manager, cfg, step.incoming, step.replySent);
    var writes := Receive(e.manager, cfg, step.incoming, step.replySent).writes;
    forall id, status
      ensures SavedAs(e'.log, id, status) <==> SavedAs(e.log, id, status) || SavedAs(writes, id, status)
    {
      SavedAsLonger(e.log, writes, id, status);
    }
    forall id | id in e'.accepted ensures SavedAs(e'.log, id, Delivered) {
      if id !in e.accepted { assert writes[0] in writes; }
    }
  }

  lemma ArchiveSaves(y: Pair, cfg: ChatConfig, step: Step)
    requires Inv(y) && Enabled(y, step) && step.Archive?
    ensures NothingMissing(Next(y, cfg, step).At(step.side))
  {
    var (e, e', w) := (y.At(step.side), Next(y, cfg, step).At(step.side), Save(step.message, Sent));
    assert NothingMissing(e);
    forall id, status ensures SavedAs(e'.log, id, status) <==> SavedAs(e.log, id, status) || SavedAs([w], id, status) {
      SavedAsLonger(e.log, [w], id, status);
    }
    forall id | id in e'.manager.statuses
      ensures SavedAs(e'.log, id, Sent) || exists msg :: msg in e'.unsaved && msg.id == id
    {
      if !SavedAs(e.log, id, Sent) {
        var msg :| msg in e.unsaved && msg.id == id;
        if msg == step.message { assert w in [w]; } else { assert msg in e'.unsaved; }
      }
    }
  }

  lemma RecordSaves(y: Pair, cfg: ChatConfig, step: Step)
    requires Inv(y) && Enabled(y, step) && step.Record?
    ensures NothingMissing(Next(y, cfg, step).At(step.side))
  {
    var (e, e') := (y.At(step.side), Next(y, cfg, step).At(step.side));
    assert NothingMissing(e);
    forall id | id in e'.manager.statuses
      ensures SavedAs(e'.log, id, Sent) || exists msg :: msg in e'.unsaved && msg.id == id
    {
      if id == step.message.id {
        assert step.message in e'.unsaved;
      } else if !SavedAs(e.log, id, Sent) {
        var msg :| msg in e.unsaved && msg.id == id;
        assert msg in e'.unsaved;
      }
    }
  }

  lemma StepSaves(y: Pair, cfg: ChatConfig, step: Step, z: Side)
    requires Inv(y) && Enabled(y, step)
    ensures NothingMissing(Next(y, cfg, step).At(z))
  {
    assert NothingMissing(y.At(z));
    if z == step.side {
      match step
      case Deliver(_, _, _, _) => DeliverSaves(y, cfg, step);
      case Archive(_, _) => ArchiveSaves(y, cfg, step);
      case Record(_, _) => RecordSaves(y, cfg, step);
      case Transmit(_, _, _, _) =>
    }
  }

  lemma StepKeepsInv(y: Pair, cfg: ChatConfig, step: Step)
    requires Inv(y) && Enabled(y, step)
    ensures Inv(Next(y, cfg, step))
  {
    forall z ensures SideInv(Next(y, cfg, step), z) {
      StepKeepsIds(y, cfg, step, z);
      StepKeepsEnd(y, cfg, step, z);
      StepKeepsLog(y, cfg, step, z);
      StepSaves(y, cfg, step, z);
    }
  }

  lemma {:induction false} RunKeepsInv(y: Pair, cfg: ChatConfig, steps: seq<Step>)
    requires Inv(y) && ValidRun(y, cfg, steps)
    ensures Inv(Run(y, cfg, steps))
    decreases |steps|
  {
    if steps == [] {
    } else {
      StepKeepsInv(y, cfg, steps[0]);
      RunKeepsInv(Next(y, cfg, steps[0]), cfg, steps[1..]);
    }
  }

  /** One call of send is transmitting, recording and saving, with nothing in between; a failed one leaves no trace. */
  lemma SendIsThreeSteps(y: Pair, cfg: ChatConfig, x: Side, msg: ChatMessage, attempted: Attempted)
    requires Inv(y) && msg.id !in y.used && ValidContent(msg.content)
    ensures var (m, r, writes) := Send(y.At(x).manager, msg, attempted);
            var y1 := Next(y, cfg, Transmit(x, msg, attempted.Transmitted?, false));
      if attempted.Transmitted? then
        && r == Ok((msg.id, Sent))
        && Enabled(y1, Record(x, msg)) && var y2 := Next(y1, cfg, Record(x, msg));
        && Enabled(y2, Archive(x, msg)) && var e := Next(y2, cfg, Archive(x, msg)).At(x);
        && Chat(msg) in y1.At(x.Peer()).inbox
        && e == y.At(x).(manager := m, sent := y.At(x).sent + {msg}, log := y.At(x).log + writes)
      else r.Err? && m == y.At(x).manager == y1.At(x).manager && writes == []
  {
    assert EndInv(y, x) && IdsInv(y, x);
    assert msg !in y.At(x).unrecorded && msg !in y.At(x).unsaved;
    assert (y.At(x).unrecorded + {msg}) - {msg} == y.At(x).unrecorded;
    assert (y.At(x).unsaved + {msg}) - {msg} == y.At(x).unsaved;
  }

  /** In every run, a message the sender shows as Delivered was accepted by the receiver. */
  lemma DeliveredMeansAccepted(cfg: ChatConfig, steps: seq<Step>, x: Side, id: MessageId)
    requires ValidRun(INIT, cfg, steps)
    requires var m := Run(INIT, cfg, steps).At(x).manager; id in m.statuses && m.statuses[id] == Delivered
    ensures id in Run(INIT, cfg, steps).At(x.Peer()).accepted
  {
    RunKeepsInv(INIT, cfg, steps);
    assert EndInv(Run(INIT, cfg, steps), x);
  }

  predicate ShownDelivered(m: Manager, id: MessageId) { id in m.statuses && m.statuses[id] == Delivered }

  /** Recording is of messages that are not shown yet. */
  lemma RecordSpares(y: Pair, cfg: ChatConfig, step: Step, x: Side, id: MessageId)
    requires EndInv(y, x) && Enabled(y, step) && step.Record? && ShownDelivered(y.At(x).manager, id)
    ensures ShownDelivered(Next(y, cfg, step).At(x).manager, id)
  {
  }

  lemma DeliverSpares(y: Pair, cfg: ChatConfig, step: Step, x: Side, id: MessageId)
    requires Enabled(y, step) && step.Deliver? && ShownDelivered(y.At(x).manager, id)
    ensures ShownDelivered(Next(y, cfg, step).At(x).manager, id)
  {
    ReceiveStatuses(y.At(step.side).manager, cfg, step.incoming, step.replySent);
  }

  lemma DeliveredSticksOneStep(y: Pair, cfg: ChatConfig, step: Step, x: Side, id: MessageId)
    requires Inv(y) && Enabled(y, step)
    requires id in y.At(x).manager.statuses && y.At(x).manager.statuses[id] == Delivered
    ensures var m := Next(y, cfg, step).At(x).manager; id in m.statuses && m.statuses[id] == Delivered
  {
    assert SideInv(y, x);
    match step
    case Record(_, _) => RecordSpares(y, cfg, step, x, id);
    case Deliver(_, _, _, _) => DeliverSpares(y, cfg, step, x, id);
    case _ =>
  }

  /** A Delivered entry stays Delivered in every continuation, late recording of other sends included. */
  lemma {:induction false} DeliveredNeverReverts(y: Pair, cfg: ChatConfig, more: seq<Step>, x: Side, id: MessageId)
    requires Inv(y) && ValidRun(y, cfg, more)
    requires id in y.At(x).manager.statuses && y.At(x).manager.statuses[id] == Delivered
    ensures var m := Run(y, cfg, more).At(x).manager; id in m.statuses && m.statuses[id] == Delivered
    decreases |more|
  {
    if more == [] {
    } else {
      DeliveredSticksOneStep(y, cfg, more[0], x, id);
      StepKeepsInv(y, cfg, more[0]);
      DeliveredNeverReverts(Next(y, cfg, more[0]), cfg, more[1..], x, id);
    }
  }

  /** Delivering an ack makes a message Delivered exactly when the sender has already recorded it. */
  lemma AckCountsIffRecorded(y: Pair, cfg: ChatConfig, x: Side, id: MessageId, from: string, size: nat)
    requires Inv(y) && Ack(id) in y.At(x).inbox && size <= cfg.maxPayloadSize
    ensures var y' := Next(y, cfg, Deliver(x, Payload(from, size, Decoded(Ack(id))), false, false));
            var statuses := y'.At(x).manager.statuses;
      (id in statuses && statuses[id] == Delivered) <==> id in y.At(x).manager.statuses
  {
  }

  /**
   The converse of `DeliveredMeansAccepted` fails: whatever else has happened, an ack that overtakes
   the recording of its message leaves the message Sent, accepted and acknowledged though it is.
   */
  lemma EarlyAckIsLost(y: Pair, cfg: ChatConfig, x: Side, msg: ChatMessage, from: string, size: nat)
    requires Inv(y) && msg.id !in y.used && msg.id !in y.At(x.Peer()).manager.seen && size <= cfg.maxPayloadSize
    ensures
      var transmit := Transmit(x, msg, true, false);
      var arrive := Deliver(x.Peer(), Payload(from, size, Decoded(Chat(msg))), true, false);
      var acked := Deliver(x, Payload(from, size, Decoded(Ack(msg.id))), false, false);
      var y1 := Next(y, cfg, transmit);
      Enabled(y1, arrive) && var y2 := Next(y1, cfg, arrive);
      Enabled(y2, acked) && var y3 := Next(y2, cfg, acked);
      Enabled(y3, Record(x, msg)) && var y4 := Next(y3, cfg, Record(x, msg));
      && msg.id in y4.At(x.Peer()).accepted
      && msg.id in y4.At(x).manager.statuses && y4.At(x).manager.statuses[msg.id] == Sent
  {
    assert EndInv(y, x) && EndInv(y, x.Peer());
  }

  // ---------- What the pipeline requests of its history ----------

  /**
   In every run, an end has asked its history to save every message it has accepted, as Delivered, and every message
   it shows as sent, as Sent, but for those it is about to save.
   */
  lemma NothingUnsaved(cfg: ChatConfig, steps: seq<Step>, x: Side, id: MessageId)
    requires ValidRun(INIT, cfg, steps)
    ensures var e := Run(INIT, cfg, steps).At(x);
      && (id in e.accepted ==> SavedAs(e.log, id, Delivered))
      && (id in e.manager.statuses ==> SavedAs(e.log, id, Sent) || exists msg :: msg in e.unsaved && msg.id == id)
  {
    RunKeepsInv(INIT, cfg, steps);
    assert NothingMissing(Run(INIT, cfg, steps).At(x));
  }

  /** In every run, what either end requests of its history is disciplined. */
  lemma HistoryIsDisciplined(cfg: ChatConfig, steps: seq<Step>, x: Side)
    requires ValidRun(INIT, cfg, steps)
    ensures Disciplined(Run(INIT, cfg, steps).At(x).log)
  {
    RunKeepsInv(INIT, cfg, steps);
    assert LogInv(Run(INIT, cfg, steps), x);
  }

  /**
   So a history that got the requests of one end loses none of them, however its store failed, and settles: once
   nothing is in progress, two clean passes leave what a history that never failed would hold.
   */
  lemma HistoryOfAnEndSettles(cfg: ChatConfig, steps: seq<Step>, x: Side, writes: seq<History.Step>)
    requires ValidRun(INIT, cfg, steps) && History.ValidRun(History.INIT, writes)
    requires History.Run(History.INIT, writes).log == Run(INIT, cfg, steps).At(x).log
    ensures var (h, log) := (History.Run(History.INIT, writes), Run(INIT, cfg, steps).At(x).log);
      && (forall w :: w in log ==> Reflected(h.store, w) || w in h.pending || w in h.taken || w in h.failed)
      && (h.taken == h.failed == multiset{} ==>
            var (m1, p1) := Flush(h.store, h.pending, []);
            var (n, q) := Faultless(map[], [], log);
            var (n1, q1) := Flush(n, q, []);
            Flush(m1, p1, []).0 == Flush(n1, q1, []).0)
  {
    HistoryIsDisciplined(cfg, steps, x);
    var h := History.Run(History.INIT, writes);
    forall w | w in h.log ensures Reflected(h.store, w) || w in h.pending || w in h.taken || w in h.failed {
      NothingIsLost(writes, w);
    }
    if h.taken == h.failed == multiset{} { AgreesWithNeverFailing(writes); }
  }
}
