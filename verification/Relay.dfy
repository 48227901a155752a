/**
 The relay at the grain of its awaits. Looking a recipient up, sending to its channel, unregistering
 it and storing for it are separate steps, interleaved with connections that register, drain, write,
 stop and clean up. A cleanup unregisters its peer id whichever connection holds it by then.
 */
module Relay {
  import opened Counting
  import opened RelayStore

  /** A client's payload, or a room message that one client sends another; only payloads have a size limit. */
  datatype Body = Payload(bytes: string) | RoomMessage(bytes: string) {
    predicate Fits(max: nat) { Payload? ==> |bytes| <= max }
  }

  /** Something the relay accepted for routing; the token is its place in the order of acceptance. */
  datatype Msg = Msg(token: nat, from: string, to: string, body: Body)

  /** Where a connection's reader is with the payload in its hands. */
  datatype Routing =
    | Idle
    | Lookup(msg: Msg)
    | Forward(msg: Msg, chan: nat)   // it holds a clone of this channel's sender
    | Unregister(msg: Msg)
    | Store(msg: Msg)

  datatype Phase =
    | Registered   // in the registry, not yet acknowledged
    | Acked
    | Draining     // the queue has been taken, and is being sent
    | Running      // reader and writer tasks
    | Stopped      // one of them has ended, the other is told to
    | Closed       // cleaned up
    | Refused      // the acknowledgement could not be sent: there will be no writer
    | Discarded    // refused and cleaned up

  datatype Conn = Conn(
    peer: string,
    phase: Phase,
    open: bool,               // the receiving half of the channel exists
    channel: seq<Msg>,
    backlog: seq<Msg>,        // drained from the queue, not yet on the socket
    delivered: seq<Msg>,      // written to the socket
    routing: Routing)

  datatype Relay = Relay(
    conns: seq<Conn>,         // every connection ever, in order of registration
    registry: map<string, nat>,
    queues: Queues<Msg>,
    lost: seq<Msg>,           // the ledger of losses
    accepted: seq<Msg>,
    origins: seq<nat>)        // which connection submitted each accepted payload

  datatype Config = Config(maxPayload: nat, maxQueue: nat)

  datatype Step =
    | Register(peer: string)
    | SendAck(c: nat, ok: bool)
    | Drain(c: nat)
    | SendBacklog(c: nat, ok: bool)
    | Spawn(c: nat)
    | Write(c: nat, ok: bool)
    | Stop(c: nat)
    | DropChannel(c: nat)
    | Cleanup(c: nat)
    | Accept(c: nat, claimedFrom: string, to: string, body: Body)
    | LookUp(c: nat)
    | SendOn(c: nat, encodes: bool)
    | UnregisterRecipient(c: nat)
    | StoreFor(c: nat)
    | AbortReader(c: nat)

  predicate HasReader(p: Phase) { p.Running? || p.Stopped? || p.Closed? }

  predicate Enabled(y: Relay, cfg: Config, step: Step) {
    if step.Register? then step.peer != ""
    else step.c < |y.conns| && var conn := y.conns[step.c];
      match step
      case SendAck(_, _) => conn.phase.Registered?
      case Drain(_) => conn.phase.Acked?
      case SendBacklog(_, _) => conn.phase.Draining? && conn.backlog != []
      case Spawn(_) => conn.phase.Draining? && conn.backlog == []
      case Write(_, _) => HasReader(conn.phase) && conn.channel != []
      case Stop(_) => conn.phase.Running?
      case DropChannel(_) =>
        !(conn.phase.Registered? || conn.phase.Acked? || conn.phase.Draining? || conn.phase.Running?)
      case Cleanup(_) => conn.phase.Stopped? || conn.phase.Refused?
      case Accept(_, _, _, body) => HasReader(conn.phase) && conn.routing.Idle? && body.Fits(cfg.maxPayload)
      case LookUp(_) => conn.routing.Lookup?
      case SendOn(_, _) => conn.routing.Forward? && conn.routing.chan < |y.conns|
      case UnregisterRecipient(_) => conn.routing.Unregister?
      case StoreFor(_) => conn.routing.Store?
      case AbortReader(_) => conn.phase.Stopped? || conn.phase.Closed?
  }

  function Carried(r: Routing): seq<Msg> {
    if r.Idle? then [] else [r.msg]
  }

  function Next(y: Relay, cfg: Config, step: Step): Relay
    requires Enabled(y, cfg, step)
  {
    if step.Register? then
      y.(conns := y.conns + [Conn(step.peer, Registered, true, [], [], [], Idle)],
         registry := y.registry[step.peer := |y.conns|])
    else
      var c := step.c;
      var conn := y.conns[c];
      match step
      case SendAck(_, ok) => y.(conns := y.conns[c := conn.(phase := if ok then Acked else Refused)])
      case Drain(_) =>
        y.(conns := y.conns[c := conn.(phase := Draining, backlog := QueueOf(y.queues, conn.peer))],
           queues := y.queues - {conn.peer})
      case SendBacklog(_, ok) =>
        if ok then
          var conn' := conn.(backlog := conn.backlog[1..], delivered := conn.delivered + [conn.backlog[0]]);
          y.(conns := y.conns[c := conn'])
        else y.(conns := y.conns[c := conn.(backlog := [])], lost := y.lost + conn.backlog)
      case Spawn(_) => y.(conns := y.conns[c := conn.(phase := Running)])
      case Write(_, ok) =>
        if ok then
          var conn' := conn.(channel := conn.channel[1..], delivered := conn.delivered + [conn.channel[0]]);
          y.(conns := y.conns[c := conn'])
        else
          var phase := if conn.phase.Running? then Stopped else conn.phase;
          y.(conns := y.conns[c := conn.(phase := phase, open := false, channel := [])], lost := y.lost + conn.channel)
      case Stop(_) => y.(conns := y.conns[c := conn.(phase := Stopped)])
      case DropChannel(_) =>
        y.(conns := y.conns[c := conn.(open := false, channel := [])], lost := y.lost + conn.channel)
      case Cleanup(_) =>
        y.(conns := y.conns[c := conn.(phase := if conn.phase.Refused? then Discarded else Closed)],
           registry := y.registry - {conn.peer})
      case Accept(_, _, to, body) =>
        // the claimed sender is ignored: the registered id is put in its place
        var msg := Msg(|y.accepted|, conn.peer, to, body);
        y.(conns := y.conns[c := conn.(routing := Lookup(msg))],
           accepted := y.accepted + [msg],
           origins := y.origins + [c])
      case LookUp(_) =>
        var msg := conn.routing.msg;
        var found := if msg.to in y.registry then Forward(msg, y.registry[msg.to]) else Store(msg);
        y.(conns := y.conns[c := conn.(routing := found)])
      case SendOn(_, encodes) =>
        var (msg, d) := (conn.routing.msg, conn.routing.chan);
        if !encodes then y.(conns := y.conns[c := conn.(routing := Idle)], lost := y.lost + [msg])
        else if !y.conns[d].open then y.(conns := y.conns[c := conn.(routing := Unregister(msg))])
        else
          var idle := y.conns[c := conn.(routing := Idle)];
          y.(conns := idle[d := idle[d].(channel := idle[d].channel + [msg])])
      case UnregisterRecipient(_) =>
        var msg := conn.routing.msg;
        y.(conns := y.conns[c := conn.(routing := Store(msg))], registry := y.registry - {msg.to})
      case StoreFor(_) =>
        var msg := conn.routing.msg;
        y.(conns := y.conns[c := conn.(routing := Idle)],
           queues := Enqueue(y.queues, msg.to, msg, cfg.maxQueue),
           lost := y.lost + Evicted(QueueOf(y.queues, msg.to), msg, cfg.maxQueue))
      case AbortReader(_) => y.(conns := y.conns[c := conn.(routing := Idle)], lost := y.lost + Carried(conn.routing))
  }

  predicate ValidRun(y: Relay, cfg: Config, steps: seq<Step>)
    decreases |steps|
  {
    steps == [] || (Enabled(y, cfg, steps[0]) && ValidRun(Next(y, cfg, steps[0]), cfg, steps[1..]))
  }

  function Run(y: Relay, cfg: Config, steps: seq<Step>): Relay
    requires ValidRun(y, cfg, steps)
    decreases |steps|
  {
    if steps == [] then y else Run(Next(y, cfg, steps[0]), cfg, steps[1..])
  }

  lemma RunCons(y: Relay, cfg: Config, step: Step, rest: seq<Step>)
    requires Enabled(y, cfg, step) && ValidRun(Next(y, cfg, step), cfg, rest)
    ensures ValidRun(y, cfg, [step] + rest) && Run(y, cfg, [step] + rest) == Run(Next(y, cfg, step), cfg, rest)
  {
    assert ([step] + rest)[1..] == rest;
  }

  const INIT := Relay([], map[], map[], [], [], [])

  // ---------- Where a payload is ----------

  /** How often a connection has a payload: on the socket, in its channel, in its backlog, in its reader's hands. */
  function Part(conn: Conn, m: Msg): nat {
    Count(conn.delivered, m) + Count(conn.channel, m) + Count(conn.backlog, m) + Count(Carried(conn.routing), m)
  }

  function InConns(conns: seq<Conn>, m: Msg): nat {
    if conns == [] then 0 else InConns(conns[..|conns| - 1], m) + Part(conns[|conns| - 1], m)
  }

  /** In how many places a payload is: connections, the queue of its recipient, the ledger. */
  function Places(y: Relay, m: Msg): nat {
    InConns(y.conns, m) + Count(QueueOf(y.queues, m.to), m) + Count(y.lost, m)
  }

  ghost predicate Conserved(y: Relay) {
    && (forall m :: Places(y, m) == Count(y.accepted, m))
    && (forall p, m :: m in QueueOf(y.queues, p) ==> m.to == p)
  }

  /** Every accepted payload is numbered, within the size limit, and from the id its connection registered with. */
  ghost predicate Attributed(y: Relay, cfg: Config) {
    && |y.origins| == |y.accepted|
    && (forall t :: 0 <= t < |y.accepted| ==>
          && y.accepted[t].token == t && y.accepted[t].body.Fits(cfg.maxPayload)
          && y.origins[t] < |y.conns|
          && y.conns[y.origins[t]].peer == y.accepted[t].from)
  }

  /** Replacing one connection moves payloads between it and elsewhere. */
  lemma {:induction false} UpdateCounts(conns: seq<Conn>, c: nat, conn: Conn, m: Msg)
    requires c < |conns|
    ensures InConns(conns[c := conn], m) + Part(conns[c], m) == InConns(conns, m) + Part(conn, m)
  {
    var last := |conns| - 1;
    if c < last {
      assert conns[c := conn][..last] == conns[..last][c := conn];
      UpdateCounts(conns[..last], c, conn, m);
    } else {
      assert conns[c := conn][..last] == conns[..last];
    }
  }

  lemma PushEvicts(q: seq<Msg>, msg: Msg, cap: nat, m: Msg)
    ensures Count(Push(q, msg, cap), m) + Count(Evicted(q, msg, cap), m) == Count(q, m) + Count([msg], m)
  {
    CountJoin(q, [msg], m);
    CountHead(q + [msg], m);
    if |q + [msg]| > cap {
      assert Evicted(q, msg, cap) == [(q + [msg])[0]];
    }
  }

  /** What a step adds to the accepted payloads. */
  function Added(y: Relay, step: Step): seq<Msg> {
    if step.Accept? && step.c < |y.conns| then [Msg(|y.accepted|, y.conns[step.c].peer, step.to, step.body)] else []
  }

  lemma RegisterCounts(y: Relay, cfg: Config, step: Step, m: Msg)
    requires Enabled(y, cfg, step) && step.Register?
    ensures Places(Next(y, cfg, step), m) == Places(y, m)
  {
    var y' := Next(y, cfg, step);
    assert y'.conns[..|y.conns|] == y.conns;
  }

  /** The steps that change one connection and hand over no more than the ledger takes. */
  predicate Local(step: Step) {
    step.SendAck? || step.Spawn? || step.Stop? || step.DropChannel? || step.Cleanup?
    || step.LookUp? || step.UnregisterRecipient? || step.AbortReader?
  }

  lemma ReplacedCounts(y: Relay, y': Relay, c: nat, conn: Conn, m: Msg)
    requires c < |y.conns| && y'.conns == y.conns[c := conn] && y'.queues == y.queues
    requires Part(conn, m) + Count(y'.lost, m) == Part(y.conns[c], m) + Count(y.lost, m)
    ensures Places(y', m) == Places(y, m)
  {
    UpdateCounts(y.conns, c, conn, m);
  }

  lemma SendBacklogCounts(y: Relay, cfg: Config, c: nat, ok: bool, m: Msg)
    requires Enabled(y, cfg, SendBacklog(c, ok))
    ensures Places(Next(y, cfg, SendBacklog(c, ok)), m) == Places(y, m)
  {
    var conn := y.conns[c];
    if ok {
      CountHead(conn.backlog, m);
      CountJoin(conn.delivered, [conn.backlog[0]], m);
    } else {
      CountJoin(y.lost, conn.backlog, m);
    }
    ReplacedCounts(y, Next(y, cfg, SendBacklog(c, ok)), c, Next(y, cfg, SendBacklog(c, ok)).conns[c], m);
  }

  lemma WriteCounts(y: Relay, cfg: Config, c: nat, ok: bool, m: Msg)
    requires Enabled(y, cfg, Write(c, ok))
    ensures Places(Next(y, cfg, Write(c, ok)), m) == Places(y, m)
  {
    var conn := y.conns[c];
    if ok {
      CountHead(conn.channel, m);
      CountJoin(conn.delivered, [conn.channel[0]], m);
    } else {
      CountJoin(y.lost, conn.channel, m);
    }
    ReplacedCounts(y, Next(y, cfg, Write(c, ok)), c, Next(y, cfg, Write(c, ok)).conns[c], m);
  }

  lemma LocalCounts(y: Relay, cfg: Config, step: Step, m: Msg)
    requires Enabled(y, cfg, step) && Local(step)
    ensures Places(Next(y, cfg, step), m) == Places(y, m)
  {
    var y' := Next(y, cfg, step);
    var conn := y.conns[step.c];
    CountJoin(y.lost, conn.channel, m);
    CountJoin(y.lost, Carried(conn.routing), m);
    ReplacedCounts(y, y', step.c, y'.conns[step.c], m);
  }

  lemma DrainCounts(y: Relay, cfg: Config, step: Step, m: Msg)
    requires Shape(y) && Conserved(y) && Enabled(y, cfg, step) && step.Drain?
    ensures Places(Next(y, cfg, step), m) == Places(y, m)
  {
    var y' := Next(y, cfg, step);
    var conn := y.conns[step.c];
    assert conn in y.conns && ConnShape(conn, |y.conns|);
    UpdateCounts(y.conns, step.c, y'.conns[step.c], m);
    assert Part(y'.conns[step.c], m) == Part(conn, m) + Count(QueueOf(y.queues, conn.peer), m);
    if m.to != conn.peer {
      CountPositive(QueueOf(y.queues, conn.peer), m);
      assert QueueOf(y'.queues, m.to) == QueueOf(y.queues, m.to);
    } else {
      assert QueueOf(y'.queues, m.to) == [];
    }
  }

  lemma AcceptCounts(y: Relay, cfg: Config, step: Step, m: Msg)
    requires Enabled(y, cfg, step) && step.Accept?
    ensures Places(Next(y, cfg, step), m) == Places(y, m) + Count(Added(y, step), m)
  {
    var y' := Next(y, cfg, step);
    UpdateCounts(y.conns, step.c, y'.conns[step.c], m);
  }

  lemma SendOnCounts(y: Relay, cfg: Config, step: Step, m: Msg)
    requires Enabled(y, cfg, step) && step.SendOn?
    ensures Places(Next(y, cfg, step), m) == Places(y, m)
  {
    var (c, d) := (step.c, y.conns[step.c].routing.chan);
    var conn := y.conns[c];
    var msg := conn.routing.msg;
    UpdateCounts(y.conns, c, conn.(routing := Idle), m);
    if !step.encodes {
      CountJoin(y.lost, [msg], m);
    } else if y.conns[d].open {
      var idle := y.conns[c := conn.(routing := Idle)];
      UpdateCounts(idle, d, idle[d].(channel := idle[d].channel + [msg]), m);
      CountJoin(idle[d].channel, [msg], m);
    } else {
      UpdateCounts(y.conns, c, conn.(routing := Unregister(msg)), m);
    }
  }

  /** Storing adds the payload to its recipient's queue, and moves what that evicts to the ledger. */
  lemma EnqueueCounts(qs: Queues<Msg>, lost: seq<Msg>, msg: Msg, cap: nat, m: Msg)
    requires forall x :: x in QueueOf(qs, msg.to) ==> x.to == msg.to
    ensures Count(QueueOf(Enqueue(qs, msg.to, msg, cap), m.to), m)
              + Count(lost + Evicted(QueueOf(qs, msg.to), msg, cap), m)
         == Count(QueueOf(qs, m.to), m) + Count(lost, m) + Count([msg], m)
  {
    var q := QueueOf(qs, msg.to);
    PushEvicts(q, msg, cap, m);
    CountJoin(lost, Evicted(q, msg, cap), m);
    if m.to != msg.to {
      CountPositive(Evicted(q, msg, cap), m);
      CountPositive([msg], m);
      assert forall x :: x in Evicted(q, msg, cap) ==> x in q + [msg];
    }
  }

  lemma StoreCounts(y: Relay, cfg: Config, step: Step, m: Msg)
    requires Enabled(y, cfg, step) && step.StoreFor?
    requires forall p, x :: x in QueueOf(y.queues, p) ==> x.to == p
    ensures Places(Next(y, cfg, step), m) == Places(y, m)
  {
    var conn := y.conns[step.c];
    UpdateCounts(y.conns, step.c, conn.(routing := Idle), m);
    EnqueueCounts(y.queues, y.lost, conn.routing.msg, cfg.maxQueue, m);
  }

  /** The bookkeeping the counting relies on. */
  predicate ConnShape(conn: Conn, n: nat) {
    && ((conn.phase.Registered? || conn.phase.Acked?) ==> conn.backlog == [])
    && (conn.routing.Forward? ==> conn.routing.chan < n)
  }

  ghost predicate Shape(y: Relay) {
    && (forall conn :: conn in y.conns ==> ConnShape(conn, |y.conns|))
    && (forall p :: p in y.registry ==> y.registry[p] < |y.conns|)
  }

  /** Only sending to a channel touches another connection, and then only that channel. */
  lemma OtherConnKept(y: Relay, cfg: Config, step: Step, i: nat)
    requires Enabled(y, cfg, step) && i < |y.conns| && (step.Register? || i != step.c)
    ensures var conn := Next(y, cfg, step).conns[i]; conn == y.conns[i].(channel := conn.channel)
    ensures |y.conns| <= |Next(y, cfg, step).conns|
  {
  }

  lemma OwnConnShape(y: Relay, cfg: Config, step: Step)
    requires Shape(y) && Enabled(y, cfg, step) && !step.Register?
    ensures ConnShape(Next(y, cfg, step).conns[step.c], |y.conns|) && |y.conns| == |Next(y, cfg, step).conns|
  {
    assert y.conns[step.c] in y.conns;
  }

  lemma StepKeepsConnShape(y: Relay, cfg: Config, step: Step, i: nat)
    requires Shape(y) && Enabled(y, cfg, step) && i < |Next(y, cfg, step).conns|
    ensures ConnShape(Next(y, cfg, step).conns[i], |Next(y, cfg, step).conns|)
  {
    if i < |y.conns| && (step.Register? || i != step.c) {
      OtherConnKept(y, cfg, step, i);
      assert y.conns[i] in y.conns;
    } else if !step.Register? {
      OwnConnShape(y, cfg, step);
    }
  }

  lemma StepKeepsShape(y: Relay, cfg: Config, step: Step)
    requires Shape(y) && Enabled(y, cfg, step)
    ensures Shape(Next(y, cfg, step))
  {
    var y' := Next(y, cfg, step);
    forall conn | conn in y'.conns ensures ConnShape(conn, |y'.conns|) {
      var i :| 0 <= i < |y'.conns| && y'.conns[i] == conn;
      StepKeepsConnShape(y, cfg, step, i);
    }
  }

  lemma StepCounts(y: Relay, cfg: Config, step: Step, m: Msg)
    requires Shape(y) && Conserved(y) && Enabled(y, cfg, step)
    ensures Places(Next(y, cfg, step), m) == Places(y, m) + Count(Added(y, step), m)
  {
    match step
    case Register(_) => RegisterCounts(y, cfg, step, m);
    case Drain(_) => DrainCounts(y, cfg, step, m);
    case Accept(_, _, _, _) => AcceptCounts(y, cfg, step, m);
    case SendOn(_, _) => SendOnCounts(y, cfg, step, m);
    case StoreFor(_) => StoreCounts(y, cfg, step, m);
    case SendBacklog(c, ok) => SendBacklogCounts(y, cfg, c, ok, m);
    case Write(c, ok) => WriteCounts(y, cfg, c, ok, m);
    case _ => LocalCounts(y, cfg, step, m);
  }

  lemma StepKeepsFiling(y: Relay, cfg: Config, step: Step, p: string, m: Msg)
    requires Conserved(y) && Enabled(y, cfg, step) && m in QueueOf(Next(y, cfg, step).queues, p)
    ensures m.to == p
  {
    if step.StoreFor? {
      var msg := y.conns[step.c].routing.msg;
      var q := QueueOf(y.queues, msg.to);
      if p == msg.to {
        assert m in q + [msg];
      } else {
        assert m in QueueOf(y.queues, p);
      }
    } else {
      assert m in QueueOf(y.queues, p);
    }
  }

  lemma StepBalances(y: Relay, cfg: Config, step: Step, m: Msg)
    requires Shape(y) && Conserved(y) && Enabled(y, cfg, step)
    ensures Places(Next(y, cfg, step), m) == Count(Next(y, cfg, step).accepted, m)
  {
    StepCounts(y, cfg, step, m);
    StepAccepts(y, cfg, step);
    CountJoin(y.accepted, Added(y, step), m);
    assert Places(y, m) == Count(y.accepted, m);
  }

  lemma StepAccepts(y: Relay, cfg: Config, step: Step)
    requires Enabled(y, cfg, step)
    ensures Next(y, cfg, step).accepted == y.accepted + Added(y, step)
  {
    assert y.accepted + [] == y.accepted;
  }

  lemma StepConserves(y: Relay, cfg: Config, step: Step)
    requires Shape(y) && Conserved(y) && Enabled(y, cfg, step)
    ensures Conserved(Next(y, cfg, step))
  {
    var y' := Next(y, cfg, step);
    forall m ensures Places(y', m) == Count(y'.accepted, m) {
      StepBalances(y, cfg, step, m);
    }
    forall p, m | m in QueueOf(y'.queues, p) ensures m.to == p {
      StepKeepsFiling(y, cfg, step, p, m);
    }
  }

  lemma StepAttributes(y: Relay, cfg: Config, step: Step)
    requires Attributed(y, cfg) && Enabled(y, cfg, step)
    ensures Attributed(Next(y, cfg, step), cfg)
  {
    var y' := Next(y, cfg, step);
    forall t | 0 <= t < |y'.accepted|
      ensures y'.accepted[t].token == t && y'.accepted[t].body.Fits(cfg.maxPayload)
      ensures y'.origins[t] < |y'.conns| && y'.conns[y'.origins[t]].peer == y'.accepted[t].from
    {
      if t < |y.accepted| { assert y'.accepted[t] == y.accepted[t] && y'.origins[t] == y.origins[t]; }
    }
  }

  lemma {:induction false} RunKeepsInv(y: Relay, cfg: Config, steps: seq<Step>)
    requires Shape(y) && Conserved(y) && Attributed(y, cfg) && ValidRun(y, cfg, steps)
    ensures var y' := Run(y, cfg, steps); Shape(y') && Conserved(y') && Attributed(y', cfg)
    decreases |steps|
  {
    if steps == [] {
    } else {
      StepKeepsShape(y, cfg, steps[0]);
      StepConserves(y, cfg, steps[0]);
      StepAttributes(y, cfg, steps[0]);
      RunKeepsInv(Next(y, cfg, steps[0]), cfg, steps[1..]);
    }
  }

  /**
   Conservation, in every interleaving: each accepted payload is in exactly one place -- a reader's hands,
   a channel, a backlog, a queue, a socket or the ledger of losses -- and nothing else is anywhere.
   */
  lemma EachPayloadInOnePlace(cfg: Config, steps: seq<Step>, m: Msg)
    requires ValidRun(INIT, cfg, steps)
    ensures var y := Run(INIT, cfg, steps); Places(y, m) == if m in y.accepted then 1 else 0
  {
    RunKeepsInv(INIT, cfg, steps);
    var y := Run(INIT, cfg, steps);
    AcceptedOnce(y, cfg, |y.accepted|, m);
    assert y.accepted[..|y.accepted|] == y.accepted;
  }

  lemma {:induction false} AcceptedOnce(y: Relay, cfg: Config, n: nat, m: Msg)
    requires Attributed(y, cfg) && n <= |y.accepted|
    ensures Count(y.accepted[..n], m) == if m in y.accepted[..n] then 1 else 0
  {
    if n == 0 {
    } else {
      AcceptedOnce(y, cfg, n - 1, m);
      assert y.accepted[..n] == y.accepted[..n - 1] + [y.accepted[n - 1]];
      assert y.accepted[..n][..n - 1] == y.accepted[..n - 1];
    }
  }

  lemma {:induction false} ConnHolds(conns: seq<Conn>, c: nat, m: Msg)
    requires c < |conns|
    ensures InConns(conns, m) >= Part(conns[c], m)
  {
    var last := |conns| - 1;
    if c < last { ConnHolds(conns[..last], c, m); }
  }

  lemma TwoConnsHold(conns: seq<Conn>, c: nat, d: nat, m: Msg)
    requires c < |conns| && d < |conns| && c != d
    ensures InConns(conns, m) >= Part(conns[c], m) + Part(conns[d], m)
  {
    var nothing := Conn("", Closed, false, [], [], [], Idle);
    UpdateCounts(conns, c, nothing, m);
    ConnHolds(conns[c := nothing], d, m);
  }

  /** No payload is written to a socket twice, whatever the connections and positions. */
  lemma NoDoubleDelivery(cfg: Config, steps: seq<Step>, c: nat, i: nat, d: nat, j: nat)
    requires ValidRun(INIT, cfg, steps)
    requires var conns := Run(INIT, cfg, steps).conns;
      c < |conns| && d < |conns| && i < |conns[c].delivered| && j < |conns[d].delivered|
      && conns[c].delivered[i] == conns[d].delivered[j]
    ensures c == d && i == j
  {
    var y := Run(INIT, cfg, steps);
    var m := y.conns[c].delivered[i];
    EachPayloadInOnePlace(cfg, steps, m);
    CountPositive(y.conns[c].delivered, m);
    CountPositive(y.conns[d].delivered, m);
    if c != d {
      TwoConnsHold(y.conns, c, d, m);
    } else {
      ConnHolds(y.conns, c, m);
      if i != j { TwiceIn(y.conns[c].delivered, i, j); }
    }
  }

  /**
   A delivered payload is within the size limit and carries the id its submitter registered with, whatever sender
   the client claimed.
   */
  lemma DeliveredFromSubmitter(cfg: Config, steps: seq<Step>, c: nat, m: Msg)
    requires ValidRun(INIT, cfg, steps)
    requires var y := Run(INIT, cfg, steps); c < |y.conns| && m in y.conns[c].delivered
    ensures var y := Run(INIT, cfg, steps);
      && m.token < |y.accepted| && y.accepted[m.token] == m && m.body.Fits(cfg.maxPayload)
      && m.token < |y.origins| && y.origins[m.token] < |y.conns|
      && y.conns[y.origins[m.token]].peer == m.from
  {
    var y := Run(INIT, cfg, steps);
    RunKeepsInv(INIT, cfg, steps);
    CountPositive(y.conns[c].delivered, m);
    ConnHolds(y.conns, c, m);
    EachPayloadInOnePlace(cfg, steps, m);
    var t :| 0 <= t < |y.accepted| && y.accepted[t] == m;
  }

  // ---------- What is lost, and what gets through ----------

  /** Payloads of any size up to the limit are accepted, and room messages of any size. */
  lemma FitsIff(bytes: string, max: nat)
    ensures Payload(bytes).Fits(max) <==> |bytes| <= max
    ensures RoomMessage(bytes).Fits(max)
  {
  }

  /** Outcomes are free: what can succeed can fail, and once a task has ended the reader or the channel can go. */
  lemma OutcomesAreFree(y: Relay, cfg: Config, c: nat, ok: bool)
    requires c < |y.conns|
    ensures Enabled(y, cfg, SendAck(c, ok)) <==> y.conns[c].phase == Registered
    ensures Enabled(y, cfg, SendBacklog(c, ok)) <==> y.conns[c].phase == Draining && y.conns[c].backlog != []
    ensures Enabled(y, cfg, Write(c, ok)) <==> HasReader(y.conns[c].phase) && y.conns[c].channel != []
    ensures y.conns[c].routing.Forward? && y.conns[c].routing.chan < |y.conns| ==> Enabled(y, cfg, SendOn(c, ok))
    ensures y.conns[c].phase in {Stopped, Closed} ==>
      Enabled(y, cfg, AbortReader(c)) && Enabled(y, cfg, DropChannel(c))
    ensures y.conns[c].phase in {Refused, Discarded} ==> Enabled(y, cfg, DropChannel(c))
  {
  }

  /** A fault, or a queue at its cap: the only ways to lose a payload. */
  predicate Loses(y: Relay, cfg: Config, step: Step)
    requires Enabled(y, cfg, step)
  {
    match step
    case SendBacklog(_, ok) => !ok
    case Write(_, ok) => !ok
    case SendOn(_, encodes) => !encodes
    case DropChannel(c) => y.conns[c].channel != []
    case AbortReader(c) => !y.conns[c].routing.Idle?
    case StoreFor(c) => |QueueOf(y.queues, y.conns[c].routing.msg.to)| >= cfg.maxQueue
    case _ => false
  }

  lemma StepLosesIff(y: Relay, cfg: Config, step: Step)
    requires Enabled(y, cfg, step)
    ensures Next(y, cfg, step).lost != y.lost <==> Loses(y, cfg, step)
    ensures y.lost <= Next(y, cfg, step).lost
  {
  }

  /** With a queue not at its cap beforehand, what is lost on storing is nothing; at its cap, it is the oldest. */
  lemma StoringLosesOldest(y: Relay, cfg: Config, c: nat)
    requires Enabled(y, cfg, StoreFor(c))
    ensures var (msg, lost) := (y.conns[c].routing.msg, Next(y, cfg, StoreFor(c)).lost);
            var q := QueueOf(y.queues, msg.to);
      lost == y.lost + (if |q| < cfg.maxQueue then [] else if q == [] then [msg] else [q[0]])
  {
  }

  /** A message for a peer whose connection is running and has nothing waiting is written to its socket, untouched. */
  lemma IdleRecipientGets(y: Relay, cfg: Config, c: nat, d: nat, to: string, body: Body)
    requires Enabled(y, cfg, Accept(c, "", to, body)) && c != d && d < |y.conns|
    requires to in y.registry && y.registry[to] == d
    requires y.conns[d].phase == Running && y.conns[d].open && y.conns[d].channel == []
    ensures var steps := [Accept(c, "", to, body)] + ([LookUp(c)] + ([SendOn(c, true)] + ([Write(d, true)] + [])));
            var msg := Msg(|y.accepted|, y.conns[c].peer, to, body);
      && ValidRun(y, cfg, steps)
      && Run(y, cfg, steps).conns == y.conns[d := y.conns[d].(delivered := y.conns[d].delivered + [msg])]
      && Run(y, cfg, steps).lost == y.lost
  {
    var y1 := Next(y, cfg, Accept(c, "", to, body));
    var y2 := Next(y1, cfg, LookUp(c));
    var y3 := Next(y2, cfg, SendOn(c, true));
    RunCons(y3, cfg, Write(d, true), []);
    RunCons(y2, cfg, SendOn(c, true), [Write(d, true)] + []);
    RunCons(y1, cfg, LookUp(c), [SendOn(c, true)] + ([Write(d, true)] + []));
    RunCons(y, cfg, Accept(c, "", to, body), [LookUp(c)] + ([SendOn(c, true)] + ([Write(d, true)] + [])));
    IdleRecipientState(y, cfg, c, d, to, body);
  }

  lemma IdleRecipientState(y: Relay, cfg: Config, c: nat, d: nat, to: string, body: Body)
    requires Enabled(y, cfg, Accept(c, "", to, body)) && c != d && d < |y.conns|
    requires to in y.registry && y.registry[to] == d
    requires y.conns[d].phase == Running && y.conns[d].open && y.conns[d].channel == []
    ensures var y1 := Next(y, cfg, Accept(c, "", to, body));
            var msg := Msg(|y.accepted|, y.conns[c].peer, to, body);
      && Enabled(y1, cfg, LookUp(c)) && var y2 := Next(y1, cfg, LookUp(c));
      && Enabled(y2, cfg, SendOn(c, true)) && var y3 := Next(y2, cfg, SendOn(c, true));
      && Enabled(y3, cfg, Write(d, true)) && var y4 := Next(y3, cfg, Write(d, true));
      && y4.conns == y.conns[d := y.conns[d].(delivered := y.conns[d].delivered + [msg])] && y4.lost == y.lost
  {
    var y3 := Next(Next(Next(y, cfg, Accept(c, "", to, body)), cfg, LookUp(c)), cfg, SendOn(c, true));
    assert y3.conns[d].channel[1..] == [];
  }

  function SendsAll(c: nat, n: nat): seq<Step> { if n == 0 then [] else [SendBacklog(c, true)] + SendsAll(c, n - 1) }

  lemma {:induction false} BacklogGoesOut(y: Relay, cfg: Config, c: nat)
    requires c < |y.conns| && y.conns[c].phase == Draining
    ensures var (conn, steps) := (y.conns[c], SendsAll(c, |y.conns[c].backlog|));
      && ValidRun(y, cfg, steps)
      && Run(y, cfg, steps)
         == y.(conns := y.conns[c := conn.(backlog := [], delivered := conn.delivered + conn.backlog)])
    decreases |y.conns[c].backlog|
  {
    var conn := y.conns[c];
    if conn.backlog == [] {
      assert conn.delivered + [] == conn.delivered && y.conns[c := conn] == y.conns;
    } else {
      var y' := Next(y, cfg, SendBacklog(c, true));
      BacklogGoesOut(y', cfg, c);
      RunCons(y, cfg, SendBacklog(c, true), SendsAll(c, |conn.backlog| - 1));
      assert conn.delivered + [conn.backlog[0]] + conn.backlog[1..] == conn.delivered + conn.backlog;
    }
  }

  /** A peer that registers and is not disturbed gets its whole queue written to its socket, in order. */
  lemma QueueGoesOut(y: Relay, cfg: Config, peer: string)
    requires peer != ""
    ensures var (c, q) := (|y.conns|, QueueOf(y.queues, peer));
            var steps := [Register(peer)] + ([SendAck(c, true)] + ([Drain(c)] + SendsAll(c, |q|)));
      && ValidRun(y, cfg, steps)
      && Run(y, cfg, steps) == y.(conns := y.conns + [Conn(peer, Draining, true, [], [], q, Idle)],
                                  registry := y.registry[peer := c], queues := y.queues - {peer})
  {
    var (c, q) := (|y.conns|, QueueOf(y.queues, peer));
    var y1 := Next(y, cfg, Register(peer));
    var y2 := Next(y1, cfg, SendAck(c, true));
    var y3 := Next(y2, cfg, Drain(c));
    BacklogGoesOut(y3, cfg, c);
    RunCons(y2, cfg, Drain(c), SendsAll(c, |q|));
    RunCons(y1, cfg, SendAck(c, true), [Drain(c)] + SendsAll(c, |q|));
    RunCons(y, cfg, Register(peer), [SendAck(c, true)] + ([Drain(c)] + SendsAll(c, |q|)));
    assert [] + q == q;
    assert y3.conns[c := y3.conns[c].(backlog := [], delivered := q)]
        == y.conns + [Conn(peer, Draining, true, [], [], q, Idle)];
  }
}
