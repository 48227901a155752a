/**
 Order of delivery from one sender to one recipient, under any interleaving of the relay's steps. Three things can
 reorder their payloads, and each is excluded by its own condition: the recipient registers while an earlier
 connection of its has not been cleaned up, it registers while a payload for it is past its lookup, or the sender
 submits over one connection while another of its connections still routes to the same recipient.
 */
module RelayFlow {
  import opened Counting
  import opened RelayStore
  import opened Relay

  /** Who sends to whom. */
  datatype Pair = Pair(from: string, to: string) {
    predicate Has(m: Msg) { m.from == from && m.to == to }
  }

  predicate CleanedUp(p: Phase) { p.Closed? || p.Discarded? }

  predicate Awaiting(p: Phase) { p.Registered? || p.Acked? }

  predicate Refusing(p: Phase) { p.Refused? || p.Discarded? }

  /** The recipient has been looked up, and the message not yet handed over. */
  predicate UnderWay(r: Routing, to: string) { (r.Forward? || r.Unregister? || r.Store?) && r.msg.to == to }

  predicate Busy(r: Routing, p: Pair) { !r.Idle? && p.Has(r.msg) }

  /** Every earlier connection of the registering recipient has been cleaned up. */
  ghost predicate Succeeds(y: Relay, step: Step, p: Pair) {
    step.Register? && step.peer == p.to ==>
      forall conn :: conn in y.conns && conn.peer == p.to ==> CleanedUp(conn.phase)
  }

  /** Nothing for the registering recipient is past its lookup. */
  ghost predicate Undisturbed(y: Relay, step: Step, p: Pair) {
    step.Register? && step.peer == p.to ==> forall conn :: conn in y.conns ==> !UnderWay(conn.routing, p.to)
  }

  /** The sender routes one message to the recipient at a time. */
  ghost predicate OneAtATime(y: Relay, step: Step, p: Pair) {
    step.Accept? && step.c < |y.conns| && y.conns[step.c].peer == p.from && step.to == p.to ==>
      forall conn :: conn in y.conns ==> !Busy(conn.routing, p)
  }

  datatype Condition = Succession | Calm | Single

  ghost predicate Meets(y: Relay, step: Step, p: Pair, k: Condition) {
    match k
    case Succession => Succeeds(y, step, p)
    case Calm => Undisturbed(y, step, p)
    case Single => OneAtATime(y, step, p)
  }

  ghost predicate Orderly(y: Relay, step: Step, p: Pair) {
    Succeeds(y, step, p) && Undisturbed(y, step, p) && OneAtATime(y, step, p)
  }

  /** Every step meets the conditions that are not waived. */
  ghost predicate OrderlyRun(y: Relay, cfg: Config, steps: seq<Step>, p: Pair, waived: set<Condition>)
    requires ValidRun(y, cfg, steps)
    decreases |steps|
  {
    steps == [] ||
    (&& (forall k :: k !in waived ==> Meets(y, steps[0], p, k))
     && OrderlyRun(Next(y, cfg, steps[0]), cfg, steps[1..], p, waived))
  }

  // ---------- The pair's messages in a list ----------

  function Tail(conn: Conn): seq<Msg> { if Refusing(conn.phase) then [] else conn.channel }

  /** What a connection has delivered or may still deliver, in that order; a refused one never writes. */
  function Line(conn: Conn): seq<Msg> {
    conn.delivered + conn.backlog + Tail(conn)
  }

  ghost predicate Increasing(s: seq<Msg>, p: Pair) {
    forall i, j :: 0 <= i < j < |s| && p.Has(s[i]) && p.Has(s[j]) ==> s[i].token < s[j].token
  }

  ghost predicate Before(s: seq<Msg>, t: seq<Msg>, p: Pair) {
    forall m, n :: m in s && n in t && p.Has(m) && p.Has(n) ==> m.token < n.token
  }

  ghost predicate Older(s: seq<Msg>, msg: Msg, p: Pair) {
    forall m :: m in s && p.Has(m) ==> m.token < msg.token
  }

  ghost predicate Clear(s: seq<Msg>, p: Pair) { forall m :: m in s ==> !p.Has(m) }

  ghost predicate Known(accepted: seq<Msg>, s: seq<Msg>, p: Pair) {
    forall m :: m in s && p.Has(m) ==> m.token < |accepted| && accepted[m.token] == m
  }

  lemma JoinIncreasing(s: seq<Msg>, t: seq<Msg>, p: Pair)
    requires Increasing(s, p) && Increasing(t, p) && Before(s, t, p)
    ensures Increasing(s + t, p)
  {
    var whole := s + t;
    forall i, j | 0 <= i < j < |whole| && p.Has(whole[i]) && p.Has(whole[j]) ensures whole[i].token < whole[j].token {
      if i < |s| <= j {
        assert whole[i] in s && whole[j] in t;
      } else if |s| <= i {
        assert whole[i] == t[i - |s|] && whole[j] == t[j - |s|];
      }
    }
  }

  lemma AppendIncreasing(s: seq<Msg>, msg: Msg, p: Pair)
    requires Increasing(s, p) && (p.Has(msg) ==> Older(s, msg, p))
    ensures Increasing(s + [msg], p)
  {
    JoinIncreasing(s, [msg], p);
  }

  lemma DropMiddle(s: seq<Msg>, t: seq<Msg>, u: seq<Msg>, p: Pair)
    requires Increasing(s + t + u, p)
    ensures Increasing(s + u, p) && Increasing(s + t, p)
  {
    var whole := s + t + u;
    forall i, j | 0 <= i < j < |s + u| && p.Has((s + u)[i]) && p.Has((s + u)[j])
      ensures (s + u)[i].token < (s + u)[j].token
    {
      var k, l := if i < |s| then i else i + |t|, if j < |s| then j else j + |t|;
      assert whole[k] == (s + u)[i] && whole[l] == (s + u)[j];
    }
    forall i, j | 0 <= i < j < |s + t| && p.Has((s + t)[i]) && p.Has((s + t)[j])
      ensures (s + t)[i].token < (s + t)[j].token
    {
      assert whole[i] == (s + t)[i] && whole[j] == (s + t)[j];
    }
  }

  // ---------- The recipient's side ----------

  /** Registered, drained, and still able to take a payload. */
  predicate Receiving(y: Relay, c: nat)
    requires c < |y.conns|
  {
    var conn := y.conns[c];
    && conn.peer in y.registry && y.registry[conn.peer] == c && conn.open
    && (conn.phase.Draining? || conn.phase.Running? || conn.phase.Stopped?)
  }

  /** A connection of the recipient, and how it stands to the queue: before the drain all of that comes first. */
  ghost predicate ConnInv(y: Relay, c: nat, p: Pair)
    requires c < |y.conns|
  {
    var (conn, q) := (y.conns[c], QueueOf(y.queues, p.to));
    && Known(y.accepted, Line(conn), p) && Increasing(Line(conn), p)
    && (HasReader(conn.phase) ==> conn.backlog == [])
    && (Awaiting(conn.phase) ==>
          && conn.delivered == [] && conn.backlog == [] && conn.open
          && p.to in y.registry && y.registry[p.to] == c
          && Before(q, conn.channel, p))
    && (!Awaiting(conn.phase) ==> Before(Line(conn), q, p))
    && (Receiving(y, c) ==> Clear(q, p))
  }

  ghost predicate Conns(y: Relay, p: Pair) {
    forall c :: 0 <= c < |y.conns| && y.conns[c].peer == p.to ==> ConnInv(y, c, p)
  }

  /** One connection of the recipient after another. */
  ghost predicate Successive(y: Relay, p: Pair) {
    forall c, d :: 0 <= c < d < |y.conns| && y.conns[c].peer == p.to && y.conns[d].peer == p.to ==>
      CleanedUp(y.conns[c].phase) && Before(Line(y.conns[c]), Line(y.conns[d]), p)
  }

  ghost predicate Queued(y: Relay, p: Pair) {
    Known(y.accepted, QueueOf(y.queues, p.to), p) && Increasing(QueueOf(y.queues, p.to), p)
  }

  predicate Registered(y: Relay, to: string) {
    to in y.registry ==>
      && y.registry[to] < |y.conns| && y.conns[y.registry[to]].peer == to
      && !CleanedUp(y.conns[y.registry[to]].phase)
  }

  ghost predicate Recv(y: Relay, p: Pair) { Conns(y, p) && Successive(y, p) && Queued(y, p) && Registered(y, p.to) }

  /** Nothing on the recipient's side differs, but perhaps what its readers route. */
  ghost predicate SameView(y: Relay, y': Relay, p: Pair) {
    && |y.conns| <= |y'.conns|
    && (forall c :: |y.conns| <= c < |y'.conns| ==> y'.conns[c].peer != p.to)
    && (forall c :: 0 <= c < |y.conns| ==>
          && y'.conns[c].peer == y.conns[c].peer
          && (y.conns[c].peer == p.to ==> y'.conns[c] == y.conns[c].(routing := y'.conns[c].routing)))
    && QueueOf(y'.queues, p.to) == QueueOf(y.queues, p.to)
    && (p.to in y'.registry <==> p.to in y.registry)
    && (p.to in y.registry ==> y'.registry[p.to] == y.registry[p.to])
    && y.accepted <= y'.accepted
  }

  lemma SameViewKeepsConn(y: Relay, y': Relay, p: Pair, c: nat)
    requires SameView(y, y', p) && c < |y.conns| && y.conns[c].peer == p.to && ConnInv(y, c, p)
    ensures ConnInv(y', c, p) && Line(y'.conns[c]) == Line(y.conns[c])
  {
    assert Line(y'.conns[c]) == Line(y.conns[c]);
    assert Receiving(y', c) == Receiving(y, c);
  }

  lemma SameViewKeepsRecv(y: Relay, y': Relay, p: Pair)
    requires Recv(y, p) && SameView(y, y', p)
    ensures Recv(y', p)
  {
    forall c | 0 <= c < |y'.conns| && y'.conns[c].peer == p.to
      ensures ConnInv(y', c, p) && Line(y'.conns[c]) == Line(y.conns[c])
    {
      SameViewKeepsConn(y, y', p, c);
    }
  }

  /** One connection of the recipient moves on, its line losing some payloads perhaps; nothing else changes. */
  ghost predicate MovesOn(y: Relay, y': Relay, p: Pair, c: nat) {
    && c < |y.conns| && |y'.conns| == |y.conns| && y'.conns == y.conns[c := y'.conns[c]]
    && y'.registry == y.registry && y'.queues == y.queues && y'.accepted == y.accepted
    && y'.conns[c].peer == y.conns[c].peer && CleanedUp(y'.conns[c].phase) == CleanedUp(y.conns[c].phase)
    && (forall m :: m in Line(y'.conns[c]) ==> m in Line(y.conns[c]))
  }

  lemma MovesOnKeepsRecv(y: Relay, y': Relay, p: Pair, c: nat)
    requires Recv(y, p) && MovesOn(y, y', p, c) && y.conns[c].peer == p.to && ConnInv(y', c, p)
    ensures Recv(y', p)
  {
    forall d | 0 <= d < |y'.conns| && y'.conns[d].peer == p.to ensures ConnInv(y', d, p) {
      if d != c {
        assert ConnInv(y, d, p) && Receiving(y', d) == Receiving(y, d);
      }
    }
    forall b, d | 0 <= b < d < |y'.conns| && y'.conns[b].peer == p.to && y'.conns[d].peer == p.to
      ensures CleanedUp(y'.conns[b].phase) && Before(Line(y'.conns[b]), Line(y'.conns[d]), p)
    {
      assert Before(Line(y.conns[b]), Line(y.conns[d]), p);
    }
  }

  /** The steps of a connection that touch neither the registry nor the queues. */
  predicate Moves(step: Step) {
    step.SendAck? || step.SendBacklog? || step.Spawn? || step.Write? || step.Stop? || step.DropChannel?
  }

  lemma LosingKeepsOrder(conn: Conn, p: Pair)
    requires Increasing(Line(conn), p)
    ensures Increasing(conn.delivered + [] + Tail(conn), p) && Increasing(conn.delivered + conn.backlog + [], p)
  {
    DropMiddle(conn.delivered, conn.backlog, Tail(conn), p);
    assert conn.delivered + [] + Tail(conn) == conn.delivered + Tail(conn);
    assert conn.delivered + conn.backlog + [] == conn.delivered + conn.backlog;
  }

  lemma BacklogMoves(y: Relay, cfg: Config, c: nat, ok: bool, p: Pair)
    requires Recv(y, p) && Enabled(y, cfg, SendBacklog(c, ok)) && y.conns[c].peer == p.to
    ensures MovesOn(y, Next(y, cfg, SendBacklog(c, ok)), p, c) && ConnInv(Next(y, cfg, SendBacklog(c, ok)), c, p)
  {
    var (conn, y') := (y.conns[c], Next(y, cfg, SendBacklog(c, ok)));
    assert ConnInv(y, c, p);
    LosingKeepsOrder(conn, p);
    if ok {
      assert conn.backlog == [conn.backlog[0]] + conn.backlog[1..];
      assert Line(y'.conns[c]) == Line(conn);
    } else {
      assert Line(y'.conns[c]) == conn.delivered + [] + Tail(conn);
    }
  }

  lemma WrittenMoves(y: Relay, cfg: Config, c: nat, p: Pair)
    requires Recv(y, p) && Enabled(y, cfg, Write(c, true)) && y.conns[c].peer == p.to
    ensures MovesOn(y, Next(y, cfg, Write(c, true)), p, c) && ConnInv(Next(y, cfg, Write(c, true)), c, p)
  {
    var (conn, y') := (y.conns[c], Next(y, cfg, Write(c, true)));
    assert ConnInv(y, c, p);
    assert conn.channel == [conn.channel[0]] + conn.channel[1..];
    assert Line(y'.conns[c]) == Line(conn);
    assert Receiving(y', c) == Receiving(y, c);
  }

  lemma UnwrittenMoves(y: Relay, cfg: Config, c: nat, p: Pair)
    requires Recv(y, p) && Enabled(y, cfg, Write(c, false)) && y.conns[c].peer == p.to
    ensures MovesOn(y, Next(y, cfg, Write(c, false)), p, c) && ConnInv(Next(y, cfg, Write(c, false)), c, p)
  {
    var (conn, y') := (y.conns[c], Next(y, cfg, Write(c, false)));
    assert ConnInv(y, c, p);
    LosingKeepsOrder(conn, p);
    assert Line(y'.conns[c]) == conn.delivered + conn.backlog + [];
  }

  lemma DropMoves(y: Relay, cfg: Config, c: nat, p: Pair)
    requires Recv(y, p) && Enabled(y, cfg, DropChannel(c)) && y.conns[c].peer == p.to
    ensures MovesOn(y, Next(y, cfg, DropChannel(c)), p, c) && ConnInv(Next(y, cfg, DropChannel(c)), c, p)
  {
    assert ConnInv(y, c, p);
    LosingKeepsOrder(y.conns[c], p);
    assert Line(Next(y, cfg, DropChannel(c)).conns[c]) == y.conns[c].delivered + y.conns[c].backlog + [];
  }

  lemma AckMoves(y: Relay, cfg: Config, c: nat, ok: bool, p: Pair)
    requires Recv(y, p) && Enabled(y, cfg, SendAck(c, ok)) && y.conns[c].peer == p.to
    ensures MovesOn(y, Next(y, cfg, SendAck(c, ok)), p, c) && ConnInv(Next(y, cfg, SendAck(c, ok)), c, p)
  {
    assert ConnInv(y, c, p);
    LosingKeepsOrder(y.conns[c], p);
    assert !ok ==> Line(Next(y, cfg, SendAck(c, ok)).conns[c]) == [];
  }

  lemma SpawnMoves(y: Relay, cfg: Config, step: Step, p: Pair)
    requires Recv(y, p) && Enabled(y, cfg, step) && (step.Spawn? || step.Stop?) && y.conns[step.c].peer == p.to
    ensures MovesOn(y, Next(y, cfg, step), p, step.c) && ConnInv(Next(y, cfg, step), step.c, p)
  {
    assert ConnInv(y, step.c, p);
    assert Line(Next(y, cfg, step).conns[step.c]) == Line(y.conns[step.c]);
    assert Receiving(Next(y, cfg, step), step.c) == Receiving(y, step.c);
  }

  lemma MoveIsMove(y: Relay, cfg: Config, step: Step, p: Pair)
    requires Recv(y, p) && Enabled(y, cfg, step) && Moves(step) && y.conns[step.c].peer == p.to
    ensures MovesOn(y, Next(y, cfg, step), p, step.c) && ConnInv(Next(y, cfg, step), step.c, p)
  {
    match step
    case SendBacklog(c, ok) => BacklogMoves(y, cfg, c, ok, p);
    case Write(c, ok) => if ok { WrittenMoves(y, cfg, c, p); } else { UnwrittenMoves(y, cfg, c, p); }
    case DropChannel(c) => DropMoves(y, cfg, c, p);
    case SendAck(c, ok) => AckMoves(y, cfg, c, ok, p);
    case _ => SpawnMoves(y, cfg, step, p);
  }

  // ---------- Draining, cleaning up and registering ----------

  lemma DrainLine(conn: Conn, q: seq<Msg>, p: Pair)
    requires Awaiting(conn.phase) && conn.delivered == conn.backlog == []
    requires Increasing(q, p) && Increasing(Line(conn), p) && Before(q, conn.channel, p)
    ensures Line(conn) == conn.channel
    ensures Line(conn.(phase := Draining, backlog := q)) == q + conn.channel
    ensures Increasing(q + conn.channel, p)
  {
    assert [] + [] + conn.channel == conn.channel && [] + q == q;
    JoinIncreasing(q, conn.channel, p);
  }

  lemma DrainKeepsConn(y: Relay, cfg: Config, c: nat, d: nat, p: Pair)
    requires Recv(y, p) && Enabled(y, cfg, Drain(c)) && y.conns[c].peer == p.to
    requires d < |y.conns| && y.conns[d].peer == p.to
    ensures ConnInv(Next(y, cfg, Drain(c)), d, p)
  {
    var y' := Next(y, cfg, Drain(c));
    assert ConnInv(y, d, p) && QueueOf(y'.queues, p.to) == [];
    if d == c { DrainLine(y.conns[c], QueueOf(y.queues, p.to), p); }
  }

  lemma DrainKeepsPair(y: Relay, cfg: Config, c: nat, p: Pair, b: nat, d: nat)
    requires Recv(y, p) && Enabled(y, cfg, Drain(c)) && y.conns[c].peer == p.to
    requires b < d < |y.conns| && y.conns[b].peer == p.to && y.conns[d].peer == p.to
    ensures var y' := Next(y, cfg, Drain(c));
      CleanedUp(y'.conns[b].phase) && Before(Line(y'.conns[b]), Line(y'.conns[d]), p)
  {
    assert CleanedUp(y.conns[b].phase) && Before(Line(y.conns[b]), Line(y.conns[d]), p);
    assert ConnInv(y, b, p) && ConnInv(y, c, p);
    DrainLine(y.conns[c], QueueOf(y.queues, p.to), p);
  }

  lemma DrainKeepsRecv(y: Relay, cfg: Config, c: nat, p: Pair)
    requires Recv(y, p) && Enabled(y, cfg, Drain(c)) && y.conns[c].peer == p.to
    ensures Recv(Next(y, cfg, Drain(c)), p)
  {
    var y' := Next(y, cfg, Drain(c));
    assert QueueOf(y'.queues, p.to) == [];
    forall d | 0 <= d < |y'.conns| && y'.conns[d].peer == p.to ensures ConnInv(y', d, p) {
      DrainKeepsConn(y, cfg, c, d, p);
    }
    forall b, d | 0 <= b < d < |y'.conns| && y'.conns[b].peer == p.to && y'.conns[d].peer == p.to
      ensures CleanedUp(y'.conns[b].phase) && Before(Line(y'.conns[b]), Line(y'.conns[d]), p)
    {
      DrainKeepsPair(y, cfg, c, p, b, d);
    }
  }

  /** Only the last of the recipient's connections can be there still. */
  predicate LastFor(y: Relay, d: nat, to: string) {
    && d < |y.conns| && y.conns[d].peer == to
    && forall e :: d < e < |y.conns| ==> y.conns[e].peer != to
  }

  lemma LiveIsLast(y: Relay, d: nat, p: Pair)
    requires Successive(y, p) && d < |y.conns| && y.conns[d].peer == p.to && !CleanedUp(y.conns[d].phase)
    ensures LastFor(y, d, p.to)
  {
  }

  lemma CleanupKeepsConn(y: Relay, cfg: Config, c: nat, d: nat, p: Pair)
    requires Recv(y, p) && Enabled(y, cfg, Cleanup(c)) && y.conns[c].peer == p.to
    requires d < |y.conns| && y.conns[d].peer == p.to
    ensures ConnInv(Next(y, cfg, Cleanup(c)), d, p) && Line(Next(y, cfg, Cleanup(c)).conns[d]) == Line(y.conns[d])
  {
    assert ConnInv(y, d, p);
    LiveIsLast(y, c, p);
    if d != c { assert CleanedUp(y.conns[d].phase); }
  }

  lemma CleanupKeepsRecv(y: Relay, cfg: Config, c: nat, p: Pair)
    requires Recv(y, p) && Enabled(y, cfg, Cleanup(c)) && y.conns[c].peer == p.to
    ensures Recv(Next(y, cfg, Cleanup(c)), p)
  {
    var y' := Next(y, cfg, Cleanup(c));
    forall d | 0 <= d < |y'.conns| && y'.conns[d].peer == p.to
      ensures ConnInv(y', d, p) && Line(y'.conns[d]) == Line(y.conns[d])
    {
      CleanupKeepsConn(y, cfg, c, d, p);
    }
  }

  lemma RegisterKeepsConn(y: Relay, cfg: Config, step: Step, d: nat, p: Pair)
    requires Recv(y, p) && Enabled(y, cfg, step) && step.Register? && step.peer == p.to && Succeeds(y, step, p)
    requires d < |y.conns| && y.conns[d].peer == p.to
    ensures ConnInv(Next(y, cfg, step), d, p)
  {
    assert ConnInv(y, d, p) && y.conns[d] in y.conns;
  }

  lemma RegisterKeepsRecv(y: Relay, cfg: Config, step: Step, p: Pair)
    requires Recv(y, p) && Enabled(y, cfg, step) && step.Register? && step.peer == p.to && Succeeds(y, step, p)
    ensures Recv(Next(y, cfg, step), p)
  {
    var (y', n) := (Next(y, cfg, step), |y.conns|);
    assert Line(y'.conns[n]) == [];
    forall d | 0 <= d < |y'.conns| && y'.conns[d].peer == p.to ensures ConnInv(y', d, p) {
      if d < n { RegisterKeepsConn(y, cfg, step, d, p); }
    }
    forall b, d | 0 <= b < d < |y'.conns| && y'.conns[b].peer == p.to && y'.conns[d].peer == p.to
      ensures CleanedUp(y'.conns[b].phase) && Before(Line(y'.conns[b]), Line(y'.conns[d]), p)
    {
      assert y.conns[b] in y.conns;
      if d < n { assert Before(Line(y.conns[b]), Line(y.conns[d]), p); }
    }
  }

  // ---------- Handing a message over ----------

  /** In `y`, the reader of connection `c` gets as far as `r`. */
  function Taken(y: Relay, c: nat, r: Routing): Relay
    requires c < |y.conns|
  {
    y.(conns := y.conns[c := y.conns[c].(routing := r)])
  }

  function Delivered(y: Relay, msg: Msg, d: nat): Relay
    requires d < |y.conns|
  {
    y.(conns := y.conns[d := y.conns[d].(channel := y.conns[d].channel + [msg])])
  }

  function Stored(y: Relay, cfg: Config, msg: Msg): Relay {
    y.(queues := Enqueue(y.queues, msg.to, msg, cfg.maxQueue),
       lost := y.lost + Evicted(QueueOf(y.queues, msg.to), msg, cfg.maxQueue))
  }

  predicate Flowing(conn: Conn) { conn.open && !Awaiting(conn.phase) && !Refusing(conn.phase) }

  /** Nothing of the pair that the recipient's side holds is as new as this message. */
  ghost predicate Newest(y: Relay, msg: Msg, p: Pair) {
    && msg.token < |y.accepted| && y.accepted[msg.token] == msg
    && Older(QueueOf(y.queues, p.to), msg, p)
    && (forall d :: 0 <= d < |y.conns| && y.conns[d].peer == p.to ==> Older(Line(y.conns[d]), msg, p))
  }

  /** What handing a message to channel `d` takes. */
  ghost predicate Deliverable(y: Relay, msg: Msg, d: nat, p: Pair) {
    && LastFor(y, d, p.to)
    && (p.Has(msg) ==> Newest(y, msg, p) && (Flowing(y.conns[d]) ==> Clear(QueueOf(y.queues, p.to), p)))
  }

  lemma LineGrows(conn: Conn, msg: Msg)
    ensures Line(conn.(channel := conn.channel + [msg]))
      == if Refusing(conn.phase) then Line(conn) else Line(conn) + [msg]
  {
  }

  lemma LongerLine(accepted: seq<Msg>, line: seq<Msg>, msg: Msg, p: Pair)
    requires Known(accepted, line, p) && Increasing(line, p)
    requires p.Has(msg) ==> Older(line, msg, p) && msg.token < |accepted| && accepted[msg.token] == msg
    ensures Known(accepted, line + [msg], p) && Increasing(line + [msg], p)
  {
    AppendIncreasing(line, msg, p);
  }

  lemma BeforeLonger(s: seq<Msg>, t: seq<Msg>, msg: Msg, p: Pair)
    requires Before(s, t, p) && (p.Has(msg) ==> Older(s, msg, p))
    ensures Before(s, t + [msg], p)
  {
  }

  lemma LongerBefore(s: seq<Msg>, t: seq<Msg>, msg: Msg, p: Pair)
    requires Before(s, t, p) && (p.Has(msg) ==> Clear(t, p))
    ensures Before(s + [msg], t, p)
  {
  }

  lemma DeliveredConn(y: Relay, msg: Msg, d: nat, p: Pair)
    requires Recv(y, p) && Deliverable(y, msg, d, p) && y.conns[d].open
    ensures ConnInv(Delivered(y, msg, d), d, p)
  {
    var (conn, q) := (y.conns[d], QueueOf(y.queues, p.to));
    assert ConnInv(y, d, p) && Receiving(Delivered(y, msg, d), d) == Receiving(y, d);
    LineGrows(conn, msg);
    LongerLine(y.accepted, Line(conn), msg, p);
    if Awaiting(conn.phase) {
      BeforeLonger(q, conn.channel, msg, p);
    } else if !Refusing(conn.phase) {
      LongerBefore(Line(conn), q, msg, p);
    }
  }

  lemma DeliveredKeepsConns(y: Relay, msg: Msg, d: nat, p: Pair)
    requires Recv(y, p) && Deliverable(y, msg, d, p) && y.conns[d].open
    ensures Conns(Delivered(y, msg, d), p)
  {
    var y' := Delivered(y, msg, d);
    forall b | 0 <= b < |y'.conns| && y'.conns[b].peer == p.to ensures ConnInv(y', b, p) {
      if b == d {
        DeliveredConn(y, msg, d, p);
      } else {
        assert ConnInv(y, b, p) && Receiving(y', b) == Receiving(y, b);
      }
    }
  }

  lemma DeliveredKeepsPair(y: Relay, msg: Msg, d: nat, p: Pair, a: nat, b: nat)
    requires Recv(y, p) && Deliverable(y, msg, d, p)
    requires a < b < |y.conns| && y.conns[a].peer == p.to && y.conns[b].peer == p.to
    ensures var y' := Delivered(y, msg, d);
      CleanedUp(y'.conns[a].phase) && Before(Line(y'.conns[a]), Line(y'.conns[b]), p)
  {
    assert a != d && CleanedUp(y.conns[a].phase) && Before(Line(y.conns[a]), Line(y.conns[b]), p);
    LineGrows(y.conns[d], msg);
    assert p.Has(msg) ==> Older(Line(y.conns[a]), msg, p);
  }

  lemma DeliveredKeepsRecv(y: Relay, msg: Msg, d: nat, p: Pair)
    requires Recv(y, p) && Deliverable(y, msg, d, p) && y.conns[d].open
    ensures Recv(Delivered(y, msg, d), p)
  {
    var y' := Delivered(y, msg, d);
    DeliveredKeepsConns(y, msg, d, p);
    forall a, b | 0 <= a < b < |y'.conns| && y'.conns[a].peer == p.to && y'.conns[b].peer == p.to
      ensures CleanedUp(y'.conns[a].phase) && Before(Line(y'.conns[a]), Line(y'.conns[b]), p)
    {
      DeliveredKeepsPair(y, msg, d, p, a, b);
    }
  }

  lemma TailIncreasing(s: seq<Msg>, p: Pair)
    requires s != [] && Increasing(s, p)
    ensures Increasing(s[1..], p)
  {
    assert forall i :: 0 <= i < |s| - 1 ==> s[1..][i] == s[i + 1];
  }

  lemma PushIncreasing(q: seq<Msg>, msg: Msg, cap: nat, p: Pair)
    requires Increasing(q, p) && (p.Has(msg) ==> Older(q, msg, p))
    ensures Increasing(Push(q, msg, cap), p) && forall m :: m in Push(q, msg, cap) ==> m in q || m == msg
  {
    AppendIncreasing(q, msg, p);
    TailIncreasing(q + [msg], p);
    assert forall m :: m in (q + [msg])[1..] ==> m in q + [msg];
  }

  /** Storing is for a recipient that is not registered, so no connection of its is receiving. */
  lemma StoredConn(y: Relay, cfg: Config, msg: Msg, c: nat, p: Pair)
    requires Recv(y, p) && msg.to == p.to && (p.Has(msg) ==> Newest(y, msg, p) && p.to !in y.registry)
    requires c < |y.conns| && y.conns[c].peer == p.to
    ensures ConnInv(Stored(y, cfg, msg), c, p)
  {
    var q := QueueOf(y.queues, p.to);
    assert ConnInv(y, c, p) && Receiving(Stored(y, cfg, msg), c) == Receiving(y, c);
    PushIncreasing(q, msg, cfg.maxQueue, p);
  }

  lemma StoredKeepsRecv(y: Relay, cfg: Config, msg: Msg, p: Pair)
    requires Recv(y, p) && msg.to == p.to && (p.Has(msg) ==> Newest(y, msg, p) && p.to !in y.registry)
    ensures Recv(Stored(y, cfg, msg), p)
  {
    var y' := Stored(y, cfg, msg);
    forall c | 0 <= c < |y'.conns| && y'.conns[c].peer == p.to ensures ConnInv(y', c, p) {
      StoredConn(y, cfg, msg, c, p);
    }
    PushIncreasing(QueueOf(y.queues, p.to), msg, cfg.maxQueue, p);
  }

  /** Not registered, or registered with a channel that is gone. */
  predicate Gone(y: Relay, to: string) {
    to in y.registry ==> y.registry[to] < |y.conns| && !y.conns[y.registry[to]].open
  }

  lemma UnregisteredKeepsRecv(y: Relay, p: Pair)
    requires Recv(y, p) && Gone(y, p.to)
    ensures Recv(y.(registry := y.registry - {p.to}), p)
  {
    var y' := y.(registry := y.registry - {p.to});
    forall c | 0 <= c < |y'.conns| && y'.conns[c].peer == p.to ensures ConnInv(y', c, p) { assert ConnInv(y, c, p); }
  }

  // ---------- Messages on the way ----------

  /** The bookkeeping of routings and registry, whoever is concerned. */
  ghost predicate Wired(y: Relay, c: nat)
    requires c < |y.conns|
  {
    var (conn, r) := (y.conns[c], y.conns[c].routing);
    !r.Idle? ==>
      && r.msg.from == conn.peer && r.msg.token < |y.accepted| && y.accepted[r.msg.token] == r.msg
      && (r.Forward? ==> r.chan < |y.conns| && y.conns[r.chan].peer == r.msg.to)
  }

  ghost predicate Wiring(y: Relay) {
    && (forall t :: 0 <= t < |y.accepted| ==> y.accepted[t].token == t)
    && (forall q :: q in y.registry ==> y.registry[q] < |y.conns| && y.conns[y.registry[q]].peer == q)
    && (forall c :: 0 <= c < |y.conns| ==> Wired(y, c))
  }

  lemma StepKeepsPeer(y: Relay, cfg: Config, step: Step, i: nat)
    requires Enabled(y, cfg, step) && i < |y.conns|
    ensures var y' := Next(y, cfg, step);
      && |y.conns| <= |y'.conns| && y'.conns[i].peer == y.conns[i].peer
      && (step.Register? || i != step.c ==> y'.conns[i].routing == y.conns[i].routing)
  {
    if step.Register? || i != step.c { OtherConnKept(y, cfg, step, i); }
  }

  lemma StepKeepsAccepted(y: Relay, cfg: Config, step: Step)
    requires Enabled(y, cfg, step)
    ensures var y' := Next(y, cfg, step);
      && y'.accepted == y.accepted + Added(y, step)
      && forall q :: (q in y'.registry ==>
           (q in y.registry && y'.registry[q] == y.registry[q])
           || (step.Register? && step.peer == q && y'.registry[q] == |y.conns|))
  {
    StepAccepts(y, cfg, step);
  }

  /** What the reader of the stepping connection has in its hands: what it had, or what it has just accepted. */
  lemma OwnRoutingWired(y: Relay, cfg: Config, step: Step)
    requires Wiring(y) && Enabled(y, cfg, step) && !step.Register?
    ensures Wired(Next(y, cfg, step), step.c)
  {
    var y' := Next(y, cfg, step);
    assert Wired(y, step.c);
    StepKeepsAccepted(y, cfg, step);
    StepKeepsPeer(y, cfg, step, step.c);
    var r := y'.conns[step.c].routing;
    if r.Forward? {
      assert r.chan < |y.conns| && y.conns[r.chan].peer == r.msg.to;
      StepKeepsPeer(y, cfg, step, r.chan);
    }
  }

  lemma OtherRoutingWired(y: Relay, cfg: Config, step: Step, i: nat)
    requires Wiring(y) && Enabled(y, cfg, step) && i < |y.conns| && (step.Register? || i != step.c)
    ensures |y.conns| <= |Next(y, cfg, step).conns| && Wired(Next(y, cfg, step), i)
  {
    assert Wired(y, i);
    StepKeepsAccepted(y, cfg, step);
    StepKeepsPeer(y, cfg, step, i);
    var r := y.conns[i].routing;
    if r.Forward? { StepKeepsPeer(y, cfg, step, r.chan); }
  }

  lemma StepKeepsWiring(y: Relay, cfg: Config, step: Step)
    requires Wiring(y) && Enabled(y, cfg, step)
    ensures Wiring(Next(y, cfg, step))
  {
    var y' := Next(y, cfg, step);
    StepKeepsAccepted(y, cfg, step);
    forall i | 0 <= i < |y'.conns| ensures Wired(y', i) {
      if i < |y.conns| && (step.Register? || i != step.c) {
        OtherRoutingWired(y, cfg, step, i);
      } else if !step.Register? {
        OwnRoutingWired(y, cfg, step);
      }
    }
    forall q | q in y'.registry ensures y'.registry[q] < |y'.conns| && y'.conns[y'.registry[q]].peer == q {
      if q in y.registry && y'.registry[q] == y.registry[q] { StepKeepsPeer(y, cfg, step, y.registry[q]); }
    }
  }

  /** What routing a message to the recipient relies on from its lookup on. */
  ghost predicate Aimed(y: Relay, r: Routing, p: Pair) {
    UnderWay(r, p.to) ==>
      match r
      case Forward(_, d) => LastFor(y, d, p.to)
      case Unregister(_) => Gone(y, p.to)
      case _ => p.to !in y.registry
  }

  /** And what routing a message of the pair relies on, from its acceptance on. */
  ghost predicate Fresh(y: Relay, r: Routing, p: Pair) {
    Busy(r, p) ==>
      && Newest(y, r.msg, p)
      && (r.Forward? && r.chan < |y.conns| && Flowing(y.conns[r.chan]) ==> Clear(QueueOf(y.queues, p.to), p))
  }

  ghost predicate Flights(y: Relay, p: Pair) {
    && (forall c :: 0 <= c < |y.conns| ==> Aimed(y, y.conns[c].routing, p) && Fresh(y, y.conns[c].routing, p))
    && (forall c, d :: 0 <= c < d < |y.conns| ==> !(Busy(y.conns[c].routing, p) && Busy(y.conns[d].routing, p)))
  }

  /** Aiming survives as long as the recipient neither registers nor opens a channel. */
  ghost predicate NothingOpens(y: Relay, y': Relay, to: string) {
    && |y.conns| <= |y'.conns|
    && (forall c :: |y.conns| <= c < |y'.conns| ==> y'.conns[c].peer != to)
    && (forall c :: 0 <= c < |y.conns| ==> y'.conns[c].peer == y.conns[c].peer)
    && (forall c :: 0 <= c < |y.conns| && y.conns[c].peer == to && y'.conns[c].open ==> y.conns[c].open)
    && (to in y'.registry ==> to in y.registry && y'.registry[to] == y.registry[to])
  }

  lemma AimedStays(y: Relay, y': Relay, r: Routing, p: Pair)
    requires Aimed(y, r, p) && NothingOpens(y, y', p.to) && Wiring(y)
    ensures Aimed(y', r, p)
  {
  }

  /** Freshness survives as long as nothing of the pair comes to the recipient's side. */
  ghost predicate NothingComes(y: Relay, y': Relay, p: Pair) {
    && y.accepted <= y'.accepted
    && (forall msg: Msg :: Newest(y, msg, p) ==> Newest(y', msg, p))
    && (Clear(QueueOf(y.queues, p.to), p) ==> Clear(QueueOf(y'.queues, p.to), p))
    && |y.conns| <= |y'.conns|
    && (forall c :: 0 <= c < |y.conns| && y.conns[c].peer == p.to && Flowing(y'.conns[c]) ==>
          Flowing(y.conns[c]) || Clear(QueueOf(y'.queues, p.to), p))
  }

  lemma FreshStays(y: Relay, y': Relay, r: Routing, p: Pair)
    requires Fresh(y, r, p) && NothingComes(y, y', p)
    requires r.Forward? ==> r.chan < |y.conns| && y.conns[r.chan].peer == r.msg.to
    ensures Fresh(y', r, p)
  {
  }

  /** A step that changes no reader's routing. */
  lemma FlightsStay(y: Relay, y': Relay, p: Pair)
    requires Flights(y, p) && Wiring(y) && NothingOpens(y, y', p.to) && NothingComes(y, y', p)
    requires forall c :: 0 <= c < |y.conns| ==> y'.conns[c].routing == y.conns[c].routing
    requires forall c :: |y.conns| <= c < |y'.conns| ==> y'.conns[c].routing.Idle?
    ensures Flights(y', p)
  {
    forall c | 0 <= c < |y'.conns| ensures Aimed(y', y'.conns[c].routing, p) && Fresh(y', y'.conns[c].routing, p) {
      if c < |y.conns| {
        assert Wired(y, c);
        AimedStays(y, y', y.conns[c].routing, p);
        FreshStays(y, y', y.conns[c].routing, p);
      }
    }
  }

  /** A step that changes the routing of reader `c` alone. */
  lemma FlightsButOne(y: Relay, y': Relay, p: Pair, c: nat)
    requires Flights(y, p) && Wiring(y) && c < |y.conns| == |y'.conns| && NothingOpens(y, y', p.to)
    requires forall d :: 0 <= d < |y.conns| && d != c ==> y'.conns[d].routing == y.conns[d].routing
    requires Aimed(y', y'.conns[c].routing, p) && Fresh(y', y'.conns[c].routing, p)
    requires Busy(y'.conns[c].routing, p) ==>
      Busy(y.conns[c].routing, p) || forall d :: 0 <= d < |y.conns| ==> !Busy(y.conns[d].routing, p)
    requires Busy(y.conns[c].routing, p) || NothingComes(y, y', p)
    ensures Flights(y', p)
  {
    forall d | 0 <= d < |y'.conns| ensures Aimed(y', y'.conns[d].routing, p) && Fresh(y', y'.conns[d].routing, p) {
      if d != c {
        assert Wired(y, d);
        AimedStays(y, y', y.conns[d].routing, p);
        if !Busy(y.conns[c].routing, p) { FreshStays(y, y', y.conns[d].routing, p); }
      }
    }
  }

  // ---------- Every step ----------

  ghost predicate Inv(y: Relay, p: Pair) { Wiring(y) && Recv(y, p) && Flights(y, p) }

  lemma SameViewIsQuiet(y: Relay, y': Relay, p: Pair)
    requires SameView(y, y', p)
    ensures NothingOpens(y, y', p.to) && NothingComes(y, y', p)
  {
    forall msg: Msg | Newest(y, msg, p) ensures Newest(y', msg, p) {
      forall d | 0 <= d < |y'.conns| && y'.conns[d].peer == p.to ensures Older(Line(y'.conns[d]), msg, p) {
        assert Line(y'.conns[d]) == Line(y.conns[d]);
      }
    }
  }

  /** A step that shows nothing to the recipient and leaves every reader's routing as it is. */
  lemma UnseenKeepsInv(y: Relay, y': Relay, p: Pair)
    requires Inv(y, p) && SameView(y, y', p)
    requires forall c :: 0 <= c < |y.conns| ==> y'.conns[c].routing == y.conns[c].routing
    requires forall c :: |y.conns| <= c < |y'.conns| ==> y'.conns[c].routing.Idle?
    ensures Recv(y', p) && Flights(y', p)
  {
    SameViewKeepsRecv(y, y', p);
    SameViewIsQuiet(y, y', p);
    FlightsStay(y, y', p);
  }

  /** A step that shows nothing to the recipient and takes reader `c` further. */
  lemma UnseenRouting(y: Relay, y': Relay, p: Pair, c: nat)
    requires Inv(y, p) && SameView(y, y', p) && c < |y.conns| == |y'.conns|
    requires forall d :: 0 <= d < |y.conns| && d != c ==> y'.conns[d].routing == y.conns[d].routing
    requires Aimed(y', y'.conns[c].routing, p) && Fresh(y', y'.conns[c].routing, p)
    requires Busy(y'.conns[c].routing, p) ==>
      Busy(y.conns[c].routing, p) || forall d :: 0 <= d < |y.conns| ==> !Busy(y.conns[d].routing, p)
    ensures Recv(y', p) && Flights(y', p)
  {
    SameViewKeepsRecv(y, y', p);
    SameViewIsQuiet(y, y', p);
    FlightsButOne(y, y', p, c);
  }

  lemma MovesOnIsQuiet(y: Relay, y': Relay, p: Pair, c: nat)
    requires MovesOn(y, y', p, c) && (y'.conns[c].open ==> y.conns[c].open)
    requires Flowing(y'.conns[c]) ==> Flowing(y.conns[c])
    ensures NothingOpens(y, y', p.to) && NothingComes(y, y', p)
  {
    forall msg: Msg | Newest(y, msg, p) ensures Newest(y', msg, p) {
      forall d | 0 <= d < |y'.conns| && y'.conns[d].peer == p.to ensures Older(Line(y'.conns[d]), msg, p) {
        assert Older(Line(y.conns[d]), msg, p);
      }
    }
  }

  lemma MoveOpensNothing(y: Relay, cfg: Config, step: Step)
    requires Enabled(y, cfg, step) && Moves(step)
    ensures var (conn, conn') := (y.conns[step.c], Next(y, cfg, step).conns[step.c]);
      (conn'.open ==> conn.open) && (Flowing(conn') ==> Flowing(conn)) && conn'.routing == conn.routing
  {
  }

  lemma MoveElsewhere(y: Relay, cfg: Config, step: Step, p: Pair)
    requires Enabled(y, cfg, step) && Moves(step) && y.conns[step.c].peer != p.to
    ensures SameView(y, Next(y, cfg, step), p)
  {
  }

  lemma MoveKeepsInv(y: Relay, cfg: Config, step: Step, p: Pair)
    requires Inv(y, p) && Enabled(y, cfg, step) && Moves(step)
    ensures Recv(Next(y, cfg, step), p) && Flights(Next(y, cfg, step), p)
  {
    var y' := Next(y, cfg, step);
    MoveOpensNothing(y, cfg, step);
    forall c | 0 <= c < |y.conns| ensures |y.conns| == |y'.conns| && y'.conns[c].routing == y.conns[c].routing {
      StepKeepsPeer(y, cfg, step, c);
    }
    if y.conns[step.c].peer == p.to {
      MoveIsMove(y, cfg, step, p);
      MovesOnKeepsRecv(y, y', p, step.c);
      MovesOnIsQuiet(y, y', p, step.c);
      FlightsStay(y, y', p);
    } else {
      MoveElsewhere(y, cfg, step, p);
      UnseenKeepsInv(y, y', p);
    }
  }

  lemma DrainIsQuiet(y: Relay, cfg: Config, c: nat, p: Pair)
    requires Recv(y, p) && Enabled(y, cfg, Drain(c)) && y.conns[c].peer == p.to
    ensures NothingOpens(y, Next(y, cfg, Drain(c)), p.to) && NothingComes(y, Next(y, cfg, Drain(c)), p)
  {
    var (y', q) := (Next(y, cfg, Drain(c)), QueueOf(y.queues, p.to));
    assert ConnInv(y, c, p) && QueueOf(y'.queues, p.to) == [];
    DrainLine(y.conns[c], q, p);
    forall msg: Msg | Newest(y, msg, p) ensures Newest(y', msg, p) {
      forall d | 0 <= d < |y'.conns| && y'.conns[d].peer == p.to ensures Older(Line(y'.conns[d]), msg, p) {
        assert Older(Line(y.conns[d]), msg, p);
      }
    }
  }

  lemma DrainKeepsInv(y: Relay, cfg: Config, c: nat, p: Pair)
    requires Inv(y, p) && Enabled(y, cfg, Drain(c))
    ensures Recv(Next(y, cfg, Drain(c)), p) && Flights(Next(y, cfg, Drain(c)), p)
  {
    var y' := Next(y, cfg, Drain(c));
    if y.conns[c].peer == p.to {
      DrainKeepsRecv(y, cfg, c, p);
      DrainIsQuiet(y, cfg, c, p);
      FlightsStay(y, y', p);
    } else {
      assert QueueOf(y'.queues, p.to) == QueueOf(y.queues, p.to);
      UnseenKeepsInv(y, y', p);
    }
  }

  lemma CleanupIsQuiet(y: Relay, cfg: Config, c: nat, p: Pair)
    requires Recv(y, p) && Enabled(y, cfg, Cleanup(c)) && y.conns[c].peer == p.to
    ensures NothingOpens(y, Next(y, cfg, Cleanup(c)), p.to) && NothingComes(y, Next(y, cfg, Cleanup(c)), p)
  {
    var y' := Next(y, cfg, Cleanup(c));
    forall msg: Msg | Newest(y, msg, p) ensures Newest(y', msg, p) {
      forall d | 0 <= d < |y'.conns| && y'.conns[d].peer == p.to ensures Older(Line(y'.conns[d]), msg, p) {
        assert Line(y'.conns[d]) == Line(y.conns[d]);
      }
    }
  }

  lemma CleanupKeepsInv(y: Relay, cfg: Config, c: nat, p: Pair)
    requires Inv(y, p) && Enabled(y, cfg, Cleanup(c))
    ensures Recv(Next(y, cfg, Cleanup(c)), p) && Flights(Next(y, cfg, Cleanup(c)), p)
  {
    var y' := Next(y, cfg, Cleanup(c));
    if y.conns[c].peer == p.to {
      CleanupKeepsRecv(y, cfg, c, p);
      CleanupIsQuiet(y, cfg, c, p);
      FlightsStay(y, y', p);
    } else {
      UnseenKeepsInv(y, y', p);
    }
  }

  lemma RegisterKeepsNewest(y: Relay, cfg: Config, step: Step, msg: Msg, p: Pair)
    requires Enabled(y, cfg, step) && step.Register? && Newest(y, msg, p)
    ensures Newest(Next(y, cfg, step), msg, p)
  {
    assert Line(Next(y, cfg, step).conns[|y.conns|]) == [];
  }

  lemma RegisterFlights(y: Relay, cfg: Config, step: Step, p: Pair)
    requires Inv(y, p) && Enabled(y, cfg, step) && step.Register? && step.peer == p.to && Undisturbed(y, step, p)
    ensures Flights(Next(y, cfg, step), p)
  {
    var y' := Next(y, cfg, step);
    forall c | 0 <= c < |y'.conns| ensures Aimed(y', y'.conns[c].routing, p) && Fresh(y', y'.conns[c].routing, p) {
      if c < |y.conns| {
        var r := y.conns[c].routing;
        assert y.conns[c] in y.conns && Fresh(y, r, p);
        if Busy(r, p) { RegisterKeepsNewest(y, cfg, step, r.msg, p); }
      }
    }
  }

  lemma RegisterKeepsInv(y: Relay, cfg: Config, step: Step, p: Pair)
    requires Inv(y, p) && Enabled(y, cfg, step) && step.Register? && Orderly(y, step, p)
    ensures Recv(Next(y, cfg, step), p) && Flights(Next(y, cfg, step), p)
  {
    if step.peer == p.to {
      RegisterKeepsRecv(y, cfg, step, p);
      RegisterFlights(y, cfg, step, p);
    } else {
      UnseenKeepsInv(y, Next(y, cfg, step), p);
    }
  }

  lemma AcceptedIsNewest(y: Relay, y': Relay, msg: Msg, p: Pair)
    requires Wiring(y) && Recv(y, p) && msg.token == |y.accepted| && y'.accepted == y.accepted + [msg]
    requires SameView(y, y', p)
    ensures Newest(y', msg, p)
  {
    forall d | 0 <= d < |y'.conns| && y'.conns[d].peer == p.to ensures Older(Line(y'.conns[d]), msg, p) {
      assert ConnInv(y, d, p) && Line(y'.conns[d]) == Line(y.conns[d]);
    }
  }

  lemma AcceptKeepsInv(y: Relay, cfg: Config, step: Step, p: Pair)
    requires Inv(y, p) && Enabled(y, cfg, step) && step.Accept? && Orderly(y, step, p)
    ensures Recv(Next(y, cfg, step), p) && Flights(Next(y, cfg, step), p)
  {
    var (y', c) := (Next(y, cfg, step), step.c);
    AcceptedIsNewest(y, y', y'.conns[c].routing.msg, p);
    if Busy(y'.conns[c].routing, p) {
      forall d | 0 <= d < |y.conns| ensures !Busy(y.conns[d].routing, p) { assert y.conns[d] in y.conns; }
    }
    UnseenRouting(y, y', p, c);
  }

  lemma LookUpAims(y: Relay, cfg: Config, c: nat, p: Pair)
    requires Inv(y, p) && Enabled(y, cfg, LookUp(c))
    ensures var r := Next(y, cfg, LookUp(c)).conns[c].routing; Aimed(y, r, p) && Fresh(y, r, p)
  {
    var r := Next(y, cfg, LookUp(c)).conns[c].routing;
    assert Fresh(y, y.conns[c].routing, p);
    if r.Forward? && r.msg.to == p.to {
      assert ConnInv(y, r.chan, p);
      LiveIsLast(y, r.chan, p);
      assert Flowing(y.conns[r.chan]) ==> Receiving(y, r.chan);
    }
  }

  lemma LookUpKeepsInv(y: Relay, cfg: Config, c: nat, p: Pair)
    requires Inv(y, p) && Enabled(y, cfg, LookUp(c))
    ensures Recv(Next(y, cfg, LookUp(c)), p) && Flights(Next(y, cfg, LookUp(c)), p)
  {
    var y' := Next(y, cfg, LookUp(c));
    LookUpAims(y, cfg, c, p);
    SameViewIsQuiet(y, y', p);
    AimedStays(y, y', y'.conns[c].routing, p);
    FreshStays(y, y', y'.conns[c].routing, p);
    UnseenRouting(y, y', p, c);
  }

  lemma AbortKeepsInv(y: Relay, cfg: Config, c: nat, p: Pair)
    requires Inv(y, p) && Enabled(y, cfg, AbortReader(c))
    ensures Recv(Next(y, cfg, AbortReader(c)), p) && Flights(Next(y, cfg, AbortReader(c)), p)
  {
    UnseenRouting(y, Next(y, cfg, AbortReader(c)), p, c);
  }

  /** Handing over a message that is not the pair's brings the recipient nothing of the pair. */
  lemma DeliveredIsQuiet(y: Relay, msg: Msg, d: nat, p: Pair)
    requires d < |y.conns| && !p.Has(msg)
    ensures NothingOpens(y, Delivered(y, msg, d), p.to) && NothingComes(y, Delivered(y, msg, d), p)
  {
    var y' := Delivered(y, msg, d);
    LineGrows(y.conns[d], msg);
    forall m: Msg | Newest(y, m, p) ensures Newest(y', m, p) {
      forall e | 0 <= e < |y'.conns| && y'.conns[e].peer == p.to ensures Older(Line(y'.conns[e]), m, p) {
        assert Older(Line(y.conns[e]), m, p);
      }
    }
  }

  /** In a state whose reader `c` has just let go of `msg`, which goes into channel `d` of the recipient. */
  lemma HandOverKeepsInv(y: Relay, c: nat, msg: Msg, d: nat, p: Pair)
    requires Inv(y, p) && c < |y.conns| && y.conns[c].routing == Forward(msg, d) && d < |y.conns|
    requires y.conns[d].open && y.conns[d].peer == p.to
    ensures var y' := Delivered(Taken(y, c, Idle), msg, d); Recv(y', p) && Flights(y', p)
  {
    var y1 := Taken(y, c, Idle);
    assert Wired(y, c) && Aimed(y, y.conns[c].routing, p) && Fresh(y, y.conns[c].routing, p);
    assert Deliverable(y, msg, d, p);
    SameViewKeepsRecv(y, y1, p);
    SameViewIsQuiet(y, y1, p);
    assert Deliverable(y1, msg, d, p);
    DeliveredKeepsRecv(y1, msg, d, p);
    HandOverFlights(y, c, msg, d, p);
  }

  lemma HandOverFlights(y: Relay, c: nat, msg: Msg, d: nat, p: Pair)
    requires Inv(y, p) && c < |y.conns| && y.conns[c].routing == Forward(msg, d) && d < |y.conns|
    requires y.conns[d].open && y.conns[d].peer == p.to
    ensures Flights(Delivered(Taken(y, c, Idle), msg, d), p)
  {
    var y1 := Taken(y, c, Idle);
    var y' := Delivered(y1, msg, d);
    SameViewIsQuiet(y, y1, p);
    if !p.Has(msg) {
      DeliveredIsQuiet(y1, msg, d, p);
      assert NothingComes(y, y', p) by { QuietTwice(y, y1, y', p); }
    }
    FlightsButOne(y, y', p, c);
  }

  lemma QuietTwice(y: Relay, y1: Relay, y2: Relay, p: Pair)
    requires NothingComes(y, y1, p) && NothingComes(y1, y2, p)
    requires |y.conns| == |y1.conns| && forall c :: 0 <= c < |y.conns| ==> y1.conns[c].peer == y.conns[c].peer
    ensures NothingComes(y, y2, p)
  {
  }

  lemma SendFails(y: Relay, cfg: Config, c: nat, encodes: bool, p: Pair)
    requires Inv(y, p) && Enabled(y, cfg, SendOn(c, encodes))
    requires !encodes || !y.conns[y.conns[c].routing.chan].open
    ensures Recv(Next(y, cfg, SendOn(c, encodes)), p) && Flights(Next(y, cfg, SendOn(c, encodes)), p)
  {
    var (y', r) := (Next(y, cfg, SendOn(c, encodes)), y.conns[c].routing);
    assert Wired(y, c) && Aimed(y, r, p) && Fresh(y, r, p);
    SameViewIsQuiet(y, y', p);
    if p.to in y.registry && r.msg.to == p.to {
      LiveIsLast(y, y.registry[p.to], p);
      assert y.registry[p.to] == r.chan;
    }
    UnseenRouting(y, y', p, c);
  }

  lemma SendElsewhere(y: Relay, cfg: Config, c: nat, p: Pair)
    requires Inv(y, p) && Enabled(y, cfg, SendOn(c, true))
    requires var d := y.conns[c].routing.chan; y.conns[d].open && y.conns[d].peer != p.to
    ensures Recv(Next(y, cfg, SendOn(c, true)), p) && Flights(Next(y, cfg, SendOn(c, true)), p)
  {
    assert Wired(y, c);
    UnseenRouting(y, Next(y, cfg, SendOn(c, true)), p, c);
  }

  lemma SendOnKeepsInv(y: Relay, cfg: Config, c: nat, encodes: bool, p: Pair)
    requires Inv(y, p) && Enabled(y, cfg, SendOn(c, encodes))
    ensures Recv(Next(y, cfg, SendOn(c, encodes)), p) && Flights(Next(y, cfg, SendOn(c, encodes)), p)
  {
    var r := y.conns[c].routing;
    if !encodes || !y.conns[r.chan].open {
      SendFails(y, cfg, c, encodes, p);
    } else if y.conns[r.chan].peer != p.to {
      SendElsewhere(y, cfg, c, p);
    } else {
      HandOverKeepsInv(y, c, r.msg, r.chan, p);
      assert Next(y, cfg, SendOn(c, true)) == Delivered(Taken(y, c, Idle), r.msg, r.chan);
    }
  }

  lemma UnregisterKeepsInv(y: Relay, cfg: Config, c: nat, p: Pair)
    requires Inv(y, p) && Enabled(y, cfg, UnregisterRecipient(c))
    ensures Recv(Next(y, cfg, UnregisterRecipient(c)), p) && Flights(Next(y, cfg, UnregisterRecipient(c)), p)
  {
    var (y', r) := (Next(y, cfg, UnregisterRecipient(c)), y.conns[c].routing);
    assert Aimed(y, r, p) && Fresh(y, r, p);
    if r.msg.to == p.to {
      var gone := y.(registry := y.registry - {p.to});
      UnregisteredKeepsRecv(y, p);
      SameViewKeepsRecv(gone, y', p);
      SameViewIsQuiet(gone, y', p);
      UnregisteredIsQuiet(y, p);
      QuietTwice(y, gone, y', p);
      FlightsButOne(y, y', p, c);
    } else {
      UnseenRouting(y, y', p, c);
    }
  }

  lemma UnregisteredIsQuiet(y: Relay, p: Pair)
    ensures var gone := y.(registry := y.registry - {p.to}); NothingOpens(y, gone, p.to) && NothingComes(y, gone, p)
  {
  }

  lemma StoredIsQuiet(y: Relay, cfg: Config, msg: Msg, p: Pair)
    requires !p.Has(msg)
    ensures NothingOpens(y, Stored(y, cfg, msg), p.to) && NothingComes(y, Stored(y, cfg, msg), p)
  {
    var (q, q') := (QueueOf(y.queues, p.to), QueueOf(Stored(y, cfg, msg).queues, p.to));
    assert forall m :: m in q' ==> m in q || m == msg by {
      if msg.to == p.to {
        assert forall m :: m in (q + [msg])[1..] ==> m in q + [msg];
      } else {
        assert q' == q;
      }
    }
  }

  lemma StoreFlights(y: Relay, cfg: Config, c: nat, p: Pair)
    requires Inv(y, p) && Enabled(y, cfg, StoreFor(c))
    ensures Flights(Next(y, cfg, StoreFor(c)), p)
  {
    var (msg, y1) := (y.conns[c].routing.msg, Taken(y, c, Idle));
    SameViewIsQuiet(y, y1, p);
    if !p.Has(msg) {
      StoredIsQuiet(y1, cfg, msg, p);
      QuietTwice(y, y1, Stored(y1, cfg, msg), p);
    }
    assert Next(y, cfg, StoreFor(c)) == Stored(y1, cfg, msg);
    FlightsButOne(y, Stored(y1, cfg, msg), p, c);
  }

  lemma StoreKeepsInv(y: Relay, cfg: Config, c: nat, p: Pair)
    requires Inv(y, p) && Enabled(y, cfg, StoreFor(c))
    ensures Recv(Next(y, cfg, StoreFor(c)), p) && Flights(Next(y, cfg, StoreFor(c)), p)
  {
    var (msg, y1) := (y.conns[c].routing.msg, Taken(y, c, Idle));
    assert Aimed(y, y.conns[c].routing, p) && Fresh(y, y.conns[c].routing, p);
    StoreFlights(y, cfg, c, p);
    SameViewKeepsRecv(y, y1, p);
    SameViewIsQuiet(y, y1, p);
    assert Next(y, cfg, StoreFor(c)) == Stored(y1, cfg, msg);
    if msg.to == p.to {
      StoredKeepsRecv(y1, cfg, msg, p);
    } else {
      SameViewKeepsRecv(y1, Stored(y1, cfg, msg), p);
    }
  }

  /** Every step, under the three conditions on it. */
  lemma StepKeepsInv(y: Relay, cfg: Config, step: Step, p: Pair)
    requires Inv(y, p) && Enabled(y, cfg, step) && Orderly(y, step, p)
    ensures Inv(Next(y, cfg, step), p)
  {
    StepKeepsWiring(y, cfg, step);
    match step
    case Register(_) => RegisterKeepsInv(y, cfg, step, p);
    case Drain(c) => DrainKeepsInv(y, cfg, c, p);
    case Cleanup(c) => CleanupKeepsInv(y, cfg, c, p);
    case Accept(_, _, _, _) => AcceptKeepsInv(y, cfg, step, p);
    case LookUp(c) => LookUpKeepsInv(y, cfg, c, p);
    case SendOn(c, encodes) => SendOnKeepsInv(y, cfg, c, encodes, p);
    case UnregisterRecipient(c) => UnregisterKeepsInv(y, cfg, c, p);
    case StoreFor(c) => StoreKeepsInv(y, cfg, c, p);
    case AbortReader(c) => AbortKeepsInv(y, cfg, c, p);
    case _ => MoveKeepsInv(y, cfg, step, p);
  }

  lemma {:induction false} RunKeepsInv(y: Relay, cfg: Config, steps: seq<Step>, p: Pair)
    requires Inv(y, p) && ValidRun(y, cfg, steps) && OrderlyRun(y, cfg, steps, p, {})
    ensures Inv(Run(y, cfg, steps), p)
    decreases |steps|
  {
    if steps == [] {
    } else {
      assert forall k :: Meets(y, steps[0], p, k);
      assert Meets(y, steps[0], p, Succession) && Meets(y, steps[0], p, Calm) && Meets(y, steps[0], p, Single);
      StepKeepsInv(y, cfg, steps[0], p);
      RunKeepsInv(Next(y, cfg, steps[0]), cfg, steps[1..], p);
    }
  }

  // ---------- The theorem ----------

  /** Everything written to a recipient's sockets, connection after connection. */
  function DeliveredTo(conns: seq<Conn>, to: string): seq<Msg> {
    if conns == [] then []
    else
      var last := conns[|conns| - 1];
      DeliveredTo(conns[..|conns| - 1], to) + (if last.peer == to then last.delivered else [])
  }

  function OfPair(s: seq<Msg>, p: Pair): seq<Msg> {
    if s == [] then []
    else
      var last := s[|s| - 1];
      OfPair(s[..|s| - 1], p) + (if p.Has(last) then [last] else [])
  }

  lemma DeliveredLine(y: Relay, c: nat, p: Pair)
    requires Recv(y, p) && c < |y.conns| && y.conns[c].peer == p.to
    ensures Increasing(y.conns[c].delivered, p) && Known(y.accepted, y.conns[c].delivered, p)
    ensures forall m :: m in y.conns[c].delivered ==> m in Line(y.conns[c])
  {
    var conn := y.conns[c];
    assert ConnInv(y, c, p);
    LosingKeepsOrder(conn, p);
    DropMiddle(conn.delivered, conn.backlog, [], p);
    assert conn.delivered + [] == conn.delivered;
  }

  lemma {:induction false} DeliveredInOrder(y: Relay, n: nat, p: Pair)
    requires Recv(y, p) && n <= |y.conns|
    ensures var s := DeliveredTo(y.conns[..n], p.to);
      && Increasing(s, p) && Known(y.accepted, s, p)
      && forall m :: m in s ==> exists c :: 0 <= c < n && y.conns[c].peer == p.to && m in y.conns[c].delivered
  {
    if n == 0 {
    } else {
      DeliveredInOrder(y, n - 1, p);
      assert y.conns[..n][..n - 1] == y.conns[..n - 1];
      var s, last := DeliveredTo(y.conns[..n - 1], p.to), y.conns[n - 1];
      if last.peer == p.to {
        DeliveredLine(y, n - 1, p);
        forall a, b | a in s && b in last.delivered && p.Has(a) && p.Has(b) ensures a.token < b.token {
          var c :| 0 <= c < n - 1 && y.conns[c].peer == p.to && a in y.conns[c].delivered;
          DeliveredLine(y, c, p);
          assert Before(Line(y.conns[c]), Line(last), p);
        }
        JoinIncreasing(s, last.delivered, p);
      }
    }
  }

  lemma {:induction false} OfPairKeepsOrder(s: seq<Msg>, p: Pair)
    requires Increasing(s, p)
    ensures Increasing(OfPair(s, p), p)
    ensures forall m :: m in OfPair(s, p) <==> m in s && p.Has(m)
    ensures OfPair(OfPair(s, p), p) == OfPair(s, p)
  {
    if s == [] {
    } else {
      var (most, last) := (s[..|s| - 1], s[|s| - 1]);
      assert s == most + [last];
      OfPairKeepsOrder(most, p);
      var short := OfPair(most, p);
      if p.Has(last) {
        assert (short + [last])[..|short|] == short;
        assert Older(short, last, p);
        AppendIncreasing(short, last, p);
      } else {
        assert short + [] == short;
      }
    }
  }

  /** Messages of the pair in increasing token order, each where its token says, are a subsequence of the log. */
  lemma {:induction false} TokensGiveSubsequence(s: seq<Msg>, t: seq<Msg>, p: Pair)
    requires Increasing(s, p) && forall m :: m in s ==> p.Has(m) && m.token < |t| && t[m.token] == m
    ensures Subsequence(s, t)
    decreases |t|
  {
    if s == [] {
    } else {
      var last := s[|s| - 1];
      assert last in s;
      var shorter := if last.token == |t| - 1 then s[..|s| - 1] else s;
      forall m | m in shorter ensures m.token < |t| - 1 && t[..|t| - 1][m.token] == m {
        assert m in s;
      }
      TokensGiveSubsequence(shorter, t[..|t| - 1], p);
    }
  }

  lemma {:induction false} OfPairSubsequence(s: seq<Msg>, t: seq<Msg>, p: Pair)
    requires Subsequence(s, t)
    ensures Subsequence(OfPair(s, p), OfPair(t, p))
    decreases |t|
  {
    if s == [] {
    } else {
      var (s1, t1) := (s[..|s| - 1], t[..|t| - 1]);
      var kept := p.Has(t[|t| - 1]);
      var short := OfPair(t1, p);
      assert OfPair(t, p) == short + (if kept then [t[|t| - 1]] else []);
      if kept { assert OfPair(t, p)[..|short|] == short; } else { assert OfPair(t, p) == short; }
      if Subsequence(s, t1) {
        OfPairSubsequence(s, t1, p);
      } else {
        OfPairSubsequence(s1, t1, p);
        var small := OfPair(s1, p);
        if kept { assert OfPair(s, p)[..|small|] == small; } else { assert OfPair(s, p) == small; }
      }
    }
  }

  lemma RecvGivesOrder(y: Relay, p: Pair)
    requires Recv(y, p)
    ensures Subsequence(OfPair(DeliveredTo(y.conns, p.to), p), OfPair(y.accepted, p))
  {
    DeliveredInOrder(y, |y.conns|, p);
    assert y.conns[..|y.conns|] == y.conns;
    var got := DeliveredTo(y.conns, p.to);
    OfPairKeepsOrder(got, p);
    TokensGiveSubsequence(OfPair(got, p), y.accepted, p);
    OfPairSubsequence(OfPair(got, p), y.accepted, p);
  }

  /**
   What one sender gets through to one recipient, over all connections of both -- on each connection of the recipient
   its drained queue first, then its channel -- comes in the order in which the sender submitted it. The conditions
   are about these two peers alone; everything else interleaves as it may.
   */
  lemma OrderlyDelivery(cfg: Config, steps: seq<Step>, p: Pair)
    requires ValidRun(INIT, cfg, steps) && OrderlyRun(INIT, cfg, steps, p, {})
    ensures var y := Run(INIT, cfg, steps);
      Subsequence(OfPair(DeliveredTo(y.conns, p.to), p), OfPair(y.accepted, p))
  {
    RunKeepsInv(INIT, cfg, steps, p);
    RecvGivesOrder(Run(INIT, cfg, steps), p);
  }
}
