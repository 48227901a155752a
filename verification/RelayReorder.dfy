/**
 None of the three conditions on order of delivery can be waived: for any two peers there is a run that meets the
 other two and delivers their messages the wrong way round.
 */
module RelayReorder {
  import opened Counting
  import opened RelayStore
  import opened Relay
  import opened RelayFlow

  /** A run that meets all conditions but one, and where it leads. */
  ghost predicate Reaches(cfg: Config, p: Pair, waived: Condition, steps: seq<Step>, y: Relay) {
    && ValidRun(INIT, cfg, steps) && Run(INIT, cfg, steps) == y
    && OrderlyRun(INIT, cfg, steps, p, {waived})
  }

  /** The run exists. */
  ghost predicate Reachable(cfg: Config, p: Pair, waived: Condition, y: Relay) {
    exists steps :: Reaches(cfg, p, waived, steps, y)
  }

  lemma {:induction false} RunSnoc(y: Relay, cfg: Config, steps: seq<Step>, step: Step, p: Pair, waived: set<Condition>)
    requires ValidRun(y, cfg, steps) && OrderlyRun(y, cfg, steps, p, waived) && Enabled(Run(y, cfg, steps), cfg, step)
    requires forall k :: k !in waived ==> Meets(Run(y, cfg, steps), step, p, k)
    ensures ValidRun(y, cfg, steps + [step])
    ensures Run(y, cfg, steps + [step]) == Next(Run(y, cfg, steps), cfg, step)
    ensures OrderlyRun(y, cfg, steps + [step], p, waived)
    decreases |steps|
  {
    if steps == [] {
      assert [] + [step] == [step] && [step][1..] == [];
    } else {
      assert (steps + [step])[1..] == steps[1..] + [step];
      RunSnoc(Next(y, cfg, steps[0]), cfg, steps[1..], step, p, waived);
    }
  }

  lemma Then(cfg: Config, p: Pair, waived: Condition, y: Relay, step: Step, y': Relay)
    requires Reachable(cfg, p, waived, y) && Enabled(y, cfg, step) && Next(y, cfg, step) == y'
    requires forall k :: k != waived ==> Meets(y, step, p, k)
    ensures Reachable(cfg, p, waived, y')
  {
    var steps :| Reaches(cfg, p, waived, steps, y);
    RunSnoc(INIT, cfg, steps, step, p, {waived});
    assert Reaches(cfg, p, waived, steps + [step], y');
  }

  /** A step that neither registers nor accepts meets every condition. */
  lemma On(cfg: Config, p: Pair, waived: Condition, y: Relay, step: Step, y': Relay)
    requires Reachable(cfg, p, waived, y) && Enabled(y, cfg, step) && Next(y, cfg, step) == y'
    requires !step.Register? && !step.Accept?
    ensures Reachable(cfg, p, waived, y')
  {
    Then(cfg, p, waived, y, step, y');
  }

  lemma Start(cfg: Config, p: Pair, waived: Condition)
    ensures Reachable(cfg, p, waived, INIT)
  {
    assert Reaches(cfg, p, waived, [], INIT);
  }

  function Fresh(peer: string): Conn { Conn(peer, Phase.Registered, true, [], [], [], Idle) }

  function Open(peer: string): Conn { Fresh(peer).(phase := Running) }

  /** What these runs change: connections, registry, the recipient's queue, and what was accepted. */
  datatype View = View(
    conns: seq<Conn>,
    registry: map<string, nat>,
    queue: seq<Msg>,
    accepted: seq<Msg>,
    origins: seq<nat>)

  function State(v: View, p: Pair): Relay {
    Relay(v.conns, v.registry, if v.queue == [] then map[] else map[p.to := v.queue], [], v.accepted, v.origins)
  }

  ghost predicate Seen(cfg: Config, p: Pair, waived: Condition, v: View) { Reachable(cfg, p, waived, State(v, p)) }

  // ---------- One step at a time ----------

  lemma Registers(cfg: Config, p: Pair, waived: Condition, v: View, peer: string)
    requires Seen(cfg, p, waived, v) && peer != ""
    requires forall k :: k != waived ==> Meets(State(v, p), Register(peer), p, k)
    ensures Seen(cfg, p, waived, v.(conns := v.conns + [Fresh(peer)], registry := v.registry[peer := |v.conns|]))
  {
    Then(cfg, p, waived, State(v, p), Register(peer),
         State(v.(conns := v.conns + [Fresh(peer)], registry := v.registry[peer := |v.conns|]), p));
  }

  lemma Acknowledges(cfg: Config, p: Pair, waived: Condition, v: View, c: nat, ok: bool)
    requires Seen(cfg, p, waived, v) && c < |v.conns| && v.conns[c].phase == Phase.Registered
    ensures Seen(cfg, p, waived, v.(conns := v.conns[c := v.conns[c].(phase := if ok then Acked else Refused)]))
  {
    On(cfg, p, waived, State(v, p), SendAck(c, ok),
       State(v.(conns := v.conns[c := v.conns[c].(phase := if ok then Acked else Refused)]), p));
  }

  /** The recipient drains its queue; another peer has none. */
  lemma Drains(cfg: Config, p: Pair, waived: Condition, v: View, c: nat)
    requires Seen(cfg, p, waived, v) && c < |v.conns| && v.conns[c].phase == Acked
    ensures var mine := v.conns[c].peer == p.to;
            var conn := v.conns[c].(phase := Draining, backlog := if mine then v.queue else []);
      Seen(cfg, p, waived, v.(conns := v.conns[c := conn], queue := if mine then [] else v.queue))
  {
    var mine := v.conns[c].peer == p.to;
    var conn := v.conns[c].(phase := Draining, backlog := if mine then v.queue else []);
    var v' := v.(conns := v.conns[c := conn], queue := if mine then [] else v.queue);
    assert State(v, p).queues - {v.conns[c].peer} == State(v', p).queues;
    On(cfg, p, waived, State(v, p), Drain(c), State(v', p));
  }

  lemma Starts(cfg: Config, p: Pair, waived: Condition, v: View, c: nat)
    requires Seen(cfg, p, waived, v) && c < |v.conns| && v.conns[c].phase == Draining && v.conns[c].backlog == []
    ensures Seen(cfg, p, waived, v.(conns := v.conns[c := v.conns[c].(phase := Running)]))
  {
    On(cfg, p, waived, State(v, p), Spawn(c), State(v.(conns := v.conns[c := v.conns[c].(phase := Running)]), p));
  }

  lemma SendsBacklog(cfg: Config, p: Pair, waived: Condition, v: View, c: nat)
    requires Seen(cfg, p, waived, v) && c < |v.conns| && v.conns[c].phase == Draining && v.conns[c].backlog != []
    ensures var (conn, b) := (v.conns[c], v.conns[c].backlog);
      Seen(cfg, p, waived, v.(conns := v.conns[c := conn.(backlog := b[1..], delivered := conn.delivered + [b[0]])]))
  {
    var (conn, b) := (v.conns[c], v.conns[c].backlog);
    On(cfg, p, waived, State(v, p), SendBacklog(c, true),
       State(v.(conns := v.conns[c := conn.(backlog := b[1..], delivered := conn.delivered + [b[0]])]), p));
  }

  lemma Writes(cfg: Config, p: Pair, waived: Condition, v: View, c: nat)
    requires Seen(cfg, p, waived, v) && c < |v.conns| && v.conns[c].phase == Running && v.conns[c].channel != []
    ensures var (conn, q) := (v.conns[c], v.conns[c].channel);
      Seen(cfg, p, waived, v.(conns := v.conns[c := conn.(channel := q[1..], delivered := conn.delivered + [q[0]])]))
  {
    var (conn, q) := (v.conns[c], v.conns[c].channel);
    On(cfg, p, waived, State(v, p), Write(c, true),
       State(v.(conns := v.conns[c := conn.(channel := q[1..], delivered := conn.delivered + [q[0]])]), p));
  }

  lemma Stops(cfg: Config, p: Pair, waived: Condition, v: View, c: nat)
    requires Seen(cfg, p, waived, v) && c < |v.conns| && v.conns[c].phase == Running
    ensures Seen(cfg, p, waived, v.(conns := v.conns[c := v.conns[c].(phase := Stopped)]))
  {
    On(cfg, p, waived, State(v, p), Stop(c), State(v.(conns := v.conns[c := v.conns[c].(phase := Stopped)]), p));
  }

  lemma CleansUp(cfg: Config, p: Pair, waived: Condition, v: View, c: nat)
    requires Seen(cfg, p, waived, v) && c < |v.conns| && (v.conns[c].phase == Stopped || v.conns[c].phase == Refused)
    ensures var conn := v.conns[c].(phase := if v.conns[c].phase == Refused then Discarded else Closed);
      Seen(cfg, p, waived, v.(conns := v.conns[c := conn], registry := v.registry - {conn.peer}))
  {
    var conn := v.conns[c].(phase := if v.conns[c].phase == Refused then Discarded else Closed);
    On(cfg, p, waived, State(v, p), Cleanup(c),
       State(v.(conns := v.conns[c := conn], registry := v.registry - {conn.peer}), p));
  }

  lemma Submits(cfg: Config, p: Pair, waived: Condition, v: View, c: nat, body: Body)
    requires Seen(cfg, p, waived, v) && c < |v.conns| && v.conns[c] == Open(p.from) && body.Fits(cfg.maxPayload)
    requires waived == Single || forall conn :: conn in v.conns ==> !Busy(conn.routing, p)
    ensures var msg := Msg(|v.accepted|, p.from, p.to, body);
      Seen(cfg, p, waived, v.(conns := v.conns[c := v.conns[c].(routing := Lookup(msg))],
                              accepted := v.accepted + [msg], origins := v.origins + [c]))
  {
    var msg := Msg(|v.accepted|, p.from, p.to, body);
    Then(cfg, p, waived, State(v, p), Accept(c, "", p.to, body),
         State(v.(conns := v.conns[c := v.conns[c].(routing := Lookup(msg))],
                  accepted := v.accepted + [msg], origins := v.origins + [c]), p));
  }

  lemma LooksUp(cfg: Config, p: Pair, waived: Condition, v: View, c: nat)
    requires Seen(cfg, p, waived, v) && c < |v.conns| && v.conns[c].routing.Lookup? && p.Has(v.conns[c].routing.msg)
    ensures var msg := v.conns[c].routing.msg;
            var found := if p.to in v.registry then Forward(msg, v.registry[p.to]) else Store(msg);
      Seen(cfg, p, waived, v.(conns := v.conns[c := v.conns[c].(routing := found)]))
  {
    var msg := v.conns[c].routing.msg;
    var found := if p.to in v.registry then Forward(msg, v.registry[p.to]) else Store(msg);
    On(cfg, p, waived, State(v, p), LookUp(c), State(v.(conns := v.conns[c := v.conns[c].(routing := found)]), p));
  }

  lemma Sends(cfg: Config, p: Pair, waived: Condition, v: View, c: nat, d: nat, msg: Msg)
    requires Seen(cfg, p, waived, v) && c < |v.conns| && d < |v.conns| && c != d
    requires v.conns[c].routing == Forward(msg, d) && v.conns[d].open
    ensures var idle := v.conns[c := v.conns[c].(routing := Idle)];
      Seen(cfg, p, waived, v.(conns := idle[d := v.conns[d].(channel := v.conns[d].channel + [msg])]))
  {
    var idle := v.conns[c := v.conns[c].(routing := Idle)];
    On(cfg, p, waived, State(v, p), SendOn(c, true),
       State(v.(conns := idle[d := v.conns[d].(channel := v.conns[d].channel + [msg])]), p));
  }

  lemma Stores(cfg: Config, p: Pair, waived: Condition, v: View, c: nat, msg: Msg)
    requires Seen(cfg, p, waived, v) && c < |v.conns| && v.conns[c].routing == Store(msg) && p.Has(msg)
    requires |v.queue| < cfg.maxQueue
    ensures Seen(cfg, p, waived, v.(conns := v.conns[c := v.conns[c].(routing := Idle)], queue := v.queue + [msg]))
  {
    var v' := v.(conns := v.conns[c := v.conns[c].(routing := Idle)], queue := v.queue + [msg]);
    assert QueueOf(State(v, p).queues, p.to) == v.queue;
    assert State(v, p).queues[p.to := v.queue + [msg]] == State(v', p).queues;
    On(cfg, p, waived, State(v, p), StoreFor(c), State(v', p));
  }

  // ---------- What the runs share ----------

  lemma Begins(cfg: Config, p: Pair, waived: Condition)
    ensures Seen(cfg, p, waived, View([], map[], [], [], []))
  {
    Start(cfg, p, waived);
  }

  /** The sender connects, with nothing in its queue. */
  lemma SenderConnects(cfg: Config, p: Pair, waived: Condition, v: View)
    requires Seen(cfg, p, waived, v) && p.from != p.to && p.from != ""
    ensures Seen(cfg, p, waived, v.(conns := v.conns + [Open(p.from)], registry := v.registry[p.from := |v.conns|]))
  {
    var n := |v.conns|;
    var v1 := v.(conns := v.conns + [Fresh(p.from)], registry := v.registry[p.from := n]);
    var v2 := v1.(conns := v1.conns[n := Fresh(p.from).(phase := Acked)]);
    var v3 := v1.(conns := v1.conns[n := Fresh(p.from).(phase := Draining)]);
    Registers(cfg, p, waived, v, p.from);
    Acknowledges(cfg, p, waived, v1, n, true);
    Drains(cfg, p, waived, v2, n);
    assert v2.conns[n := Fresh(p.from).(phase := Draining)] == v3.conns;
    Starts(cfg, p, waived, v3, n);
    assert v3.conns[n := Open(p.from)] == v.conns + [Open(p.from)];
  }

  /** The recipient connects, and takes its queue. */
  lemma RecipientDrains(cfg: Config, p: Pair, waived: Condition, v: View)
    requires Seen(cfg, p, waived, v) && p.to != ""
    requires forall k :: k != waived ==> Meets(State(v, p), Register(p.to), p, k)
    ensures var conn := Fresh(p.to).(phase := Draining, backlog := v.queue);
      Seen(cfg, p, waived, v.(conns := v.conns + [conn], registry := v.registry[p.to := |v.conns|], queue := []))
  {
    var n := |v.conns|;
    var v1 := v.(conns := v.conns + [Fresh(p.to)], registry := v.registry[p.to := n]);
    var v2 := v1.(conns := v1.conns[n := Fresh(p.to).(phase := Acked)]);
    Registers(cfg, p, waived, v, p.to);
    Acknowledges(cfg, p, waived, v1, n, true);
    Drains(cfg, p, waived, v2, n);
    var conn := Fresh(p.to).(phase := Draining, backlog := v.queue);
    assert v2.conns[n := conn] == v.conns + [conn];
  }

  /** The messages: two of the pair, in the order of their acceptance. */
  function First(p: Pair, body: Body): Msg { Msg(0, p.from, p.to, body) }

  function Second(p: Pair, body: Body): Msg { Msg(1, p.from, p.to, body) }

  predicate Two(cfg: Config, p: Pair, body: Body) {
    p.from != p.to && p.from != "" && p.to != "" && body.Fits(cfg.maxPayload)
  }

  /** They arrive the wrong way round. */
  ghost predicate Reordered(y: Relay, p: Pair) {
    !Subsequence(OfPair(DeliveredTo(y.conns, p.to), p), OfPair(y.accepted, p))
  }

  lemma SwappedIsReordered(y: Relay, p: Pair, body: Body)
    requires y.accepted == [First(p, body), Second(p, body)]
    requires DeliveredTo(y.conns, p.to) == [Second(p, body), First(p, body)]
    ensures Reordered(y, p)
  {
    var (m, n) := (First(p, body), Second(p, body));
    assert [m, n][..1] == [m] && [n, m][..1] == [n] && [m][..0] == [] && [n][..0] == [];
    assert OfPair([m], p) == [m] && OfPair([n], p) == [n];
    assert OfPair([m, n], p) == [m, n] && OfPair([n, m], p) == [n, m];
    assert !Subsequence([n], []) && !Subsequence([n, m], []);
    assert !Subsequence([n, m], [m]);
  }

  function DeliveredBy(conn: Conn, to: string): seq<Msg> { if conn.peer == to then conn.delivered else [] }

  lemma DeliveredByThree(a: Conn, b: Conn, c: Conn, to: string)
    ensures DeliveredTo([a, b, c], to) == DeliveredBy(a, to) + DeliveredBy(b, to) + DeliveredBy(c, to)
  {
    assert [a, b, c][..2] == [a, b] && [a, b][..1] == [a] && [a][..0] == [];
    assert DeliveredTo([a], to) == [] + DeliveredBy(a, to) == DeliveredBy(a, to);
  }

  /** Such a state shows that the condition cannot be waived. */
  lemma Swapped(cfg: Config, p: Pair, waived: Condition, v: View, body: Body)
    requires Seen(cfg, p, waived, v) && |v.conns| == 3
    requires v.accepted == [First(p, body), Second(p, body)]
    requires DeliveredBy(v.conns[0], p.to) + DeliveredBy(v.conns[1], p.to) + DeliveredBy(v.conns[2], p.to)
      == [Second(p, body), First(p, body)]
    ensures exists y :: Reachable(cfg, p, waived, y) && Reordered(y, p)
  {
    assert v.conns == [v.conns[0], v.conns[1], v.conns[2]];
    DeliveredByThree(v.conns[0], v.conns[1], v.conns[2], p.to);
    SwappedIsReordered(State(v, p), p, body);
  }

  // ---------- Two of the sender's connections at once ----------

  lemma TwoSubmit(cfg: Config, p: Pair, body: Body)
    requires Two(cfg, p, body)
    ensures var (a, m, n) := (Open(p.from), First(p, body), Second(p, body));
      Seen(cfg, p, Single,
        View([a.(routing := Lookup(m)), a.(routing := Lookup(n))], map[p.from := 1], [], [m, n], [0, 1]))
  {
    var (a, m, n) := (Open(p.from), First(p, body), Second(p, body));
    Begins(cfg, p, Single);
    SenderConnects(cfg, p, Single, View([], map[], [], [], []));
    assert [] + [a] == [a] && map[][p.from := 0] == map[p.from := 0];
    Submits(cfg, p, Single, View([a], map[p.from := 0], [], [], []), 0, body);
    assert [a][0 := a.(routing := Lookup(m))] == [a.(routing := Lookup(m))] && [] + [m] == [m] && [] + [0] == [0];
    var v := View([a.(routing := Lookup(m))], map[p.from := 0], [], [m], [0]);
    SenderConnects(cfg, p, Single, v);
    var v' := View([a.(routing := Lookup(m)), a], map[p.from := 1], [], [m], [0]);
    assert v.conns + [a] == v'.conns && v.registry[p.from := 1] == v'.registry;
    Submits(cfg, p, Single, v', 1, body);
    assert v'.conns[1 := a.(routing := Lookup(n))] == [a.(routing := Lookup(m)), a.(routing := Lookup(n))];
    assert [m] + [n] == [m, n] && [0] + [1] == [0, 1];
  }

  lemma LaterStored(cfg: Config, p: Pair, body: Body)
    requires Two(cfg, p, body) && cfg.maxQueue >= 1
    ensures var (a, m, n) := (Open(p.from), First(p, body), Second(p, body));
      Seen(cfg, p, Single, View([a.(routing := Lookup(m)), a], map[p.from := 1], [n], [m, n], [0, 1]))
  {
    var (a, m, n) := (Open(p.from), First(p, body), Second(p, body));
    var (am, an) := (a.(routing := Lookup(m)), a.(routing := Lookup(n)));
    var v := View([am, an], map[p.from := 1], [], [m, n], [0, 1]);
    TwoSubmit(cfg, p, body);
    LooksUp(cfg, p, Single, v, 1);
    assert v.conns[1 := a.(routing := Store(n))] == [am, a.(routing := Store(n))];
    Stores(cfg, p, Single, v.(conns := [am, a.(routing := Store(n))]), 1, n);
    assert [am, a.(routing := Store(n))][1 := a] == [am, a] && [] + [n] == [n];
  }

  lemma TwoStore(cfg: Config, p: Pair, body: Body)
    requires Two(cfg, p, body) && cfg.maxQueue >= 2
    ensures var (a, m, n) := (Open(p.from), First(p, body), Second(p, body));
      Seen(cfg, p, Single, View([a, a], map[p.from := 1], [n, m], [m, n], [0, 1]))
  {
    var (a, m, n) := (Open(p.from), First(p, body), Second(p, body));
    var v := View([a.(routing := Lookup(m)), a], map[p.from := 1], [n], [m, n], [0, 1]);
    LaterStored(cfg, p, body);
    LooksUp(cfg, p, Single, v, 0);
    assert v.conns[0 := a.(routing := Store(m))] == [a.(routing := Store(m)), a];
    Stores(cfg, p, Single, v.(conns := [a.(routing := Store(m)), a]), 0, m);
    assert [a.(routing := Store(m)), a][0 := a] == [a, a] && [n] + [m] == [n, m];
  }

  /** Of two messages submitted over two connections, the later is stored first. */
  lemma TwoAtATimeReorders(cfg: Config, p: Pair, body: Body)
    requires Two(cfg, p, body) && cfg.maxQueue >= 2
    ensures exists y :: Reachable(cfg, p, Single, y) && Reordered(y, p)
  {
    var (a, m, n) := (Open(p.from), First(p, body), Second(p, body));
    var v := View([a, a], map[p.from := 1], [n, m], [m, n], [0, 1]);
    TwoStore(cfg, p, body);
    RecipientDrains(cfg, p, Single, v);
    var d := Fresh(p.to).(phase := Draining, backlog := [n, m]);
    assert v.conns + [d] == [a, a, d];
    TwoArrive(cfg, p, body, v.registry[p.to := 2]);
  }

  lemma TwoArrive(cfg: Config, p: Pair, body: Body, r: map<string, nat>)
    requires Two(cfg, p, body)
    requires var (a, m, n) := (Open(p.from), First(p, body), Second(p, body));
             var b := Fresh(p.to).(phase := Draining, backlog := [n, m]);
      Seen(cfg, p, Single, View([a, a, b], r, [], [m, n], [0, 1]))
    ensures exists y :: Reachable(cfg, p, Single, y) && Reordered(y, p)
  {
    var (a, m, n) := (Open(p.from), First(p, body), Second(p, body));
    var d := Fresh(p.to).(phase := Draining);
    var v := View([a, a, d.(backlog := [n, m])], r, [], [m, n], [0, 1]);
    SendsBacklog(cfg, p, Single, v, 2);
    assert [n, m][1..] == [m] && [] + [n] == [n];
    var w := v.(conns := v.conns[2 := d.(backlog := [m], delivered := [n])]);
    SendsBacklog(cfg, p, Single, w, 2);
    assert [m][1..] == [] && [n] + [m] == [n, m];
    Swapped(cfg, p, Single, w.(conns := w.conns[2 := d.(delivered := [n, m])]), body);
  }

  // ---------- A second registration before the first is cleaned up ----------

  lemma FirstRefused(cfg: Config, p: Pair, body: Body)
    requires Two(cfg, p, body)
    ensures Seen(cfg, p, Succession,
      View([Open(p.from), Fresh(p.to).(phase := Refused)], map[p.from := 0, p.to := 1], [], [], []))
  {
    var (a, b) := (Open(p.from), Fresh(p.to));
    Begins(cfg, p, Succession);
    SenderConnects(cfg, p, Succession, View([], map[], [], [], []));
    assert [] + [a] == [a] && map[][p.from := 0] == map[p.from := 0];
    Registers(cfg, p, Succession, View([a], map[p.from := 0], [], [], []), p.to);
    assert [a] + [b] == [a, b] && map[p.from := 0][p.to := 1] == map[p.from := 0, p.to := 1];
    Acknowledges(cfg, p, Succession, View([a, b], map[p.from := 0, p.to := 1], [], [], []), 1, false);
    assert [a, b][1 := b.(phase := Refused)] == [a, b.(phase := Refused)];
  }

  lemma SecondRegisters(cfg: Config, p: Pair, body: Body)
    requires Two(cfg, p, body)
    ensures var b := Fresh(p.to);
      Seen(cfg, p, Succession,
        View([Open(p.from), b.(phase := Refused), b], map[p.from := 0, p.to := 2], [], [], []))
  {
    var (a, b) := (Open(p.from), Fresh(p.to));
    FirstRefused(cfg, p, body);
    var w := View([a, b.(phase := Refused)], map[p.from := 0, p.to := 1], [], [], []);
    Registers(cfg, p, Succession, w, p.to);
    assert w.conns + [b] == [a, b.(phase := Refused), b];
    assert w.registry[p.to := 2] == map[p.from := 0, p.to := 2];
  }

  /** The first message goes to the new channel, ahead of the drain. */
  lemma FirstToChannel(cfg: Config, p: Pair, body: Body)
    requires Two(cfg, p, body)
    ensures var (b, m) := (Fresh(p.to), First(p, body));
      Seen(cfg, p, Succession,
        View([Open(p.from), b.(phase := Refused), b.(channel := [m])], map[p.from := 0, p.to := 2], [], [m], [0]))
  {
    var (a, b, m) := (Open(p.from), Fresh(p.to), First(p, body));
    var (old', r) := (b.(phase := Refused), map[p.from := 0, p.to := 2]);
    SecondRegisters(cfg, p, body);
    Submits(cfg, p, Succession, View([a, old', b], r, [], [], []), 0, body);
    assert [a, old', b][0 := a.(routing := Lookup(m))] == [a.(routing := Lookup(m)), old', b];
    assert [] + [m] == [m] && [] + [0] == [0];
    var v := View([a.(routing := Lookup(m)), old', b], r, [], [m], [0]);
    LooksUp(cfg, p, Succession, v, 0);
    assert v.conns[0 := a.(routing := Forward(m, 2))] == [a.(routing := Forward(m, 2)), old', b];
    var w := v.(conns := [a.(routing := Forward(m, 2)), old', b]);
    Sends(cfg, p, Succession, w, 0, 2, m);
    assert [] + [m] == [m] && w.conns[0 := a][2 := b.(channel := [m])] == [a, old', b.(channel := [m])];
  }

  /** The cleanup of the old connection unregisters the recipient. */
  lemma OldCleansUp(cfg: Config, p: Pair, body: Body)
    requires Two(cfg, p, body)
    ensures var (b, m) := (Fresh(p.to), First(p, body));
      Seen(cfg, p, Succession,
        View([Open(p.from), b.(phase := Discarded), b.(channel := [m])], map[p.from := 0], [], [m], [0]))
  {
    var (a, b, m) := (Open(p.from), Fresh(p.to), First(p, body));
    var (gone, here) := (b.(phase := Discarded), b.(channel := [m]));
    FirstToChannel(cfg, p, body);
    var v := View([a, b.(phase := Refused), here], map[p.from := 0, p.to := 2], [], [m], [0]);
    CleansUp(cfg, p, Succession, v, 1);
    assert v.conns[1 := gone] == [a, gone, here] && v.registry - {p.to} == map[p.from := 0];
  }

  lemma SecondSubmitted(cfg: Config, p: Pair, body: Body)
    requires Two(cfg, p, body)
    ensures var (b, m, n) := (Fresh(p.to), First(p, body), Second(p, body));
      Seen(cfg, p, Succession,
        View([Open(p.from).(routing := Lookup(n)), b.(phase := Discarded), b.(channel := [m])],
             map[p.from := 0], [], [m, n], [0, 0]))
  {
    var (a, b, m, n) := (Open(p.from), Fresh(p.to), First(p, body), Second(p, body));
    var (gone, here) := (b.(phase := Discarded), b.(channel := [m]));
    OldCleansUp(cfg, p, body);
    var w := View([a, gone, here], map[p.from := 0], [], [m], [0]);
    Submits(cfg, p, Succession, w, 0, body);
    assert w.conns[0 := a.(routing := Lookup(n))] == [a.(routing := Lookup(n)), gone, here];
    assert [m] + [n] == [m, n] && [0] + [0] == [0, 0];
  }

  /** So the second message is stored. */
  lemma SecondToQueue(cfg: Config, p: Pair, body: Body)
    requires Two(cfg, p, body) && cfg.maxQueue >= 1
    ensures var (b, m, n) := (Fresh(p.to), First(p, body), Second(p, body));
      Seen(cfg, p, Succession,
        View([Open(p.from), b.(phase := Discarded), b.(channel := [m])], map[p.from := 0], [n], [m, n], [0, 0]))
  {
    var (a, b, m, n) := (Open(p.from), Fresh(p.to), First(p, body), Second(p, body));
    var (gone, here) := (b.(phase := Discarded), b.(channel := [m]));
    SecondSubmitted(cfg, p, body);
    var x := View([a.(routing := Lookup(n)), gone, here], map[p.from := 0], [], [m, n], [0, 0]);
    LooksUp(cfg, p, Succession, x, 0);
    assert x.conns[0 := a.(routing := Store(n))] == [a.(routing := Store(n)), gone, here];
    Stores(cfg, p, Succession, x.(conns := [a.(routing := Store(n)), gone, here]), 0, n);
    assert [a.(routing := Store(n)), gone, here][0 := a] == [a, gone, here] && [] + [n] == [n];
  }

  lemma ChannelAfterBacklog(cfg: Config, p: Pair, body: Body)
    requires Two(cfg, p, body) && cfg.maxQueue >= 1
    ensures var (b, m, n) := (Fresh(p.to), First(p, body), Second(p, body));
            var here := b.(phase := Draining, delivered := [n], channel := [m]);
      Seen(cfg, p, Succession,
        View([Open(p.from), b.(phase := Discarded), here], map[p.from := 0], [], [m, n], [0, 0]))
  {
    var (a, b, m, n) := (Open(p.from), Fresh(p.to), First(p, body), Second(p, body));
    var (gone, here) := (b.(phase := Discarded), b.(channel := [m]));
    SecondToQueue(cfg, p, body);
    var v := View([a, gone, here], map[p.from := 0], [n], [m, n], [0, 0]);
    Acknowledges(cfg, p, Succession, v, 2, true);
    assert v.conns[2 := here.(phase := Acked)] == [a, gone, here.(phase := Acked)];
    var w := v.(conns := [a, gone, here.(phase := Acked)]);
    Drains(cfg, p, Succession, w, 2);
    var drained := here.(phase := Draining, backlog := [n]);
    assert w.conns[2 := drained] == [a, gone, drained];
    var x := w.(conns := [a, gone, drained], queue := []);
    SendsBacklog(cfg, p, Succession, x, 2);
    assert [n][1..] == [] && [] + [n] == [n];
    assert x.conns[2 := here.(phase := Draining, delivered := [n])]
        == [a, gone, here.(phase := Draining, delivered := [n])];
  }

  /** Of two messages, the first reached the new connection's channel and the second its drained queue. */
  lemma EarlyRegistrationReorders(cfg: Config, p: Pair, body: Body)
    requires Two(cfg, p, body) && cfg.maxQueue >= 1
    ensures exists y :: Reachable(cfg, p, Succession, y) && Reordered(y, p)
  {
    var (a, b, m, n) := (Open(p.from), Fresh(p.to), First(p, body), Second(p, body));
    var (gone, here) := (b.(phase := Discarded), b.(delivered := [n], channel := [m]));
    ChannelAfterBacklog(cfg, p, body);
    var v := View([a, gone, here.(phase := Draining)], map[p.from := 0], [], [m, n], [0, 0]);
    Starts(cfg, p, Succession, v, 2);
    assert v.conns[2 := here.(phase := Running)] == [a, gone, here.(phase := Running)];
    var w := v.(conns := [a, gone, here.(phase := Running)]);
    Writes(cfg, p, Succession, w, 2);
    var done := b.(phase := Running, delivered := [n, m]);
    assert [m][1..] == [] && [n] + [m] == [n, m];
    Swapped(cfg, p, Succession, w.(conns := w.conns[2 := done]), body);
  }

  // ---------- A registration between lookup and store ----------

  lemma LookedUpAndHeld(cfg: Config, p: Pair, body: Body)
    requires Two(cfg, p, body)
    ensures var (a, m) := (Open(p.from), First(p, body));
      Seen(cfg, p, Calm, View([a.(routing := Store(m))], map[p.from := 0], [], [m], [0]))
  {
    var (a, m) := (Open(p.from), First(p, body));
    Begins(cfg, p, Calm);
    SenderConnects(cfg, p, Calm, View([], map[], [], [], []));
    assert [] + [a] == [a] && map[][p.from := 0] == map[p.from := 0];
    Submits(cfg, p, Calm, View([a], map[p.from := 0], [], [], []), 0, body);
    assert [a][0 := a.(routing := Lookup(m))] == [a.(routing := Lookup(m))] && [] + [m] == [m] && [] + [0] == [0];
    var v := View([a.(routing := Lookup(m))], map[p.from := 0], [], [m], [0]);
    LooksUp(cfg, p, Calm, v, 0);
    assert v.conns[0 := a.(routing := Store(m))] == [a.(routing := Store(m))];
  }

  /** The recipient drains nothing, and then the message is stored after all. */
  lemma StoredTooLate(cfg: Config, p: Pair, body: Body)
    requires Two(cfg, p, body) && cfg.maxQueue >= 1
    ensures Seen(cfg, p, Calm,
      View([Open(p.from), Open(p.to)], map[p.from := 0, p.to := 1], [First(p, body)], [First(p, body)], [0]))
  {
    var (a, b, m) := (Open(p.from), Open(p.to), First(p, body));
    var (held, r) := (a.(routing := Store(m)), map[p.from := 0, p.to := 1]);
    LookedUpAndHeld(cfg, p, body);
    var v := View([held], map[p.from := 0], [], [m], [0]);
    RecipientDrains(cfg, p, Calm, v);
    assert v.conns + [b.(phase := Draining)] == [held, b.(phase := Draining)] && v.registry[p.to := 1] == r;
    var w := View([held, b.(phase := Draining)], r, [], [m], [0]);
    Starts(cfg, p, Calm, w, 1);
    assert w.conns[1 := b] == [held, b];
    Stores(cfg, p, Calm, w.(conns := [held, b]), 0, m);
    assert [held, b][0 := a] == [a, b] && [] + [m] == [m];
  }

  lemma SecondForwarded(cfg: Config, p: Pair, body: Body)
    requires Two(cfg, p, body) && cfg.maxQueue >= 1
    ensures var (m, n) := (First(p, body), Second(p, body));
      Seen(cfg, p, Calm,
        View([Open(p.from).(routing := Forward(n, 1)), Open(p.to)], map[p.from := 0, p.to := 1], [m], [m, n], [0, 0]))
  {
    var (a, b, m, n) := (Open(p.from), Open(p.to), First(p, body), Second(p, body));
    var r := map[p.from := 0, p.to := 1];
    StoredTooLate(cfg, p, body);
    Submits(cfg, p, Calm, View([a, b], r, [m], [m], [0]), 0, body);
    assert [a, b][0 := a.(routing := Lookup(n))] == [a.(routing := Lookup(n)), b];
    assert [m] + [n] == [m, n] && [0] + [0] == [0, 0];
    var v := View([a.(routing := Lookup(n)), b], r, [m], [m, n], [0, 0]);
    LooksUp(cfg, p, Calm, v, 0);
    assert v.conns[0 := a.(routing := Forward(n, 1))] == [a.(routing := Forward(n, 1)), b];
  }

  /** The second message goes to the channel, and out. */
  lemma SecondOvertakes(cfg: Config, p: Pair, body: Body)
    requires Two(cfg, p, body) && cfg.maxQueue >= 1
    ensures var (m, n) := (First(p, body), Second(p, body));
      Seen(cfg, p, Calm,
        View([Open(p.from), Open(p.to).(delivered := [n])], map[p.from := 0, p.to := 1], [m], [m, n], [0, 0]))
  {
    var (a, b, m, n) := (Open(p.from), Open(p.to), First(p, body), Second(p, body));
    SecondForwarded(cfg, p, body);
    var w := View([a.(routing := Forward(n, 1)), b], map[p.from := 0, p.to := 1], [m], [m, n], [0, 0]);
    Sends(cfg, p, Calm, w, 0, 1, n);
    assert [] + [n] == [n] && w.conns[0 := a][1 := b.(channel := [n])] == [a, b.(channel := [n])];
    var x := w.(conns := [a, b.(channel := [n])]);
    Writes(cfg, p, Calm, x, 1);
    assert [n][1..] == [] && x.conns[1 := b.(delivered := [n])] == [a, b.(delivered := [n])];
  }

  /** When the recipient reconnects, it drains what it should have got first. */
  lemma StaleIsDrained(cfg: Config, p: Pair, body: Body)
    requires Two(cfg, p, body) && cfg.maxQueue >= 1
    ensures var (m, n) := (First(p, body), Second(p, body));
            var was := Open(p.to).(phase := Closed, delivered := [n]);
            var now := Fresh(p.to).(phase := Draining, backlog := [m]);
      Seen(cfg, p, Calm, View([Open(p.from), was, now], map[p.from := 0][p.to := 2], [], [m, n], [0, 0]))
  {
    var (a, m, n) := (Open(p.from), First(p, body), Second(p, body));
    var b := Open(p.to).(delivered := [n]);
    var (stopped, was) := (b.(phase := Stopped), b.(phase := Closed));
    SecondOvertakes(cfg, p, body);
    var v := View([a, b], map[p.from := 0, p.to := 1], [m], [m, n], [0, 0]);
    Stops(cfg, p, Calm, v, 1);
    assert v.conns[1 := stopped] == [a, stopped];
    var w := v.(conns := [a, stopped]);
    CleansUp(cfg, p, Calm, w, 1);
    assert w.conns[1 := was] == [a, was] && w.registry - {p.to} == map[p.from := 0];
    var x := w.(conns := [a, was], registry := map[p.from := 0]);
    RecipientDrains(cfg, p, Calm, x);
    var now := Fresh(p.to).(phase := Draining, backlog := [m]);
    assert x.conns + [now] == [a, was, now];
  }

  /** Of two messages, the first was stored behind the drain and the second overtook it. */
  lemma LateStoreReorders(cfg: Config, p: Pair, body: Body)
    requires Two(cfg, p, body) && cfg.maxQueue >= 1
    ensures exists y :: Reachable(cfg, p, Calm, y) && Reordered(y, p)
  {
    var (a, m, n) := (Open(p.from), First(p, body), Second(p, body));
    var was := Open(p.to).(phase := Closed, delivered := [n]);
    var now := Fresh(p.to).(phase := Draining);
    StaleIsDrained(cfg, p, body);
    var v := View([a, was, now.(backlog := [m])], map[p.from := 0][p.to := 2], [], [m, n], [0, 0]);
    SendsBacklog(cfg, p, Calm, v, 2);
    assert [m][1..] == [] && [] + [m] == [m];
    assert [] + [n] + [m] == [n, m];
    Swapped(cfg, p, Calm, v.(conns := v.conns[2 := now.(delivered := [m])]), body);
  }
}
