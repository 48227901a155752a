/**
 Order of delivery when routing a message is atomic: a peer registers again only after its previous connection's
 cleanup, and one message is routed in one go. Everything else -- drains, writes, failures, stops, cleanups --
 interleaves. Such a run is a run of the fine-grained steps that meets the conditions on those.
 */
module RelayOrder {
  import opened Counting
  import opened Relay
  import opened RelayFlow

  datatype Coarse =
    | One(step: Step)                                              // anything but a step of routing
    | Route(c: nat, to: string, body: Body, encodes: bool)    // accept, look up, send or store

  predicate Routes(step: Step) {
    step.Accept? || step.LookUp? || step.SendOn? || step.UnregisterRecipient? || step.StoreFor?
  }

  predicate Allowed(y: Relay, cfg: Config, move: Coarse) {
    match move
    case One(step) =>
      && !Routes(step) && Enabled(y, cfg, step)
      && (step.Register? ==> forall conn :: conn in y.conns && conn.peer == step.peer ==> CleanedUp(conn.phase))
    case Route(c, to, body, _) => Enabled(y, cfg, Accept(c, "", to, body))
  }

  predicate Registry(y: Relay) {
    forall p :: p in y.registry ==> y.registry[p] < |y.conns|
  }

  /** The steps that routing one payload takes, in the state it starts from. */
  function RouteSteps(y: Relay, c: nat, to: string, body: Body, encodes: bool): seq<Step>
    requires Registry(y)
  {
    [Accept(c, "", to, body)] + ([LookUp(c)] + (
      if to !in y.registry then [StoreFor(c)] + []
      else if !encodes || y.conns[y.registry[to]].open then [SendOn(c, encodes)] + []
      else [SendOn(c, encodes)] + ([UnregisterRecipient(c)] + ([StoreFor(c)] + []))))
  }

  function StepsOf(y: Relay, move: Coarse): seq<Step>
    requires Registry(y)
  {
    match move
    case One(step) => [step] + []
    case Route(c, to, body, encodes) => RouteSteps(y, c, to, body, encodes)
  }

  // ---------- What routing amounts to ----------

  /** One accepted payload routed at once: into an open channel, else into the queue. */
  function Routed(y: Relay, cfg: Config, msg: Msg, encodes: bool): Relay
    requires Registry(y)
  {
    if msg.to !in y.registry then Stored(y, cfg, msg)
    else if !encodes then y.(lost := y.lost + [msg])
    else if y.conns[y.registry[msg.to]].open then Delivered(y, msg, y.registry[msg.to])
    else Stored(y.(registry := y.registry - {msg.to}), cfg, msg)
  }

  function Logged(y: Relay, c: nat, msg: Msg): Relay {
    y.(accepted := y.accepted + [msg], origins := y.origins + [c])
  }

  lemma StoreRoutes(y: Relay, cfg: Config, c: nat, msg: Msg)
    requires c < |y.conns| && y.conns[c].routing.Idle?
    ensures ValidRun(Taken(y, c, Store(msg)), cfg, [StoreFor(c)] + [])
    ensures Run(Taken(y, c, Store(msg)), cfg, [StoreFor(c)] + []) == Stored(y, cfg, msg)
  {
    var y1 := Taken(y, c, Store(msg));
    RunCons(y1, cfg, StoreFor(c), []);
    assert Next(y1, cfg, StoreFor(c)).conns == y.conns;
  }

  lemma SendRoutes(y: Relay, cfg: Config, c: nat, msg: Msg, d: nat, encodes: bool)
    requires c < |y.conns| && y.conns[c].routing.Idle? && d < |y.conns| && (!encodes || y.conns[d].open)
    ensures ValidRun(Taken(y, c, Forward(msg, d)), cfg, [SendOn(c, encodes)] + [])
    ensures Run(Taken(y, c, Forward(msg, d)), cfg, [SendOn(c, encodes)] + [])
      == if encodes then Delivered(y, msg, d) else y.(lost := y.lost + [msg])
  {
    var y1 := Taken(y, c, Forward(msg, d));
    RunCons(y1, cfg, SendOn(c, encodes), []);
    assert y1.conns[c := y1.conns[c].(routing := Idle)] == y.conns;
  }

  lemma BounceRoutes(y: Relay, cfg: Config, c: nat, msg: Msg, d: nat)
    requires c < |y.conns| && y.conns[c].routing.Idle? && d < |y.conns| && !y.conns[d].open
    ensures var steps := [SendOn(c, true)] + ([UnregisterRecipient(c)] + ([StoreFor(c)] + []));
      && ValidRun(Taken(y, c, Forward(msg, d)), cfg, steps)
      && Run(Taken(y, c, Forward(msg, d)), cfg, steps) == Stored(y.(registry := y.registry - {msg.to}), cfg, msg)
  {
    var gone := y.(registry := y.registry - {msg.to});
    StoreRoutes(gone, cfg, c, msg);
    assert Next(Taken(y, c, Unregister(msg)), cfg, UnregisterRecipient(c)) == Taken(gone, c, Store(msg));
    RunCons(Taken(y, c, Unregister(msg)), cfg, UnregisterRecipient(c), [StoreFor(c)] + []);
    assert Next(Taken(y, c, Forward(msg, d)), cfg, SendOn(c, true)) == Taken(y, c, Unregister(msg));
    RunCons(Taken(y, c, Forward(msg, d)), cfg, SendOn(c, true), [UnregisterRecipient(c)] + ([StoreFor(c)] + []));
  }

  lemma RouteIsRouted(y: Relay, cfg: Config, c: nat, to: string, body: Body, encodes: bool)
    requires Allowed(y, cfg, Route(c, to, body, encodes)) && Registry(y)
    ensures var msg := Msg(|y.accepted|, y.conns[c].peer, to, body);
            var steps := RouteSteps(y, c, to, body, encodes);
      ValidRun(y, cfg, steps) && Run(y, cfg, steps) == Routed(Logged(y, c, msg), cfg, msg, encodes)
  {
    var msg := Msg(|y.accepted|, y.conns[c].peer, to, body);
    var y0 := Logged(y, c, msg);
    var tail := RouteSteps(y, c, to, body, encodes)[2..];
    assert RouteSteps(y, c, to, body, encodes) == [Accept(c, "", to, body)] + ([LookUp(c)] + tail);
    var found := if to in y.registry then Forward(msg, y.registry[to]) else Store(msg);
    if to !in y.registry {
      StoreRoutes(y0, cfg, c, msg);
      assert tail == [StoreFor(c)] + [];
    } else if !encodes || y.conns[y.registry[to]].open {
      SendRoutes(y0, cfg, c, msg, y.registry[to], encodes);
      assert tail == [SendOn(c, encodes)] + [];
    } else {
      BounceRoutes(y0, cfg, c, msg, y.registry[to]);
      assert tail == [SendOn(c, true)] + ([UnregisterRecipient(c)] + ([StoreFor(c)] + []));
    }
    assert Next(y, cfg, Accept(c, "", to, body)) == Taken(y0, c, Lookup(msg));
    assert Next(Taken(y0, c, Lookup(msg)), cfg, LookUp(c)) == Taken(y0, c, found);
    RunCons(Taken(y0, c, Lookup(msg)), cfg, LookUp(c), tail);
    RunCons(y, cfg, Accept(c, "", to, body), [LookUp(c)] + tail);
  }

  // ---------- Such runs are orderly ----------

  predicate AllIdle(y: Relay) { forall conn :: conn in y.conns ==> conn.routing.Idle? }

  /** Steps that neither register nor accept meet every condition. */
  lemma {:induction false} QuietIsOrderly(y: Relay, cfg: Config, steps: seq<Step>, p: Pair)
    requires ValidRun(y, cfg, steps) && forall step :: step in steps ==> !step.Register? && !step.Accept?
    ensures OrderlyRun(y, cfg, steps, p, {})
    decreases |steps|
  {
    if steps == [] {
    } else {
      assert steps[0] in steps;
      QuietIsOrderly(Next(y, cfg, steps[0]), cfg, steps[1..], p);
    }
  }

  lemma RouteIsOrderly(y: Relay, cfg: Config, c: nat, to: string, body: Body, encodes: bool, p: Pair)
    requires Allowed(y, cfg, Route(c, to, body, encodes)) && Registry(y) && AllIdle(y)
    requires ValidRun(y, cfg, RouteSteps(y, c, to, body, encodes))
    ensures OrderlyRun(y, cfg, RouteSteps(y, c, to, body, encodes), p, {})
  {
    var steps := RouteSteps(y, c, to, body, encodes);
    assert steps[0] == Accept(c, "", to, body);
    QuietIsOrderly(Next(y, cfg, steps[0]), cfg, steps[1..], p);
  }

  lemma RoutedStaysIdle(y: Relay, cfg: Config, c: nat, msg: Msg, encodes: bool)
    requires Registry(y) && AllIdle(y)
    ensures var y' := Routed(Logged(y, c, msg), cfg, msg, encodes); AllIdle(y') && Registry(y')
  {
  }

  lemma OneStep(y: Relay, cfg: Config, step: Step)
    requires Enabled(y, cfg, step)
    ensures ValidRun(y, cfg, [step] + []) && Run(y, cfg, [step] + []) == Next(y, cfg, step)
  {
    RunCons(y, cfg, step, []);
  }

  lemma OneStaysIdle(y: Relay, cfg: Config, step: Step)
    requires Registry(y) && AllIdle(y) && Enabled(y, cfg, step) && !Routes(step)
    ensures AllIdle(Next(y, cfg, step)) && Registry(Next(y, cfg, step))
  {
    if !step.Register? { assert y.conns[step.c] in y.conns; }
  }

  /** A move that is allowed can be run: it is an orderly run of fine-grained steps, and leaves all readers idle. */
  lemma AllowedRuns(y: Relay, cfg: Config, move: Coarse, p: Pair)
    requires Registry(y) && AllIdle(y) && Allowed(y, cfg, move)
    ensures ValidRun(y, cfg, StepsOf(y, move)) && OrderlyRun(y, cfg, StepsOf(y, move), p, {})
    ensures var y' := Run(y, cfg, StepsOf(y, move)); Registry(y') && AllIdle(y')
  {
    match move
    case One(step) =>
      OneStep(y, cfg, step);
      OneStaysIdle(y, cfg, step);
      assert ([step] + [])[1..] == [];
    case Route(c, to, body, encodes) =>
      RouteIsRouted(y, cfg, c, to, body, encodes);
      RouteIsOrderly(y, cfg, c, to, body, encodes, p);
      RoutedStaysIdle(y, cfg, c, Msg(|y.accepted|, y.conns[c].peer, to, body), encodes);
  }

  predicate ValidMoves(y: Relay, cfg: Config, moves: seq<Coarse>)
    decreases |moves|
  {
    moves == [] ||
    (Registry(y) && Allowed(y, cfg, moves[0]) && ValidRun(y, cfg, StepsOf(y, moves[0]))
     && ValidMoves(Run(y, cfg, StepsOf(y, moves[0])), cfg, moves[1..]))
  }

  function RunMoves(y: Relay, cfg: Config, moves: seq<Coarse>): Relay
    requires ValidMoves(y, cfg, moves)
    decreases |moves|
  {
    if moves == [] then y else RunMoves(Run(y, cfg, StepsOf(y, moves[0])), cfg, moves[1..])
  }

  lemma {:induction false} RunInTwo(y: Relay, cfg: Config, first: seq<Step>, rest: seq<Step>, p: Pair)
    requires ValidRun(y, cfg, first) && OrderlyRun(y, cfg, first, p, {})
    requires ValidRun(Run(y, cfg, first), cfg, rest) && OrderlyRun(Run(y, cfg, first), cfg, rest, p, {})
    ensures ValidRun(y, cfg, first + rest) && OrderlyRun(y, cfg, first + rest, p, {})
    ensures Run(y, cfg, first + rest) == Run(Run(y, cfg, first), cfg, rest)
    decreases |first|
  {
    if first == [] {
      assert first + rest == rest;
    } else {
      assert (first + rest)[1..] == first[1..] + rest && (first + rest)[0] == first[0];
      RunInTwo(Next(y, cfg, first[0]), cfg, first[1..], rest, p);
    }
  }

  /** The fine-grained steps of a run of moves. */
  lemma {:induction false} MovesAreOrderly(y: Relay, cfg: Config, moves: seq<Coarse>, p: Pair)
    returns (steps: seq<Step>)
    requires Registry(y) && AllIdle(y) && ValidMoves(y, cfg, moves)
    ensures ValidRun(y, cfg, steps) && OrderlyRun(y, cfg, steps, p, {})
    ensures Run(y, cfg, steps) == RunMoves(y, cfg, moves)
    decreases |moves|
  {
    if moves == [] {
      steps := [];
    } else {
      AllowedRuns(y, cfg, moves[0], p);
      var first := StepsOf(y, moves[0]);
      var rest := MovesAreOrderly(Run(y, cfg, first), cfg, moves[1..], p);
      RunInTwo(y, cfg, first, rest, p);
      steps := first + rest;
    }
  }

  /**
   What one sender gets through to one recipient, over all the recipient's connections -- its drained
   queue first on each, then its channel -- comes in the order in which the sender submitted it.
   */
  lemma DeliveryKeepsSubmissionOrder(cfg: Config, moves: seq<Coarse>, p: Pair)
    requires ValidMoves(INIT, cfg, moves)
    ensures var y := RunMoves(INIT, cfg, moves);
      Subsequence(OfPair(DeliveredTo(y.conns, p.to), p), OfPair(y.accepted, p))
  {
    var steps := MovesAreOrderly(INIT, cfg, moves, p);
    OrderlyDelivery(cfg, steps, p);
  }
}
