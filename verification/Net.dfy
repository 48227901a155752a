/**
 The client's command handler and its supervisor, interleaved around the shared chat manager, the bounded
 offline queue and the shutdown flag. Texts are numbered in the order the handler takes them up.
 */
module Net {
  import opened Counting

  /** A text the user sent, by its number. */
  datatype Text = Text(number: nat)

  /** A queued text handed to the manager after a reconnect, and whether the manager sent it. */
  datatype Drained = Drained(text: Text, sent: bool)

  datatype Handler = Ready | Holding(text: Text) | HandlerStopped

  datatype Supervisor =
    | Connected                    // the receive loop runs
    | Dropped                      // it has ended
    | Attempting(attempt: nat)     // at the head of the reconnect loop
    | Sleeping(attempt: nat)
    | Connecting(attempt: nat)
    | Swapped                      // a new manager is in place, the queue not yet taken
    | Draining(rest: seq<Text>)
    | Ended

  datatype Config = Config(queueCap: nat, maxAttempts: nat)

  datatype Net = Net(
    manager: bool,                 // whether the shared slot holds a manager
    queue: seq<Text>,
    handler: Handler,
    supervisor: Supervisor,
    shutdown: bool,
    taken: nat,                    // texts the handler has taken up
    sentDirectly: seq<Text>,
    drained: seq<Drained>,
    dropped: seq<Text>,            // refused by a full queue
    lost: seq<Text>,               // the "messages lost" branch of draining
    announced: seq<nat>)           // attempts announced since the connection dropped

  datatype Step =
    | Take(ok: bool) | Queue | Shutdown | CommandsClosed
    | ReceiveLoopEnds | NoticeDrop
    | HeadOfLoop | WakeUp | Connect(ok: bool)
    | TakeQueue | SendQueued(ok: bool) | DrainEnds

  predicate Enabled(y: Net, step: Step) {
    match step
    case Take(_) => y.handler.Ready?
    case Queue => y.handler.Holding?
    case Shutdown => y.handler.Ready?
    case CommandsClosed => y.handler.Ready?
    case ReceiveLoopEnds => y.supervisor.Connected?
    case NoticeDrop => y.supervisor.Dropped?
    case HeadOfLoop => y.supervisor.Attempting?
    case WakeUp => y.supervisor.Sleeping?
    case Connect(_) => y.supervisor.Connecting?
    case TakeQueue => y.supervisor.Swapped?
    case SendQueued(_) => y.supervisor.Draining? && y.supervisor.rest != []
    case DrainEnds => y.supervisor.Draining? && y.supervisor.rest == []
  }

  function Next(y: Net, cfg: Config, step: Step): Net
    requires Enabled(y, step)
  {
    match step
    case Take(ok) =>
      var y' := y.(taken := y.taken + 1);
      if y.manager && ok then y'.(sentDirectly := y.sentDirectly + [Text(y.taken)])
      else y'.(handler := Holding(Text(y.taken)))
    case Queue =>
      var text := y.handler.text;
      if |y.queue| < cfg.queueCap then y.(handler := Ready, queue := y.queue + [text])
      else y.(handler := Ready, dropped := y.dropped + [text])
    case Shutdown => y.(handler := HandlerStopped, shutdown := true)
    case CommandsClosed => y.(handler := HandlerStopped)
    case ReceiveLoopEnds => y.(supervisor := Dropped)
    case NoticeDrop =>
      if y.shutdown then y.(supervisor := Ended)
      else y.(manager := false, supervisor := Attempting(0), announced := [])
    case HeadOfLoop =>
      var k := y.supervisor.attempt;
      if k >= cfg.maxAttempts || y.shutdown then y.(supervisor := Ended) else y.(supervisor := Sleeping(k))
    case WakeUp =>
      var k := y.supervisor.attempt;
      if y.shutdown then y.(supervisor := Ended)
      else y.(supervisor := Connecting(k), announced := y.announced + [k + 1])
    case Connect(ok) =>
      if ok then y.(manager := true, supervisor := Swapped) else y.(supervisor := Attempting(y.supervisor.attempt + 1))
    case TakeQueue => y.(supervisor := Draining(y.queue), queue := [])
    case SendQueued(ok) =>
      var rest := y.supervisor.rest;
      if y.manager then y.(supervisor := Draining(rest[1..]), drained := y.drained + [Drained(rest[0], ok)])
      else y.(supervisor := Draining([]), lost := y.lost + rest)
    case DrainEnds => y.(supervisor := Connected)
  }

  predicate ValidRun(y: Net, cfg: Config, steps: seq<Step>)
    decreases |steps|
  {
    steps == [] || (Enabled(y, steps[0]) && ValidRun(Next(y, cfg, steps[0]), cfg, steps[1..]))
  }

  function Run(y: Net, cfg: Config, steps: seq<Step>): Net
    requires ValidRun(y, cfg, steps)
    decreases |steps|
  {
    if steps == [] then y else Run(Next(y, cfg, steps[0]), cfg, steps[1..])
  }

  const INIT := Net(true, [], Ready, Connected, false, 0, [], [], [], [], [])

  // ---------- Where a text is ----------

  function Texts(log: seq<Drained>): seq<Text> {
    if log == [] then [] else Texts(log[..|log| - 1]) + [log[|log| - 1].text]
  }

  function InHand(y: Net): seq<Text> { if y.handler.Holding? then [y.handler.text] else [] }

  function BeingDrained(y: Net): seq<Text> { if y.supervisor.Draining? then y.supervisor.rest else [] }

  /** Texts on the way through the queue, in the order they leave it. */
  function Pipeline(y: Net): seq<Text> { Texts(y.drained) + BeingDrained(y) + y.queue + InHand(y) }

  function Transmitted(log: seq<Drained>, t: Text): nat {
    if log == [] then 0 else Transmitted(log[..|log| - 1], t) + (if log[|log| - 1] == Drained(t, true) then 1 else 0)
  }

  function Places(y: Net, t: Text): nat {
    Count(y.sentDirectly, t) + Count(Texts(y.drained), t) + Count(BeingDrained(y), t) + Count(y.queue, t)
    + Count(InHand(y), t) + Count(y.dropped, t) + Count(y.lost, t)
  }

  predicate Increasing(s: seq<Text>) {
    forall i, j :: 0 <= i < j < |s| ==> s[i].number < s[j].number
  }

  ghost predicate SlotInv(y: Net) {
    && (|| y.manager || y.supervisor.Attempting? || y.supervisor.Sleeping?
        || y.supervisor.Connecting? || y.supervisor.Ended?)
    && y.lost == []
  }

  ghost predicate TextInv(y: Net, cfg: Config) {
    && |y.queue| <= cfg.queueCap
    && (forall t: Text :: Places(y, t) == if t.number < y.taken then 1 else 0)
    && Ordered(Pipeline(y), y.taken)
  }

  ghost predicate AttemptInv(y: Net, cfg: Config) {
    && (forall i :: 0 <= i < |y.announced| ==> y.announced[i] == i + 1)
    && |y.announced| <= cfg.maxAttempts
    && (y.supervisor.Attempting? || y.supervisor.Sleeping? ==> |y.announced| == y.supervisor.attempt)
    && (y.supervisor.Sleeping? ==> y.supervisor.attempt < cfg.maxAttempts)
    && (y.supervisor.Connecting? ==> |y.announced| == y.supervisor.attempt + 1)
  }

  /** Only the supervisor empties the slot, so it is never empty while queued texts are sent. */
  lemma StepKeepsSlot(y: Net, cfg: Config, step: Step)
    requires SlotInv(y) && Enabled(y, step)
    ensures SlotInv(Next(y, cfg, step))
  {
  }

  lemma StepKeepsAttempts(y: Net, cfg: Config, step: Step)
    requires AttemptInv(y, cfg) && Enabled(y, step)
    ensures AttemptInv(Next(y, cfg, step), cfg)
  {
  }

  lemma TextsAppend(log: seq<Drained>, entry: Drained)
    ensures Texts(log + [entry]) == Texts(log) + [entry.text]
  {
    assert (log + [entry])[..|log|] == log;
  }

  lemma DrainOneMore(log: seq<Drained>, rest: seq<Text>, ok: bool)
    requires rest != []
    ensures Texts(log + [Drained(rest[0], ok)]) + rest[1..] == Texts(log) + rest
  {
    TextsAppend(log, Drained(rest[0], ok));
    assert [rest[0]] + rest[1..] == rest;
  }

  lemma SendQueuedKeepsPipeline(y: Net, cfg: Config, ok: bool)
    requires SlotInv(y) && Enabled(y, SendQueued(ok))
    ensures Pipeline(Next(y, cfg, SendQueued(ok))) == Pipeline(y)
  {
    var rest := y.supervisor.rest;
    DrainOneMore(y.drained, rest, ok);
    assert Texts(y.drained + [Drained(rest[0], ok)]) + rest[1..] == Texts(y.drained) + rest;
  }

  lemma TakeQueueKeepsPipeline(y: Net, cfg: Config)
    requires Enabled(y, TakeQueue)
    ensures Pipeline(Next(y, cfg, TakeQueue)) == Pipeline(y)
  {
    var texts := Texts(y.drained);
    assert texts + [] == texts && texts + y.queue + [] == texts + y.queue;
  }

  /** What a step does to the pipeline: append the text just taken up, drop the last, or nothing. */
  lemma StepPipeline(y: Net, cfg: Config, step: Step)
    requires SlotInv(y) && Enabled(y, step)
    ensures step.Take? ==>
      Pipeline(Next(y, cfg, step)) == Pipeline(y) || Pipeline(Next(y, cfg, step)) == Pipeline(y) + [Text(y.taken)]
    ensures step.Queue? ==> Pipeline(Next(y, cfg, step)) <= Pipeline(y)
    ensures !step.Take? && !step.Queue? ==> Pipeline(Next(y, cfg, step)) == Pipeline(y)
  {
    match step
    case SendQueued(ok) => SendQueuedKeepsPipeline(y, cfg, ok);
    case TakeQueue => TakeQueueKeepsPipeline(y, cfg);
    case Take(_) => assert InHand(y) == [] && Pipeline(y) + [] == Pipeline(y);
    case _ =>
  }

  lemma SendQueuedCounts(log: seq<Drained>, rest: seq<Text>, ok: bool, t: Text)
    requires rest != []
    ensures Count(Texts(log + [Drained(rest[0], ok)]), t) + Count(rest[1..], t) == Count(Texts(log), t) + Count(rest, t)
  {
    TextsAppend(log, Drained(rest[0], ok));
    CountHead(rest, t);
    CountAppend([], rest[0], t);
    CountAppend(Texts(log), rest[0], t);
  }

  lemma SendQueuedKeepsPlaces(y: Net, cfg: Config, ok: bool, t: Text)
    requires SlotInv(y) && Enabled(y, SendQueued(ok))
    ensures Places(Next(y, cfg, SendQueued(ok)), t) == Places(y, t)
  {
    var (y', rest) := (Next(y, cfg, SendQueued(ok)), y.supervisor.rest);
    SendQueuedCounts(y.drained, rest, ok, t);
    assert y'.drained == y.drained + [Drained(rest[0], ok)] && BeingDrained(y') == rest[1..];
    assert InHand(y') == InHand(y) && y'.queue == y.queue && y'.sentDirectly == y.sentDirectly;
    assert y'.dropped == y.dropped && y'.lost == y.lost;
  }

  lemma TakeKeepsPlaces(y: Net, cfg: Config, ok: bool, t: Text)
    requires Enabled(y, Take(ok))
    ensures Places(Next(y, cfg, Take(ok)), t) == Places(y, t) + (if t == Text(y.taken) then 1 else 0)
  {
    CountAppend(y.sentDirectly, Text(y.taken), t);
    CountAppend([], Text(y.taken), t);
  }

  /** Letting go of the text in hand, to the queue or to the dropped ones. */
  lemma LetGoKeepsPlaces(y: Net, text: Text, queue: seq<Text>, dropped: seq<Text>, t: Text)
    requires y.handler == Holding(text)
    requires (queue == y.queue + [text] && dropped == y.dropped) || (queue == y.queue && dropped == y.dropped + [text])
    ensures Places(y.(handler := Ready, queue := queue, dropped := dropped), t) == Places(y, t)
  {
    CountAppend(y.queue, text, t);
    CountAppend(y.dropped, text, t);
    CountAppend([], text, t);
    assert InHand(y) == [] + [text];
  }

  lemma QueueKeepsPlaces(y: Net, cfg: Config, t: Text)
    requires Enabled(y, Queue)
    ensures Places(Next(y, cfg, Queue), t) == Places(y, t)
  {
    var text := y.handler.text;
    if |y.queue| < cfg.queueCap {
      LetGoKeepsPlaces(y, text, y.queue + [text], y.dropped, t);
      assert Next(y, cfg, Queue) == y.(handler := Ready, queue := y.queue + [text], dropped := y.dropped);
    } else {
      LetGoKeepsPlaces(y, text, y.queue, y.dropped + [text], t);
      assert Next(y, cfg, Queue) == y.(handler := Ready, queue := y.queue, dropped := y.dropped + [text]);
    }
  }

  lemma TakeQueueKeepsPlaces(y: Net, cfg: Config, t: Text)
    requires Enabled(y, TakeQueue)
    ensures Places(Next(y, cfg, TakeQueue), t) == Places(y, t)
  {
  }

  /** The steps that only move the supervisor or stop the handler leave every text where it is. */
  lemma OtherKeepsPlaces(y: Net, cfg: Config, step: Step, t: Text)
    requires Enabled(y, step)
    requires !step.Take? && !step.Queue? && !step.SendQueued? && !step.TakeQueue?
    ensures Places(Next(y, cfg, step), t) == Places(y, t)
  {
    var y' := Next(y, cfg, step);
    assert InHand(y') == InHand(y) && BeingDrained(y') == BeingDrained(y);
    assert y'.sentDirectly == y.sentDirectly && y'.drained == y.drained && y'.queue == y.queue;
    assert y'.dropped == y.dropped && y'.lost == y.lost;
  }

  lemma StepKeepsPlaces(y: Net, cfg: Config, step: Step, t: Text)
    requires SlotInv(y) && Enabled(y, step)
    ensures Places(Next(y, cfg, step), t) == Places(y, t) + (if step.Take? && t == Text(y.taken) then 1 else 0)
  {
    match step
    case SendQueued(ok) => SendQueuedKeepsPlaces(y, cfg, ok, t);
    case Take(ok) => TakeKeepsPlaces(y, cfg, ok, t);
    case Queue => QueueKeepsPlaces(y, cfg, t);
    case TakeQueue => TakeQueueKeepsPlaces(y, cfg, t);
    case _ => OtherKeepsPlaces(y, cfg, step, t);
  }

  /** The pipeline is increasing, and below what comes next. */
  predicate Ordered(s: seq<Text>, next: nat) {
    Increasing(s) && forall t :: t in s ==> t.number < next
  }

  lemma OrderedStep(before: seq<Text>, after: seq<Text>, next: nat)
    requires Ordered(before, next)
    ensures after <= before ==> Ordered(after, next) && Ordered(after, next + 1)
    ensures after == before + [Text(next)] ==> Ordered(after, next + 1)
  {
  }

  lemma StepKeepsOrder(y: Net, cfg: Config, step: Step)
    requires SlotInv(y) && Enabled(y, step) && Ordered(Pipeline(y), y.taken)
    ensures Ordered(Pipeline(Next(y, cfg, step)), Next(y, cfg, step).taken)
  {
    StepPipeline(y, cfg, step);
    var before, after := Pipeline(y), Pipeline(Next(y, cfg, step));
    assert after <= before || (step.Take? && after == before + [Text(y.taken)]);
    assert Next(y, cfg, step).taken == if step.Take? then y.taken + 1 else y.taken;
    OrderedStep(before, after, y.taken);
  }

  lemma StepKeepsCap(y: Net, cfg: Config, step: Step)
    requires |y.queue| <= cfg.queueCap && Enabled(y, step)
    ensures |Next(y, cfg, step).queue| <= cfg.queueCap
    ensures Next(y, cfg, step).taken == if step.Take? then y.taken + 1 else y.taken
  {
  }

  lemma StepKeepsTexts(y: Net, cfg: Config, step: Step)
    requires SlotInv(y) && TextInv(y, cfg) && Enabled(y, step)
    ensures TextInv(Next(y, cfg, step), cfg)
  {
    StepKeepsCap(y, cfg, step);
    StepKeepsOrder(y, cfg, step);
    forall t: Text ensures Places(Next(y, cfg, step), t) == if t.number < Next(y, cfg, step).taken then 1 else 0 {
      assert Places(y, t) == if t.number < y.taken then 1 else 0;
      StepKeepsPlaces(y, cfg, step, t);
    }
  }

  ghost predicate Inv(y: Net, cfg: Config) { SlotInv(y) && TextInv(y, cfg) && AttemptInv(y, cfg) }

  lemma {:induction false} RunKeepsInv(y: Net, cfg: Config, steps: seq<Step>)
    requires Inv(y, cfg) && ValidRun(y, cfg, steps)
    ensures Inv(Run(y, cfg, steps), cfg)
    decreases |steps|
  {
    if steps == [] {
    } else {
      StepKeepsSlot(y, cfg, steps[0]);
      StepKeepsTexts(y, cfg, steps[0]);
      StepKeepsAttempts(y, cfg, steps[0]);
      RunKeepsInv(Next(y, cfg, steps[0]), cfg, steps[1..]);
    }
  }

  lemma InitHasInv(cfg: Config)
    ensures Inv(INIT, cfg)
  {
    assert Pipeline(INIT) == [];
    assert forall t: Text :: Places(INIT, t) == 0;
  }

  /**
   In every interleaving the queue stays within its cap, and each text taken up is in exactly one place: sent
   at once, on its way through the queue or drained from it, or refused by a full queue. The branch that
   loses texts while draining is never taken.
   */
  lemma EveryTextAccountedFor(cfg: Config, steps: seq<Step>, t: Text)
    requires ValidRun(INIT, cfg, steps)
    ensures var y := Run(INIT, cfg, steps);
      && |y.queue| <= cfg.queueCap
      && y.lost == []
      && Count(y.sentDirectly, t) + Count(Texts(y.drained), t) + Count(BeingDrained(y), t) + Count(y.queue, t)
         + Count(InHand(y), t) + Count(y.dropped, t) == if t.number < y.taken then 1 else 0
  {
    InitHasInv(cfg);
    RunKeepsInv(INIT, cfg, steps);
    assert Places(Run(INIT, cfg, steps), t) == if t.number < Run(INIT, cfg, steps).taken then 1 else 0;
  }

  /** Queued texts are drained in the order they were taken up, ahead of all that is still queued. */
  lemma DrainedInOrder(cfg: Config, steps: seq<Step>)
    requires ValidRun(INIT, cfg, steps)
    ensures var y := Run(INIT, cfg, steps); Increasing(Texts(y.drained) + BeingDrained(y) + y.queue)
  {
    InitHasInv(cfg);
    RunKeepsInv(INIT, cfg, steps);
    var y := Run(INIT, cfg, steps);
    var s := Texts(y.drained) + BeingDrained(y) + y.queue;
    assert s == Pipeline(y)[..|s|];
  }

  function Transmissions(y: Net, t: Text): nat {
    Count(y.sentDirectly, t) + Transmitted(y.drained, t)
  }

  lemma {:induction false} TransmittedIsDrained(log: seq<Drained>, t: Text)
    ensures Transmitted(log, t) <= Count(Texts(log), t)
    ensures t in Texts(log) ==> Transmitted(log, t) > 0 || Drained(t, false) in log
  {
    if log == [] {
    } else {
      var last := |log| - 1;
      TransmittedIsDrained(log[..last], t);
      assert log == log[..last] + [log[last]];
      CountAppend(Texts(log[..last]), log[last].text, t);
    }
  }

  /** Each text is transmitted at most once; one neither sent nor under way met a full queue or a failed send. */
  lemma TransmittedAtMostOnce(cfg: Config, steps: seq<Step>, t: Text)
    requires ValidRun(INIT, cfg, steps)
    ensures var y := Run(INIT, cfg, steps);
      && Transmissions(y, t) <= 1
      && (t.number < y.taken && Transmissions(y, t) == 0 ==>
            t in BeingDrained(y) || t in y.queue || t in InHand(y) || t in y.dropped || Drained(t, false) in y.drained)
  {
    EveryTextAccountedFor(cfg, steps, t);
    var y := Run(INIT, cfg, steps);
    TransmittedIsDrained(y.drained, t);
    forall s | s in [y.sentDirectly, Texts(y.drained), BeingDrained(y), y.queue, InHand(y), y.dropped] {
      CountPositive(s, t);
    }
    assert y.sentDirectly in [y.sentDirectly, Texts(y.drained), BeingDrained(y), y.queue, InHand(y), y.dropped];
  }

  /** Attempts are announced 1, 2, 3, ... since the drop, never more than configured. */
  lemma AttemptsAnnouncedInOrder(cfg: Config, steps: seq<Step>, i: nat)
    requires ValidRun(INIT, cfg, steps) && i < |Run(INIT, cfg, steps).announced|
    ensures Run(INIT, cfg, steps).announced[i] == i + 1 <= cfg.maxAttempts
  {
    InitHasInv(cfg);
    RunKeepsInv(INIT, cfg, steps);
  }

  predicate Halting(y: Net) {
    y.shutdown && (y.supervisor.Dropped? || y.supervisor.Attempting? || y.supervisor.Sleeping? || y.supervisor.Ended?)
  }

  /** Once shutdown is set while the client is disconnected and not just connecting, no further attempt is made. */
  lemma {:induction false} ShutdownEndsAttempts(y: Net, cfg: Config, more: seq<Step>)
    requires Halting(y) && ValidRun(y, cfg, more)
    ensures var y' := Run(y, cfg, more);
      Halting(y') && y'.drained == y.drained && y'.announced == y.announced
    decreases |more|
  {
    if more == [] {
    } else {
      ShutdownEndsAttempts(Next(y, cfg, more[0]), cfg, more[1..]);
    }
  }

  lemma RunCons(y: Net, cfg: Config, step: Step, rest: seq<Step>)
    requires Enabled(y, step) && ValidRun(Next(y, cfg, step), cfg, rest)
    ensures ValidRun(y, cfg, [step] + rest) && Run(y, cfg, [step] + rest) == Run(Next(y, cfg, step), cfg, rest)
  {
    assert ([step] + rest)[1..] == rest;
  }

  /** Shutting down stops the handler and sets the flag; running out of commands only stops the handler. */
  lemma ShutdownSetsFlag(y: Net, cfg: Config)
    requires y.handler.Ready?
    ensures Enabled(y, Shutdown) && Next(y, cfg, Shutdown) == y.(handler := HandlerStopped, shutdown := true)
    ensures Enabled(y, CommandsClosed) && Next(y, cfg, CommandsClosed) == y.(handler := HandlerStopped)
  {
  }

  /** The flag is set exactly by that command, and never taken back. */
  lemma FlagSetIff(y: Net, cfg: Config, step: Step)
    requires Enabled(y, step)
    ensures Next(y, cfg, step).shutdown <==> y.shutdown || step.Shutdown?
  {
  }

  /** When the connection drops, shutdown ends the supervisor; else the slot is emptied and attempts begin afresh. */
  lemma DropIsNoticed(y: Net, cfg: Config)
    requires y.supervisor.Dropped?
    ensures Enabled(y, NoticeDrop)
    ensures var y' := Next(y, cfg, NoticeDrop);
      && (y.shutdown <==> y'.supervisor.Ended?)
      && (!y.shutdown ==> !y'.manager && y'.supervisor == Attempting(0) && y'.announced == [])
      && (y.shutdown ==> y'.manager == y.manager && y'.announced == y.announced)
  {
  }

  /** What is left of the attempts from number `k` on, none of which connects. */
  function Failing(k: nat, n: nat): seq<Step>
    requires k <= n
    decreases n - k
  {
    if k == n then [HeadOfLoop] + []
    else [HeadOfLoop] + ([WakeUp] + ([Connect(false)] + Failing(k + 1, n)))
  }

  function CountUp(n: nat): seq<nat> { seq(n, i => i + 1) }

  /** Without shutdown the supervisor gives up only when it has announced every attempt it may make, 1 to the last. */
  lemma {:induction false} AllAttemptsAreMade(y: Net, cfg: Config, k: nat)
    requires !y.shutdown && y.supervisor == Attempting(k) && k <= cfg.maxAttempts && y.announced == CountUp(k)
    ensures ValidRun(y, cfg, Failing(k, cfg.maxAttempts))
    ensures Run(y, cfg, Failing(k, cfg.maxAttempts)) == y.(supervisor := Ended, announced := CountUp(cfg.maxAttempts))
    decreases cfg.maxAttempts - k
  {
    if k == cfg.maxAttempts {
      RunCons(y, cfg, HeadOfLoop, []);
    } else {
      var y1 := Next(y, cfg, HeadOfLoop);
      var y2 := Next(y1, cfg, WakeUp);
      var y3 := Next(y2, cfg, Connect(false));
      assert CountUp(k) + [k + 1] == CountUp(k + 1);
      AllAttemptsAreMade(y3, cfg, k + 1);
      RunCons(y2, cfg, Connect(false), Failing(k + 1, cfg.maxAttempts));
      RunCons(y1, cfg, WakeUp, [Connect(false)] + Failing(k + 1, cfg.maxAttempts));
      RunCons(y, cfg, HeadOfLoop, [WakeUp] + ([Connect(false)] + Failing(k + 1, cfg.maxAttempts)));
    }
  }

  // ---------- What stays in the queue ----------

  function FirstN(s: seq<Text>, n: nat): seq<Text> { if |s| <= n then s else s[..n] }

  /** The texts offered to the queue since it was last taken, added to those offered `before`. */
  function Offered(y: Net, cfg: Config, steps: seq<Step>, before: seq<Text>): seq<Text>
    requires ValidRun(y, cfg, steps)
    decreases |steps|
  {
    if steps == [] then before
    else
      var now := if steps[0].TakeQueue? then [] else if steps[0].Queue? then before + [y.handler.text] else before;
      Offered(Next(y, cfg, steps[0]), cfg, steps[1..], now)
  }

  lemma {:induction false} QueueIsOffered(y: Net, cfg: Config, steps: seq<Step>, before: seq<Text>)
    requires ValidRun(y, cfg, steps) && y.queue == FirstN(before, cfg.queueCap)
    ensures Run(y, cfg, steps).queue == FirstN(Offered(y, cfg, steps, before), cfg.queueCap)
    decreases |steps|
  {
    if steps == [] {
    } else {
      var now := if steps[0].TakeQueue? then [] else if steps[0].Queue? then before + [y.handler.text] else before;
      assert Next(y, cfg, steps[0]).queue == FirstN(now, cfg.queueCap);
      QueueIsOffered(Next(y, cfg, steps[0]), cfg, steps[1..], now);
    }
  }

  /** At every moment the queue is the first texts, up to its cap, of those offered to it since it was last taken. */
  lemma QueueIsPrefix(cfg: Config, steps: seq<Step>)
    requires ValidRun(INIT, cfg, steps)
    ensures Run(INIT, cfg, steps).queue == FirstN(Offered(INIT, cfg, steps, []), cfg.queueCap)
  {
    QueueIsOffered(INIT, cfg, steps, []);
  }

  /** Step `i` offers a text to the queue, and no later step takes the queue. */
  predicate LeftBehind(steps: seq<Step>, i: nat) {
    i < |steps| && steps[i].Queue? && forall j :: i < j < |steps| ==> !steps[j].TakeQueue?
  }

  predicate NeverTaken(steps: seq<Step>) { forall j :: 0 <= j < |steps| ==> !steps[j].TakeQueue? }

  lemma LeftBehindTail(steps: seq<Step>, i: nat)
    requires steps != []
    ensures LeftBehind(steps, i + 1) <==> LeftBehind(steps[1..], i)
    ensures LeftBehind(steps, 0) <==> steps[0].Queue? && NeverTaken(steps[1..])
    ensures NeverTaken(steps) <==> !steps[0].TakeQueue? && NeverTaken(steps[1..])
  {
    assert forall j :: 0 <= j < |steps| - 1 ==> steps[1..][j] == steps[j + 1];
    assert forall j :: 1 <= j < |steps| ==> steps[j] == steps[1..][j - 1];
  }

  lemma SomeLeftBehind(steps: seq<Step>)
    requires steps != []
    ensures (exists i: nat :: LeftBehind(steps, i))
      <==> (steps[0].Queue? && NeverTaken(steps[1..])) || exists i: nat :: LeftBehind(steps[1..], i)
    ensures NeverTaken(steps) <==> !steps[0].TakeQueue? && NeverTaken(steps[1..])
  {
    LeftBehindTail(steps, 0);
    if i: nat :| LeftBehind(steps, i) && i > 0 { LeftBehindTail(steps, i - 1); }
    if i: nat :| LeftBehind(steps[1..], i) { LeftBehindTail(steps, i); }
  }

  lemma {:induction false} OfferedIff(y: Net, cfg: Config, steps: seq<Step>, before: seq<Text>)
    requires ValidRun(y, cfg, steps)
    ensures Offered(y, cfg, steps, before) != []
      <==> (exists i: nat :: LeftBehind(steps, i)) || (before != [] && NeverTaken(steps))
    decreases |steps|
  {
    if steps == [] {
    } else {
      var now := if steps[0].TakeQueue? then [] else if steps[0].Queue? then before + [y.handler.text] else before;
      OfferedIff(Next(y, cfg, steps[0]), cfg, steps[1..], now);
      SomeLeftBehind(steps);
    }
  }

  /** Connected and idle, with nobody to send what is in the queue. */
  predicate Stranded(y: Net) { y.manager && y.supervisor.Connected? && y.handler.Ready? && y.queue != [] }

  /**
   When a run leaves texts behind with the client connected and both tasks idle: exactly when the queue has room for
   any, and a text was queued after the queue was last taken, whether the manager refused it or was absent.
   */
  lemma StrandedIff(cfg: Config, steps: seq<Step>)
    requires ValidRun(INIT, cfg, steps)
    ensures var y := Run(INIT, cfg, steps);
      y.manager && y.supervisor.Connected? && y.handler.Ready? ==>
        (Stranded(y) <==> cfg.queueCap > 0 && exists i: nat :: LeftBehind(steps, i))
  {
    QueueIsPrefix(cfg, steps);
    OfferedIff(INIT, cfg, steps, []);
  }

  /** The simplest such run: one refused text. The connection never drops, and nothing empties the queue. */
  lemma RefusedTextIsStranded(cfg: Config)
    requires cfg.queueCap > 0
    ensures var steps := [Take(false)] + ([Queue] + []);
      ValidRun(INIT, cfg, steps) && Stranded(Run(INIT, cfg, steps)) && Run(INIT, cfg, steps).queue == [Text(0)]
  {
    var y := Next(INIT, cfg, Take(false));
    RunCons(y, cfg, Queue, []);
    RunCons(INIT, cfg, Take(false), [Queue] + []);
    assert [] + [Text(0)] == [Text(0)];
  }

  /**
   A reconnect can end so as well: a text refused just before it and queued just after the drain stays behind until
   the connection drops again.
   */
  lemma TextCanBeStranded(cfg: Config) returns (steps: seq<Step>)
    requires cfg.queueCap > 0 && cfg.maxAttempts > 0
    ensures ValidRun(INIT, cfg, steps)
    ensures var y := Run(INIT, cfg, steps); Stranded(y) && y.queue == [Text(0)]
  {
    var s1 := INIT.(supervisor := Dropped);
    var s2 := s1.(manager := false, supervisor := Attempting(0));
    var s3 := s2.(taken := 1, handler := Holding(Text(0)));
    var s4 := s3.(supervisor := Sleeping(0));
    var s5 := s4.(supervisor := Connecting(0), announced := [1]);
    var s6 := s5.(supervisor := Swapped, manager := true);
    var s7 := s6.(supervisor := Draining([]));
    var s8 := s7.(supervisor := Connected);
    assert [] + [1] == [1] && [] + [Text(0)] == [Text(0)];
    steps := [];
    RunCons(s8, cfg, Queue, steps); steps := [Queue] + steps;
    RunCons(s7, cfg, DrainEnds, steps); steps := [DrainEnds] + steps;
    RunCons(s6, cfg, TakeQueue, steps); steps := [TakeQueue] + steps;
    RunCons(s5, cfg, Connect(true), steps); steps := [Connect(true)] + steps;
    RunCons(s4, cfg, WakeUp, steps); steps := [WakeUp] + steps;
    RunCons(s3, cfg, HeadOfLoop, steps); steps := [HeadOfLoop] + steps;
    RunCons(s2, cfg, Take(true), steps); steps := [Take(true)] + steps;
    RunCons(s1, cfg, NoticeDrop, steps); steps := [NoticeDrop] + steps;
    RunCons(INIT, cfg, ReceiveLoopEnds, steps); steps := [ReceiveLoopEnds] + steps;
  }

  // ---------- The uninterrupted pieces, as the tasks perform them ----------

  function DrainedAs(texts: seq<Text>, sends: seq<bool>): seq<Drained>
    requires |texts| == |sends|
  {
    if texts == [] then [] else [Drained(texts[0], sends[0])] + DrainedAs(texts[1..], sends[1..])
  }

  /** Each text with its own outcome, in order. */
  lemma {:induction false} DrainedAsAt(texts: seq<Text>, sends: seq<bool>, i: nat)
    requires i < |texts| == |sends|
    ensures |DrainedAs(texts, sends)| == |texts| && DrainedAs(texts, sends)[i] == Drained(texts[i], sends[i])
  {
    if i == 0 {
      if |texts| > 1 { DrainedAsAt(texts[1..], sends[1..], 0); }
    } else {
      DrainedAsAt(texts[1..], sends[1..], i - 1);
    }
  }

  function Sends(sends: seq<bool>): seq<Step> {
    if sends == [] then [DrainEnds] else [SendQueued(sends[0])] + Sends(sends[1..])
  }

  lemma {:induction false} DrainingRuns(y: Net, cfg: Config, sends: seq<bool>)
    requires y.manager && y.supervisor.Draining? && |sends| == |y.supervisor.rest|
    ensures ValidRun(y, cfg, Sends(sends))
    ensures Run(y, cfg, Sends(sends))
      == y.(supervisor := Connected, drained := y.drained + DrainedAs(y.supervisor.rest, sends))
    decreases |sends|
  {
    var rest := y.supervisor.rest;
    if sends == [] {
      RunCons(y, cfg, DrainEnds, []);
      assert [DrainEnds] + [] == [DrainEnds] && y.drained + [] == y.drained;
    } else {
      var y' := Next(y, cfg, SendQueued(sends[0]));
      DrainingRuns(y', cfg, sends[1..]);
      RunCons(y, cfg, SendQueued(sends[0]), Sends(sends[1..]));
      assert y'.drained + DrainedAs(rest[1..], sends[1..]) == y.drained + DrainedAs(rest, sends);
    }
  }

  /** Left to itself, a drain after a reconnect empties the queue, handing over each text once, in order. */
  lemma DrainEmptiesQueue(y: Net, cfg: Config, sends: seq<bool>)
    requires y.manager && y.supervisor.Swapped? && |sends| == |y.queue|
    ensures ValidRun(y, cfg, [TakeQueue] + Sends(sends))
    ensures Run(y, cfg, [TakeQueue] + Sends(sends))
      == y.(supervisor := Connected, queue := [], drained := y.drained + DrainedAs(y.queue, sends))
  {
    DrainingRuns(Next(y, cfg, TakeQueue), cfg, sends);
    RunCons(y, cfg, TakeQueue, Sends(sends));
  }

  /** What handling one text leaves in the queue, and whether the text was sent or dropped. */
  function Handled(manager: bool, queue: seq<Text>, text: Text, ok: bool, queueCap: nat): (seq<Text>, bool, bool) {
    if manager && ok then (queue, true, false)
    else if |queue| < queueCap then (queue + [text], false, false)
    else (queue, false, true)
  }

  /** A text is sent when there is a manager that sends it; else queued if there is room; else dropped. */
  lemma HandledIff(manager: bool, queue: seq<Text>, text: Text, ok: bool, queueCap: nat)
    ensures var (queue', sent, dropped) := Handled(manager, queue, text, ok, queueCap);
      && (sent <==> manager && ok)
      && (dropped <==> !(manager && ok) && |queue| >= queueCap)
      && queue' == (if sent || dropped then queue else queue + [text])
  {
  }

  /** Left to itself, the handler sends a text it takes up, or else queues it, or else drops it, and is ready again. */
  lemma HandlingRuns(y: Net, cfg: Config, ok: bool)
    requires y.handler.Ready?
    ensures var (queue, sent, dropped) := Handled(y.manager, y.queue, Text(y.taken), ok, cfg.queueCap);
            var steps := [Take(ok)] + (if sent then [] else [Queue] + []);
      && ValidRun(y, cfg, steps)
      && Run(y, cfg, steps) == y.(taken := y.taken + 1, queue := queue,
           sentDirectly := y.sentDirectly + (if sent then [Text(y.taken)] else []),
           dropped := y.dropped + (if dropped then [Text(y.taken)] else []))
  {
    var y1 := Next(y, cfg, Take(ok));
    if y.manager && ok {
      RunCons(y, cfg, Take(ok), []);
      assert y.dropped + [] == y.dropped;
    } else {
      RunCons(y1, cfg, Queue, []);
      RunCons(y, cfg, Take(ok), [Queue] + []);
      assert y.dropped + [] == y.dropped && y.sentDirectly + [] == y.sentDirectly;
    }
  }

  /** The state that the command handler and the supervisor share. */
  class Shared {
    var manager: bool
    var queue: seq<Text>

    constructor ()
      ensures manager && queue == []
    { manager, queue := true, []; }

    /** The handler's part for one text: send it if connected, else queue it if there is room. */
    method HandleSend(text: Text, ok: bool, queueCap: nat) returns (sent: bool, dropped: bool)
      modifies this`queue
      ensures (queue, sent, dropped) == Handled(manager, old(queue), text, ok, queueCap)
    {
      sent, dropped := false, false;
      if manager { sent := ok; }
      if !sent {
        if |queue| < queueCap { queue := queue + [text]; } else { dropped := true; }
      }
    }

    /**
     The supervisor's part after a reconnect: take the whole queue, then send each text and requeue none. Without a
     manager in the slot the texts are lost.
     */
    method DrainMessageQueue(sends: seq<bool>) returns (drained: seq<Drained>, lost: seq<Text>)
      requires |sends| == |queue|
      modifies this`queue
      ensures queue == []
      ensures manager ==> drained == DrainedAs(old(queue), sends) && lost == []
      ensures !manager ==> drained == [] && lost == old(queue)
    {
      var texts := queue;
      queue, drained, lost := [], [], [];
      var i := 0;
      assert texts[0..] == texts && sends[0..] == sends;
      while i < |texts|
        invariant 0 <= i <= |texts| == |sends| && lost == []
        invariant !manager ==> i == 0 && drained == []
        invariant drained + DrainedAs(texts[i..], sends[i..]) == DrainedAs(texts, sends)
      {
        if !manager { return drained, texts[i..]; }
        assert texts[i..][1..] == texts[i + 1..] && sends[i..][1..] == sends[i + 1..];
        drained := drained + [Drained(texts[i], sends[i])];
        i := i + 1;
      }
    }
  }
}
