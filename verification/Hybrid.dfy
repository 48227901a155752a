/** A preferred transport, a fallback, and a queue for what neither took. */
module Hybrid {
  datatype PendingMessage = PendingMessage(peer: string, payload: string)

  /** Which of the two transports would take a message now. */
  datatype Weather = Weather(preferred: bool, fallback: bool)

  /** What has been handed over so far, and what waits. */
  datatype Transport = Transport(
    preferred: seq<PendingMessage>,
    fallback: seq<PendingMessage>,
    pending: seq<PendingMessage>)

  /** The preferred transport first, the fallback if it fails; whether either took the message. */
  function TrySend(t: Transport, m: PendingMessage, w: Weather): (Transport, bool) {
    if w.preferred then (t.(preferred := t.preferred + [m]), true)
    else if w.fallback then (t.(fallback := t.fallback + [m]), true)
    else (t, false)
  }

  /** Send, or queue for later and report the failure. */
  function Send(t: Transport, m: PendingMessage, w: Weather): (Transport, bool) {
    var (t', ok) := TrySend(t, m, w);
    (if ok then t' else t'.(pending := t'.pending + [m]), ok)
  }

  /** Each of `ms` is tried once, in order; what fails goes to the back of the queue. */
  function Retry(t: Transport, ms: seq<PendingMessage>, ws: seq<Weather>): Transport
    requires |ms| == |ws|
    decreases |ms|
  {
    if ms == [] then t else Retry(Send(t, ms[0], ws[0]).0, ms[1..], ws[1..])
  }

  function Flush(t: Transport, ws: seq<Weather>): Transport
    requires |ws| == |t.pending|
  {
    Retry(t.(pending := []), t.pending, ws)
  }

  class HybridTransport {
    ghost var preferred: seq<PendingMessage>
    ghost var fallback: seq<PendingMessage>
    var pending: seq<PendingMessage>

    ghost function Value(): Transport reads this { Transport(preferred, fallback, pending) }

    constructor ()
      ensures Value() == Transport([], [], [])
    { preferred, fallback, pending := [], [], []; }

    method Try(m: PendingMessage, w: Weather) returns (ok: bool)
      modifies this`preferred, this`fallback
      ensures (Value(), ok) == TrySend(old(Value()), m, w)
    {
      if w.preferred {
        preferred := preferred + [m];
        return true;
      }
      if w.fallback { fallback := fallback + [m]; }
      ok := w.fallback;
    }

    method SendMessage(m: PendingMessage, w: Weather) returns (ok: bool)
      modifies this
      ensures (Value(), ok) == Send(old(Value()), m, w)
    {
      ok := Try(m, w);
      if !ok { pending := pending + [m]; }
    }

    method FlushPending(ws: seq<Weather>) returns (sent: nat)
      requires |ws| == |pending|
      modifies this
      ensures Value() == Flush(old(Value()), ws)
      ensures sent + |pending| == |old(pending)|
    {
      var messages := pending;
      pending, sent := [], 0;
      var i := 0;
      assert messages[0..] == messages && ws[0..] == ws;
      while i < |messages|
        invariant 0 <= i <= |messages| == |ws|
        invariant Retry(Value(), messages[i..], ws[i..]) == Flush(old(Value()), ws)
        invariant sent + |pending| == i
      {
        assert messages[i..][1..] == messages[i + 1..] && ws[i..][1..] == ws[i + 1..];
        var ok := Try(messages[i], ws[i]);
        if ok { sent := sent + 1; } else { pending := pending + [messages[i]]; }
        i := i + 1;
      }
    }
  }

  /** The preferred transport gets a message whenever it would; only else the fallback; the queue what neither would. */
  lemma SendIff(t: Transport, m: PendingMessage, w: Weather)
    ensures var (t', ok) := Send(t, m, w);
      && (ok <==> w.preferred || w.fallback)
      && t'.preferred == t.preferred + (if w.preferred then [m] else [])
      && t'.fallback == t.fallback + (if !w.preferred && w.fallback then [m] else [])
      && t'.pending == t.pending + (if !w.preferred && !w.fallback then [m] else [])
    ensures TrySend(t, m, w).0.pending == t.pending && TrySend(t, m, w).1 == Send(t, m, w).1
  {
  }

  // ---------- What a flush does ----------

  function RefusedOne(m: PendingMessage, w: Weather): seq<PendingMessage> {
    if w.preferred || w.fallback then [] else [m]
  }

  function TookOne(m: PendingMessage, w: Weather, preferred: bool): seq<PendingMessage> {
    if (if preferred then w.preferred else !w.preferred && w.fallback) then [m] else []
  }

  /** The messages no transport took. */
  function Refused(ms: seq<PendingMessage>, ws: seq<Weather>): seq<PendingMessage>
    requires |ms| == |ws|
  {
    if ms == [] then [] else RefusedOne(ms[0], ws[0]) + Refused(ms[1..], ws[1..])
  }

  /** The messages the preferred transport took, or those the fallback did. */
  function Took(ms: seq<PendingMessage>, ws: seq<Weather>, preferred: bool): seq<PendingMessage>
    requires |ms| == |ws|
  {
    if ms == [] then [] else TookOne(ms[0], ws[0], preferred) + Took(ms[1..], ws[1..], preferred)
  }

  lemma SendSplits(t: Transport, m: PendingMessage, w: Weather)
    ensures Send(t, m, w).0
      == Transport(t.preferred + TookOne(m, w, true), t.fallback + TookOne(m, w, false), t.pending + RefusedOne(m, w))
  {
  }

  lemma Regroup(a: seq<PendingMessage>, b: seq<PendingMessage>, c: seq<PendingMessage>)
    ensures (a + b) + c == a + (b + c)
  {
  }

  /** What each transport takes and what stays come out in the order of the queue. */
  lemma {:induction false} RetrySplits(t: Transport, ms: seq<PendingMessage>, ws: seq<Weather>)
    requires |ms| == |ws|
    ensures Retry(t, ms, ws)
      == Transport(t.preferred + Took(ms, ws, true), t.fallback + Took(ms, ws, false), t.pending + Refused(ms, ws))
    decreases |ms|
  {
    if ms == [] {
    } else {
      var (m, w) := (ms[0], ws[0]);
      SendSplits(t, m, w);
      RetrySplits(Send(t, m, w).0, ms[1..], ws[1..]);
      Regroup(t.preferred, TookOne(m, w, true), Took(ms[1..], ws[1..], true));
      Regroup(t.fallback, TookOne(m, w, false), Took(ms[1..], ws[1..], false));
      Regroup(t.pending, RefusedOne(m, w), Refused(ms[1..], ws[1..]));
    }
  }

  lemma CountAcross(p: seq<PendingMessage>, s: seq<PendingMessage>, m: PendingMessage)
    ensures multiset(p + s)[m] == multiset(p)[m] + multiset(s)[m]
  {
  }

  lemma {:induction false} PartsMakeWhole(ms: seq<PendingMessage>, ws: seq<Weather>, m: PendingMessage)
    requires |ms| == |ws|
    ensures multiset(Took(ms, ws, true))[m] + multiset(Took(ms, ws, false))[m] + multiset(Refused(ms, ws))[m]
         == multiset(ms)[m]
  {
    if ms == [] {
    } else {
      PartsMakeWhole(ms[1..], ws[1..], m);
      CountAcross(TookOne(ms[0], ws[0], true), Took(ms[1..], ws[1..], true), m);
      CountAcross(TookOne(ms[0], ws[0], false), Took(ms[1..], ws[1..], false), m);
      CountAcross(RefusedOne(ms[0], ws[0]), Refused(ms[1..], ws[1..]), m);
      CountAcross([ms[0]], ms[1..], m);
      assert ms == [ms[0]] + ms[1..];
    }
  }

  /** A flush tries every queued message exactly once, and keeps the order of what stays queued. */
  lemma FlushPartitions(t: Transport, ws: seq<Weather>)
    requires |ws| == |t.pending|
    ensures var (p, f, r) := (Took(t.pending, ws, true), Took(t.pending, ws, false), Refused(t.pending, ws));
      Flush(t, ws) == Transport(t.preferred + p, t.fallback + f, r)
      && multiset(p) + multiset(f) + multiset(r) == multiset(t.pending)
  {
    RetrySplits(t.(pending := []), t.pending, ws);
    forall m { PartsMakeWhole(t.pending, ws, m); }
    assert [] + Refused(t.pending, ws) == Refused(t.pending, ws);
  }

  // ---------- Runs, with sends in the middle of flushes ----------

  /** `draining` is what flushes have taken off the queue and not tried yet; `requested` every message ever sent. */
  datatype State = State(t: Transport, draining: multiset<PendingMessage>, requested: multiset<PendingMessage>)

  datatype Step =
    | Sent(m: PendingMessage, w: Weather)
    | FlushTakes
    | FlushTries(m: PendingMessage, w: Weather)

  predicate Enabled(s: State, step: Step) {
    step.FlushTries? ==> step.m in s.draining
  }

  function Next(s: State, step: Step): State
    requires Enabled(s, step)
  {
    match step
    case Sent(m, w) => State(Send(s.t, m, w).0, s.draining, s.requested + multiset{m})
    case FlushTakes => State(s.t.(pending := []), s.draining + multiset(s.t.pending), s.requested)
    case FlushTries(m, w) => State(Send(s.t, m, w).0, s.draining - multiset{m}, s.requested)
  }

  predicate ValidRun(s: State, steps: seq<Step>)
    decreases |steps|
  {
    steps == [] || (Enabled(s, steps[0]) && ValidRun(Next(s, steps[0]), steps[1..]))
  }

  function Run(s: State, steps: seq<Step>): State
    requires ValidRun(s, steps)
    decreases |steps|
  {
    if steps == [] then s else Run(Next(s, steps[0]), steps[1..])
  }

  function Held(t: Transport): multiset<PendingMessage> {
    multiset(t.preferred) + multiset(t.fallback) + multiset(t.pending)
  }

  predicate Conserved(s: State) { s.requested == Held(s.t) + s.draining }

  lemma SendHolds(t: Transport, m: PendingMessage, w: Weather)
    ensures Held(Send(t, m, w).0) == Held(t) + multiset{m}
  {
  }

  lemma StepConserves(s: State, step: Step)
    requires Conserved(s) && Enabled(s, step)
    ensures Conserved(Next(s, step))
  {
    match step
    case Sent(m, w) => SendHolds(s.t, m, w);
    case FlushTries(m, w) => SendHolds(s.t, m, w);
    case FlushTakes =>
  }

  lemma {:induction false} RunConserves(s: State, steps: seq<Step>)
    requires Conserved(s) && ValidRun(s, steps)
    ensures Conserved(Run(s, steps))
    decreases |steps|
  {
    if steps == [] {
    } else {
      StepConserves(s, steps[0]);
      RunConserves(Next(s, steps[0]), steps[1..]);
    }
  }

  /**
   Over any run of sends and flushes, overlapping as they may and with any outcomes, every requested message has
   been handed to exactly one transport, once, or still waits: in the queue, or with a flush under way.
   */
  lemma EveryMessageHandedOverOnce(steps: seq<Step>)
    requires ValidRun(State(Transport([], [], []), multiset{}, multiset{}), steps)
    ensures var s := Run(State(Transport([], [], []), multiset{}, multiset{}), steps);
      multiset(s.t.preferred) + multiset(s.t.fallback) + multiset(s.t.pending) + s.draining == s.requested
  {
    RunConserves(State(Transport([], [], []), multiset{}, multiset{}), steps);
  }
}
