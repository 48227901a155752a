/**
 Local history with a retry queue in front of a store that may fail. Each request is performed once or held for retry.
 For what the chat pipeline requests, once the store works again two passes over the queue leave what a store that
 never failed would hold.
 */
module History {
  import opened Counting
  import opened Outcomes

  datatype MessageId = MessageId(uuid: nat)

  datatype ChatMessage = ChatMessage(id: MessageId, sender: string, content: string)

  datatype MessageStatus = Pending | Sent | Delivered | Failed(reason: string)

  type Messages = map<MessageId, (ChatMessage, MessageStatus)>

  datatype HistoryWrite =
    | Save(message: ChatMessage, status: MessageStatus)
    | StatusUpdate(messageId: MessageId, newStatus: MessageStatus)

  /** One write to the store: a fault refuses it, and so does updating a message the store lacks. */
  function Attempt(m: Messages, w: HistoryWrite, fault: bool): (Messages, bool) {
    if fault then (m, false)
    else match w
      case Save(msg, status) => (m[msg.id := (msg, status)], true)
      case StatusUpdate(id, status) => if id in m then (m[id := (m[id].0, status)], true) else (m, false)
  }

  /** A requested write: done, or queued. */
  function Request(m: Messages, pending: seq<HistoryWrite>, w: HistoryWrite, fault: bool)
    : (Messages, seq<HistoryWrite>)
  {
    var (m', ok) := Attempt(m, w, fault);
    (m', if ok then pending else pending + [w])
  }

  function Rest(faults: seq<bool>): seq<bool> {
    if faults == [] then [] else faults[1..]
  }

  /** One pass over the writes `ws` in order: the store afterwards, and what is queued again. */
  function Flush(m: Messages, ws: seq<HistoryWrite>, faults: seq<bool>): (Messages, seq<HistoryWrite>)
    decreases |ws|
  {
    if ws == [] then (m, [])
    else
      var (m', ok) := Attempt(m, ws[0], faults != [] && faults[0]);
      var (after, again) := Flush(m', ws[1..], Rest(faults));
      (after, if ok then again else [ws[0]] + again)
  }

  /** A write is performed unless the store refuses it, or it updates a message that the store lacks. */
  lemma AttemptSucceedsIff(m: Messages, w: HistoryWrite, fault: bool)
    ensures var (m', ok) := Attempt(m, w, fault);
      && (ok <==> !fault && (w.StatusUpdate? ==> w.messageId in m))
      && (!ok ==> m' == m)
      && (ok && w.Save? ==> m' == m[w.message.id := (w.message, w.status)])
      && (ok && w.StatusUpdate? ==> m' == m[w.messageId := (m[w.messageId].0, w.newStatus)])
  {
  }

  /** A request that is not performed waits behind all others; one that is changes nothing about them. */
  lemma RequestQueuesIff(m: Messages, pending: seq<HistoryWrite>, w: HistoryWrite, fault: bool)
    ensures var ok := !fault && (w.StatusUpdate? ==> w.messageId in m);
      Request(m, pending, w, fault) == (Attempt(m, w, fault).0, if ok then pending else pending + [w])
  {
  }

  /** A pass that the store refuses altogether changes nothing. */
  lemma {:induction false} RefusedPass(m: Messages, ws: seq<HistoryWrite>, faults: seq<bool>)
    requires |ws| <= |faults| && forall i :: 0 <= i < |ws| ==> faults[i]
    ensures Flush(m, ws, faults) == (m, ws)
    decreases |ws|
  {
    if ws == [] {
    } else {
      RefusedPass(m, ws[1..], faults[1..]);
      assert [ws[0]] + ws[1..] == ws;
    }
  }

  /** Whatever fails, what a pass queues again is part of what it took, in the same order. */
  lemma {:induction false} PassKeepsOrder(m: Messages, ws: seq<HistoryWrite>, faults: seq<bool>)
    ensures Subsequence(Flush(m, ws, faults).1, ws)
    decreases |ws|
  {
    if ws == [] {
    } else {
      var (m', ok) := Attempt(m, ws[0], faults != [] && faults[0]);
      var again := Flush(m', ws[1..], Rest(faults)).1;
      PassKeepsOrder(m', ws[1..], Rest(faults));
      SubsequenceCons(again, ws[1..], ws[0]);
      assert [ws[0]] + ws[1..] == ws;
    }
  }

  // ---------- The writer ----------

  class InMemoryStore {
    var messages: Messages

    constructor ()
      ensures messages == map[]
    { messages := map[]; }

    method Write(w: HistoryWrite, fault: bool) returns (ok: bool)
      modifies this
      ensures (messages, ok) == Attempt(old(messages), w, fault)
    {
      if fault { return false; }
      match w
      case Save(msg, status) =>
        messages := messages[msg.id := (msg, status)];
        ok := true;
      case StatusUpdate(id, status) =>
        if id in messages {
          messages := messages[id := (messages[id].0, status)];
          ok := true;
        } else {
          ok := false;
        }
    }
  }

  class ResilientHistoryWriter {
    const store: InMemoryStore
    var pending: seq<HistoryWrite>

    constructor (store: InMemoryStore)
      ensures this.store == store && pending == []
    {
      this.store := store;
      pending := [];
    }

    method Submit(w: HistoryWrite, fault: bool) returns (ok: bool)
      modifies this, store
      ensures (store.messages, pending) == Request(old(store.messages), old(pending), w, fault)
      ensures |pending| == |old(pending)| + (if ok then 0 else 1)
    {
      ok := store.Write(w, fault);
      if !ok {
        pending := pending + [w];
      }
    }

    method SaveMessage(msg: ChatMessage, status: MessageStatus, fault: bool)
      modifies this, store
      ensures (store.messages, pending) == Request(old(store.messages), old(pending), Save(msg, status), fault)
    {
      var _ := Submit(Save(msg, status), fault);
    }

    method UpdateStatus(id: MessageId, status: MessageStatus, fault: bool)
      modifies this, store
      ensures (store.messages, pending) == Request(old(store.messages), old(pending), StatusUpdate(id, status), fault)
    {
      var _ := Submit(StatusUpdate(id, status), fault);
    }

    /** Every queued write is tried once, in order; `faults` says which attempts the store refuses. */
    method FlushPending(faults: seq<bool>) returns (succeeded: nat)
      modifies this, store
      ensures (store.messages, pending) == Flush(old(store.messages), old(pending), faults)
      ensures succeeded + |pending| == |old(pending)|
    {
      var writes := pending;
      ghost var goal := Flush(store.messages, writes, faults);
      pending := [];
      succeeded := 0;
      var i, outcomes := 0, faults;
      assert writes[0..] == writes && pending + goal.1 == goal.1;
      while i < |writes|
        invariant 0 <= i <= |writes|
        invariant goal.0 == Flush(store.messages, writes[i..], outcomes).0
        invariant goal.1 == pending + Flush(store.messages, writes[i..], outcomes).1
        invariant succeeded + |pending| == i
      {
        FlushStep(store.messages, pending, writes[i], writes[i + 1..], outcomes);
        assert writes[i..] == [writes[i]] + writes[i + 1..];
        var ok := Submit(writes[i], outcomes != [] && outcomes[0]);
        if ok { succeeded := succeeded + 1; }
        i, outcomes := i + 1, Rest(outcomes);
      }
      assert writes[i..] == [] && pending + [] == pending;
    }
  }

  /** Flushing is requesting the first write again, and flushing the rest. */
  lemma FlushStep(m: Messages, pending: seq<HistoryWrite>, w: HistoryWrite, ws: seq<HistoryWrite>, faults: seq<bool>)
    ensures var (after, again) := Flush(m, [w] + ws, faults);
            var (m', pending') := Request(m, pending, w, faults != [] && faults[0]);
            var (after', again') := Flush(m', ws, Rest(faults));
      after == after' && pending + again == pending' + again'
  {
    assert ([w] + ws)[1..] == ws;
    var again' := Flush(Attempt(m, w, faults != [] && faults[0]).0, ws, Rest(faults)).1;
    assert pending + ([w] + again') == pending + [w] + again';
  }

  // ---------- Runs, with every await a separate step ----------

  /**
   `taken` holds what flushes have drained but not yet tried, `failed` what a request or a flush has
   seen fail but not yet queued; `log` is every write ever requested.
   */
  datatype State = State(
    store: Messages,
    pending: seq<HistoryWrite>,
    taken: multiset<HistoryWrite>,
    failed: multiset<HistoryWrite>,
    log: seq<HistoryWrite>)

  datatype Step =
    | Requested(write: HistoryWrite, fault: bool)
    | FlushTakes
    | FlushTries(write: HistoryWrite, fault: bool)
    | Queued(write: HistoryWrite)

  /**
   What the chat pipeline requests: updates only to Delivered, and a message saved again only when it
   is an inbound one, which is saved as Delivered every time. A run may request anything; the results
   that need this say so.
   */
  ghost predicate Disciplined(log: seq<HistoryWrite>) {
    && (forall w :: w in log && w.StatusUpdate? ==> w.newStatus == Delivered)
    && (forall i, j :: 0 <= i < j < |log| && log[i].Save? && log[j].Save? && log[i].message.id == log[j].message.id
          ==> log[i] == log[j] && log[i].status == Delivered)
  }

  ghost predicate Enabled(s: State, step: Step) {
    match step
    case Requested(_, _) => true
    case FlushTakes => true
    case FlushTries(w, _) => w in s.taken
    case Queued(w) => w in s.failed
  }

  ghost function Next(s: State, step: Step): State
    requires Enabled(s, step)
  {
    match step
    case Requested(w, fault) =>
      var (store', ok) := Attempt(s.store, w, fault);
      s.(store := store', failed := if ok then s.failed else s.failed + multiset{w}, log := s.log + [w])
    case FlushTakes => s.(pending := [], taken := s.taken + multiset(s.pending))
    case FlushTries(w, fault) =>
      var (store', ok) := Attempt(s.store, w, fault);
      s.(store := store', taken := s.taken - multiset{w}, failed := if ok then s.failed else s.failed + multiset{w})
    case Queued(w) => s.(failed := s.failed - multiset{w}, pending := s.pending + [w])
  }

  ghost predicate ValidRun(s: State, steps: seq<Step>)
    decreases |steps|
  {
    steps == [] || (Enabled(s, steps[0]) && ValidRun(Next(s, steps[0]), steps[1..]))
  }

  ghost function Run(s: State, steps: seq<Step>): State
    requires ValidRun(s, steps)
    decreases |steps|
  {
    if steps == [] then s else Run(Next(s, steps[0]), steps[1..])
  }

  const INIT := State(map[], [], multiset{}, multiset{}, [])

  function Held(s: State): multiset<HistoryWrite> { multiset(s.pending) + s.taken + s.failed }

  // ---------- The invariant, on the store, the writes held for retry, and the log ----------

  /** The write has taken effect, and nothing has undone it. */
  predicate Reflected(m: Messages, w: HistoryWrite) {
    match w
    case Save(msg, status) => msg.id in m && m[msg.id].0 == msg && (m[msg.id].1 == status || m[msg.id].1 == Delivered)
    case StatusUpdate(id, status) => id in m && m[id].1 == status
  }

  ghost predicate Saved(log: seq<HistoryWrite>, id: MessageId) {
    exists w :: w in log && w.Save? && w.message.id == id
  }

  ghost predicate Inv(m: Messages, held: multiset<HistoryWrite>, log: seq<HistoryWrite>) {
    && Disciplined(log)
    && (forall w :: w in held ==> w in log)
    && (forall w :: w in log ==> w in held || Reflected(m, w))
    && (forall id :: id in m ==> Saved(log, id))
    && (forall w :: w in log && w.Save? && w.message.id in m ==>
          && m[w.message.id].0 == w.message
          && (m[w.message.id].1 == w.status
              || (m[w.message.id].1 == Delivered && StatusUpdate(w.message.id, Delivered) in log)))
    && (forall w :: w in held && w.Save? && w.status != Delivered ==> w.message.id !in m && held[w] == 1)
  }

  /** All saves of one message are one write. */
  lemma SavesAgree(log: seq<HistoryWrite>, v: HistoryWrite, w: HistoryWrite)
    requires Disciplined(log) && v in log && w in log && v.Save? && w.Save? && v.message.id == w.message.id
    ensures v == w
  {
    var i :| 0 <= i < |log| && log[i] == v;
    var j :| 0 <= j < |log| && log[j] == w;
  }

  lemma SavingKeepsInv(m: Messages, held: multiset<HistoryWrite>, log: seq<HistoryWrite>, w: HistoryWrite)
    requires Inv(m, held, log) && w in held && w.Save?
    ensures Inv(m[w.message.id := (w.message, w.status)], held - multiset{w}, log)
  {
    var m', held' := m[w.message.id := (w.message, w.status)], held - multiset{w};
    forall v | v in log && v.Save? && v.message.id == w.message.id ensures v == w {
      SavesAgree(log, v, w);
    }
    forall v | v in held'
      ensures v in log && (v.Save? && v.status != Delivered ==> v.message.id !in m' && held'[v] == 1)
    {
      assert v in held;
    }
    forall v | v in log ensures v in held' || Reflected(m', v) {
      if v != w && v !in held' {
        assert v !in held;
        if v.StatusUpdate? && v.messageId == w.message.id {
          assert w.status == Delivered;
        }
      }
    }
    forall id | id in m' ensures Saved(log, id) {
      assert id == w.message.id ==> w in log;
    }
  }

  lemma UpdatingKeepsInv(m: Messages, held: multiset<HistoryWrite>, log: seq<HistoryWrite>, w: HistoryWrite)
    requires Inv(m, held, log) && w in held && w.StatusUpdate? && w.messageId in m
    ensures Inv(m[w.messageId := (m[w.messageId].0, w.newStatus)], held - multiset{w}, log)
  {
    var held' := held - multiset{w};
    forall v | v in held' ensures v in held && held'[v] <= held[v] {
    }
    assert forall v :: v in log && v !in held' ==> v == w || v !in held;
  }

  /** Trying a held write again. */
  lemma AttemptKeepsInv(m: Messages, held: multiset<HistoryWrite>, log: seq<HistoryWrite>, w: HistoryWrite, fault: bool)
    requires Inv(m, held, log) && w in held
    ensures var (m', ok) := Attempt(m, w, fault); Inv(m', if ok then held - multiset{w} else held, log)
  {
    if !fault && w.Save? {
      SavingKeepsInv(m, held, log, w);
    } else if !fault && w.messageId in m {
      UpdatingKeepsInv(m, held, log, w);
    }
  }

  /** A request is held from the moment it is made. */
  lemma LoggedKeepsInv(m: Messages, held: multiset<HistoryWrite>, log: seq<HistoryWrite>, w: HistoryWrite)
    requires Inv(m, held, log) && Disciplined(log + [w])
    ensures Inv(m, held + multiset{w}, log + [w])
  {
    var log' := log + [w];
    forall id | id in m ensures Saved(log', id) {
      var v :| v in log && v.Save? && v.message.id == id;
      assert v in log';
    }
    if w.Save? && (w in log || w.message.id in m) {
      var v :| v in log && v.Save? && v.message.id == w.message.id;
      var i :| 0 <= i < |log| && log[i] == v;
      assert log'[i] == v && log'[|log|] == w;
    }
  }

  // What a step does to the writes held for retry: trying one again, logging one, or only moving them.

  lemma RequestHolds(s: State, w: HistoryWrite, fault: bool)
    requires Enabled(s, Requested(w, fault))
    ensures Held(Next(s, Requested(w, fault)))
      == (if Attempt(s.store, w, fault).1 then Held(s) + multiset{w} - multiset{w} else Held(s) + multiset{w})
  {
    assert Held(s) + multiset{w} - multiset{w} == Held(s);
  }

  lemma Without(a: multiset<HistoryWrite>, b: multiset<HistoryWrite>, c: multiset<HistoryWrite>, w: HistoryWrite)
    requires w in b
    ensures a + (b - multiset{w}) + c == a + b + c - multiset{w}
  {
  }

  lemma Across(a: multiset<HistoryWrite>, b: multiset<HistoryWrite>, c: multiset<HistoryWrite>, w: HistoryWrite)
    requires w in b
    ensures a + (b - multiset{w}) + (c + multiset{w}) == a + b + c
  {
  }

  lemma TryHolds(s: State, w: HistoryWrite, fault: bool)
    requires Enabled(s, FlushTries(w, fault))
    ensures Held(Next(s, FlushTries(w, fault)))
      == (if Attempt(s.store, w, fault).1 then Held(s) - multiset{w} else Held(s))
  {
    if Attempt(s.store, w, fault).1 {
      Without(multiset(s.pending), s.taken, s.failed, w);
    } else {
      Across(multiset(s.pending), s.taken, s.failed, w);
    }
  }

  lemma MoveHolds(s: State, step: Step)
    requires Enabled(s, step) && (step.FlushTakes? || step.Queued?)
    ensures Held(Next(s, step)) == Held(s)
  {
    if step.Queued? {
      assert s.failed == (s.failed - multiset{step.write}) + multiset{step.write};
    }
  }

  lemma StepKeepsInv(s: State, step: Step)
    requires Inv(s.store, Held(s), s.log) && Enabled(s, step) && Disciplined(Next(s, step).log)
    ensures Inv(Next(s, step).store, Held(Next(s, step)), Next(s, step).log)
  {
    if step.Requested? {
      RequestHolds(s, step.write, step.fault);
      LoggedKeepsInv(s.store, Held(s), s.log, step.write);
      AttemptKeepsInv(s.store, Held(s) + multiset{step.write}, s.log + [step.write], step.write, step.fault);
    } else if step.FlushTries? {
      TryHolds(s, step.write, step.fault);
      AttemptKeepsInv(s.store, Held(s), s.log, step.write, step.fault);
    } else {
      MoveHolds(s, step);
    }
  }

  lemma {:induction false} LogGrows(s: State, steps: seq<Step>)
    requires ValidRun(s, steps)
    ensures s.log <= Run(s, steps).log
    decreases |steps|
  {
    if steps == [] {
    } else {
      LogGrows(Next(s, steps[0]), steps[1..]);
    }
  }

  lemma DisciplinedPrefix(log: seq<HistoryWrite>, longer: seq<HistoryWrite>)
    requires Disciplined(longer) && log <= longer
    ensures Disciplined(log)
  {
    assert forall i :: 0 <= i < |log| ==> longer[i] == log[i];
    assert forall w :: w in log ==> w in longer;
  }

  lemma {:induction false} RunKeepsInv(s: State, steps: seq<Step>)
    requires Inv(s.store, Held(s), s.log) && ValidRun(s, steps) && Disciplined(Run(s, steps).log)
    ensures var s' := Run(s, steps); Inv(s'.store, Held(s'), s'.log)
    decreases |steps|
  {
    if steps == [] {
    } else {
      LogGrows(Next(s, steps[0]), steps[1..]);
      DisciplinedPrefix(Next(s, steps[0]).log, Run(s, steps).log);
      StepKeepsInv(s, steps[0]);
      RunKeepsInv(Next(s, steps[0]), steps[1..]);
    }
  }

  /** Under any failures and any interleaving, every write of a disciplined log is in effect or still held for retry. */
  lemma NothingIsLost(steps: seq<Step>, w: HistoryWrite)
    requires ValidRun(INIT, steps) && Disciplined(Run(INIT, steps).log) && w in Run(INIT, steps).log
    ensures var s := Run(INIT, steps); Reflected(s.store, w) || w in s.pending || w in s.taken || w in s.failed
  {
    RunKeepsInv(INIT, steps);
  }

  // Without any discipline: whatever is requested, a write that no longer waits has found or made its entry.

  function Target(w: HistoryWrite): MessageId {
    match w
    case Save(msg, _) => msg.id
    case StatusUpdate(id, _) => id
  }

  ghost predicate Kept(m: Messages, held: multiset<HistoryWrite>, log: seq<HistoryWrite>) {
    forall w :: w in log ==> Target(w) in m || w in held
  }

  lemma AttemptKeeps(m: Messages, held: multiset<HistoryWrite>, log: seq<HistoryWrite>, w: HistoryWrite, fault: bool)
    requires Kept(m, held, log) && w in held
    ensures var (m', ok) := Attempt(m, w, fault); Kept(m', if ok then held - multiset{w} else held, log)
  {
  }

  lemma StepKeeps(s: State, step: Step)
    requires Kept(s.store, Held(s), s.log) && Enabled(s, step)
    ensures Kept(Next(s, step).store, Held(Next(s, step)), Next(s, step).log)
  {
    if step.Requested? {
      RequestHolds(s, step.write, step.fault);
      assert Kept(s.store, Held(s) + multiset{step.write}, s.log + [step.write]);
      AttemptKeeps(s.store, Held(s) + multiset{step.write}, s.log + [step.write], step.write, step.fault);
    } else if step.FlushTries? {
      TryHolds(s, step.write, step.fault);
      AttemptKeeps(s.store, Held(s), s.log, step.write, step.fault);
    } else {
      MoveHolds(s, step);
    }
  }

  lemma {:induction false} RunKeeps(s: State, steps: seq<Step>)
    requires Kept(s.store, Held(s), s.log) && ValidRun(s, steps)
    ensures Kept(Run(s, steps).store, Held(Run(s, steps)), Run(s, steps).log)
    decreases |steps|
  {
    if steps == [] {
    } else {
      StepKeeps(s, steps[0]);
      RunKeeps(Next(s, steps[0]), steps[1..]);
    }
  }

  /** Whatever is requested and whatever fails, every write's message is in the store or the write is held for retry. */
  lemma NoMessageIsLost(steps: seq<Step>, w: HistoryWrite)
    requires ValidRun(INIT, steps) && w in Run(INIT, steps).log
    ensures var s := Run(INIT, steps); Target(w) in s.store || w in s.pending || w in s.taken || w in s.failed
  {
    RunKeeps(INIT, steps);
  }

  /** The status that the last of some writes for a message asks for. */
  function LastStatus(ws: seq<HistoryWrite>, id: MessageId): Option<MessageStatus> {
    if ws == [] then None
    else
      var w := ws[|ws| - 1];
      if Target(w) != id then LastStatus(ws[..|ws| - 1], id)
      else Some(if w.Save? then w.status else w.newStatus)
  }

  /** The message that the last save for an id carries. */
  function LastSaved(ws: seq<HistoryWrite>, id: MessageId): Option<ChatMessage> {
    if ws == [] then None
    else
      var w := ws[|ws| - 1];
      if w.Save? && w.message.id == id then Some(w.message) else LastSaved(ws[..|ws| - 1], id)
  }

  /** The writes that a run performs, in the order in which it does, after those `done` before. */
  ghost function Performed(s: State, steps: seq<Step>, done: seq<HistoryWrite>): seq<HistoryWrite>
    requires ValidRun(s, steps)
    decreases |steps|
  {
    if steps == [] then done else Performed(Next(s, steps[0]), steps[1..], done + PerformedBy(s, steps[0]))
  }

  function PerformedBy(s: State, step: Step): seq<HistoryWrite> {
    if (step.Requested? || step.FlushTries?) && Attempt(s.store, step.write, step.fault).1 then [step.write] else []
  }

  lemma LastOfMore(ws: seq<HistoryWrite>, w: HistoryWrite, id: MessageId)
    ensures LastSaved(ws + [w], id) == if w.Save? && w.message.id == id then Some(w.message) else LastSaved(ws, id)
    ensures LastStatus(ws + [w], id)
      == if Target(w) == id then Some(if w.Save? then w.status else w.newStatus) else LastStatus(ws, id)
  {
    assert (ws + [w])[..|ws|] == ws;
  }

  /** Every entry is what the last save and the last write for it, among `ws`, ask for. */
  ghost predicate Mirrors(m: Messages, ws: seq<HistoryWrite>) {
    forall id ::
      && (id in m <==> LastSaved(ws, id).Some?)
      && (id in m ==> LastSaved(ws, id) == Some(m[id].0) && LastStatus(ws, id) == Some(m[id].1))
  }

  lemma AttemptMirrors(m: Messages, ws: seq<HistoryWrite>, w: HistoryWrite)
    requires Mirrors(m, ws) && Attempt(m, w, false).1
    ensures Mirrors(Attempt(m, w, false).0, ws + [w])
  {
    forall id { LastOfMore(ws, w, id); }
  }

  /** The write has been performed as often as it was requested, but for what is held for retry. */
  ghost predicate Accounted(s: State, done: seq<HistoryWrite>, x: HistoryWrite) {
    multiset(s.log)[x] == multiset(done)[x] + Held(s)[x]
  }

  lemma OneMore(ws: seq<HistoryWrite>, w: HistoryWrite, x: HistoryWrite)
    ensures multiset(ws + [w])[x] == multiset(ws)[x] + (if w == x then 1 else 0)
  {
  }

  lemma RequestAccounts(s: State, w: HistoryWrite, fault: bool, done: seq<HistoryWrite>, x: HistoryWrite)
    requires Accounted(s, done, x)
    ensures Accounted(Next(s, Requested(w, fault)), done + PerformedBy(s, Requested(w, fault)), x)
  {
    RequestHolds(s, w, fault);
    OneMore(s.log, w, x);
    OneMore(done, w, x);
    assert done + [] == done;
  }

  lemma TryAccounts(s: State, w: HistoryWrite, fault: bool, done: seq<HistoryWrite>, x: HistoryWrite)
    requires Accounted(s, done, x) && Enabled(s, FlushTries(w, fault))
    ensures Accounted(Next(s, FlushTries(w, fault)), done + PerformedBy(s, FlushTries(w, fault)), x)
  {
    TryHolds(s, w, fault);
    OneMore(done, w, x);
    assert done + [] == done;
  }

  lemma StepAccounts(s: State, step: Step, done: seq<HistoryWrite>, x: HistoryWrite)
    requires Accounted(s, done, x) && Enabled(s, step)
    ensures Accounted(Next(s, step), done + PerformedBy(s, step), x)
  {
    if step.Requested? {
      RequestAccounts(s, step.write, step.fault, done, x);
    } else if step.FlushTries? {
      TryAccounts(s, step.write, step.fault, done, x);
    } else {
      MoveHolds(s, step);
      assert done + [] == done;
    }
  }

  lemma StepMirrors(s: State, step: Step, done: seq<HistoryWrite>)
    requires Mirrors(s.store, done) && Enabled(s, step)
    ensures Mirrors(Next(s, step).store, done + PerformedBy(s, step))
  {
    if PerformedBy(s, step) == [] {
      assert done + [] == done;
    } else {
      AttemptMirrors(s.store, done, step.write);
    }
  }

  lemma {:induction false} RunMirrors(s: State, steps: seq<Step>, done: seq<HistoryWrite>)
    requires Mirrors(s.store, done) && ValidRun(s, steps)
    ensures Mirrors(Run(s, steps).store, Performed(s, steps, done))
    decreases |steps|
  {
    if steps == [] {
    } else {
      StepMirrors(s, steps[0], done);
      RunMirrors(Next(s, steps[0]), steps[1..], done + PerformedBy(s, steps[0]));
    }
  }

  lemma {:induction false} RunAccounts(s: State, steps: seq<Step>, done: seq<HistoryWrite>, x: HistoryWrite)
    requires Accounted(s, done, x) && ValidRun(s, steps)
    ensures Accounted(Run(s, steps), Performed(s, steps, done), x)
    decreases |steps|
  {
    if steps == [] {
    } else {
      StepAccounts(s, steps[0], done, x);
      RunAccounts(Next(s, steps[0]), steps[1..], done + PerformedBy(s, steps[0]), x);
    }
  }

  /**
   Conservation, whatever is requested and whatever fails: each request has been performed once or is held for retry,
   and the store holds what the performed writes, in the order in which they were performed, come to.
   */
  lemma EachWritePerformedOnce(steps: seq<Step>, w: HistoryWrite)
    requires ValidRun(INIT, steps)
    ensures var (s, done) := (Run(INIT, steps), Performed(INIT, steps, []));
      && multiset(s.log)[w] == multiset(done)[w] + multiset(s.pending)[w] + s.taken[w] + s.failed[w]
      && Mirrors(s.store, done)
  {
    RunMirrors(INIT, steps, []);
    RunAccounts(INIT, steps, [], w);
  }

  /** Whatever is requested, a write is in effect exactly when the last ones performed for its message agree with it. */
  lemma ReflectedIff(steps: seq<Step>, w: HistoryWrite)
    requires ValidRun(INIT, steps)
    ensures var (m, done) := (Run(INIT, steps).store, Performed(INIT, steps, []));
      Reflected(m, w) <==>
        match w
        case Save(msg, status) =>
          LastSaved(done, msg.id) == Some(msg) && LastStatus(done, msg.id) in {Some(status), Some(Delivered)}
        case StatusUpdate(id, status) => LastSaved(done, id).Some? && LastStatus(done, id) == Some(status)
  {
    EachWritePerformedOnce(steps, w);
  }

  // ---------- Settling ----------

  /** What the log amounts to: the saved messages, each Delivered once an update says so. */
  ghost predicate Expected(m: Messages, log: seq<HistoryWrite>) {
    && (forall id :: id in m <==> Saved(log, id))
    && (forall w :: w in log && w.Save? ==> (w.message.id in m &&
          m[w.message.id] == (w.message, if StatusUpdate(w.message.id, Delivered) in log then Delivered else w.status)))
  }

  lemma ExpectedUnique(m: Messages, n: Messages, log: seq<HistoryWrite>)
    requires Expected(m, log) && Expected(n, log)
    ensures m == n
  {
    forall id | id in m ensures id in n && m[id] == n[id] {
      var w :| w in log && w.Save? && w.message.id == id;
    }
  }

  lemma HeldHead(kept: seq<HistoryWrite>, ws: seq<HistoryWrite>)
    requires ws != []
    ensures ws[0] in multiset(kept) + multiset(ws)
    ensures multiset(kept) + multiset(ws) - multiset{ws[0]} == multiset(kept) + multiset(ws[1..])
  {
    assert ws == [ws[0]] + ws[1..];
  }

  /** A write passed over stays held, ahead of what comes after it. */
  lemma HeldShift(kept: seq<HistoryWrite>, w: HistoryWrite, rest: seq<HistoryWrite>)
    ensures multiset(kept + [w]) + multiset(rest) == multiset(kept) + multiset([w] + rest)
  {
  }

  lemma {:induction false} FlushKeepsInv(
      m: Messages, kept: seq<HistoryWrite>, ws: seq<HistoryWrite>, faults: seq<bool>, log: seq<HistoryWrite>)
    requires Inv(m, multiset(kept) + multiset(ws), log)
    ensures var (m', again) := Flush(m, ws, faults); Inv(m', multiset(kept) + multiset(again), log)
    decreases |ws|
  {
    if ws == [] {
    } else {
      var (m', ok) := Attempt(m, ws[0], faults != [] && faults[0]);
      HeldHead(kept, ws);
      AttemptKeepsInv(m, multiset(kept) + multiset(ws), log, ws[0], faults != [] && faults[0]);
      if ok {
        FlushKeepsInv(m', kept, ws[1..], Rest(faults), log);
      } else {
        assert [ws[0]] + ws[1..] == ws;
        HeldShift(kept, ws[0], ws[1..]);
        FlushKeepsInv(m', kept + [ws[0]], ws[1..], Rest(faults), log);
        HeldShift(kept, ws[0], Flush(m', ws[1..], Rest(faults)).1);
      }
    }
  }

  /** A pass without faults performs every save. */
  lemma {:induction false} CleanPassSaves(m: Messages, ws: seq<HistoryWrite>)
    ensures var (m', again) := Flush(m, ws, []);
      (forall w :: w in again ==> w.StatusUpdate?) && m.Keys <= m'.Keys
    decreases |ws|
  {
    if ws == [] {
    } else {
      CleanPassSaves(Attempt(m, ws[0], false).0, ws[1..]);
    }
  }

  /** Over updates alone, it leaves exactly those for messages the store lacks. */
  lemma {:induction false} CleanPassUpdates(m: Messages, ws: seq<HistoryWrite>)
    requires forall w :: w in ws ==> w.StatusUpdate?
    ensures var (m', again) := Flush(m, ws, []);
      m'.Keys == m.Keys && forall w :: w in again ==> w.StatusUpdate? && w.messageId !in m
    decreases |ws|
  {
    if ws == [] {
    } else {
      var m' := Attempt(m, ws[0], false).0;
      assert ws[0] in ws && m'.Keys == m.Keys;
      CleanPassUpdates(m', ws[1..]);
    }
  }

  /** Two passes without faults settle any state with no flush or request in progress. */
  lemma TwoPassesSettle(m: Messages, pending: seq<HistoryWrite>, log: seq<HistoryWrite>)
    requires Inv(m, multiset(pending), log)
    ensures var (m1, p1) := Flush(m, pending, []);
            var (m2, p2) := Flush(m1, p1, []);
      && Expected(m2, log)
      && (forall w :: w in p2 ==> w in log && w.StatusUpdate? && !Saved(log, w.messageId))
      && (forall w :: w in log && w.StatusUpdate? && !Saved(log, w.messageId) ==> w in p2)
  {
    var (m1, p1) := Flush(m, pending, []);
    var (m2, p2) := Flush(m1, p1, []);
    assert multiset([]) + multiset(pending) == multiset(pending);
    FlushKeepsInv(m, [], pending, [], log);
    FlushKeepsInv(m1, [], p1, [], log);
    CleanPassSaves(m, pending);
    CleanPassUpdates(m1, p1);
    assert forall w :: w in p2 <==> w in multiset([]) + multiset(p2);
    forall w | w in log && w.Save? ensures w.message.id in m2 {
      assert w !in p2;
    }
  }

  /** The writer on a store that never fails, handed the same requests in the same order. */
  function Faultless(m: Messages, pending: seq<HistoryWrite>, log: seq<HistoryWrite>): (Messages, seq<HistoryWrite>)
    decreases |log|
  {
    if log == [] then (m, pending)
    else
      var (m', pending') := Request(m, pending, log[0], false);
      Faultless(m', pending', log[1..])
  }

  lemma {:induction false} FaultlessKeepsInv(
      m: Messages, pending: seq<HistoryWrite>, past: seq<HistoryWrite>, log: seq<HistoryWrite>)
    requires Inv(m, multiset(pending), past) && Disciplined(past + log)
    ensures var (m', pending') := Faultless(m, pending, log); Inv(m', multiset(pending'), past + log)
    decreases |log|
  {
    if log == [] {
      assert past + log == past;
    } else {
      var w := log[0];
      assert past + [w] + log[1..] == past + log;
      DisciplinedPrefix(past + [w], past + log);
      LoggedKeepsInv(m, multiset(pending), past, w);
      AttemptKeepsInv(m, multiset(pending) + multiset{w}, past + [w], w, false);
      assert multiset(pending) + multiset{w} - multiset{w} == multiset(pending);
      var (m', pending') := Request(m, pending, w, false);
      FaultlessKeepsInv(m', pending', past + [w], log[1..]);
    }
  }

  /**
   Whatever failed on the way, once nothing is in progress two passes without faults leave exactly the
   store that a never-failing store would have after the same requests and two passes of its own, and
   all that stays queued are updates for messages that were never saved.
   */
  lemma AgreesWithNeverFailing(steps: seq<Step>)
    requires ValidRun(INIT, steps) && Disciplined(Run(INIT, steps).log)
    requires Run(INIT, steps).taken == Run(INIT, steps).failed == multiset{}
    ensures var s := Run(INIT, steps);
            var (m1, p1) := Flush(s.store, s.pending, []);
            var (m2, p2) := Flush(m1, p1, []);
            var (n, q) := Faultless(map[], [], s.log);
            var (n1, q1) := Flush(n, q, []);
            var (n2, q2) := Flush(n1, q1, []);
      m2 == n2 && forall w :: w in p2 <==> w in s.log && w.StatusUpdate? && !Saved(s.log, w.messageId)
  {
    var s := Run(INIT, steps);
    RunKeepsInv(INIT, steps);
    assert Held(s) == multiset(s.pending);
    TwoPassesSettle(s.store, s.pending, s.log);
    assert [] + s.log == s.log;
    FaultlessKeepsInv(map[], [], [], s.log);
    var (n, q) := Faultless(map[], [], s.log);
    TwoPassesSettle(n, q, s.log);
    var m1p1 := Flush(s.store, s.pending, []);
    var n1q1 := Flush(n, q, []);
    ExpectedUnique(Flush(m1p1.0, m1p1.1, []).0, Flush(n1q1.0, n1q1.1, []).0, s.log);
  }

  // ---------- What a clean pass can undo ----------

  function Else<T>(o: Option<T>, default: T): T { if o.Some? then o.value else default }

  /** A clean pass, seen from its end: the last write is tried on what the others leave. */
  lemma {:induction false} CleanPassSnoc(m: Messages, ws: seq<HistoryWrite>, w: HistoryWrite)
    ensures var (m', again) := Flush(m, ws, []);
            var (after, ok) := Attempt(m', w, false);
      Flush(m, ws + [w], []) == (after, if ok then again else again + [w])
    decreases |ws|
  {
    if ws == [] {
      assert [] + [w] == [w] && [w][1..] == [] && [w] + [] == [w];
      assert Flush(Attempt(m, w, false).0, [w][1..], []) == (Attempt(m, w, false).0, []);
    } else {
      var (m', ok) := Attempt(m, ws[0], false);
      assert (ws + [w])[1..] == ws[1..] + [w];
      CleanPassSnoc(m', ws[1..], w);
      var again := Flush(m', ws[1..], []).1;
      assert [ws[0]] + (again + [w]) == ([ws[0]] + again) + [w];
    }
  }

  /** An entry, after writes that were all performed. */
  function Amended(entry: (ChatMessage, MessageStatus), ws: seq<HistoryWrite>, id: MessageId)
    : (ChatMessage, MessageStatus)
  {
    (Else(LastSaved(ws, id), entry.0), Else(LastStatus(ws, id), entry.1))
  }

  lemma AttemptAmends(
      m: Messages, w: HistoryWrite, entry: (ChatMessage, MessageStatus), ws: seq<HistoryWrite>, id: MessageId)
    requires id in m && m[id] == Amended(entry, ws, id)
    ensures var m' := Attempt(m, w, false).0; id in m' && m'[id] == Amended(entry, ws + [w], id)
  {
    LastOfMore(ws, w, id);
  }

  /** What a clean pass leaves of an entry is what the last queued writes for it ask for. */
  lemma {:induction false} CleanPassEntry(m: Messages, ws: seq<HistoryWrite>, id: MessageId)
    requires id in m
    ensures var m' := Flush(m, ws, []).0; id in m' && m'[id] == Amended(m[id], ws, id)
    decreases |ws|
  {
    if ws == [] {
    } else {
      var (most, w) := (ws[..|ws| - 1], ws[|ws| - 1]);
      CleanPassEntry(m, most, id);
      CleanPassSnoc(m, most, w);
      AttemptAmends(Flush(m, most, []).0, w, m[id], most, id);
      assert most + [w] == ws;
    }
  }

  /**
   A clean pass leaves every entry as it was exactly when, for each, the last queued write asks for the status it
   has and the last queued save carries the message it has. Otherwise the retry undoes what was written since.
   */
  lemma CleanPassKeepsIff(m: Messages, ws: seq<HistoryWrite>)
    ensures (forall id :: id in m ==> id in Flush(m, ws, []).0 && Flush(m, ws, []).0[id] == m[id])
      <==> (forall id :: id in m ==>
              LastStatus(ws, id) in {None, Some(m[id].1)} && LastSaved(ws, id) in {None, Some(m[id].0)})
  {
    forall id | id in m
      ensures id in Flush(m, ws, []).0
      ensures Flush(m, ws, []).0[id] == m[id]
        <==> LastStatus(ws, id) in {None, Some(m[id].1)} && LastSaved(ws, id) in {None, Some(m[id].0)}
    {
      CleanPassEntry(m, ws, id);
    }
  }

  /**
   An update that fails, and one that succeeds after it: retrying the first undoes the second exactly when they ask
   for different statuses.
   */
  lemma RetryUndoesIff(m: Messages, id: MessageId, first: MessageStatus, second: MessageStatus)
    requires id in m
    ensures var (m1, p1) := Request(m, [], StatusUpdate(id, first), true);
            var (m2, p2) := Request(m1, p1, StatusUpdate(id, second), false);
      m2 == m[id := (m[id].0, second)] && (Flush(m2, p2, []).0 == m2 <==> first == second)
  {
    var w := StatusUpdate(id, first);
    var m2 := m[id := (m[id].0, second)];
    assert [] + [w] == [w];
    assert Flush(m2, [w], []).0 == Flush(Attempt(m2, w, false).0, [], []).0 == m2[id := (m[id].0, first)];
    assert m2[id].1 == second && m2[id := (m[id].0, first)][id].1 == first;
    assert first == second ==> m2[id := (m[id].0, first)] == m2;
  }

  /** So a retried update to Sent undoes a later one to Delivered. */
  lemma RetryCanUndo(msg: ChatMessage)
    ensures var m: Messages := map[msg.id := (msg, Pending)];
            var (m1, p1) := Request(m, [], StatusUpdate(msg.id, Sent), true);
            var (m2, p2) := Request(m1, p1, StatusUpdate(msg.id, Delivered), false);
      m2 == map[msg.id := (msg, Delivered)] && Flush(m2, p2, []).0 != m2
  {
    RetryUndoesIff(map[msg.id := (msg, Pending)], msg.id, Sent, Delivered);
  }

  // ---------- What a clean pass leaves queued ----------

  /** The update at `i` is too early: the store lacks its message, and no save of that stands ahead of it. */
  predicate EarlyUpdate(m: Messages, ws: seq<HistoryWrite>, i: nat) {
    && i < |ws| && ws[i].StatusUpdate? && ws[i].messageId !in m
    && forall j :: 0 <= j < i && ws[j].Save? ==> ws[j].message.id != ws[i].messageId
  }

  predicate SavedAhead(ws: seq<HistoryWrite>, id: MessageId) {
    exists j :: 0 <= j < |ws| && ws[j].Save? && ws[j].message.id == id
  }

  lemma {:induction false} CleanPassKeys(m: Messages, ws: seq<HistoryWrite>, id: MessageId)
    ensures id in Flush(m, ws, []).0 <==> id in m || SavedAhead(ws, id)
    decreases |ws|
  {
    if ws == [] {
    } else {
      var rest := ws[1..];
      CleanPassKeys(Attempt(m, ws[0], false).0, rest, id);
      assert forall j :: 0 <= j < |rest| ==> rest[j] == ws[j + 1];
      if SavedAhead(ws, id) {
        var j :| 0 <= j < |ws| && ws[j].Save? && ws[j].message.id == id;
        assert j > 0 ==> rest[j - 1] == ws[j];
      }
    }
  }

  lemma EarlyUpdateSnoc(m: Messages, ws: seq<HistoryWrite>, w: HistoryWrite, i: nat)
    ensures EarlyUpdate(m, ws + [w], i)
      <==> EarlyUpdate(m, ws, i)
           || (i == |ws| && w.StatusUpdate? && w.messageId !in m && !SavedAhead(ws, w.messageId))
  {
    assert forall j :: 0 <= j < |ws| ==> (ws + [w])[j] == ws[j];
  }

  /** A clean pass queues again exactly the early updates. */
  lemma {:induction false} LeftQueuedIff(m: Messages, ws: seq<HistoryWrite>, w: HistoryWrite)
    ensures w in Flush(m, ws, []).1 <==> exists i: nat :: EarlyUpdate(m, ws, i) && ws[i] == w
    decreases |ws|
  {
    if ws == [] {
    } else {
      var (most, last) := (ws[..|ws| - 1], ws[|ws| - 1]);
      assert most + [last] == ws;
      LeftQueuedIff(m, most, w);
      CleanPassSnoc(m, most, last);
      forall i: nat { EarlyUpdateSnoc(m, most, last, i); }
      if last.StatusUpdate? { CleanPassKeys(m, most, last.messageId); }
      assert last.StatusUpdate? && last.messageId !in m && !SavedAhead(most, last.messageId)
        ==> EarlyUpdate(m, ws, |most|);
      assert forall i: nat :: EarlyUpdate(m, most, i) ==> EarlyUpdate(m, ws, i) && ws[i] == most[i];
    }
  }

  ghost predicate Settled(m: Messages, pending: seq<HistoryWrite>, log: seq<HistoryWrite>) {
    Expected(m, log) && forall w :: w in pending ==> w.StatusUpdate? && !Saved(log, w.messageId)
  }

  /** With nothing in progress, one clean pass is enough exactly when all early updates are for messages never saved. */
  lemma OnePassSettlesIff(m: Messages, pending: seq<HistoryWrite>, log: seq<HistoryWrite>)
    requires Inv(m, multiset(pending), log)
    ensures var (m1, p1) := Flush(m, pending, []);
      Settled(m1, p1, log) <==> forall i: nat :: EarlyUpdate(m, pending, i) ==> !Saved(log, pending[i].messageId)
  {
    var (m1, p1) := Flush(m, pending, []);
    assert multiset([]) + multiset(pending) == multiset(pending);
    FlushKeepsInv(m, [], pending, [], log);
    assert multiset([]) + multiset(p1) == multiset(p1);
    CleanPassSaves(m, pending);
    forall w ensures w in p1 <==> exists i: nat :: EarlyUpdate(m, pending, i) && pending[i] == w {
      LeftQueuedIff(m, pending, w);
    }
    if forall i: nat :: EarlyUpdate(m, pending, i) ==> !Saved(log, pending[i].messageId) {
      forall w | w in p1 ensures w.StatusUpdate? && !Saved(log, w.messageId) {
        var i: nat :| EarlyUpdate(m, pending, i) && pending[i] == w;
      }
      NothingNeededIsExpected(m1, p1, log);
    } else {
      var i: nat :| EarlyUpdate(m, pending, i) && Saved(log, pending[i].messageId);
      assert pending[i] in p1;
    }
  }

  /** When all that waits are updates for messages never saved, the store holds what the log amounts to. */
  lemma NothingNeededIsExpected(m: Messages, pending: seq<HistoryWrite>, log: seq<HistoryWrite>)
    requires Inv(m, multiset(pending), log)
    requires forall w :: w in pending ==> w.StatusUpdate? && !Saved(log, w.messageId)
    ensures Expected(m, log)
  {
    forall w | w in log && w.Save? ensures w.message.id in m {
      assert w in multiset(pending) ==> w in pending;
    }
    forall w | w in log && w.Save? && StatusUpdate(w.message.id, Delivered) in log
      ensures m[w.message.id].1 == Delivered
    {
      var u := StatusUpdate(w.message.id, Delivered);
      assert Saved(log, w.message.id);
      assert u in multiset(pending) ==> u in pending;
    }
  }

  lemma RunCons(s: State, step: Step, rest: seq<Step>)
    requires Enabled(s, step) && ValidRun(Next(s, step), rest)
    ensures ValidRun(s, [step] + rest) && Run(s, [step] + rest) == Run(Next(s, step), rest)
  {
    assert ([step] + rest)[1..] == rest;
  }

  /** An early update is possible: it can be queued ahead of the save it needs, both having failed. */
  lemma QueueCanBeOutOfOrder(msg: ChatMessage) returns (steps: seq<Step>)
    ensures ValidRun(INIT, steps)
    ensures var (v, u) := (Save(msg, Sent), StatusUpdate(msg.id, Delivered));
      Run(INIT, steps) == State(map[], [u, v], multiset{}, multiset{}, [v, u])
  {
    var (v, u) := (Save(msg, Sent), StatusUpdate(msg.id, Delivered));
    var s1 := State(map[], [], multiset{}, multiset{v}, [v]);
    var s2 := State(map[], [], multiset{}, multiset{v, u}, [v, u]);
    steps := BothQueued(u, v);
    BothFail(v, u);
    RunCons(s1, Requested(u, false), steps);
    steps := [Requested(u, false)] + steps;
    RunCons(INIT, Requested(v, true), steps);
    steps := [Requested(v, true)] + steps;
  }

  lemma BothFail(v: HistoryWrite, u: HistoryWrite)
    requires v.Save? && u.StatusUpdate?
    ensures Next(INIT, Requested(v, true)) == State(map[], [], multiset{}, multiset{v}, [v])
    ensures Next(State(map[], [], multiset{}, multiset{v}, [v]), Requested(u, false))
      == State(map[], [], multiset{}, multiset{v, u}, [v, u])
  {
    assert [] + [v] == [v] && [v] + [u] == [v, u];
  }

  lemma BothQueued(u: HistoryWrite, v: HistoryWrite) returns (steps: seq<Step>)
    requires u != v
    ensures var s := State(map[], [], multiset{}, multiset{v, u}, [v, u]);
      ValidRun(s, steps) && Run(s, steps) == State(map[], [u, v], multiset{}, multiset{}, [v, u])
  {
    var s := State(map[], [], multiset{}, multiset{v, u}, [v, u]);
    var s' := State(map[], [u], multiset{}, multiset{v}, [v, u]);
    assert [] + [u] == [u] && [u] + [v] == [u, v];
    assert Next(s, Queued(u)) == s';
    assert Next(s', Queued(v)) == State(map[], [u, v], multiset{}, multiset{}, [v, u]);
    RunCons(s', Queued(v), []);
    RunCons(s, Queued(u), [Queued(v)] + []);
    steps := [Queued(u)] + ([Queued(v)] + []);
  }

  /** From there one clean pass is too few: it stores the message as Sent although its delivery is logged. */
  lemma OnePassMayNotSettle(msg: ChatMessage)
    ensures var (v, u) := (Save(msg, Sent), StatusUpdate(msg.id, Delivered));
      EarlyUpdate(map[], [u, v], 0) && Saved([v, u], msg.id) && !Expected(Flush(map[], [u, v], []).0, [v, u])
  {
    var (v, u) := (Save(msg, Sent), StatusUpdate(msg.id, Delivered));
    assert [u, v][1..] == [v] && [v][1..] == [];
    var m := Flush(map[], [v], []).0;
    assert m == Flush(Attempt(map[], v, false).0, [], []).0 == map[msg.id := (msg, Sent)];
    assert Flush(map[], [u, v], []).0 == m;
    assert v in [v, u] && u in [v, u];
  }
}
