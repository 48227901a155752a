/**
 Any number of peers editing shared task lists. Every broadcast stays available, to be delivered to
 any peer in any order and any number of times; a peer may also broadcast snapshots of its rooms.
 The one condition on clocks: a local write is stamped above the register it overwrites.
 */
module PeerSystem {
  import opened Outcomes
  import opened Lww
  import opened Tasks
  import opened Convergence
  import opened DeliveryOrder
  import opened Snapshots
  import opened TaskManagers

  type Peer = string

  datatype System = System(
    stores: map<Peer, Store>,
    got: map<Peer, set<Message>>,   // what each peer has issued or been delivered
    sent: set<Message>)             // every broadcast so far

  datatype Step =
    | CreateTask(peer: Peer, room: string, title: string, id: TaskId, now: nat)
    | SetStatus(peer: Peer, room: string, id: TaskId, status: TaskStatus, now: nat)
    | SetAssignee(peer: Peer, room: string, id: TaskId, who: Option<string>, now: nat)
    | ShareRoom(peer: Peer, snapshot: Message)
    | Deliver(peer: Peer, msg: Message)

  function EditOf(step: Step): FieldUpdate
    requires step.SetStatus? || step.SetAssignee?
  {
    match step
    case SetStatus(p, _, _, status, now) => StatusUpdate(Register(status, now, p))
    case SetAssignee(p, _, _, who, now) => AssigneeUpdate(Register(who, now, p))
  }

  ghost predicate Enabled(y: System, step: Step) {
    && step.peer in y.stores && step.peer in y.got
    && var s := y.stores[step.peer];
       match step
       case CreateTask(p, room, title, id, now) =>
         0 < |title| <= MAX_TASK_TITLE_LENGTH && !Present(s, room, id) && Less(LEAST, Stamp(now, p))
       case SetStatus(p, room, id, _, now) =>
         Present(s, room, id) && Less(s[room][id].status.At(), Stamp(now, p))
       case SetAssignee(p, room, id, _, now) =>
         Present(s, room, id) && Less(s[room][id].assignee.At(), Stamp(now, p))
       case ShareRoom(_, snapshot) => snapshot.FullState? && IsSnapshot(s, snapshot.roomId, Some(snapshot))
       case Deliver(_, msg) => msg in y.sent
  }

  /** The peer's store after its step, and the message the step puts in circulation. */
  function Perform(s: Store, step: Step): (Store, Message) {
    match step
    case CreateTask(p, room, title, id, now) =>
      var (after, made) := Create(s, p, room, title, id, now);
      (after, if made.Ok? then made.value.1 else RequestFullState(room))
    case SetStatus(_, room, id, _, _) =>
      var (after, msg) := Edit(s, room, id, EditOf(step));
      (after, if msg.Ok? then msg.value else RequestFullState(room))
    case SetAssignee(_, room, id, _, _) =>
      var (after, msg) := Edit(s, room, id, EditOf(step));
      (after, if msg.Ok? then msg.value else RequestFullState(room))
    case ShareRoom(_, snapshot) => (s, snapshot)
    case Deliver(_, msg) => (Apply(s, msg), msg)
  }

  ghost function Next(y: System, step: Step): System
    requires Enabled(y, step)
  {
    var (after, msg) := Perform(y.stores[step.peer], step);
    System(y.stores[step.peer := after], y.got[step.peer := y.got[step.peer] + {msg}], y.sent + {msg})
  }

  ghost predicate ValidRun(y: System, steps: seq<Step>)
    decreases |steps|
  {
    steps == [] || (Enabled(y, steps[0]) && ValidRun(Next(y, steps[0]), steps[1..]))
  }

  ghost function Run(y: System, steps: seq<Step>): System
    requires ValidRun(y, steps)
    decreases |steps|
  {
    if steps == [] then y else Run(Next(y, steps[0]), steps[1..])
  }

  function Init(peers: set<Peer>): System {
    System(map p | p in peers :: map[], map p | p in peers :: {}, {})
  }

  // ---------- The invariant ----------

  /** A peer's registers are never older than anything it has itself written. */
  ghost predicate OwnWritesHeld(y: System) {
    forall p, w :: p in y.stores && w in WritesOf(y.sent) && w.reg.author == p
      ==> !Less(Reg(y.stores[p], w.key).At(), w.reg.At())
  }

  ghost predicate Inv(y: System) {
    && y.stores.Keys == y.got.Keys
    && (forall p :: p in y.stores ==> y.got[p] <= y.sent && Reflects(y.stores[p], WritesOf(y.got[p])))
    && Determined(WritesOf(y.sent))
    && OwnWritesHeld(y)
  }

  lemma WritesOfUnion(msgs: set<Message>, msg: Message)
    ensures WritesOf(msgs + {msg}) == WritesOf(msgs) + Writes(msg)
  {
  }

  /** Creating and editing are deliveries of one's own broadcast, under the clock condition. */
  lemma LocalStepIsDelivery(y: System, step: Step)
    requires Enabled(y, step) && (step.CreateTask? || step.SetStatus? || step.SetAssignee?)
    ensures var s := y.stores[step.peer];
      Perform(s, step).0 == Apply(s, Perform(s, step).1)
  {
    var s := y.stores[step.peer];
    if step.CreateTask? {
      CreateIsDelivery(s, step.peer, step.room, step.title, step.id, step.now);
    } else {
      EditIsDeliveryIff(s, step.room, step.id, EditOf(step));
    }
  }

  /** The writes a local step issues are its author's own, and above what its store held. */
  lemma LocalWritesAreNew(y: System, step: Step, w: Write)
    requires Enabled(y, step) && (step.CreateTask? || step.SetStatus? || step.SetAssignee?)
    requires w in Writes(Perform(y.stores[step.peer], step).1)
    ensures w.reg.author == step.peer && Less(Reg(y.stores[step.peer], w.key).At(), w.reg.At())
  {
  }

  lemma LocalWritesAreFunctional(y: System, step: Step, v: Write, w: Write)
    requires Enabled(y, step) && (step.CreateTask? || step.SetStatus? || step.SetAssignee?)
    requires v in Writes(Perform(y.stores[step.peer], step).1) && w in Writes(Perform(y.stores[step.peer], step).1)
    requires v.key == w.key
    ensures v == w
  {
  }

  /** A snapshot only repeats writes its sender has seen, or stubs. */
  lemma SnapshotWritesAreOld(s: Store, ws: set<Write>, snapshot: Message, w: Write)
    requires Reflects(s, ws) && snapshot.FullState? && IsSnapshot(s, snapshot.roomId, Some(snapshot))
    requires w in Writes(snapshot)
    ensures w.reg == Reg(s, w.key) && Present(s, w.key.room, w.key.id)
    ensures w.reg == Bottom(w.key.field) || w in ws
  {
  }

  lemma SharingReflects(s: Store, ws: set<Write>, snapshot: Message)
    requires Reflects(s, ws) && snapshot.FullState? && IsSnapshot(s, snapshot.roomId, Some(snapshot))
    ensures Reflects(s, ws + Writes(snapshot))
  {
    var ws' := ws + Writes(snapshot);
    forall w | w in Writes(snapshot)
      ensures !Less(Reg(s, w.key).At(), w.reg.At()) && (w.key.room, w.key.id) in Ids(ws)
    {
      SnapshotWritesAreOld(s, ws, snapshot, w);
      LessTrichotomy(w.reg.At(), w.reg.At());
    }
    IdsUnion(ws, Writes(snapshot));
    assert Ids(ws') == Ids(ws);
  }

  lemma StepReflects(y: System, step: Step)
    requires Inv(y) && Enabled(y, step)
    ensures var (s', msg) := Perform(y.stores[step.peer], step);
      Reflects(s', WritesOf(y.got[step.peer] + {msg}))
  {
    var s, ws := y.stores[step.peer], WritesOf(y.got[step.peer]);
    var (s', msg) := Perform(s, step);
    WritesOfUnion(y.got[step.peer], msg);
    if step.ShareRoom? {
      SharingReflects(s, ws, msg);
    } else {
      ApplyReflects(s, ws, msg);
      if !step.Deliver? { LocalStepIsDelivery(y, step); }
    }
  }

  lemma OldWritesDetermined(ws: set<Write>, extra: set<Write>)
    requires Determined(ws) && forall w :: w in extra ==> w.reg == Bottom(w.key.field) || w in ws
    ensures Determined(ws + extra)
  {
    forall v, w | v in ws + extra && w in ws + extra && v.key == w.key && v.reg.At() == w.reg.At()
      ensures v.reg == w.reg
    {
      assert v.reg == Bottom(v.key.field) || v in ws;
      assert w.reg == Bottom(w.key.field) || w in ws;
    }
  }

  lemma FreshWritesDetermined(ws: set<Write>, extra: set<Write>, s: Store, peer: Peer)
    requires Determined(ws)
    requires forall w :: w in ws && w.reg.author == peer ==> !Less(Reg(s, w.key).At(), w.reg.At())
    requires forall w :: w in extra ==> w.reg.author == peer && Less(Reg(s, w.key).At(), w.reg.At())
    requires forall v, w :: v in extra && w in extra && v.key == w.key ==> v == w
    ensures Determined(ws + extra)
  {
    forall w | w in extra ensures w.reg.At() != LEAST {
      LeastIsLeast(Reg(s, w.key).At());
    }
    forall v, w | v in ws && w in extra && v.key == w.key ensures v.reg.At() != w.reg.At() {
    }
  }

  lemma LocalStepDetermined(y: System, step: Step)
    requires Inv(y) && Enabled(y, step) && (step.CreateTask? || step.SetStatus? || step.SetAssignee?)
    ensures Determined(WritesOf(y.sent) + Writes(Perform(y.stores[step.peer], step).1))
  {
    var s, extra := y.stores[step.peer], Writes(Perform(y.stores[step.peer], step).1);
    forall w | w in extra ensures w.reg.author == step.peer && Less(Reg(s, w.key).At(), w.reg.At()) {
      LocalWritesAreNew(y, step, w);
    }
    forall v, w | v in extra && w in extra && v.key == w.key ensures v == w {
      LocalWritesAreFunctional(y, step, v, w);
    }
    FreshWritesDetermined(WritesOf(y.sent), extra, s, step.peer);
  }

  lemma ShareDetermined(y: System, step: Step)
    requires Inv(y) && Enabled(y, step) && step.ShareRoom?
    ensures Determined(WritesOf(y.sent) + Writes(step.snapshot))
  {
    forall w | w in Writes(step.snapshot) ensures w.reg == Bottom(w.key.field) || w in WritesOf(y.sent) {
      SnapshotWritesAreOld(y.stores[step.peer], WritesOf(y.got[step.peer]), step.snapshot, w);
    }
    OldWritesDetermined(WritesOf(y.sent), Writes(step.snapshot));
  }

  lemma StepDetermined(y: System, step: Step)
    requires Inv(y) && Enabled(y, step)
    ensures Determined(WritesOf(y.sent + {Perform(y.stores[step.peer], step).1}))
  {
    var msg := Perform(y.stores[step.peer], step).1;
    WritesOfUnion(y.sent, msg);
    if step.Deliver? {
      assert y.sent + {msg} == y.sent;
    } else if step.ShareRoom? {
      ShareDetermined(y, step);
    } else {
      LocalStepDetermined(y, step);
    }
  }

  /** Reflecting more writes means no register is older. */
  lemma MoreWritesGrow(s: Store, ws: set<Write>, s': Store, ws': set<Write>, k: Key)
    requires Reflects(s, ws) && Reflects(s', ws') && ws <= ws'
    ensures !Less(Reg(s', k).At(), Reg(s, k).At())
  {
    LeastIsLeast(Reg(s', k).At());
    var held := Write(k, Reg(s, k));
    assert held.reg == Bottom(k.field) || (held in ws' && !Less(Reg(s', held.key).At(), held.reg.At()));
  }

  lemma RegisterGrows(y: System, step: Step, k: Key)
    requires Inv(y) && Enabled(y, step)
    ensures !Less(Reg(Perform(y.stores[step.peer], step).0, k).At(), Reg(y.stores[step.peer], k).At())
  {
    StepReflects(y, step);
    var got, msg := y.got[step.peer], Perform(y.stores[step.peer], step).1;
    WritesOfUnion(got, msg);
    MoreWritesGrow(y.stores[step.peer], WritesOf(got), Perform(y.stores[step.peer], step).0, WritesOf(got + {msg}), k);
  }

  /** A write put in circulation is old, a stub, or the stepping peer's own. */
  lemma NewWriteIsOwn(y: System, step: Step, w: Write)
    requires Inv(y) && Enabled(y, step) && w in Writes(Perform(y.stores[step.peer], step).1)
    ensures w in WritesOf(y.sent) || w.reg == Bottom(w.key.field) || w.reg.author == step.peer
  {
    var msg := Perform(y.stores[step.peer], step).1;
    if step.ShareRoom? {
      SnapshotWritesAreOld(y.stores[step.peer], WritesOf(y.got[step.peer]), msg, w);
    } else if !step.Deliver? {
      LocalWritesAreNew(y, step, w);
    }
  }

  lemma StepHoldsItsWrites(y: System, step: Step, w: Write)
    requires Inv(y) && Enabled(y, step) && w in Writes(Perform(y.stores[step.peer], step).1)
    ensures !Less(Reg(Perform(y.stores[step.peer], step).0, w.key).At(), w.reg.At())
  {
    StepReflects(y, step);
    WritesOfUnion(y.got[step.peer], Perform(y.stores[step.peer], step).1);
  }

  lemma StepHoldsOwnWrite(y: System, step: Step, w: Write)
    requires Inv(y) && Enabled(y, step) && w.reg.author == step.peer
    requires var msg := Perform(y.stores[step.peer], step).1; w in WritesOf(y.sent) || w in Writes(msg)
    ensures !Less(Reg(Perform(y.stores[step.peer], step).0, w.key).At(), w.reg.At())
  {
    var s := y.stores[step.peer];
    if w in Writes(Perform(s, step).1) {
      StepHoldsItsWrites(y, step, w);
    } else {
      OthersHoldTheirs(y, step.peer, w);
      RegisterGrows(y, step, w.key);
      NotLessTransitive(w.reg.At(), Reg(s, w.key).At(), Reg(Perform(s, step).0, w.key).At());
    }
  }

  /** A peer that does not step still holds each of its writes, and any stub. */
  lemma OthersHoldTheirs(y: System, p: Peer, w: Write)
    requires OwnWritesHeld(y) && p in y.stores && w.reg.author == p
    requires w in WritesOf(y.sent) || w.reg == Bottom(w.key.field)
    ensures !Less(Reg(y.stores[p], w.key).At(), w.reg.At())
  {
    LeastIsLeast(Reg(y.stores[p], w.key).At());
  }

  lemma StepKeepsOwnWrites(y: System, step: Step)
    requires Inv(y) && Enabled(y, step)
    ensures OwnWritesHeld(Next(y, step))
  {
    var y', msg := Next(y, step), Perform(y.stores[step.peer], step).1;
    WritesOfUnion(y.sent, msg);
    forall p, w | p in y'.stores && w in WritesOf(y'.sent) && w.reg.author == p
      ensures !Less(Reg(y'.stores[p], w.key).At(), w.reg.At())
    {
      if p == step.peer {
        StepHoldsOwnWrite(y, step, w);
      } else {
        if w in Writes(msg) { NewWriteIsOwn(y, step, w); }
        OthersHoldTheirs(y, p, w);
      }
    }
  }

  lemma StepKeepsInv(y: System, step: Step)
    requires Inv(y) && Enabled(y, step)
    ensures Inv(Next(y, step))
  {
    StepReflects(y, step);
    StepDetermined(y, step);
    StepKeepsOwnWrites(y, step);
  }

  lemma {:induction false} RunKeepsInv(y: System, steps: seq<Step>)
    requires Inv(y) && ValidRun(y, steps)
    ensures Inv(Run(y, steps))
    decreases |steps|
  {
    if steps == [] {
    } else {
      StepKeepsInv(y, steps[0]);
      RunKeepsInv(Next(y, steps[0]), steps[1..]);
    }
  }

  lemma InitHasInv(peers: set<Peer>)
    ensures Inv(Init(peers))
  {
    EmptyReflects();
    assert WritesOf({}) == {};
  }

  // ---------- The theorems, for every run ----------

  /** Peers that have received every broadcast hold the same tasks and the same registers. */
  lemma PeersConverge(peers: set<Peer>, steps: seq<Step>, p: Peer, q: Peer)
    requires ValidRun(Init(peers), steps) && {p, q} <= peers
    requires var y := Run(Init(peers), steps); p in y.got && q in y.got && y.got[p] == y.sent == y.got[q]
    ensures var y := Run(Init(peers), steps); p in y.stores && q in y.stores && SameTasks(y.stores[p], y.stores[q])
  {
    InitHasInv(peers);
    RunKeepsInv(Init(peers), steps);
    var y := Run(Init(peers), steps);
    ReflectsUnique(y.stores[p], y.stores[q], WritesOf(y.sent));
  }

  /** No two different values ever share a task, a field, a timestamp and an author. */
  lemma StampsDetermineValues(peers: set<Peer>, steps: seq<Step>, v: Write, w: Write)
    requires ValidRun(Init(peers), steps)
    requires var sent := Run(Init(peers), steps).sent; v in WritesOf(sent) && w in WritesOf(sent)
    requires v.key == w.key && v.reg.At() == w.reg.At()
    ensures v == w
  {
    InitHasInv(peers);
    RunKeepsInv(Init(peers), steps);
  }

  /** Every step leaves every stored stamp, of every peer, at least where it was. */
  lemma StampsOnlyGrow(peers: set<Peer>, steps: seq<Step>, step: Step, p: Peer, k: Key)
    requires ValidRun(Init(peers), steps) && Enabled(Run(Init(peers), steps), step)
    requires p in Run(Init(peers), steps).stores
    ensures var y := Run(Init(peers), steps);
      !Less(Reg(Next(y, step).stores[p], k).At(), Reg(y.stores[p], k).At())
  {
    InitHasInv(peers);
    RunKeepsInv(Init(peers), steps);
    var y := Run(Init(peers), steps);
    RegisterGrows(y, step, k);
    LessTrichotomy(Reg(y.stores[p], k).At(), Reg(y.stores[p], k).At());
  }

  /** What every store of every run is: filed by id, and with the stub's stamp only on the stub's value. */
  ghost predicate Sound(s: Store) {
    Filed(s) && forall k :: Reg(s, k).At() == LEAST ==> Reg(s, k) == Bottom(k.field)
  }

  lemma HeldIsSent(y: System, p: Peer, k: Key)
    requires Inv(y) && p in y.stores
    ensures var held := Reg(y.stores[p], k); held == Bottom(k.field) || Write(k, held) in WritesOf(y.sent)
  {
    assert WritesOf(y.got[p]) <= WritesOf(y.sent);
  }

  lemma ReflectingIsSound(s: Store, ws: set<Write>)
    requires Reflects(s, ws) && Determined(ws)
    ensures Sound(s)
  {
    forall k | Reg(s, k).At() == LEAST ensures Reg(s, k) == Bottom(k.field) {
      assert Reg(s, k) == Bottom(k.field) || Write(k, Reg(s, k)) in ws;
    }
  }

  lemma InvMakesSound(y: System, p: Peer)
    requires Inv(y) && p in y.stores
    ensures Sound(y.stores[p])
  {
    DeterminedSubset(WritesOf(y.got[p]), WritesOf(y.sent));
    ReflectingIsSound(y.stores[p], WritesOf(y.got[p]));
  }

  lemma StoresAreSound(peers: set<Peer>, steps: seq<Step>, p: Peer)
    requires ValidRun(Init(peers), steps) && p in Run(Init(peers), steps).stores
    ensures Sound(Run(Init(peers), steps).stores[p])
  {
    InitHasInv(peers);
    RunKeepsInv(Init(peers), steps);
    InvMakesSound(Run(Init(peers), steps), p);
  }

  lemma SentAgree(ws: set<Write>, k: Key, v: Register<Value>, w: Register<Value>)
    requires Determined(ws)
    requires (v == Bottom(k.field) || Write(k, v) in ws) && (w == Bottom(k.field) || Write(k, w) in ws)
    ensures Agree(v, w)
  {
  }

  /** Registers that two peers of a run hold under one stamp have one value. */
  lemma PeersAgree(y: System, p: Peer, q: Peer, k: Key)
    requires Inv(y) && p in y.stores && q in y.stores
    ensures Agree(Reg(y.stores[p], k), Reg(y.stores[q], k))
  {
    var (v, w) := (Reg(y.stores[p], k), Reg(y.stores[q], k));
    HeldIsSent(y, p, k);
    HeldIsSent(y, q, k);
    SentAgree(WritesOf(y.sent), k, v, w);
  }

  /** At any moment of a run, exchanging snapshots of a room leaves two peers with equal tasks and registers there. */
  lemma PeersExchange(
      peers: set<Peer>, steps: seq<Step>, p: Peer, q: Peer, room: string,
      fromP: Option<Message>, fromQ: Option<Message>)
    requires ValidRun(Init(peers), steps)
    requires var y := Run(Init(peers), steps);
      p in y.stores && q in y.stores && IsSnapshot(y.stores[p], room, fromP) && IsSnapshot(y.stores[q], room, fromQ)
    ensures var y := Run(Init(peers), steps);
            var (p', q') := (Receive(y.stores[p], fromQ), Receive(y.stores[q], fromP));
      && (forall k: Key :: k.room == room ==> Reg(p', k) == Reg(q', k))
      && (forall id :: Present(p', room, id) <==> Present(q', room, id))
  {
    var y := Run(Init(peers), steps);
    InitHasInv(peers);
    RunKeepsInv(Init(peers), steps);
    ExchangeConvergesIff(y.stores[p], y.stores[q], room, fromP, fromQ);
    forall k: Key | k.room == room ensures Agree(Reg(y.stores[p], k), Reg(y.stores[q], k)) {
      PeersAgree(y, p, q, k);
    }
  }

  /** At any moment of a run, a peer's snapshot of a room merges into another's registers pointwise, stubs included. */
  lemma PeersMerge(peers: set<Peer>, steps: seq<Step>, p: Peer, q: Peer, room: string, fromQ: Option<Message>, k: Key)
    requires ValidRun(Init(peers), steps) && k.room == room
    requires var y := Run(Init(peers), steps); p in y.stores && q in y.stores && IsSnapshot(y.stores[q], room, fromQ)
    ensures var y := Run(Init(peers), steps);
      Reg(Receive(y.stores[p], fromQ), k) == MergeLww(Reg(y.stores[p], k), Reg(y.stores[q], k))
  {
    var y := Run(Init(peers), steps);
    StoresAreSound(peers, steps, q);
    SnapshotIsJoin(y.stores[p], y.stores[q], room, fromQ);
  }

  lemma DeterminedSubset(some: set<Write>, all: set<Write>)
    requires Determined(all) && some <= all
    ensures Determined(some)
  {
  }

  /** In every run a peer hides a task it holds exactly when a newest of the status writes it has got deletes it. */
  lemma PeerHidesIff(peers: set<Peer>, steps: seq<Step>, p: Peer, room: string, id: TaskId)
    requires ValidRun(Init(peers), steps)
    requires var y := Run(Init(peers), steps); p in y.stores && p in y.got && Present(y.stores[p], room, id)
    ensures var y := Run(Init(peers), steps);
      !Visible(y.stores[p], room, id)
      <==> exists w :: Newest(WritesOf(y.got[p]), w) && w.key == Key(room, id, Status) && w.reg.value == State(Deleted)
  {
    InitHasInv(peers);
    RunKeepsInv(Init(peers), steps);
    var y := Run(Init(peers), steps);
    DeterminedSubset(WritesOf(y.got[p]), WritesOf(y.sent));
    HiddenIffNewestDeletes(y.stores[p], WritesOf(y.got[p]), room, id);
  }

  lemma StepIsPlain(y: System, step: Step)
    requires Inv(y) && Enabled(y, step) && forall m :: m in y.sent ==> Plain(m)
    ensures Plain(Perform(y.stores[step.peer], step).1)
  {
    var s, msg := y.stores[step.peer], Perform(y.stores[step.peer], step).1;
    forall v, w | !step.Deliver? && v in Writes(msg) && w in Writes(msg) && v.key == w.key ensures v == w {
      if step.ShareRoom? {
        SnapshotWritesAreOld(s, WritesOf(y.got[step.peer]), msg, v);
        SnapshotWritesAreOld(s, WritesOf(y.got[step.peer]), msg, w);
      } else {
        LocalWritesAreFunctional(y, step, v, w);
      }
    }
    StepDetermined(y, step);
    assert forall w :: w in Writes(msg) ==> w in WritesOf(y.sent + {msg});
  }

  lemma {:induction false} RunIsPlain(y: System, steps: seq<Step>)
    requires Inv(y) && ValidRun(y, steps) && forall m :: m in y.sent ==> Plain(m)
    ensures forall m :: m in Run(y, steps).sent ==> Plain(m)
    decreases |steps|
  {
    if steps == [] {
    } else {
      StepKeepsInv(y, steps[0]);
      StepIsPlain(y, steps[0]);
      RunIsPlain(Next(y, steps[0]), steps[1..]);
    }
  }

  /** Every broadcast of a run writes a register at most once, and the newest writes to each register agree. */
  lemma BroadcastsArePlain(peers: set<Peer>, steps: seq<Step>)
    requires ValidRun(Init(peers), steps)
    ensures var sent := Run(Init(peers), steps).sent;
      (forall m :: m in sent ==> Plain(m)) && NewestAgree(WritesOf(sent))
  {
    InitHasInv(peers);
    RunIsPlain(Init(peers), steps);
    RunKeepsInv(Init(peers), steps);
    var ws := WritesOf(Run(Init(peers), steps).sent);
    forall v, w | Newest(ws, v) && Newest(ws, w) && v.key == w.key ensures v == w {
      LessTrichotomy(v.reg.At(), w.reg.At());
    }
  }

  /** No order of delivering any of a run's broadcasts matters. */
  lemma BroadcastOrderIsIrrelevant(peers: set<Peer>, steps: seq<Step>, left: seq<Message>, right: seq<Message>)
    requires ValidRun(Init(peers), steps)
    requires Elements(left) == Elements(right) <= Run(Init(peers), steps).sent
    ensures SameTasks(ApplyAll(map[], left), ApplyAll(map[], right))
  {
    InitHasInv(peers);
    RunKeepsInv(Init(peers), steps);
    SameWrites(left);
    SameWrites(right);
    assert WritesIn(left) <= WritesOf(Run(Init(peers), steps).sent);
    StrongConvergence(left, right);
  }

  lemma SameWrites(msgs: seq<Message>)
    ensures WritesIn(msgs) == WritesOf(Elements(msgs))
  {
  }

  /**
   The clock condition is needed. An editor whose clock has not advanced past the register overwrites
   its own copy all the same, while a peer holding the same room refuses the broadcast.
   */
  lemma StaleClockDiverges(s: Store, room: string, id: TaskId, u: FieldUpdate)
    requires Present(s, room, id)
    requires var k := Key(room, id, UpdateField(u)); !Less(Reg(s, k).At(), u.At()) && Reg(s, k) != UpdateReg(u)
    ensures var (editor, msg) := Edit(s, room, id, u);
            var k := Key(room, id, UpdateField(u));
      msg.Ok? && Reg(editor, k) == UpdateReg(u) && Reg(Apply(s, msg.value), k) == Reg(s, k) != Reg(editor, k)
  {
    FieldRegister(s, FieldMessage(id, room, u), Key(room, id, UpdateField(u)));
  }
}
