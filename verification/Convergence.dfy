/**
 Strong convergence of the task list: what a replica holds is a function of the set of register
 writes it has received, wherever a stamp determines the value.
 */
module Convergence {
  import opened Lww
  import opened Tasks

  /** The writes carried by a set of messages. */
  function WritesOf(msgs: set<Message>): set<Write> {
    set m, w | m in msgs && w in Writes(m) :: w
  }

  function WritesIn(msgs: seq<Message>): set<Write> {
    set m, w | m in msgs && w in Writes(m) :: w
  }

  /** Equal stamps on a register, the stub's own stamp included, carry equal values. */
  ghost predicate Determined(ws: set<Write>) {
    && (forall v, w :: v in ws && w in ws && v.key == w.key && v.reg.At() == w.reg.At() ==> v.reg == w.reg)
    && (forall w :: w in ws && w.reg.At() == LEAST ==> w.reg == Bottom(w.key.field))
  }

  /**
   A replica reflects a set of writes: every register it holds is a stub's or one of the writes,
   none of them is older than a write to it, and its tasks are those the writes mention.
   */
  ghost predicate Reflects(s: Store, ws: set<Write>) {
    && Filed(s)
    && (forall k :: Reg(s, k) == Bottom(k.field) || Write(k, Reg(s, k)) in ws)
    && (forall w :: w in ws ==> !Less(Reg(s, w.key).At(), w.reg.At()))
    && (forall room, id: TaskId :: Present(s, room, id) <==> (room, id) in Ids(ws))
  }

  /** The same tasks, with the same registers. */
  ghost predicate SameTasks(s: Store, t: Store) {
    && (forall k :: Reg(s, k) == Reg(t, k))
    && (forall room, id :: Present(s, room, id) <==> Present(t, room, id))
  }

  /** No write to the same register is newer. */
  ghost predicate Newest(ws: set<Write>, w: Write) {
    w in ws && forall v :: v in ws && v.key == w.key ==> !Less(w.reg.At(), v.reg.At())
  }

  /** Reflecting the same writes means holding the same tasks and the same registers. */
  lemma ReflectsUnique(s: Store, t: Store, ws: set<Write>)
    requires Reflects(s, ws) && Reflects(t, ws) && Determined(ws)
    ensures SameTasks(s, t)
  {
    forall k ensures Reg(s, k) == Reg(t, k) {
      var a, b := Reg(s, k), Reg(t, k);
      LessTrichotomy(a.At(), b.At());
      LeastIsLeast(a.At());
      LeastIsLeast(b.At());
      assert a != Bottom(k.field) ==> Write(k, a) in ws && !Less(b.At(), Write(k, a).reg.At());
      assert b != Bottom(k.field) ==> Write(k, b) in ws && !Less(a.At(), Write(k, b).reg.At());
    }
  }

  // ---------- Preservation ----------

  /** Filing one task `t` in room `room`, merged into what is there. */
  function Put(s: Store, room: string, t: Task): Store {
    s[room := MergeOne(RoomOf(s, room), t)]
  }

  lemma PutRegister(s: Store, room: string, t: Task, k: Key)
    ensures k.room == room && k.id == t.id ==>
      Reg(Put(s, room, t), k)
      == if Present(s, room, t.id) then MergeLww(Reg(s, k), FieldOf(t, k.field)) else FieldOf(t, k.field)
    ensures !(k.room == room && k.id == t.id) ==> Reg(Put(s, room, t), k) == Reg(s, k)
  {
  }

  lemma PutReflects(s: Store, ws: set<Write>, room: string, t: Task)
    requires Reflects(s, ws)
    ensures Reflects(Put(s, room, t), ws + TaskWrites(room, t))
  {
    var s', ws' := Put(s, room, t), ws + TaskWrites(room, t);
    forall k ensures Reg(s', k) == Bottom(k.field) || Write(k, Reg(s', k)) in ws' {
      PutRegister(s, room, t, k);
    }
    forall w | w in ws' ensures !Less(Reg(s', w.key).At(), w.reg.At()) {
      PutRegister(s, room, t, w.key);
      LessTrichotomy(w.reg.At(), w.reg.At());
      if w.key.room == room && w.key.id == t.id {
        var theirs := FieldOf(t, w.key.field);
        MergeIsUpperBound(Reg(s, w.key), theirs);
        if w in ws {
          assert (room, t.id) in Ids(ws);
          MergeKeepsBound(Reg(s, w.key), theirs, w.reg.At());
        }
      }
    }
    forall r, id: TaskId ensures Present(s', r, id) <==> (r, id) in Ids(ws') {
      PutIds(s, ws, room, t, r, id);
    }
  }

  lemma PutIds(s: Store, ws: set<Write>, room: string, t: Task, r: string, id: TaskId)
    requires Present(s, r, id) <==> (r, id) in Ids(ws)
    ensures Present(Put(s, room, t), r, id) <==> (r, id) in Ids(ws + TaskWrites(room, t))
  {
    var w := Write(Key(room, t.id, Title), FieldOf(t, Title));
    assert w in TaskWrites(room, t) && (w.key.room, w.key.id) == (room, t.id);
    IdsUnion(ws, TaskWrites(room, t));
  }

  lemma IdsUnion(a: set<Write>, b: set<Write>)
    ensures Ids(a + b) == Ids(a) + Ids(b)
  {
  }

  lemma ListWritesCons(room: string, ts: seq<Task>)
    requires ts != []
    ensures ListWrites(room, ts) == TaskWrites(room, ts[0]) + ListWrites(room, ts[1..])
  {
    forall w ensures w in ListWrites(room, ts) <==> w in TaskWrites(room, ts[0]) + ListWrites(room, ts[1..]) {
      assert ts == [ts[0]] + ts[1..];
    }
  }

  /** Filing a list is filing its first task and then the rest. */
  lemma PutList(s: Store, room: string, ts: seq<Task>)
    requires ts != []
    ensures s[room := MergeAll(RoomOf(s, room), ts)]
      == Put(s, room, ts[0])[room := MergeAll(RoomOf(Put(s, room, ts[0]), room), ts[1..])]
  {
  }

  lemma OpenRoomReflects(s: Store, ws: set<Write>, room: string)
    requires Reflects(s, ws)
    ensures Reflects(s[room := RoomOf(s, room)], ws)
  {
    var s' := s[room := RoomOf(s, room)];
    assert forall k :: Reg(s', k) == Reg(s, k);
    assert forall r, id :: Present(s', r, id) <==> Present(s, r, id);
  }

  lemma {:induction false} ListReflects(s: Store, ws: set<Write>, room: string, ts: seq<Task>)
    requires Reflects(s, ws)
    ensures Reflects(s[room := MergeAll(RoomOf(s, room), ts)], ws + ListWrites(room, ts))
    decreases |ts|
  {
    if ts == [] {
      assert ws + ListWrites(room, ts) == ws;
      OpenRoomReflects(s, ws, room);
    } else {
      PutReflects(s, ws, room, ts[0]);
      ListReflects(Put(s, room, ts[0]), ws + TaskWrites(room, ts[0]), room, ts[1..]);
      PutList(s, room, ts);
      ListWritesCons(room, ts);
      assert ws + TaskWrites(room, ts[0]) + ListWrites(room, ts[1..]) == ws + ListWrites(room, ts);
    }
  }

  lemma FieldRegister(s: Store, msg: Message, k: Key)
    requires msg.FieldMessage?
    ensures Reg(Apply(s, msg), k)
      == if k == Key(msg.roomId, msg.taskId, UpdateField(msg.update))
         then MergeLww(Reg(s, k), UpdateReg(msg.update)) else Reg(s, k)
  {
    var tasks := RoomOf(s, msg.roomId);
    var task := if msg.taskId in tasks then tasks[msg.taskId] else StubTask(msg.taskId, msg.roomId, msg.update.At());
    FieldUpdateIsMerge(task, msg.update, k.field);
  }

  /** Every register after a field update: held before or the update's, and not below a write. */
  lemma FieldHolds(s: Store, ws: set<Write>, msg: Message, k: Key, w: Write)
    requires Reflects(s, ws) && msg.FieldMessage?
    ensures var held := Reg(Apply(s, msg), k); held == Bottom(k.field) || Write(k, held) in ws + Writes(msg)
    ensures w in ws + Writes(msg) ==> !Less(Reg(Apply(s, msg), w.key).At(), w.reg.At())
  {
    FieldRegister(s, msg, k);
    FieldRegister(s, msg, w.key);
    MergeIsUpperBound(Reg(s, w.key), UpdateReg(msg.update));
    if w in ws { MergeKeepsBound(Reg(s, w.key), UpdateReg(msg.update), w.reg.At()); }
  }

  lemma FieldFiles(s: Store, msg: Message)
    requires Filed(s) && msg.FieldMessage?
    ensures Filed(Apply(s, msg))
    ensures forall room, id ::
      Present(Apply(s, msg), room, id) <==> Present(s, room, id) || (room == msg.roomId && id == msg.taskId)
  {
    var tasks := RoomOf(s, msg.roomId);
    var task := if msg.taskId in tasks then tasks[msg.taskId] else StubTask(msg.taskId, msg.roomId, msg.update.At());
    FieldUpdateIsMerge(task, msg.update, Title);
  }

  lemma FieldReflects(s: Store, ws: set<Write>, msg: Message)
    requires Reflects(s, ws) && msg.FieldMessage?
    ensures Reflects(Apply(s, msg), ws + Writes(msg))
  {
    var s', ws' := Apply(s, msg), ws + Writes(msg);
    var own := Write(Key(msg.roomId, msg.taskId, UpdateField(msg.update)), UpdateReg(msg.update));
    forall k ensures Reg(s', k) == Bottom(k.field) || Write(k, Reg(s', k)) in ws' {
      FieldHolds(s, ws, msg, k, own);
    }
    forall w | w in ws' ensures !Less(Reg(s', w.key).At(), w.reg.At()) {
      FieldHolds(s, ws, msg, w.key, w);
    }
    FieldFiles(s, msg);
    IdsUnion(ws, Writes(msg));
    assert Ids(Writes(msg)) == {(msg.roomId, msg.taskId)};
  }

  lemma ApplyReflects(s: Store, ws: set<Write>, msg: Message)
    requires Reflects(s, ws)
    ensures Reflects(Apply(s, msg), ws + Writes(msg))
  {
    match msg
    case FieldMessage(_, _, _) => FieldReflects(s, ws, msg);
    case FullState(room, ts) => ListReflects(s, ws, room, ts);
    case RequestFullState(_) => assert ws + Writes(msg) == ws;
  }

  lemma WritesInCons(msgs: seq<Message>)
    requires msgs != []
    ensures WritesIn(msgs) == Writes(msgs[0]) + WritesIn(msgs[1..])
  {
    assert msgs == [msgs[0]] + msgs[1..];
  }

  lemma {:induction false} ApplyAllReflects(s: Store, ws: set<Write>, msgs: seq<Message>)
    requires Reflects(s, ws)
    ensures Reflects(ApplyAll(s, msgs), ws + WritesIn(msgs))
    decreases |msgs|
  {
    if msgs == [] {
      assert ws + WritesIn(msgs) == ws;
    } else {
      ApplyReflects(s, ws, msgs[0]);
      ApplyAllReflects(Apply(s, msgs[0]), ws + Writes(msgs[0]), msgs[1..]);
      WritesInCons(msgs);
      assert ws + Writes(msgs[0]) + WritesIn(msgs[1..]) == ws + WritesIn(msgs);
    }
  }

  lemma EmptyReflects()
    ensures Reflects(map[], {})
  {
  }

  /**
   Strong convergence. Two replicas that start empty and receive the same writes, in any order,
   with any repetition and in any mix of field updates and snapshots, hold the same tasks and
   the same three registers in each.
   */
  lemma StrongConvergence(left: seq<Message>, right: seq<Message>)
    requires WritesIn(left) == WritesIn(right) && Determined(WritesIn(left))
    ensures SameTasks(ApplyAll(map[], left), ApplyAll(map[], right))
  {
    EmptyReflects();
    ApplyAllReflects(map[], {}, left);
    ApplyAllReflects(map[], {}, right);
    assert {} + WritesIn(left) == WritesIn(left) == {} + WritesIn(right);
    ReflectsUnique(ApplyAll(map[], left), ApplyAll(map[], right), WritesIn(left));
  }

  lemma ApplyTwo(s: Store, a: Message, b: Message)
    ensures ApplyAll(s, [a, b]) == Apply(Apply(s, a), b)
  {
    assert [a, b][1..] == [b] && [b][1..] == [];
    assert ApplyAll(Apply(s, a), [b]) == ApplyAll(Apply(Apply(s, a), b), []);
  }

  /** Without the condition the order shows: two values under one stamp, delivered both ways round. */
  lemma TiedStampsDiverge()
    ensures var done := FieldMessage(TaskId(7), "r", StatusUpdate(Register(Completed, 5, "a")));
            var back := FieldMessage(TaskId(7), "r", StatusUpdate(Register(InProgress, 5, "a")));
            var k := Key("r", TaskId(7), Status);
      && WritesIn([done, back]) == WritesIn([back, done])
      && !Determined(WritesIn([done, back]))
      && Reg(ApplyAll(map[], [done, back]), k) != Reg(ApplyAll(map[], [back, done]), k)
  {
    var done := FieldMessage(TaskId(7), "r", StatusUpdate(Register(Completed, 5, "a")));
    var back := FieldMessage(TaskId(7), "r", StatusUpdate(Register(InProgress, 5, "a")));
    var k := Key("r", TaskId(7), Status);
    FieldRegister(map[], done, k);
    FieldRegister(Apply(map[], done), back, k);
    FieldRegister(map[], back, k);
    FieldRegister(Apply(map[], back), done, k);
    ApplyTwo(map[], done, back);
    ApplyTwo(map[], back, done);
    var v, w := Write(k, UpdateReg(done.update)), Write(k, UpdateReg(back.update));
    assert v in Writes(done) && w in Writes(back) && done in [done, back] && back in [done, back];
    assert v.reg.At() == w.reg.At() && v.reg != w.reg;
  }
}
