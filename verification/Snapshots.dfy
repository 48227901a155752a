/**
 Catch-up by full snapshots, and deletion by tombstone: a snapshot is the pointwise join of two
 replicas, and a task is hidden exactly when its newest status write deletes it.
 */
module Snapshots {
  import opened Outcomes
  import opened Lww
  import opened Tasks
  import opened Convergence
  import opened Joins
  import opened DeliveryOrder

  /** A list of a room's tasks, in whatever order the map yields them. */
  ghost predicate Listing(tasks: TaskMap, ts: seq<Task>) {
    && (forall id :: id in tasks ==> tasks[id] in ts)
    && (forall t :: t in ts ==> t.id in tasks && tasks[t.id] == t)
  }

  /** What the snapshot builder may return: nothing for a room without tasks, else a listing. */
  ghost predicate IsSnapshot(s: Store, room: string, msg: Option<Message>) {
    if RoomOf(s, room) == map[] then msg == None
    else msg.Some? && msg.value.FullState? && msg.value.roomId == room && Listing(s[room], msg.value.tasks)
  }

  function Receive(s: Store, msg: Option<Message>): Store {
    if msg.Some? then Apply(s, msg.value) else s
  }

  predicate Lists(ts: seq<Task>, id: TaskId) {
    exists t :: t in ts && t.id == id
  }

  lemma {:induction false} ListingJoin(s: Store, a: Store, room: string, ts: seq<Task>, k: Key)
    requires room in a
    requires forall t :: t in ts ==> t.id in a[room] && a[room][t.id] == t
    ensures var (s', listed) := (Filing(s, room, ts), k.room == room && Lists(ts, k.id));
      && Reg(s', k) == (if listed then Joined(s, a, k) else Reg(s, k))
      && (Present(s', k.room, k.id) <==> Present(s, k.room, k.id) || listed)
    decreases |ts|
  {
    if ts == [] {
    } else {
      var mid := Put(s, room, ts[0]);
      ListingJoin(mid, a, room, ts[1..], k);
      PutList(s, room, ts);
      PutRegister(s, room, ts[0], k);
      assert ts == [ts[0]] + ts[1..];
      assert Lists(ts, k.id) <==> ts[0].id == k.id || Lists(ts[1..], k.id);
      MergeAssociative(Reg(s, k), Reg(a, k), Reg(a, k));
    }
  }

  /**
   Receiving a replica's snapshot of a room joins the two replicas there: the tasks unite, and the registers merge
   pointwise, whatever order the tasks are listed in. Every other room stays as it was. A task new to the receiver is
   taken as it is, which is the merge with a stub unless a register has the stub's stamp on another value.
   */
  lemma SnapshotIsJoin(b: Store, a: Store, room: string, msg: Option<Message>)
    requires Filed(a) && IsSnapshot(a, room, msg)
    ensures var b' := Receive(b, msg);
      && (forall k: Key :: k.room == room ==> Reg(b', k) == Joined(b, a, k))
      && (forall id :: Present(b', room, id) <==> Present(b, room, id) || Present(a, room, id))
      && (forall other :: other != room ==> RoomOf(b', other) == RoomOf(b, other))
    ensures forall k: Key :: k.room == room ==>
      (Reg(Receive(b, msg), k) == MergeLww(Reg(b, k), Reg(a, k))
       <==> Present(b, room, k.id) || Reg(a, k).At() != LEAST || Reg(a, k) == Bottom(k.field))
  {
    var b' := Receive(b, msg);
    forall k: Key | k.room == room
      ensures Reg(b', k) == Joined(b, a, k)
      ensures Present(b', room, k.id) <==> Present(b, room, k.id) || Present(a, room, k.id)
    {
      if msg.Some? {
        var ts := msg.value.tasks;
        ListingJoin(b, a, room, ts, k);
        assert k.id in a[room] ==> a[room][k.id] in ts;
        assert Present(a, room, k.id) <==> Lists(ts, k.id);
      }
    }
    forall id ensures Present(b', room, id) <==> Present(b, room, id) || Present(a, room, id) {
      assert Key(room, id, Title).room == room;
    }
    forall k: Key { JoinedIsMergeIff(b, a, k); }
  }

  /**
   A two-way exchange of snapshots leaves both replicas with the same tasks in the room, and with the same
   registers exactly when every pair of registers that both held under one stamp had one value.
   */
  lemma ExchangeConvergesIff(a: Store, b: Store, room: string, fromA: Option<Message>, fromB: Option<Message>)
    requires Filed(a) && IsSnapshot(a, room, fromA)
    requires Filed(b) && IsSnapshot(b, room, fromB)
    ensures forall id :: Present(Receive(a, fromB), room, id) <==> Present(Receive(b, fromA), room, id)
    ensures (forall k: Key :: k.room == room ==> Reg(Receive(a, fromB), k) == Reg(Receive(b, fromA), k))
       <==> (forall k: Key :: k.room == room && Present(a, room, k.id) && Present(b, room, k.id) ==>
               Agree(Reg(a, k), Reg(b, k)))
  {
    SnapshotIsJoin(b, a, room, fromA);
    SnapshotIsJoin(a, b, room, fromB);
    forall k: Key | k.room == room
      ensures Reg(Receive(a, fromB), k) == Reg(Receive(b, fromA), k)
        <==> (Present(a, room, k.id) && Present(b, room, k.id) ==> Agree(Reg(a, k), Reg(b, k)))
    {
      MergeCommutesIff(Reg(a, k), Reg(b, k));
    }
  }

  // ---------- Deletion ----------

  /** A task that the room's task list shows. */
  predicate Visible(s: Store, room: string, id: TaskId) {
    Present(s, room, id) && s[room][id].status.value != Deleted
  }

  lemma {:induction false} ListKeepsRegister(s: Store, room: string, ts: seq<Task>, k: Key)
    requires Present(s, k.room, k.id)
    requires forall t :: t in ts && k.room == room && k.id == t.id ==> !Less(Reg(s, k).At(), FieldOf(t, k.field).At())
    ensures var s' := Filing(s, room, ts);
      Present(s', k.room, k.id) && Reg(s', k) == Reg(s, k)
    decreases |ts|
  {
    if ts == [] {
    } else {
      PutRegister(s, room, ts[0], k);
      assert ts[0] in ts;
      ListKeepsRegister(Put(s, room, ts[0]), room, ts[1..], k);
      PutList(s, room, ts);
    }
  }

  lemma MessageKeepsRegister(s: Store, msg: Message, k: Key)
    requires Present(s, k.room, k.id)
    requires forall w :: w in Writes(msg) && w.key == k ==> !Less(Reg(s, k).At(), w.reg.At())
    ensures Present(Apply(s, msg), k.room, k.id) && Reg(Apply(s, msg), k) == Reg(s, k)
  {
    match msg
    case FieldMessage(id, room, update) =>
      FieldRegister(s, msg, k);
      assert Write(Key(room, id, UpdateField(update)), UpdateReg(update)) in Writes(msg);
    case RequestFullState(_) =>
    case FullState(room, ts) =>
      forall t | t in ts && k.room == room && k.id == t.id
        ensures !Less(Reg(s, k).At(), FieldOf(t, k.field).At())
      {
        assert Write(k, FieldOf(t, k.field)) in TaskWrites(room, t);
      }
      ListKeepsRegister(s, room, ts, k);
  }

  /** No sequence of deliveries whose status stamps do not exceed the deleting write's brings a task back. */
  lemma {:induction false} DeletedStaysHidden(s: Store, msgs: seq<Message>, room: string, id: TaskId)
    requires Present(s, room, id) && s[room][id].status.value == Deleted
    requires forall w :: (w in WritesIn(msgs) && w.key == Key(room, id, Status)
                         ==> !Less(s[room][id].status.At(), w.reg.At()))
    ensures var s' := ApplyAll(s, msgs);
      Present(s', room, id) && s'[room][id].status == s[room][id].status && !Visible(s', room, id)
    decreases |msgs|
  {
    if msgs == [] {
    } else {
      var k := Key(room, id, Status);
      assert msgs[0] in msgs;
      forall w | w in Writes(msgs[0]) && w.key == k ensures !Less(Reg(s, k).At(), w.reg.At()) {
        assert w in WritesIn(msgs);
      }
      MessageKeepsRegister(s, msgs[0], k);
      DeletedStaysHidden(Apply(s, msgs[0]), msgs[1..], room, id);
    }
  }

  /**
   A newcomer that has received any messages that mention a task, in any order, hides the task exactly when the first
   of those that lead in its status -- delivered alone, none leaves the status newer -- would leave it deleted.
   */
  lemma NewcomerHidesIff(msgs: seq<Message>, room: string, id: TaskId, i: nat)
    requires FirstToLead(msgs, i, Key(room, id, Status))
    ensures !Visible(ApplyAll(map[], msgs), room, id) <==> Alone(msgs[i])[room][id].status.value == Deleted
  {
    FirstLeaderDecides(msgs, i, Key(room, id, Status));
  }

  /** Where stamps determine values: exactly when a newest of the status writes it reflects is the deletion. */
  lemma HiddenIffNewestDeletes(s: Store, ws: set<Write>, room: string, id: TaskId)
    requires Reflects(s, ws) && Determined(ws) && Present(s, room, id)
    ensures !Visible(s, room, id)
      <==> exists w :: Newest(ws, w) && w.key == Key(room, id, Status) && w.reg.value == State(Deleted)
  {
    var k := Key(room, id, Status);
    var held := Reg(s, k);
    if held.value == State(Deleted) {
      assert Newest(ws, Write(k, held));
    }
    if w :| Newest(ws, w) && w.key == k && w.reg.value == State(Deleted) {
      LessTrichotomy(held.At(), w.reg.At());
      LeastIsLeast(w.reg.At());
      assert held == Bottom(Status) || Write(k, held) in ws;
      assert held == w.reg;
    }
  }
}
