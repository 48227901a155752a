/**
 Receiving a message is joining with what that message leaves in an empty replica. A register that only one
 side has is taken as it is; one that both have is merged.
 */
module Joins {
  import opened Lww
  import opened Tasks
  import opened Convergence

  function Joined(s: Store, t: Store, k: Key): Register<Value> {
    if !Present(t, k.room, k.id) then Reg(s, k)
    else if !Present(s, k.room, k.id) then Reg(t, k)
    else MergeLww(Reg(s, k), Reg(t, k))
  }

  /** In a replica that holds just what the message leaves there. */
  function Alone(msg: Message): Store { Apply(map[], msg) }

  /** The tasks and registers of `s'` are those of `s` and `t` joined. */
  ghost predicate IsJoin(s': Store, s: Store, t: Store) {
    && (forall k :: Reg(s', k) == Joined(s, t, k))
    && (forall room, id :: Present(s', room, id) <==> Present(s, room, id) || Present(t, room, id))
  }

  /** When a join is the plain merge with a stub for an absent task: unless it takes over another value so stamped. */
  lemma JoinedIsMergeIff(s: Store, t: Store, k: Key)
    ensures Joined(s, t, k) == MergeLww(Reg(s, k), Reg(t, k))
      <==> Present(s, k.room, k.id) || Reg(t, k).At() != LEAST || Reg(t, k) == Bottom(k.field)
  {
    LeastIsLeast(Reg(s, k).At());
    LeastIsLeast(Reg(t, k).At());
  }

  /** Joining is associative. */
  lemma JoinAssociative(s: Store, t: Store, u: Store, st: Store, tu: Store, k: Key)
    requires IsJoin(st, s, t) && IsJoin(tu, t, u)
    ensures Joined(st, u, k) == Joined(s, tu, k)
  {
    MergeAssociative(Reg(s, k), Reg(t, k), Reg(u, k));
  }

  lemma PutIsJoin(s: Store, room: string, t: Task)
    ensures IsJoin(Put(s, room, t), s, Put(map[], room, t))
  {
    forall k ensures Reg(Put(s, room, t), k) == Joined(s, Put(map[], room, t), k) {
      PutRegister(s, room, t, k);
      PutRegister(map[], room, t, k);
    }
  }

  function Filing(s: Store, room: string, ts: seq<Task>): Store { s[room := MergeAll(RoomOf(s, room), ts)] }

  lemma {:induction false} FilingIsJoin(s: Store, room: string, ts: seq<Task>)
    ensures IsJoin(Filing(s, room, ts), s, Filing(map[], room, ts))
    decreases |ts|
  {
    if ts == [] {
    } else {
      var (s1, e1) := (Put(s, room, ts[0]), Put(map[], room, ts[0]));
      PutIsJoin(s, room, ts[0]);
      FilingIsJoin(s1, room, ts[1..]);
      FilingIsJoin(e1, room, ts[1..]);
      PutList(s, room, ts);
      PutList(map[], room, ts);
      forall k ensures Reg(Filing(s, room, ts), k) == Joined(s, Filing(map[], room, ts), k) {
        JoinAssociative(s, e1, Filing(map[], room, ts[1..]), s1, Filing(map[], room, ts), k);
      }
    }
  }

  lemma FieldIsJoin(s: Store, msg: Message)
    requires msg.FieldMessage?
    ensures IsJoin(Apply(s, msg), s, Alone(msg))
  {
    forall k ensures Reg(Apply(s, msg), k) == Joined(s, Alone(msg), k) {
      FieldRegister(s, msg, k);
      FieldRegister(map[], msg, k);
      LeastIsLeast(Reg(s, k).At());
    }
  }

  /** Whatever the replica and whatever the message. */
  lemma ApplyIsJoin(s: Store, msg: Message)
    ensures IsJoin(Apply(s, msg), s, Alone(msg))
  {
    match msg
    case FieldMessage(_, _, _) => FieldIsJoin(s, msg);
    case FullState(room, ts) => FilingIsJoin(s, room, ts);
    case RequestFullState(_) =>
  }
}
