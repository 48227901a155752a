/** One replica's task manager: local edits that return the message to broadcast, and remote merging. */
module TaskManagers {
  import opened Outcomes
  import opened Lww
  import opened Tasks
  import opened Snapshots

  datatype TaskError = TitleEmpty | TitleTooLong | RoomNotFound(room: string) | TaskNotFound(id: TaskId)

  // ---------- Local edits as functions of the store, the clock and the fresh id ----------

  function NewTask(peer: string, room: string, title: string, id: TaskId, now: nat): Task {
    Task(id, room, Register(title, now, peer), Register(Open, now, peer), Register(None, now, peer), now, peer)
  }

  function Create(s: Store, peer: string, room: string, title: string, id: TaskId, now: nat)
    : (Store, Result<(Task, Message), TaskError>)
  {
    if title == "" then (s, Err(TitleEmpty))
    else if |title| > MAX_TASK_TITLE_LENGTH then (s, Err(TitleTooLong))
    else
      var task := NewTask(peer, room, title, id, now);
      (s[room := RoomOf(s, room)[id := task]], Ok((task, FullState(room, [task]))))
  }

  /** A local edit overwrites the register whatever its stamp. */
  function Overwrite(t: Task, u: FieldUpdate): Task {
    match u
    case TitleUpdate(r) => t.(title := r)
    case StatusUpdate(r) => t.(status := r)
    case AssigneeUpdate(r) => t.(assignee := r)
  }

  function Edit(s: Store, room: string, id: TaskId, u: FieldUpdate): (Store, Result<Message, TaskError>) {
    if room !in s then (s, Err(RoomNotFound(room)))
    else if id !in s[room] then (s, Err(TaskNotFound(id)))
    else (s[room := s[room][id := Overwrite(s[room][id], u)]], Ok(FieldMessage(id, room, u)))
  }

  /**
   Where a local edit agrees with delivering its own broadcast: its stamp is above the register's,
   or it changes nothing. Otherwise the editor and the rest of the room disagree.
   */
  lemma EditIsDeliveryIff(s: Store, room: string, id: TaskId, u: FieldUpdate)
    requires Present(s, room, id)
    ensures var (after, msg) := Edit(s, room, id, u);
            var held := Reg(s, Key(room, id, UpdateField(u)));
      msg.Ok? && (after == Apply(s, msg.value) <==> Less(held.At(), u.At()) || held == UpdateReg(u))
  {
    var (after, msg) := Edit(s, room, id, u);
    var held := Reg(s, Key(room, id, UpdateField(u)));
    LessTrichotomy(held.At(), u.At());
    var merged := ApplyFieldUpdate(s[room][id], u).0;
    assert Apply(s, msg.value)[room][id] == merged;
    assert after[room][id] == Overwrite(s[room][id], u);
    assert merged == Overwrite(s[room][id], u) ==> after == Apply(s, msg.value);
    assert Overwrite(s[room][id], u) == merged <==> Less(held.At(), u.At()) || held == UpdateReg(u);
  }

  /** Creating under an id the room does not hold is the same as receiving the created task. */
  lemma CreateIsDelivery(s: Store, peer: string, room: string, title: string, id: TaskId, now: nat)
    requires 0 < |title| <= MAX_TASK_TITLE_LENGTH && !Present(s, room, id)
    ensures var (after, made) := Create(s, peer, room, title, id, now);
      made.Ok? && after == Apply(s, made.value.1)
  {
    var task := NewTask(peer, room, title, id, now);
    assert [task][1..] == [];
    assert MergeAll(RoomOf(s, room), [task]) == MergeAll(MergeOne(RoomOf(s, room), task), []);
  }

  /** Nothing but one task of one room differs. */
  ghost predicate OnlyTask(s: Store, s': Store, room: string, id: TaskId) {
    && (forall r :: r in s' <==> r in s || r == room)
    && (forall r, i :: (r, i) != (room, id) ==>
          && (Present(s', r, i) <==> Present(s, r, i))
          && (Present(s, r, i) ==> s'[r][i] == s[r][i]))
  }

  /**
   A created task is open, unassigned, titled as asked, and visible; all its registers are stamped with the clock and
   the local peer, who is its creator. It is what is stored, returned and broadcast; nothing else changes.
   */
  lemma CreatedTask(s: Store, peer: string, room: string, title: string, id: TaskId, now: nat)
    requires 0 < |title| <= 256
    ensures var (after, made) := Create(s, peer, room, title, id, now);
      && made.Ok? && Visible(after, room, id) && OnlyTask(s, after, room, id)
      && FieldOf(after[room][id], Title) == Register(Text(title), now, peer)
      && FieldOf(after[room][id], Status) == Register(State(Open), now, peer)
      && FieldOf(after[room][id], Assignee) == Register(Person(None), now, peer)
      && Origin(after[room][id]) == (id, room, now, peer)
      && made.value == (after[room][id], FullState(room, [after[room][id]]))
  {
  }

  /** An empty title and one beyond 256 characters are the only errors, and change nothing. */
  lemma CreateFailsIff(s: Store, peer: string, room: string, title: string, id: TaskId, now: nat)
    ensures var (after, made) := Create(s, peer, room, title, id, now);
      && (made == Err(TitleEmpty) <==> title == "")
      && (made == Err(TitleTooLong) <==> |title| > 256)
      && (made.Err? <==> title == "" || |title| > 256)
      && (made.Err? ==> after == s)
  {
  }

  /**
   An edit sets its own register, whatever that held, and broadcasts just that. Nothing else about the task changes,
   and no other task. A room or a task that is missing is an error, and changes nothing.
   */
  lemma EditedTask(s: Store, room: string, id: TaskId, u: FieldUpdate, f: Field)
    ensures var (after, msg) := Edit(s, room, id, u);
      && (msg == Err(RoomNotFound(room)) <==> room !in s)
      && (msg == Err(TaskNotFound(id)) <==> room in s && id !in s[room])
      && (msg.Err? ==> after == s)
    ensures var (after, msg) := Edit(s, room, id, u);
      Present(s, room, id) ==>
        && msg == Ok(FieldMessage(id, room, u)) && Present(after, room, id) && OnlyTask(s, after, room, id)
        && Origin(after[room][id]) == Origin(s[room][id])
        && FieldOf(after[room][id], f) == (if f == UpdateField(u) then UpdateReg(u) else FieldOf(s[room][id], f))
  {
  }

  predicate SortedByCreation(ts: seq<Task>) {
    forall i, j :: 0 <= i < j < |ts| ==> ts[i].createdAt <= ts[j].createdAt
  }

  predicate DistinctIds(ts: seq<Task>) {
    forall i, j :: 0 <= i < j < |ts| ==> ts[i].id != ts[j].id
  }

  /** Where a stable sort by creation time puts one more task. */
  function InsertionPoint(ts: seq<Task>, t: Task): (k: nat)
    ensures k <= |ts|
    ensures k > 0 ==> ts[k - 1].createdAt <= t.createdAt
    ensures forall i :: k <= i < |ts| ==> t.createdAt < ts[i].createdAt
  {
    var last := |ts| - 1;
    if ts == [] || ts[last].createdAt <= t.createdAt then |ts| else InsertionPoint(ts[..last], t)
  }

  function InsertByCreation(ts: seq<Task>, t: Task): seq<Task> {
    var k := InsertionPoint(ts, t);
    ts[..k] + [t] + ts[k..]
  }

  lemma InsertAdds(ts: seq<Task>, t: Task, u: Task)
    ensures u in InsertByCreation(ts, t) <==> u in ts || u == t
  {
    var k := InsertionPoint(ts, t);
    assert ts == ts[..k] + ts[k..];
  }

  lemma InsertKeepsSorted(ts: seq<Task>, t: Task)
    requires SortedByCreation(ts)
    ensures SortedByCreation(InsertByCreation(ts, t))
  {
    var k, r := InsertionPoint(ts, t), InsertByCreation(ts, t);
    forall i, j | 0 <= i < j < |r| ensures r[i].createdAt <= r[j].createdAt {
      if j == k && i < k {
        assert ts[i].createdAt <= ts[k - 1].createdAt;
      }
    }
  }

  lemma InsertKeepsDistinct(ts: seq<Task>, t: Task)
    requires DistinctIds(ts) && forall u :: u in ts ==> u.id != t.id
    ensures DistinctIds(InsertByCreation(ts, t))
  {
    var k, r := InsertionPoint(ts, t), InsertByCreation(ts, t);
    forall i, j | 0 <= i < j < |r| ensures r[i].id != r[j].id {
      if i == k {
        assert r[j] == ts[j - 1] && ts[j - 1] in ts;
      } else if j == k {
        assert r[i] == ts[i] && ts[i] in ts;
      }
    }
  }

  class TaskManager {
    var tasks: Store
    const localPeerId: string

    ghost predicate Valid() reads this { Filed(tasks) }

    constructor (localPeerId: string)
      ensures Valid() && tasks == map[] && this.localPeerId == localPeerId
    {
      this.localPeerId := localPeerId;
      tasks := map[];
    }

    method CreateTask(room: string, title: string, id: TaskId, now: nat) returns (r: Result<(Task, Message), TaskError>)
      requires Valid()
      modifies this
      ensures Valid() && (tasks, r) == Create(old(tasks), localPeerId, room, title, id, now)
    {
      if title == "" { return Err(TitleEmpty); }
      if |title| > MAX_TASK_TITLE_LENGTH { return Err(TitleTooLong); }
      var task := NewTask(localPeerId, room, title, id, now);
      if room !in tasks {
        tasks := tasks[room := map[]];
      }
      tasks := tasks[room := tasks[room][id := task]];
      assert tasks == old(tasks)[room := RoomOf(old(tasks), room)[id := task]];
      r := Ok((task, FullState(room, [task])));
    }

    method EditTask(room: string, id: TaskId, u: FieldUpdate) returns (r: Result<Message, TaskError>)
      requires Valid()
      modifies this
      ensures Valid() && (tasks, r) == Edit(old(tasks), room, id, u)
    {
      if room !in tasks { return Err(RoomNotFound(room)); }
      if id !in tasks[room] { return Err(TaskNotFound(id)); }
      tasks := tasks[room := tasks[room][id := Overwrite(tasks[room][id], u)]];
      r := Ok(FieldMessage(id, room, u));
    }

    method UpdateStatus(room: string, id: TaskId, status: TaskStatus, now: nat) returns (r: Result<Message, TaskError>)
      requires Valid()
      modifies this
      ensures Valid() && (tasks, r) == Edit(old(tasks), room, id, StatusUpdate(Register(status, now, localPeerId)))
    {
      r := EditTask(room, id, StatusUpdate(Register(status, now, localPeerId)));
    }

    method UpdateAssignee(room: string, id: TaskId, who: Option<string>, now: nat)
      returns (r: Result<Message, TaskError>)
      requires Valid()
      modifies this
      ensures Valid() && (tasks, r) == Edit(old(tasks), room, id, AssigneeUpdate(Register(who, now, localPeerId)))
    {
      r := EditTask(room, id, AssigneeUpdate(Register(who, now, localPeerId)));
    }

    /** Deletion is a status write; the task stays in the store as a tombstone. */
    method DeleteTask(room: string, id: TaskId, now: nat) returns (r: Result<Message, TaskError>)
      requires Valid()
      modifies this
      ensures Valid() && (tasks, r) == Edit(old(tasks), room, id, StatusUpdate(Register(Deleted, now, localPeerId)))
      ensures r.Ok? ==> Present(tasks, room, id) && !Visible(tasks, room, id)
    {
      r := UpdateStatus(room, id, Deleted, now);
    }

    method ApplyRemote(msg: Message)
      requires Valid()
      modifies this
      ensures Valid() && tasks == Apply(old(tasks), msg)
    {
      ghost var before := tasks;
      match msg
      case FieldMessage(id, room, update) =>
        if room !in tasks { tasks := tasks[room := map[]]; }
        var task := if id in tasks[room] then tasks[room][id] else StubTask(id, room, update.At());
        FieldUpdateIsMerge(task, update, Title);
        tasks := tasks[room := tasks[room][id := ApplyFieldUpdate(task, update).0]];
      case FullState(room, remote) =>
        if room !in tasks { tasks := tasks[room := map[]]; }
        var merged := MergeTaskList(tasks[room], remote);
        MergeAllFiled(tasks[room], remote);
        tasks := tasks[room := merged];
      case RequestFullState(_) =>
    }

    /** Exactly the visible tasks of the room, each once, oldest first. */
    method GetTasks(room: string) returns (ts: seq<Task>)
      requires Valid()
      ensures SortedByCreation(ts) && DistinctIds(ts)
      ensures forall t :: t in ts <==> Visible(tasks, room, t.id) && tasks[room][t.id] == t
    {
      ts := [];
      if room !in tasks { return; }
      var rest := tasks[room].Keys;
      while rest != {}
        invariant rest <= tasks[room].Keys
        invariant SortedByCreation(ts) && DistinctIds(ts)
        invariant forall t :: t in ts <==> Visible(tasks, room, t.id) && tasks[room][t.id] == t && t.id !in rest
        decreases |rest|
      {
        var id :| id in rest;
        var task := tasks[room][id];
        if task.status.value != Deleted {
          InsertKeepsSorted(ts, task);
          InsertKeepsDistinct(ts, task);
          forall u { InsertAdds(ts, task, u); }
          ts := InsertByCreation(ts, task);
        }
        rest := rest - {id};
      }
    }

    /** The snapshot of a room, if it has any task: every task once, tombstones included. */
    method BuildFullState(room: string) returns (msg: Option<Message>)
      requires Valid()
      ensures IsSnapshot(tasks, room, msg)
      ensures msg.Some? ==> DistinctIds(msg.value.tasks)
    {
      if room !in tasks || tasks[room] == map[] { return None; }
      var ts: seq<Task> := [];
      var rest := tasks[room].Keys;
      while rest != {}
        invariant rest <= tasks[room].Keys && DistinctIds(ts)
        invariant forall t :: t in ts <==> t.id in tasks[room] && tasks[room][t.id] == t && t.id !in rest
        decreases |rest|
      {
        var id :| id in rest;
        ts := ts + [tasks[room][id]];
        rest := rest - {id};
      }
      msg := Some(FullState(room, ts));
    }
  }

  lemma {:induction false} MergeAllFiled(local: TaskMap, remote: seq<Task>)
    requires forall id :: id in local ==> local[id].id == id
    ensures forall id :: id in MergeAll(local, remote) ==> MergeAll(local, remote)[id].id == id
    decreases |remote|
  {
    if remote == [] {
    } else {
      MergeAllFiled(MergeOne(local, remote[0]), remote[1..]);
    }
  }
}
