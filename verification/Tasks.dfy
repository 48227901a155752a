/**
 The shared task list as a value: tasks, sync messages, and what applying a message does.
 A replica holds, for every room, a map from task ids to tasks of three registers.
 */
module Tasks {
  import opened Outcomes
  import opened Lww

  const MAX_TASK_TITLE_LENGTH := 256

  /** A time-ordered unique identifier. */
  datatype TaskId = TaskId(uuid: nat)

  datatype TaskStatus = Open | InProgress | Completed | Deleted

  datatype Task = Task(
    id: TaskId,
    roomId: string,
    title: Register<string>,
    status: Register<TaskStatus>,
    assignee: Register<Option<string>>,
    createdAt: nat,
    createdBy: string)

  datatype FieldUpdate =
    | TitleUpdate(title: Register<string>)
    | StatusUpdate(status: Register<TaskStatus>)
    | AssigneeUpdate(assignee: Register<Option<string>>)
  {
    function At(): Stamp {
      match this
      case TitleUpdate(r) => r.At()
      case StatusUpdate(r) => r.At()
      case AssigneeUpdate(r) => r.At()
    }
  }

  datatype Message =
    | FieldMessage(taskId: TaskId, roomId: string, update: FieldUpdate)
    | FullState(roomId: string, tasks: seq<Task>)
    | RequestFullState(roomId: string)

  type TaskMap = map<TaskId, Task>

  type Store = map<string, TaskMap>

  // ---------- Merging ----------

  function MergeTask(local: Task, remote: Task): Task {
    local.(title := MergeLww(local.title, remote.title),
           status := MergeLww(local.status, remote.status),
           assignee := MergeLww(local.assignee, remote.assignee))
  }

  /** One remote task into a task map: merge when known, add when new. */
  function MergeOne(local: TaskMap, remote: Task): TaskMap {
    local[remote.id := if remote.id in local then MergeTask(local[remote.id], remote) else remote]
  }

  function MergeAll(local: TaskMap, remote: seq<Task>): TaskMap
    decreases |remote|
  {
    if remote == [] then local else MergeAll(MergeOne(local, remote[0]), remote[1..])
  }

  /** The loop over the remote list. */
  method MergeTaskList(local: TaskMap, remote: seq<Task>) returns (merged: TaskMap)
    ensures merged == MergeAll(local, remote)
  {
    merged := local;
    var i := 0;
    while i < |remote|
      invariant 0 <= i <= |remote|
      invariant MergeAll(merged, remote[i..]) == MergeAll(local, remote)
    {
      var task := remote[i];
      if task.id in merged {
        merged := merged[task.id := MergeTask(merged[task.id], task)];
      } else {
        merged := merged[task.id := task];
      }
      assert remote[i..][1..] == remote[i + 1..];
      i := i + 1;
    }
  }

  /** The merged register is stored, and reported as applied, when it carries the update's stamp. */
  function ApplyFieldUpdate(task: Task, update: FieldUpdate): (Task, bool) {
    match update
    case TitleUpdate(reg) =>
      var merged := MergeLww(task.title, reg);
      if merged.At() == reg.At() then (task.(title := merged), true) else (task, false)
    case StatusUpdate(reg) =>
      var merged := MergeLww(task.status, reg);
      if merged.At() == reg.At() then (task.(status := merged), true) else (task, false)
    case AssigneeUpdate(reg) =>
      var merged := MergeLww(task.assignee, reg);
      if merged.At() == reg.At() then (task.(assignee := merged), true) else (task, false)
  }

  function StubTask(id: TaskId, roomId: string, at: Stamp): Task {
    Task(id, roomId, Register("", 0, ""), Register(Open, 0, ""), Register(None, 0, ""),
         at.timestamp, at.author)
  }

  function RoomOf(s: Store, room: string): TaskMap {
    if room in s then s[room] else map[]
  }

  /** What a replica holds after a remote message; any message but a request creates its room. */
  function Apply(s: Store, msg: Message): Store {
    match msg
    case FieldMessage(id, room, update) =>
      var tasks := RoomOf(s, room);
      var task := if id in tasks then tasks[id] else StubTask(id, room, update.At());
      s[room := tasks[id := ApplyFieldUpdate(task, update).0]]
    case FullState(room, remote) =>
      s[room := MergeAll(RoomOf(s, room), remote)]
    case RequestFullState(_) => s
  }

  function ApplyAll(s: Store, msgs: seq<Message>): Store
    decreases |msgs|
  {
    if msgs == [] then s else ApplyAll(Apply(s, msgs[0]), msgs[1..])
  }

  // ---------- Registers, seen uniformly ----------

  datatype Field = Title | Status | Assignee

  datatype Value = Text(text: string) | State(status: TaskStatus) | Person(person: Option<string>)

  datatype Key = Key(room: string, id: TaskId, field: Field)

  /** One register write, as carried by a message. */
  datatype Write = Write(key: Key, reg: Register<Value>)

  /** What a stub holds in a field; a task that is absent counts as a stub. */
  function Bottom(f: Field): Register<Value> {
    match f
    case Title => Register(Text(""), 0, "")
    case Status => Register(State(Open), 0, "")
    case Assignee => Register(Person(None), 0, "")
  }

  function FieldOf(t: Task, f: Field): Register<Value> {
    match f
    case Title => Register(Text(t.title.value), t.title.timestamp, t.title.author)
    case Status => Register(State(t.status.value), t.status.timestamp, t.status.author)
    case Assignee => Register(Person(t.assignee.value), t.assignee.timestamp, t.assignee.author)
  }

  predicate Present(s: Store, room: string, id: TaskId) {
    room in s && id in s[room]
  }

  function Reg(s: Store, k: Key): Register<Value> {
    if Present(s, k.room, k.id) then FieldOf(s[k.room][k.id], k.field) else Bottom(k.field)
  }

  function UpdateField(u: FieldUpdate): Field {
    match u
    case TitleUpdate(_) => Title
    case StatusUpdate(_) => Status
    case AssigneeUpdate(_) => Assignee
  }

  function UpdateReg(u: FieldUpdate): Register<Value> {
    match u
    case TitleUpdate(r) => Register(Text(r.value), r.timestamp, r.author)
    case StatusUpdate(r) => Register(State(r.value), r.timestamp, r.author)
    case AssigneeUpdate(r) => Register(Person(r.value), r.timestamp, r.author)
  }

  function TaskWrites(room: string, t: Task): set<Write> {
    set f: Field :: Write(Key(room, t.id, f), FieldOf(t, f))
  }

  function ListWrites(room: string, ts: seq<Task>): set<Write> {
    set t, w | t in ts && w in TaskWrites(room, t) :: w
  }

  function Writes(msg: Message): set<Write> {
    match msg
    case FieldMessage(id, room, update) => {Write(Key(room, id, UpdateField(update)), UpdateReg(update))}
    case FullState(room, tasks) => ListWrites(room, tasks)
    case RequestFullState(_) => {}
  }

  function Ids(ws: set<Write>): set<(string, TaskId)> {
    set w | w in ws :: (w.key.room, w.key.id)
  }

  /** Every task is filed under its own id. */
  ghost predicate Filed(s: Store) {
    forall room, id :: Present(s, room, id) ==> s[room][id].id == id
  }

  // ---------- Field updates ----------

  /**
   A field update merges its own register, touches nothing else, and reports true exactly
   when the stored register is not newer -- so also for an equal stamp that changes nothing.
   */
  lemma FieldUpdateIsMerge(task: Task, update: FieldUpdate, f: Field)
    ensures var (after, applied) := ApplyFieldUpdate(task, update);
      && after.id == task.id
      && FieldOf(after, f)
         == (if f == UpdateField(update) then MergeLww(FieldOf(task, f), UpdateReg(update)) else FieldOf(task, f))
      && (applied <==> !Less(update.At(), FieldOf(task, UpdateField(update)).At()))
  {
    LessTrichotomy(update.At(), FieldOf(task, UpdateField(update)).At());
  }

  // ---------- What messages leave alone ----------

  /** Everything about a task but its three registers. */
  function Origin(t: Task): (TaskId, string, nat, string) { (t.id, t.roomId, t.createdAt, t.createdBy) }

  lemma MergeKeepsOrigin(local: Task, remote: Task)
    ensures Origin(MergeTask(local, remote)) == Origin(local)
  {
  }

  lemma {:induction false} ListKeepsOrigin(local: TaskMap, remote: seq<Task>, id: TaskId)
    requires id in local
    ensures id in MergeAll(local, remote) && Origin(MergeAll(local, remote)[id]) == Origin(local[id])
    decreases |remote|
  {
    if remote == [] {
    } else {
      ListKeepsOrigin(MergeOne(local, remote[0]), remote[1..], id);
    }
  }

  lemma {:induction false} ListKeepsUnlisted(local: TaskMap, remote: seq<Task>, id: TaskId)
    requires forall t :: t in remote ==> t.id != id
    ensures id in MergeAll(local, remote) <==> id in local
    ensures id in local ==> MergeAll(local, remote)[id] == local[id]
    decreases |remote|
  {
    if remote == [] {
    } else {
      assert remote[0] in remote;
      ListKeepsUnlisted(MergeOne(local, remote[0]), remote[1..], id);
    }
  }

  /** Whether a message says anything about a task. */
  predicate Concerns(msg: Message, room: string, id: TaskId) {
    match msg
    case FieldMessage(i, r, _) => r == room && i == id
    case FullState(r, tasks) => r == room && exists t :: t in tasks && t.id == id
    case RequestFullState(_) => false
  }

  /**
   No message changes where and when a task that is there was created, and by whom. Tasks it says nothing about stay
   just as they are. Any message but a request opens its room, and no other.
   */
  lemma ApplyKeepsRest(s: Store, msg: Message, room: string, id: TaskId)
    ensures Present(s, room, id) ==>
      Present(Apply(s, msg), room, id) && Origin(Apply(s, msg)[room][id]) == Origin(s[room][id])
    ensures !Concerns(msg, room, id) ==>
      && (Present(Apply(s, msg), room, id) <==> Present(s, room, id))
      && (Present(s, room, id) ==> Apply(s, msg)[room][id] == s[room][id])
    ensures room in Apply(s, msg) <==> room in s || (!msg.RequestFullState? && room == msg.roomId)
  {
    match msg
    case FieldMessage(i, r, update) =>
      if Present(s, r, i) { FieldUpdateIsMerge(s[r][i], update, Title); }
    case FullState(r, tasks) =>
      if r == room {
        if id in RoomOf(s, r) { ListKeepsOrigin(RoomOf(s, r), tasks, id); }
        if !Concerns(msg, room, id) { ListKeepsUnlisted(RoomOf(s, r), tasks, id); }
      }
    case RequestFullState(_) =>
  }

  /** A task first heard of by a field update is a stub: created as the update is stamped, otherwise at the bottom. */
  lemma StubIsCreated(s: Store, msg: Message, f: Field)
    requires msg.FieldMessage? && !Present(s, msg.roomId, msg.taskId)
    ensures var (s', at) := (Apply(s, msg), msg.update.At());
      && Present(s', msg.roomId, msg.taskId)
      && Origin(s'[msg.roomId][msg.taskId]) == (msg.taskId, msg.roomId, at.timestamp, at.author)
      && (f != UpdateField(msg.update) ==> FieldOf(s'[msg.roomId][msg.taskId], f) == Bottom(f))
  {
    FieldUpdateIsMerge(StubTask(msg.taskId, msg.roomId, msg.update.At()), msg.update, f);
  }
}
