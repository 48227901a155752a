/** Local rooms: names, members with capacities, join requests, queued registrations, and the log of events. */
module Rooms {
  import opened Counting
  import opened Outcomes

  const MAX_ROOMS := 64
  const MAX_MEMBERS := 256
  const MAX_NAME_LEN := 64

  datatype RoomError =
    | NameEmpty | NameTooLong | NameInvalidChars | DuplicateName(name: string) | RoomLimitReached
    | RoomNotFound(roomId: string) | NotAdmin(adminOf: string) | RoomFull | MemberNotFound(peerId: string)

  datatype MemberInfo = MemberInfo(peerId: string, displayName: string, isAdmin: bool, isAgent: bool)

  datatype Room = Room(roomId: string, name: string, members: seq<MemberInfo>, isAdmin: bool, createdAt: nat)

  datatype RoomEvent =
    | RoomCreated(roomId: string, name: string)
    | JoinRequestReceived(roomId: string, peerId: string, displayName: string)
    | MemberJoined(roomId: string, peerId: string, displayName: string)
    | MemberDenied(roomId: string, peerId: string)
    | MemberLeft(roomId: string, peerId: string, displayName: string)

  datatype Registration = Registration(roomId: string, name: string, adminPeerId: string)

  type Requests = seq<(string, string)>   // peer id and display name

  datatype State = State(
    rooms: map<string, Room>,
    requests: map<string, Requests>,
    registrations: seq<string>,
    events: seq<RoomEvent>,
    creators: map<string, string>)   // who created each room

  // ---------- Names ----------

  /** Unicode category Cc. */
  predicate IsControl(c: char) { c as int < 0x20 || 0x7F <= c as int <= 0x9F }

  /** Unicode property White_Space. */
  predicate IsWhitespace(c: char) {
    var n := c as int;
    || 0x09 <= n <= 0x0D || 0x2000 <= n <= 0x200A
    || n in {0x20, 0x85, 0xA0, 0x1680, 0x2028, 0x2029, 0x202F, 0x205F, 0x3000}
  }

  function StripControl(s: string): string {
    if s == "" then "" else (if IsControl(s[0]) then "" else [s[0]]) + StripControl(s[1..])
  }

  function TrimStart(s: string): string {
    if s != "" && IsWhitespace(s[0]) then TrimStart(s[1..]) else s
  }

  function TrimEnd(s: string): string {
    if s != "" && IsWhitespace(s[|s| - 1]) then TrimEnd(s[..|s| - 1]) else s
  }

  function Sanitized(s: string): string { TrimEnd(TrimStart(StripControl(s))) }

  function ValidateRoomName(name: string): Result<string, RoomError> {
    if name == "" then Err(NameEmpty)
    else if |name| > MAX_NAME_LEN then Err(NameTooLong)
    else if Sanitized(name) == "" then Err(NameInvalidChars)
    else Ok(Sanitized(name))
  }

  /** Nothing left to strip or trim. */
  predicate Clean(s: string) {
    && (forall c :: c in s ==> !IsControl(c))
    && (s != "" ==> !IsWhitespace(s[0]) && !IsWhitespace(s[|s| - 1]))
  }

  lemma {:induction false} StripControlClean(s: string)
    ensures forall c :: c in StripControl(s) <==> c in s && !IsControl(c)
    ensures |StripControl(s)| <= |s|
    ensures (forall c :: c in s ==> !IsControl(c)) ==> StripControl(s) == s
  {
    if s == "" {
    } else {
      StripControlClean(s[1..]);
      assert s == [s[0]] + s[1..];
    }
  }

  lemma {:induction false} TrimStartClean(s: string)
    ensures var t := TrimStart(s);
      |t| <= |s| && t == s[|s| - |t|..] && (t != "" ==> !IsWhitespace(t[0]))
  {
    if s != "" && IsWhitespace(s[0]) { TrimStartClean(s[1..]); }
  }

  lemma {:induction false} TrimEndClean(s: string)
    ensures var t := TrimEnd(s);
      |t| <= |s| && t == s[..|t|] && (t != "" ==> !IsWhitespace(t[|t| - 1]))
  {
    if s != "" && IsWhitespace(s[|s| - 1]) { TrimEndClean(s[..|s| - 1]); }
  }

  lemma SanitizedClean(s: string)
    ensures Clean(Sanitized(s)) && |Sanitized(s)| <= |s|
  {
    StripControlClean(s);
    TrimStartClean(StripControl(s));
    TrimEndClean(TrimStart(StripControl(s)));
  }

  lemma CleanIsSanitized(s: string)
    requires Clean(s)
    ensures Sanitized(s) == s
  {
    StripControlClean(s);
  }

  /** Stripping drops the control characters and keeps all others, in their order. */
  lemma {:induction false} StripKeepsOthers(s: string)
    ensures Subsequence(StripControl(s), s)
    ensures forall c: char :: Count(StripControl(s), c) == if IsControl(c) then 0 else Count(s, c)
  {
    if s == "" {
    } else {
      var rest := StripControl(s[1..]);
      StripKeepsOthers(s[1..]);
      SubsequenceCons(rest, s[1..], s[0]);
      assert s == [s[0]] + s[1..] && [] + rest == rest;
      forall c: char ensures Count(StripControl(s), c) == if IsControl(c) then 0 else Count(s, c) {
        CountHead(s, c);
        CountJoin([s[0]], rest, c);
        CountAppend([], s[0], c);
        assert [] + [s[0]] == [s[0]];
      }
    }
  }

  /** Trimming drops nothing but blanks. */
  lemma {:induction false} TrimStartDropsBlanks(s: string, i: nat)
    requires i < |s| - |TrimStart(s)|
    ensures IsWhitespace(s[i])
  {
    TrimStartClean(s);
    if i > 0 {
      TrimStartClean(s[1..]);
      TrimStartDropsBlanks(s[1..], i - 1);
    }
  }

  lemma {:induction false} TrimEndDropsBlanks(s: string, i: nat)
    requires |TrimEnd(s)| <= i < |s|
    ensures IsWhitespace(s[i])
  {
    TrimEndClean(s);
    if i < |s| - 1 { TrimEndDropsBlanks(s[..|s| - 1], i); }
  }

  predicate AllWhite(s: string) { forall i :: 0 <= i < |s| ==> IsWhitespace(s[i]) }

  predicate AllBlank(s: string) { forall i :: 0 <= i < |s| ==> IsControl(s[i]) || IsWhitespace(s[i]) }

  lemma TrimmedAwayIff(s: string)
    ensures TrimEnd(TrimStart(s)) == "" <==> AllWhite(s)
  {
    var t := TrimStart(s);
    TrimStartClean(s);
    TrimEndClean(t);
    assert t != "" ==> t[0] == s[|s| - |t|];
    if TrimEnd(t) == "" {
      forall i | 0 <= i < |s| ensures IsWhitespace(s[i]) {
        if i < |s| - |t| { TrimStartDropsBlanks(s, i); } else { TrimEndDropsBlanks(t, i - (|s| - |t|)); }
      }
    }
  }

  lemma StripControlBlank(s: string)
    ensures AllWhite(StripControl(s)) <==> AllBlank(s)
  {
    var t := StripControl(s);
    StripControlClean(s);
    if AllWhite(t) {
      forall i | 0 <= i < |s| && !IsControl(s[i]) ensures IsWhitespace(s[i]) {
        assert s[i] in t;
      }
    }
    if AllBlank(s) {
      forall i | 0 <= i < |t| ensures IsWhitespace(t[i]) {
        assert t[i] in t && t[i] in s;
      }
    }
  }

  /** Nothing is left exactly of what is all control characters and blanks. */
  lemma SanitizedEmptyIff(s: string)
    ensures Sanitized(s) == "" <==> AllBlank(s)
  {
    TrimmedAwayIff(StripControl(s));
    StripControlBlank(s);
  }

  /** A name is refused for being empty, for more than 64 characters, or for being all blank; not otherwise. */
  lemma NameRefusedIff(name: string)
    ensures var r := ValidateRoomName(name);
      && (r == Err(NameEmpty) <==> name == "")
      && (r == Err(NameTooLong) <==> |name| > 64)
      && (r == Err(NameInvalidChars) <==> 0 < |name| <= 64 && AllBlank(name))
      && (r.Ok? <==> 0 < |name| <= 64 && !AllBlank(name))
      && (r.Ok? ==> r.value == Sanitized(name))
  {
    SanitizedEmptyIff(name);
  }

  /** An accepted name is clean, neither empty nor too long, and validating it again changes nothing. */
  lemma ValidNameIsStable(name: string)
    requires ValidateRoomName(name).Ok?
    ensures var valid := ValidateRoomName(name).value;
      && Clean(valid) && 0 < |valid| <= MAX_NAME_LEN && ValidateRoomName(valid) == Ok(valid)
  {
    SanitizedClean(name);
    CleanIsSanitized(Sanitized(name));
  }

  // ---------- Operations as functions of the state ----------

  predicate IsMember(members: seq<MemberInfo>, peer: string) {
    exists i :: 0 <= i < |members| && members[i].peerId == peer
  }

  /** The position of the first member with this peer id. */
  function Position(members: seq<MemberInfo>, peer: string): (i: nat)
    requires IsMember(members, peer)
    ensures i < |members| && members[i].peerId == peer && forall j :: 0 <= j < i ==> members[j].peerId != peer
  {
    if members[0].peerId == peer then 0 else 1 + Position(members[1..], peer)
  }

  /** The display name in the first pending request of this peer, else the peer id itself. */
  function RequestedName(queue: Requests, peer: string): string {
    if queue == [] then peer else if queue[0].0 == peer then queue[0].1 else RequestedName(queue[1..], peer)
  }

  function WithoutPeer(queue: Requests, peer: string): Requests {
    if queue == [] then []
    else
      var last := queue[|queue| - 1];
      WithoutPeer(queue[..|queue| - 1], peer) + (if last.0 == peer then [] else [last])
  }

  function WithoutFirst(queue: Requests, peer: string): Requests {
    if queue == [] then [] else if queue[0].0 == peer then queue[1..] else [queue[0]] + WithoutFirst(queue[1..], peer)
  }

  function QueueOf(s: State, id: string): Requests { if id in s.requests then s.requests[id] else [] }

  predicate NameTaken(rooms: map<string, Room>, name: string) {
    exists id :: id in rooms && rooms[id].name == name
  }

  function Create(s: State, name: string, admin: string, adminName: string, id: string, now: nat)
    : (State, Result<Room, RoomError>)
  {
    var valid := ValidateRoomName(name);
    if valid.Err? then (s, Err(valid.error))
    else if NameTaken(s.rooms, valid.value) then (s, Err(DuplicateName(valid.value)))
    else if |s.rooms| >= MAX_ROOMS then (s, Err(RoomLimitReached))
    else
      var room := Room(id, valid.value, [MemberInfo(admin, adminName, true, false)], true, now);
      (s.(rooms := s.rooms[id := room],
          events := s.events + [RoomCreated(id, valid.value)],
          creators := s.creators[id := admin]),
       Ok(room))
  }

  function AdminRoom(s: State, id: string): Result<Room, RoomError> {
    if id !in s.rooms then Err(RoomNotFound(id))
    else if !s.rooms[id].isAdmin then Err(NotAdmin(id))
    else Ok(s.rooms[id])
  }

  function RequestJoin(s: State, id: string, peer: string, name: string): (State, Result<(), RoomError>) {
    var room := AdminRoom(s, id);
    if room.Err? then (s, Err(room.error))
    else
      (s.(requests := s.requests[id := QueueOf(s, id) + [(peer, name)]],
          events := s.events + [JoinRequestReceived(id, peer, name)]), Ok(()))
  }

  /** Admit a member at the end of a room's list. */
  function Join(s: State, id: string, member: MemberInfo): State
    requires id in s.rooms
  {
    var room := s.rooms[id];
    s.(rooms := s.rooms[id := room.(members := room.members + [member])],
       events := s.events + [MemberJoined(id, member.peerId, member.displayName)])
  }

  function Approve(s: State, id: string, peer: string): (State, Result<(MemberInfo, seq<MemberInfo>), RoomError>) {
    var room := AdminRoom(s, id);
    if room.Err? then (s, Err(room.error))
    else
      var members := room.value.members;
      if IsMember(members, peer) then (s, Ok((members[Position(members, peer)], members)))
      else if |members| >= MAX_MEMBERS then (s, Err(RoomFull))
      else
        var member := MemberInfo(peer, RequestedName(QueueOf(s, id), peer), false, false);
        var requests := if id in s.requests then s.requests[id := WithoutPeer(s.requests[id], peer)] else s.requests;
        (Join(s.(requests := requests), id, member), Ok((member, members + [member])))
  }

  function Deny(s: State, id: string, peer: string): (State, Result<string, RoomError>) {
    var room := AdminRoom(s, id);
    if room.Err? then (s, Err(room.error))
    else
      var requests := if id in s.requests then s.requests[id := WithoutFirst(s.requests[id], peer)] else s.requests;
      (s.(requests := requests, events := s.events + [MemberDenied(id, peer)]), Ok(RequestedName(QueueOf(s, id), peer)))
  }

  function Add(s: State, id: string, member: MemberInfo): (State, Result<seq<MemberInfo>, RoomError>) {
    if id !in s.rooms then (s, Err(RoomNotFound(id)))
    else
      var members := s.rooms[id].members;
      if IsMember(members, member.peerId) then (s, Ok(members))
      else if |members| >= MAX_MEMBERS then (s, Err(RoomFull))
      else (Join(s, id, member), Ok(members + [member]))
  }

  function Remove(s: State, id: string, peer: string): (State, Result<MemberInfo, RoomError>) {
    if id !in s.rooms then (s, Err(RoomNotFound(id)))
    else
      var room := s.rooms[id];
      if !IsMember(room.members, peer) then (s, Err(MemberNotFound(peer)))
      else
        var i := Position(room.members, peer);
        (s.(rooms := s.rooms[id := room.(members := room.members[..i] + room.members[i + 1..])],
            events := s.events + [MemberLeft(id, peer, room.members[i].displayName)]),
         Ok(room.members[i]))
  }

  predicate HasAdmin(members: seq<MemberInfo>) {
    exists i :: 0 <= i < |members| && members[i].isAdmin
  }

  function FirstAdmin(members: seq<MemberInfo>): (i: nat)
    requires HasAdmin(members)
    ensures i < |members| && members[i].isAdmin && forall j :: 0 <= j < i ==> !members[j].isAdmin
  {
    if members[0].isAdmin then 0 else 1 + FirstAdmin(members[1..])
  }

  /** The registration due for a queued room id; none for a room unknown or left without an admin. */
  function DueFor(rooms: map<string, Room>, id: string): seq<Registration> {
    if id in rooms && HasAdmin(rooms[id].members)
    then [Registration(id, rooms[id].name, rooms[id].members[FirstAdmin(rooms[id].members)].peerId)]
    else []
  }

  /** The registrations due for queued room ids. */
  function Registrations(rooms: map<string, Room>, ids: seq<string>): seq<Registration> {
    if ids == [] then [] else DueFor(rooms, ids[0]) + Registrations(rooms, ids[1..])
  }

  // ---------- What each operation comes to ----------

  /** All rooms but one are as they were. */
  ghost predicate OtherRooms(s: State, s': State, id: string) {
    forall k :: k != id ==> (k in s'.rooms <==> k in s.rooms) && (k in s.rooms ==> s'.rooms[k] == s.rooms[k])
  }

  /** Creating gives a room under its sanitized name, with its creator as sole member and admin, and announces it. */
  lemma CreatedRoom(s: State, name: string, admin: string, adminName: string, id: string, now: nat)
    requires Create(s, name, admin, adminName, id, now).1.Ok?
    ensures var (s', r) := Create(s, name, admin, adminName, id, now);
      && r.value.name == Sanitized(name) && r.value.roomId == id && r.value.isAdmin && r.value.createdAt == now
      && r.value.members == [MemberInfo(admin, adminName, true, false)]
      && id in s'.rooms && s'.rooms[id] == r.value && OtherRooms(s, s', id)
      && s'.events == s.events + [RoomCreated(id, r.value.name)]
      && s'.requests == s.requests && s'.registrations == s.registrations
  {
  }

  /** It is refused for its name, for a name in use, or at 64 rooms, in this order; then nothing changes. */
  lemma CreateFailsIff(s: State, name: string, admin: string, adminName: string, id: string, now: nat)
    ensures var (s', r) := Create(s, name, admin, adminName, id, now);
            var taken := exists k :: k in s.rooms && s.rooms[k].name == Sanitized(name);
            var valid := ValidateRoomName(name);
      && (valid.Err? ==> r == Err(valid.error))
      && (valid.Ok? && taken ==> r == Err(DuplicateName(Sanitized(name))))
      && (valid.Ok? && !taken && |s.rooms| >= 64 ==> r == Err(RoomLimitReached))
      && (valid.Ok? && !taken && |s.rooms| < 64 ==> r.Ok?)
      && (r.Err? ==> s' == s)
  {
    NameRefusedIff(name);
  }

  /** What keeps the local user from acting as a room's admin. */
  lemma AdminRoomIff(s: State, id: string)
    ensures var r := AdminRoom(s, id);
      && (r == Err(RoomNotFound(id)) <==> id !in s.rooms)
      && (r == Err(NotAdmin(id)) <==> id in s.rooms && !s.rooms[id].isAdmin)
      && (r.Ok? <==> id in s.rooms && s.rooms[id].isAdmin)
      && (r.Ok? ==> r.value == s.rooms[id])
  {
  }

  /** A join request waits behind the room's others and is announced; refused, it leaves no trace. */
  lemma RequestIsQueued(s: State, id: string, peer: string, name: string)
    ensures var ((s', r), admin) := (RequestJoin(s, id, peer, name), AdminRoom(s, id));
      && (admin.Err? ==> s' == s && r == Err(admin.error))
      && (admin.Ok? ==>
            && r == Ok(()) && QueueOf(s', id) == QueueOf(s, id) + [(peer, name)]
            && s'.events == s.events + [JoinRequestReceived(id, peer, name)]
            && (forall k :: k != id ==> QueueOf(s', k) == QueueOf(s, k))
            && s'.rooms == s.rooms && s'.registrations == s.registrations)
  {
  }

  /** A newcomer is appended, returned and announced, as an ordinary member under the name it gave. */
  lemma ApprovedMember(s: State, id: string, peer: string)
    requires id in s.rooms && s.rooms[id].isAdmin && !IsMember(s.rooms[id].members, peer) && |s.rooms[id].members| < 256
    ensures var ((s', r), before) := (Approve(s, id, peer), s.rooms[id]);
            var newcomer := MemberInfo(peer, RequestedName(QueueOf(s, id), peer), false, false);
      && r == Ok((newcomer, before.members + [newcomer]))
      && id in s'.rooms && s'.rooms[id] == before.(members := before.members + [newcomer]) && OtherRooms(s, s', id)
      && s'.events == s.events + [MemberJoined(id, peer, newcomer.displayName)]
      && s'.registrations == s.registrations
  {
  }

  /** Otherwise nothing changes: no such room, not the admin, already a member, or 256 members, in this order. */
  lemma ApproveElse(s: State, id: string, peer: string)
    ensures var ((s', r), admin) := (Approve(s, id, peer), AdminRoom(s, id));
      && (admin.Err? ==> s' == s && r == Err(admin.error))
      && (admin.Ok? ==>
            var members := s.rooms[id].members;
            && (IsMember(members, peer) ==>
                  s' == s && r.Ok? && r.value.1 == members && r.value.0 in members && r.value.0.peerId == peer)
            && (!IsMember(members, peer) && |members| >= 256 ==> s' == s && r == Err(RoomFull)))
  {
  }

  /** A denial is announced; refused, it leaves no trace. */
  lemma DenialIsAnnounced(s: State, id: string, peer: string)
    ensures var ((s', r), admin) := (Deny(s, id, peer), AdminRoom(s, id));
      && (admin.Err? ==> s' == s && r == Err(admin.error))
      && (admin.Ok? ==>
            && r.Ok? && s'.events == s.events + [MemberDenied(id, peer)]
            && (forall k :: k != id ==> QueueOf(s', k) == QueueOf(s, k))
            && s'.rooms == s.rooms && s'.registrations == s.registrations)
  {
  }

  /** A member added directly is appended just as given and announced; else nothing changes. */
  lemma AddedMember(s: State, id: string, member: MemberInfo)
    ensures var (s', r) := Add(s, id, member);
      && (id !in s.rooms ==> s' == s && r == Err(RoomNotFound(id)))
      && (id in s.rooms ==>
            var room := s.rooms[id];
            var joins := !IsMember(room.members, member.peerId) && |room.members| < 256;
            && (IsMember(room.members, member.peerId) ==> s' == s && r == Ok(room.members))
            && (!IsMember(room.members, member.peerId) && |room.members| >= 256 ==> s' == s && r == Err(RoomFull))
            && (joins ==>
                  && r == Ok(room.members + [member]) && OtherRooms(s, s', id)
                  && id in s'.rooms && s'.rooms[id] == room.(members := room.members + [member])
                  && s'.events == s.events + [MemberJoined(id, member.peerId, member.displayName)]
                  && s'.requests == s.requests && s'.registrations == s.registrations))
  {
  }

  /** The first member with the id is taken out, returned and announced; without one, or the room, nothing changes. */
  lemma RemovedMember(s: State, id: string, peer: string)
    ensures var (s', r) := Remove(s, id, peer);
      && (id !in s.rooms ==> s' == s && r == Err(RoomNotFound(id)))
      && (id in s.rooms ==>
            var room := s.rooms[id];
            && (!IsMember(room.members, peer) ==> s' == s && r == Err(MemberNotFound(peer)))
            && (IsMember(room.members, peer) ==>
                  var i := Position(room.members, peer);
                  && r == Ok(room.members[i]) && OtherRooms(s, s', id)
                  && id in s'.rooms && s'.rooms[id] == room.(members := room.members[..i] + room.members[i + 1..])
                  && s'.events == s.events + [MemberLeft(id, peer, room.members[i].displayName)]
                  && s'.requests == s.requests && s'.registrations == s.registrations))
  {
  }

  /** Draining goes through the queued ids in order; each yields its own registration or none. */
  lemma {:induction false} RegistrationsJoin(rooms: map<string, Room>, ids: seq<string>, more: seq<string>)
    ensures Registrations(rooms, ids + more) == Registrations(rooms, ids) + Registrations(rooms, more)
  {
    if ids == [] {
      assert ids + more == more;
    } else {
      assert (ids + more)[1..] == ids[1..] + more;
      RegistrationsJoin(rooms, ids[1..], more);
    }
  }

  /** With the room's name and its first admin's id; none for a room unknown or without an admin. */
  lemma RegistrationOf(rooms: map<string, Room>, id: string)
    ensures var due := Registrations(rooms, [id]);
      && (id !in rooms || !HasAdmin(rooms[id].members) ==> due == [])
      && (id in rooms && HasAdmin(rooms[id].members) ==>
            var first := rooms[id].members[FirstAdmin(rooms[id].members)];
            first.isAdmin && due == [Registration(id, rooms[id].name, first.peerId)])
  {
    assert [id][1..] == [];
  }

  // ---------- The manager ----------

  class RoomManager {
    var rooms: map<string, Room>
    var requests: map<string, Requests>
    var registrations: seq<string>
    var events: seq<RoomEvent>
    ghost var creators: map<string, string>

    ghost function Value(): State reads this { State(rooms, requests, registrations, events, creators) }

    constructor ()
      ensures Value() == INIT
    { rooms, requests, registrations, events, creators := map[], map[], [], [], map[]; }

    method CreateRoom(name: string, admin: string, adminName: string, id: string, now: nat)
      returns (r: Result<Room, RoomError>)
      modifies this
      ensures (Value(), r) == Create(old(Value()), name, admin, adminName, id, now)
    {
      var valid := ValidateRoomName(name);
      if valid.Err? { return Err(valid.error); }
      if NameTaken(rooms, valid.value) { return Err(DuplicateName(valid.value)); }
      if |rooms| >= MAX_ROOMS { return Err(RoomLimitReached); }
      var room := Room(id, valid.value, [MemberInfo(admin, adminName, true, false)], true, now);
      rooms, creators := rooms[id := room], creators[id := admin];
      events := events + [RoomCreated(id, valid.value)];
      r := Ok(room);
    }

    method QueueRegistration(id: string)
      modifies this
      ensures Value() == old(Value()).(registrations := old(registrations) + [id])
    { registrations := registrations + [id]; }

    method DrainRegistrations() returns (due: seq<Registration>)
      modifies this
      ensures due == Registrations(rooms, old(registrations)) && Value() == old(Value()).(registrations := [])
    {
      var ids := registrations;
      registrations, due := [], [];
      var i := 0;
      assert ids[0..] == ids;
      while i < |ids|
        invariant 0 <= i <= |ids| && Value() == old(Value()).(registrations := [])
        invariant due + Registrations(rooms, ids[i..]) == Registrations(rooms, ids)
      {
        assert ids[i..][1..] == ids[i + 1..];
        var registration := DueFor(rooms, ids[i]);
        assert due + registration + Registrations(rooms, ids[i + 1..]) == due + Registrations(rooms, ids[i..]);
        due := due + registration;
        i := i + 1;
      }
    }

    method HandleJoinRequest(id: string, peer: string, name: string) returns (r: Result<(), RoomError>)
      modifies this
      ensures (Value(), r) == RequestJoin(old(Value()), id, peer, name)
    {
      if id !in rooms { return Err(RoomNotFound(id)); }
      if !rooms[id].isAdmin { return Err(NotAdmin(id)); }
      if id !in requests { requests := requests[id := []]; }
      requests := requests[id := requests[id] + [(peer, name)]];
      assert requests == old(requests)[id := QueueOf(old(Value()), id) + [(peer, name)]];
      events := events + [JoinRequestReceived(id, peer, name)];
      r := Ok(());
    }

    method ApproveJoin(id: string, peer: string) returns (r: Result<(MemberInfo, seq<MemberInfo>), RoomError>)
      modifies this
      ensures (Value(), r) == Approve(old(Value()), id, peer)
    {
      if id !in rooms { return Err(RoomNotFound(id)); }
      var room := rooms[id];
      if !room.isAdmin { return Err(NotAdmin(id)); }
      if IsMember(room.members, peer) { return Ok((room.members[Position(room.members, peer)], room.members)); }
      if |room.members| >= MAX_MEMBERS { return Err(RoomFull); }
      var name := RequestedName(if id in requests then requests[id] else [], peer);
      if id in requests { requests := requests[id := WithoutPeer(requests[id], peer)]; }
      var member := MemberInfo(peer, name, false, false);
      rooms := rooms[id := room.(members := room.members + [member])];
      events := events + [MemberJoined(id, peer, name)];
      r := Ok((member, room.members + [member]));
    }

    method DenyJoin(id: string, peer: string) returns (r: Result<string, RoomError>)
      modifies this
      ensures (Value(), r) == Deny(old(Value()), id, peer)
    {
      if id !in rooms { return Err(RoomNotFound(id)); }
      if !rooms[id].isAdmin { return Err(NotAdmin(id)); }
      var name := RequestedName(if id in requests then requests[id] else [], peer);
      if id in requests { requests := requests[id := WithoutFirst(requests[id], peer)]; }
      events := events + [MemberDenied(id, peer)];
      r := Ok(name);
    }

    method AddMember(id: string, member: MemberInfo) returns (r: Result<seq<MemberInfo>, RoomError>)
      modifies this
      ensures (Value(), r) == Add(old(Value()), id, member)
    {
      if id !in rooms { return Err(RoomNotFound(id)); }
      var room := rooms[id];
      if IsMember(room.members, member.peerId) { return Ok(room.members); }
      if |room.members| >= MAX_MEMBERS { return Err(RoomFull); }
      rooms := rooms[id := room.(members := room.members + [member])];
      events := events + [MemberJoined(id, member.peerId, member.displayName)];
      r := Ok(room.members + [member]);
    }

    method RemoveMember(id: string, peer: string) returns (r: Result<MemberInfo, RoomError>)
      modifies this
      ensures (Value(), r) == Remove(old(Value()), id, peer)
    {
      if id !in rooms { return Err(RoomNotFound(id)); }
      var room := rooms[id];
      if !IsMember(room.members, peer) { return Err(MemberNotFound(peer)); }
      var i := Position(room.members, peer);
      rooms := rooms[id := room.(members := room.members[..i] + room.members[i + 1..])];
      events := events + [MemberLeft(id, peer, room.members[i].displayName)];
      r := Ok(room.members[i]);
    }
  }

  // ---------- Every reachable state ----------

  datatype Step =
    | DoCreate(name: string, admin: string, adminName: string, id: string, now: nat)
    | DoRequest(id: string, peer: string, name: string)
    | DoApprove(id: string, peer: string)
    | DoDeny(id: string, peer: string)
    | DoAdd(id: string, member: MemberInfo)
    | DoRemove(id: string, peer: string)
    | DoQueue(id: string)
    | DoDrain

  /** Room ids are drawn fresh. */
  predicate Enabled(s: State, step: Step) { step.DoCreate? ==> step.id !in s.rooms }

  function Next(s: State, step: Step): State {
    match step
    case DoCreate(name, admin, adminName, id, now) => Create(s, name, admin, adminName, id, now).0
    case DoRequest(id, peer, name) => RequestJoin(s, id, peer, name).0
    case DoApprove(id, peer) => Approve(s, id, peer).0
    case DoDeny(id, peer) => Deny(s, id, peer).0
    case DoAdd(id, member) => Add(s, id, member).0
    case DoRemove(id, peer) => Remove(s, id, peer).0
    case DoQueue(id) => s.(registrations := s.registrations + [id])
    case DoDrain => s.(registrations := [])
  }

  predicate ValidRun(s: State, steps: seq<Step>)
    decreases |steps|
  {
    steps == [] || (Enabled(s, steps[0]) && ValidRun(Next(s, steps[0]), steps[1..]))
  }

  function Run(s: State, steps: seq<Step>): State
    decreases |steps|
  {
    if steps == [] then s else Run(Next(s, steps[0]), steps[1..])
  }

  const INIT := State(map[], map[], [], [], map[])

  function PeerIds(members: seq<MemberInfo>): seq<string> {
    seq(|members|, i requires 0 <= i < |members| => members[i].peerId)
  }

  function WithoutId(ids: seq<string>, peer: string): seq<string> {
    if ids == [] then [] else if ids[0] == peer then ids[1..] else [ids[0]] + WithoutId(ids[1..], peer)
  }

  /** A room's members as an observer of the events tells them: its creator, plus joined, minus left. */
  function Replay(events: seq<RoomEvent>, id: string, creator: string): seq<string> {
    if events == [] then [creator]
    else
      var before := Replay(events[..|events| - 1], id, creator);
      match events[|events| - 1]
      case MemberJoined(r, p, _) => if r == id then before + [p] else before
      case MemberLeft(r, p, _) => if r == id then WithoutId(before, p) else before
      case _ => before
  }

  predicate DistinctPeers(members: seq<MemberInfo>) {
    forall i, j :: 0 <= i < j < |members| ==> members[i].peerId != members[j].peerId
  }

  ghost predicate RoomInv(s: State, id: string)
    requires id in s.rooms
  {
    var room := s.rooms[id];
    && room.roomId == id && room.isAdmin
    && |room.members| <= MAX_MEMBERS && DistinctPeers(room.members)
    && id in s.creators && PeerIds(room.members) == Replay(s.events, id, s.creators[id])
  }

  ghost predicate Inv(s: State) {
    && |s.rooms| <= MAX_ROOMS
    && (forall a, b :: a in s.rooms && b in s.rooms && s.rooms[a].name == s.rooms[b].name ==> a == b)
    && (forall id :: id in s.rooms ==> RoomInv(s, id))
    && (forall e :: e in s.events ==> e.roomId in s.rooms)
  }

  lemma {:induction false} ReplayUnseen(events: seq<RoomEvent>, id: string, creator: string)
    requires forall e :: e in events ==> e.roomId != id
    ensures Replay(events, id, creator) == [creator]
  {
    if events == [] {
    } else {
      ReplayUnseen(events[..|events| - 1], id, creator);
    }
  }

  lemma ReplayAppend(events: seq<RoomEvent>, e: RoomEvent, id: string, creator: string)
    ensures var before := Replay(events, id, creator);
      Replay(events + [e], id, creator)
      == if e.roomId == id && e.MemberJoined? then before + [e.peerId]
         else if e.roomId == id && e.MemberLeft? then WithoutId(before, e.peerId)
         else before
  {
    assert (events + [e])[..|events|] == events;
  }

  lemma {:induction false} WithoutIdAt(ids: seq<string>, i: nat)
    requires i < |ids| && forall j :: 0 <= j < i ==> ids[j] != ids[i]
    ensures WithoutId(ids, ids[i]) == ids[..i] + ids[i + 1..]
  {
    if i == 0 {
    } else {
      WithoutIdAt(ids[1..], i - 1);
      assert ids[1..][..i - 1] == ids[1..i] && ids[1..][i..] == ids[i + 1..];
      assert [ids[0]] + ids[1..i] == ids[..i];
    }
  }

  /** An event about no membership leaves every replay as it was. */
  lemma QuietKeepsInv(s: State, s': State, e: RoomEvent)
    requires Inv(s) && s'.rooms == s.rooms && s'.creators == s.creators && s'.events == s.events + [e]
    requires e.roomId in s.rooms && !e.MemberJoined? && !e.MemberLeft?
    ensures Inv(s')
  {
    forall id | id in s'.rooms ensures RoomInv(s', id) {
      assert RoomInv(s, id);
      ReplayAppend(s.events, e, id, s.creators[id]);
    }
  }

  lemma CreatedRoomInv(s: State, s': State, room: Room, admin: MemberInfo)
    requires Inv(s) && room.roomId !in s.rooms && room.members == [admin] && room.isAdmin
    requires s'.rooms == s.rooms[room.roomId := room] && s'.creators == s.creators[room.roomId := admin.peerId]
    requires s'.events == s.events + [RoomCreated(room.roomId, room.name)]
    ensures forall k :: k in s'.rooms ==> RoomInv(s', k)
  {
    forall k | k in s'.rooms ensures RoomInv(s', k) {
      ReplayAppend(s.events, RoomCreated(room.roomId, room.name), k, s'.creators[k]);
      if k == room.roomId {
        ReplayUnseen(s.events, k, admin.peerId);
        assert PeerIds(room.members) == [admin.peerId];
      } else {
        assert RoomInv(s, k);
      }
    }
  }

  lemma CreateKeepsInv(s: State, name: string, admin: string, adminName: string, id: string, now: nat)
    requires Inv(s) && id !in s.rooms
    ensures Inv(Create(s, name, admin, adminName, id, now).0)
  {
    var (s', r) := Create(s, name, admin, adminName, id, now);
    if r.Ok? {
      var room := r.value;
      assert s'.rooms == s.rooms[id := room] && s'.events == s.events + [RoomCreated(id, room.name)];
      CreatedRoomInv(s, s', room, MemberInfo(admin, adminName, true, false));
      CreatedRest(s, s', room);
    }
  }

  lemma CreatedRest(s: State, s': State, room: Room)
    requires Inv(s) && room.roomId !in s.rooms && !NameTaken(s.rooms, room.name) && |s.rooms| < MAX_ROOMS
    requires s'.rooms == s.rooms[room.roomId := room] && s'.events == s.events + [RoomCreated(room.roomId, room.name)]
    ensures |s'.rooms| <= MAX_ROOMS
    ensures forall a, b :: a in s'.rooms && b in s'.rooms && s'.rooms[a].name == s'.rooms[b].name ==> a == b
    ensures forall e :: e in s'.events ==> e.roomId in s'.rooms
  {
  }

  lemma AppendedPeers(members: seq<MemberInfo>, member: MemberInfo)
    requires DistinctPeers(members) && !IsMember(members, member.peerId)
    ensures DistinctPeers(members + [member]) && PeerIds(members + [member]) == PeerIds(members) + [member.peerId]
  {
  }

  lemma JoinedItsRoomInv(s: State, id: string, member: MemberInfo)
    requires Inv(s) && id in s.rooms
    requires !IsMember(s.rooms[id].members, member.peerId) && |s.rooms[id].members| < MAX_MEMBERS
    ensures RoomInv(Join(s, id, member), id)
  {
    assert RoomInv(s, id);
    AppendedPeers(s.rooms[id].members, member);
    ReplayAppend(s.events, MemberJoined(id, member.peerId, member.displayName), id, s.creators[id]);
  }

  lemma JoinedOtherRoomInv(s: State, id: string, member: MemberInfo, k: string)
    requires Inv(s) && id in s.rooms && k in s.rooms && k != id
    ensures RoomInv(Join(s, id, member), k)
  {
    assert RoomInv(s, k) && Join(s, id, member).rooms[k] == s.rooms[k];
    ReplayAppend(s.events, MemberJoined(id, member.peerId, member.displayName), k, s.creators[k]);
  }

  lemma JoinedRoomInv(s: State, id: string, member: MemberInfo, k: string)
    requires Inv(s) && id in s.rooms && k in s.rooms
    requires !IsMember(s.rooms[id].members, member.peerId) && |s.rooms[id].members| < MAX_MEMBERS
    ensures RoomInv(Join(s, id, member), k)
  {
    if k == id { JoinedItsRoomInv(s, id, member); } else { JoinedOtherRoomInv(s, id, member, k); }
  }

  /** Changing one room's members and logging it keeps the bounds, the names and the events' rooms. */
  lemma MembersChangeRest(s: State, s': State, id: string, room: Room, e: RoomEvent)
    requires Inv(s) && id in s.rooms && room.name == s.rooms[id].name
    requires s'.rooms == s.rooms[id := room] && s'.events == s.events + [e] && e.roomId == id
    ensures |s'.rooms| <= MAX_ROOMS && s'.rooms.Keys == s.rooms.Keys
    ensures forall a, b :: a in s'.rooms && b in s'.rooms && s'.rooms[a].name == s'.rooms[b].name ==> a == b
    ensures forall x :: x in s'.events ==> x.roomId in s'.rooms
  {
    assert s'.rooms.Keys == s.rooms.Keys && |s'.rooms| == |s'.rooms.Keys| && |s.rooms| == |s.rooms.Keys|;
    forall a, b | a in s'.rooms && b in s'.rooms && s'.rooms[a].name == s'.rooms[b].name ensures a == b {
      assert s'.rooms[a].name == s.rooms[a].name && s'.rooms[b].name == s.rooms[b].name;
    }
  }

  lemma JoinKeepsInv(s: State, id: string, member: MemberInfo)
    requires Inv(s) && id in s.rooms
    requires !IsMember(s.rooms[id].members, member.peerId) && |s.rooms[id].members| < MAX_MEMBERS
    ensures Inv(Join(s, id, member))
  {
    var s' := Join(s, id, member);
    MembersChangeRest(s, s', id, s'.rooms[id], MemberJoined(id, member.peerId, member.displayName));
    forall k | k in s'.rooms ensures RoomInv(s', k) { JoinedRoomInv(s, id, member, k); }
  }

  lemma RemovedIds(members: seq<MemberInfo>, i: nat)
    requires i < |members| && forall j :: 0 <= j < i ==> members[j].peerId != members[i].peerId
    ensures PeerIds(members[..i] + members[i + 1..]) == WithoutId(PeerIds(members), members[i].peerId)
  {
    WithoutIdAt(PeerIds(members), i);
    assert PeerIds(members[..i] + members[i + 1..]) == PeerIds(members)[..i] + PeerIds(members)[i + 1..];
  }

  lemma RemovedRoomInv(s: State, id: string, peer: string, k: string)
    requires Inv(s) && id in s.rooms && IsMember(s.rooms[id].members, peer) && k in s.rooms
    ensures RoomInv(Remove(s, id, peer).0, k)
  {
    var members := s.rooms[id].members;
    var i := Position(members, peer);
    var s' := Remove(s, id, peer).0;
    assert RoomInv(s, k);
    ReplayAppend(s.events, MemberLeft(id, peer, members[i].displayName), k, s.creators[k]);
    assert s'.events == s.events + [MemberLeft(id, peer, members[i].displayName)];
    if k == id {
      assert s'.rooms[k].members == members[..i] + members[i + 1..];
      RemovedIds(members, i);
      RemovedDistinct(members, i);
    } else {
      assert s'.rooms[k] == s.rooms[k];
    }
  }

  lemma RemovedDistinct(members: seq<MemberInfo>, i: nat)
    requires DistinctPeers(members) && i < |members|
    ensures DistinctPeers(members[..i] + members[i + 1..])
  {
    var left := members[..i] + members[i + 1..];
    forall a, b | 0 <= a < b < |left| ensures left[a].peerId != left[b].peerId {
      var (p, q) := (if a < i then a else a + 1, if b < i then b else b + 1);
      assert left[a] == members[p] && left[b] == members[q];
    }
  }

  lemma RemoveKeepsInv(s: State, id: string, peer: string)
    requires Inv(s)
    ensures Inv(Remove(s, id, peer).0)
  {
    var (s', r) := Remove(s, id, peer);
    if r.Ok? {
      MembersChangeRest(s, s', id, s'.rooms[id], s'.events[|s.events|]);
      forall k | k in s'.rooms ensures RoomInv(s', k) { RemovedRoomInv(s, id, peer, k); }
    }
  }

  lemma RequestsKeepInv(s: State, requests: map<string, Requests>, registrations: seq<string>)
    requires Inv(s)
    ensures Inv(s.(requests := requests, registrations := registrations))
  {
    var s' := s.(requests := requests, registrations := registrations);
    forall k | k in s'.rooms ensures RoomInv(s', k) { assert RoomInv(s, k); }
  }

  lemma ApproveKeepsInv(s: State, id: string, peer: string)
    requires Inv(s)
    ensures Inv(Approve(s, id, peer).0)
  {
    var s' := Approve(s, id, peer).0;
    if s' != s {
      RequestsKeepInv(s, s'.requests, s.registrations);
      var member := MemberInfo(peer, RequestedName(QueueOf(s, id), peer), false, false);
      JoinKeepsInv(s.(requests := s'.requests), id, member);
    }
  }

  lemma StepKeepsInv(s: State, step: Step)
    requires Inv(s) && Enabled(s, step)
    ensures Inv(Next(s, step))
  {
    var s' := Next(s, step);
    match step
    case DoCreate(name, admin, adminName, id, now) => CreateKeepsInv(s, name, admin, adminName, id, now);
    case DoRequest(id, peer, name) => if s' != s { QuietKeepsInv(s, s', JoinRequestReceived(id, peer, name)); }
    case DoDeny(id, peer) => if s' != s { QuietKeepsInv(s, s', MemberDenied(id, peer)); }
    case DoApprove(id, peer) => ApproveKeepsInv(s, id, peer);
    case DoAdd(id, member) => if s' != s { JoinKeepsInv(s, id, member); }
    case DoRemove(id, peer) => RemoveKeepsInv(s, id, peer);
    case DoQueue(_) => RequestsKeepInv(s, s.requests, s'.registrations);
    case DoDrain => RequestsKeepInv(s, s.requests, []);
  }

  lemma {:induction false} RunKeepsInv(s: State, steps: seq<Step>)
    requires Inv(s) && ValidRun(s, steps)
    ensures Inv(Run(s, steps))
    decreases |steps|
  {
    if steps == [] {
    } else {
      StepKeepsInv(s, steps[0]);
      RunKeepsInv(Next(s, steps[0]), steps[1..]);
    }
  }

  /** In every reachable state: at most 64 rooms, with distinct names. */
  lemma RoomsBoundedAndDistinct(steps: seq<Step>, a: string, b: string)
    requires ValidRun(INIT, steps)
    ensures var rooms := Run(INIT, steps).rooms;
      |rooms| <= MAX_ROOMS && (a in rooms && b in rooms && a != b ==> rooms[a].name != rooms[b].name)
  {
    RunKeepsInv(INIT, steps);
  }

  /**
   And each room has at most 256 members with distinct peer ids, who are exactly those its creator and the
   emitted events account for, in order of joining. The local user is always its admin.
   */
  lemma MembersAreReplayed(steps: seq<Step>, id: string)
    requires ValidRun(INIT, steps) && id in Run(INIT, steps).rooms
    ensures var s := Run(INIT, steps); var room := s.rooms[id];
      && |room.members| <= MAX_MEMBERS && DistinctPeers(room.members) && room.isAdmin
      && id in s.creators && PeerIds(room.members) == Replay(s.events, id, s.creators[id])
  {
    RunKeepsInv(INIT, steps);
    assert RoomInv(Run(INIT, steps), id);
  }

  /** Approving again changes nothing, emits nothing, and returns the member already there. */
  lemma ApproveIdempotent(s: State, id: string, peer: string)
    requires Approve(s, id, peer).1.Ok?
    ensures var (s', r) := Approve(s, id, peer); Approve(s', id, peer) == (s', Ok(r.value))
  {
    var (s', r) := Approve(s, id, peer);
    var (before, after) := (s.rooms[id].members, s'.rooms[id].members);
    if !IsMember(before, peer) {
      assert after == before + [r.value.0] && after[|before|].peerId == peer;
      assert Position(after, peer) == |before| by {
        assert forall i :: 0 <= i < |before| ==> after[i] == before[i];
      }
    }
  }

  lemma AddIdempotent(s: State, id: string, member: MemberInfo)
    requires Add(s, id, member).1.Ok?
    ensures var (s', r) := Add(s, id, member); Add(s', id, member) == (s', Ok(r.value))
  {
    var (s', r) := Add(s, id, member);
    var (before, after) := (s.rooms[id].members, s'.rooms[id].members);
    if !IsMember(before, member.peerId) {
      assert after[|before|].peerId == member.peerId;
    }
  }

  /** Removing a member just added restores the members. */
  lemma RemoveUndoesAdd(s: State, id: string, member: MemberInfo)
    requires id in s.rooms && !IsMember(s.rooms[id].members, member.peerId) && |s.rooms[id].members| < MAX_MEMBERS
    ensures var (s', r) := Remove(Add(s, id, member).0, id, member.peerId);
      r == Ok(member) && s'.rooms == s.rooms
  {
    var s1 := Add(s, id, member).0;
    var (before, after) := (s.rooms[id].members, s1.rooms[id].members);
    assert after[|before|].peerId == member.peerId;
    var i := Position(after, member.peerId);
    assert i == |before| by {
      assert forall j :: 0 <= j < |before| ==> after[j] == before[j];
    }
    assert after[..i] + after[i + 1..] == before;
  }

  predicate Requested(queue: Requests, peer: string) {
    exists i :: 0 <= i < |queue| && queue[i].0 == peer
  }

  /** What is left are all the requests of the others, in their order. */
  lemma {:induction false} WithoutPeerKeepsOthers(queue: Requests, peer: string)
    ensures var left := WithoutPeer(queue, peer);
      && Subsequence(left, queue)
      && forall e: (string, string) :: Count(left, e) == (if e.0 == peer then 0 else Count(queue, e))
  {
    if queue == [] {
    } else {
      var (most, last) := (queue[..|queue| - 1], queue[|queue| - 1]);
      var left := WithoutPeer(most, peer);
      WithoutPeerKeepsOthers(most, peer);
      if last.0 != peer {
        assert (left + [last])[..|left|] == left;
        forall e: (string, string) { CountAppend(left, last, e); }
      } else {
        assert left + [] == left;
      }
    }
  }

  lemma NotCounted(queue: Requests, peer: string)
    requires forall e: (string, string) :: e.0 == peer ==> Count(queue, e) == 0
    ensures !Requested(queue, peer)
  {
    forall i | 0 <= i < |queue| ensures queue[i].0 != peer {
      CountPositive(queue, queue[i]);
    }
  }

  function FirstRequest(queue: Requests, peer: string): (i: nat)
    requires Requested(queue, peer)
    ensures i < |queue| && queue[i].0 == peer && forall j :: 0 <= j < i ==> queue[j].0 != peer
  {
    if queue[0].0 == peer then 0 else 1 + FirstRequest(queue[1..], peer)
  }

  lemma {:induction false} NoRequestToCut(queue: Requests, peer: string)
    requires !Requested(queue, peer)
    ensures WithoutFirst(queue, peer) == queue && RequestedName(queue, peer) == peer
  {
    if queue == [] {
    } else {
      var rest := queue[1..];
      assert forall k :: 0 <= k < |rest| ==> rest[k] == queue[k + 1];
      NoRequestToCut(rest, peer);
    }
  }

  lemma CutAfterHead(queue: Requests, i: nat)
    requires queue != [] && i < |queue| - 1
    ensures [queue[0]] + (queue[1..][..i] + queue[1..][i + 1..]) == queue[..i + 1] + queue[i + 2..]
  {
    assert queue[1..][..i] == queue[1..i + 1] && queue[1..][i + 1..] == queue[i + 2..];
    assert [queue[0]] + queue[1..i + 1] == queue[..i + 1];
  }

  lemma RequestedLater(queue: Requests, peer: string)
    requires Requested(queue, peer) && queue[0].0 != peer
    ensures Requested(queue[1..], peer)
  {
    var k :| 0 <= k < |queue| && queue[k].0 == peer;
    assert queue[1..][k - 1].0 == peer;
  }

  lemma {:induction false} WithoutFirstIsCut(queue: Requests, peer: string)
    requires Requested(queue, peer)
    ensures var i := FirstRequest(queue, peer);
      RequestedName(queue, peer) == queue[i].1 && WithoutFirst(queue, peer) == queue[..i] + queue[i + 1..]
  {
    if queue[0].0 == peer {
      assert FirstRequest(queue, peer) == 0 && queue[..0] == [] && [] + queue[1..] == queue[1..];
    } else {
      RequestedLater(queue, peer);
      WithoutFirstIsCut(queue[1..], peer);
      var i := FirstRequest(queue[1..], peer);
      assert FirstRequest(queue, peer) == i + 1 && queue[1..][i] == queue[i + 1];
      CutAfterHead(queue, i);
    }
  }

  /** What settling a peer's requests does to a queue, and which name it finds there. */
  lemma SettledQueue(queue: Requests, peer: string)
    ensures var left := WithoutPeer(queue, peer);
      && !Requested(left, peer)
      && Subsequence(left, queue)
      && (forall e: (string, string) :: e.0 != peer ==> Count(left, e) == Count(queue, e))
    ensures RequestedName(queue, peer) == if Requested(queue, peer) then queue[FirstRequest(queue, peer)].1 else peer
  {
    WithoutPeerKeepsOthers(queue, peer);
    NotCounted(WithoutPeer(queue, peer), peer);
    if Requested(queue, peer) { WithoutFirstIsCut(queue, peer); } else { NoRequestToCut(queue, peer); }
  }

  lemma ApproveTouches(s: State, id: string, peer: string)
    requires Approve(s, id, peer).1.Ok? && !IsMember(s.rooms[id].members, peer)
    ensures var (after, r) := Approve(s, id, peer);
      && QueueOf(after, id) == WithoutPeer(QueueOf(s, id), peer)
      && (forall other :: other != id ==> QueueOf(after, other) == QueueOf(s, other))
      && r.value.0.displayName == RequestedName(QueueOf(s, id), peer)
  {
  }

  /**
   Approving a newcomer settles all its requests in that room, leaves everybody else's in their order, and takes the
   name it first gave.
   */
  lemma ApproveSettlesRequests(s: State, id: string, peer: string)
    requires Approve(s, id, peer).1.Ok? && !IsMember(s.rooms[id].members, peer)
    ensures var (after, queue) := (Approve(s, id, peer).0, QueueOf(s, id));
      && !Requested(QueueOf(after, id), peer)
      && Subsequence(QueueOf(after, id), queue)
      && (forall e: (string, string) :: e.0 != peer ==> Count(QueueOf(after, id), e) == Count(queue, e))
      && (forall other :: other != id ==> QueueOf(after, other) == QueueOf(s, other))
    ensures var (member, queue) := (Approve(s, id, peer).1.value.0, QueueOf(s, id));
      member.displayName == if Requested(queue, peer) then queue[FirstRequest(queue, peer)].1 else peer
  {
    SettledQueue(QueueOf(s, id), peer);
    ApproveTouches(s, id, peer);
  }

  /** Denying removes the first request of the peer, if it has one, returns its name, and changes no membership. */
  lemma DenyRemovesFirstRequest(s: State, id: string, peer: string)
    requires Deny(s, id, peer).1.Ok?
    ensures var (s', name) := Deny(s, id, peer);
      && s'.rooms == s.rooms
      && (!Requested(QueueOf(s, id), peer) ==> QueueOf(s', id) == QueueOf(s, id) && name == Ok(peer))
    ensures Requested(QueueOf(s, id), peer) ==> (
      var (queue, (s', name)) := (QueueOf(s, id), Deny(s, id, peer));
      var i := FirstRequest(queue, peer);
      name == Ok(queue[i].1) && QueueOf(s', id) == queue[..i] + queue[i + 1..])
  {
    var queue := QueueOf(s, id);
    if Requested(queue, peer) { WithoutFirstIsCut(queue, peer); } else { NoRequestToCut(queue, peer); }
  }

  /** Draining yields a registration for a queued id exactly when the room is known and still has an admin. */
  lemma {:induction false} RegistrationsIff(rooms: map<string, Room>, ids: seq<string>, id: string)
    ensures (exists r :: r in Registrations(rooms, ids) && r.roomId == id)
      <==> id in ids && id in rooms && HasAdmin(rooms[id].members)
  {
    if ids == [] {
    } else {
      RegistrationsIff(rooms, ids[1..], id);
      var tail := Registrations(rooms, ids[1..]);
      assert ids == [ids[0]] + ids[1..];
      if ids[0] in rooms && HasAdmin(rooms[ids[0]].members) {
        var first := Registrations(rooms, ids)[0];
        assert Registrations(rooms, ids) == [first] + tail;
        assert first.roomId == ids[0];
        forall r ensures r in Registrations(rooms, ids) <==> r == first || r in tail {
        }
      } else {
        assert Registrations(rooms, ids) == tail;
      }
    }
  }

  // ---------- Who is an admin ----------

  /** Every admin member created the room, or was added as an admin in one of the steps so far. */
  ghost predicate Explained(s: State, past: seq<Step>) {
    forall id :: id in s.rooms ==>
      && id in s.creators
      && forall m :: m in s.rooms[id].members && m.isAdmin ==> m.peerId == s.creators[id] || DoAdd(id, m) in past
  }

  /** A room that was there keeps its members, loses some, or has one appended. */
  datatype Change = Same | Fewer | More(member: MemberInfo)

  ghost predicate Changes(s: State, s': State, id: string, change: Change)
    requires id in s.rooms
  {
    && id in s'.rooms && id in s.creators && id in s'.creators && s'.creators[id] == s.creators[id]
    && var (before, after) := (s.rooms[id].members, s'.rooms[id].members);
       match change
       case Same => after == before
       case Fewer => forall m :: m in after ==> m in before
       case More(member) => after == before + [member]
  }

  lemma CreateChanges(s: State, step: Step, id: string)
    requires Inv(s) && Enabled(s, step) && id in s.rooms && step.DoCreate?
    ensures Changes(s, Next(s, step), id, Same)
  {
    assert RoomInv(s, id);
  }

  lemma ApproveChanges(s: State, peer: string, room: string, id: string) returns (change: Change)
    requires Inv(s) && id in s.rooms
    ensures Changes(s, Approve(s, room, peer).0, id, change) && !change.Fewer?
    ensures change.More? ==> !change.member.isAdmin
  {
    assert RoomInv(s, id);
    change := Same;
    ApproveElse(s, room, peer);
    AdminRoomIff(s, room);
    var joins := room in s.rooms && s.rooms[room].isAdmin && !IsMember(s.rooms[room].members, peer);
    if joins && |s.rooms[room].members| < 256 {
      ApprovedMember(s, room, peer);
      if room == id { change := More(MemberInfo(peer, RequestedName(QueueOf(s, id), peer), false, false)); }
    }
  }

  lemma AddChanges(s: State, member: MemberInfo, room: string, id: string) returns (change: Change)
    requires Inv(s) && id in s.rooms
    ensures Changes(s, Add(s, room, member).0, id, change) && !change.Fewer?
    ensures change.More? ==> room == id && change.member == member
  {
    assert RoomInv(s, id);
    AddedMember(s, room, member);
    change := if Add(s, room, member).0 != s && room == id then More(member) else Same;
  }

  lemma RemoveChanges(s: State, peer: string, room: string, id: string)
    requires Inv(s) && id in s.rooms
    ensures Changes(s, Remove(s, room, peer).0, id, Fewer)
  {
    assert RoomInv(s, id);
    RemovedMember(s, room, peer);
  }

  lemma QuietChanges(s: State, step: Step, id: string)
    requires Inv(s) && id in s.rooms && (step.DoRequest? || step.DoDeny? || step.DoQueue? || step.DoDrain?)
    ensures Changes(s, Next(s, step), id, Same)
  {
    assert RoomInv(s, id);
  }

  lemma StepChanges(s: State, step: Step, id: string) returns (change: Change)
    requires Inv(s) && Enabled(s, step) && id in s.rooms
    ensures Changes(s, Next(s, step), id, change) && (change.Fewer? ==> step.DoRemove?)
    ensures change.More? && change.member.isAdmin ==> step == DoAdd(id, change.member)
  {
    match step
    case DoCreate(_, _, _, _, _) => change := Same; CreateChanges(s, step, id);
    case DoApprove(room, peer) => change := ApproveChanges(s, peer, room, id);
    case DoAdd(room, member) => change := AddChanges(s, member, room, id);
    case DoRemove(room, peer) => change := Fewer; RemoveChanges(s, peer, room, id);
    case _ => change := Same; QuietChanges(s, step, id);
  }

  lemma StepMembers(s: State, step: Step, id: string, m: MemberInfo)
    requires Inv(s) && Enabled(s, step) && id in s.rooms
    ensures var s' := Next(s, step);
      && id in s'.rooms && id in s.creators && id in s'.creators && s'.creators[id] == s.creators[id]
      && (m in s'.rooms[id].members && m.isAdmin ==> m in s.rooms[id].members || step == DoAdd(id, m))
  {
    var change := StepChanges(s, step, id);
  }

  lemma StepRooms(s: State, step: Step, id: string)
    requires Inv(s) && Enabled(s, step) && id !in s.rooms && id in Next(s, step).rooms
    ensures var s' := Next(s, step);
      id in s'.creators && exists name :: s'.rooms[id].members == [MemberInfo(s'.creators[id], name, true, false)]
  {
    NewRoomIsCreated(s, step, id);
    assert Next(s, step).rooms[id].members == [MemberInfo(step.admin, step.adminName, true, false)];
  }

  lemma NewRoomIsCreated(s: State, step: Step, id: string)
    requires id !in s.rooms && id in Next(s, step).rooms
    ensures step.DoCreate? && step.id == id
  {
    match step
    case DoApprove(room, _) => AdminRoomIff(s, room);
    case DoAdd(_, _) =>
    case DoRemove(_, _) =>
    case _ =>
  }

  lemma OldRoomExplained(s: State, step: Step, past: seq<Step>, id: string, m: MemberInfo)
    requires Inv(s) && Enabled(s, step) && Explained(s, past) && id in s.rooms
    ensures var s' := Next(s, step);
      && id in s'.rooms && id in s'.creators
      && (m in s'.rooms[id].members && m.isAdmin ==> m.peerId == s'.creators[id] || DoAdd(id, m) in past + [step])
  {
    StepMembers(s, step, id, m);
    assert forall x :: x in past || x == step ==> x in past + [step];
  }

  lemma StepExplained(s: State, step: Step, past: seq<Step>)
    requires Inv(s) && Enabled(s, step) && Explained(s, past)
    ensures Explained(Next(s, step), past + [step])
  {
    var s' := Next(s, step);
    forall id, m | id in s'.rooms && m in s'.rooms[id].members && m.isAdmin
      ensures id in s'.creators && (m.peerId == s'.creators[id] || DoAdd(id, m) in past + [step])
    {
      if id in s.rooms { OldRoomExplained(s, step, past, id, m); } else { StepRooms(s, step, id); }
    }
    forall id | id in s'.rooms ensures id in s'.creators {
      if id in s.rooms {
        OldRoomExplained(s, step, past, id, MemberInfo("", "", false, false));
      } else {
        StepRooms(s, step, id);
      }
    }
  }

  lemma {:induction false} RunExplained(s: State, steps: seq<Step>, past: seq<Step>)
    requires Inv(s) && ValidRun(s, steps) && Explained(s, past)
    ensures Explained(Run(s, steps), past + steps)
    decreases |steps|
  {
    if steps == [] {
      assert past + steps == past;
    } else {
      StepKeepsInv(s, steps[0]);
      StepExplained(s, steps[0], past);
      RunExplained(Next(s, steps[0]), steps[1..], past + [steps[0]]);
      assert past + [steps[0]] + steps[1..] == past + steps;
    }
  }

  /** In every reachable state an admin member is the room's creator or was added directly, as an admin. */
  lemma AdminsAreExplained(steps: seq<Step>, id: string, m: MemberInfo)
    requires ValidRun(INIT, steps) && id in Run(INIT, steps).rooms
    requires m in Run(INIT, steps).rooms[id].members && m.isAdmin
    ensures var s := Run(INIT, steps); id in s.creators && (m.peerId == s.creators[id] || DoAdd(id, m) in steps)
  {
    RunExplained(INIT, steps, []);
    assert [] + steps == steps;
  }

  predicate AdminHere(members: seq<MemberInfo>, peer: string) {
    exists m :: m in members && m.peerId == peer && m.isAdmin
  }

  predicate HasLeft(events: seq<RoomEvent>, id: string, peer: string) {
    exists e :: e in events && e.MemberLeft? && e.roomId == id && e.peerId == peer
  }

  /** A room's creator is an admin member, unless it has left. */
  ghost predicate CreatorStays(s: State) {
    forall id :: id in s.rooms ==>
      id in s.creators && (AdminHere(s.rooms[id].members, s.creators[id]) || HasLeft(s.events, id, s.creators[id]))
  }

  lemma EventsGrow(s: State, step: Step, id: string, peer: string)
    requires HasLeft(s.events, id, peer)
    ensures HasLeft(Next(s, step).events, id, peer)
  {
    var e :| e in s.events && e.MemberLeft? && e.roomId == id && e.peerId == peer;
    assert s.events <= Next(s, step).events;
    assert e in Next(s, step).events;
  }

  lemma CutLosesOne(members: seq<MemberInfo>, i: nat, m: MemberInfo)
    requires i < |members| && m in members && m != members[i]
    ensures m in members[..i] + members[i + 1..]
  {
    var k :| 0 <= k < |members| && members[k] == m;
    var left := members[..i] + members[i + 1..];
    assert left[if k < i then k else k - 1] == m;
  }

  lemma RemovalIsLogged(s: State, step: Step, id: string, m: MemberInfo)
    requires Inv(s) && Enabled(s, step) && id in s.rooms && m in s.rooms[id].members
    ensures var s' := Next(s, step);
      id in s'.rooms && (m in s'.rooms[id].members || HasLeft(s'.events, id, m.peerId))
  {
    var change := StepChanges(s, step, id);
    if change.Fewer? {
      RemovedIsLogged(s, step, id, m);
    }
  }

  lemma RemovedIsLogged(s: State, step: Step, id: string, m: MemberInfo)
    requires Inv(s) && Enabled(s, step) && id in s.rooms && m in s.rooms[id].members
    ensures var s' := Next(s, step);
      step.DoRemove? ==> id in s'.rooms && (m in s'.rooms[id].members || HasLeft(s'.events, id, m.peerId))
  {
    if step.DoRemove? {
      RemovedMember(s, step.id, step.peer);
      var (s', members) := (Next(s, step), s.rooms[id].members);
      if step.id == id && IsMember(members, step.peer) {
        var i := Position(members, step.peer);
        if m == members[i] {
          assert MemberLeft(id, m.peerId, m.displayName) in s'.events;
        } else {
          CutLosesOne(members, i, m);
        }
      }
    }
  }

  lemma StepKeepsCreator(s: State, step: Step)
    requires Inv(s) && Enabled(s, step) && CreatorStays(s)
    ensures CreatorStays(Next(s, step))
  {
    var s' := Next(s, step);
    forall id | id in s'.rooms
      ensures id in s'.creators
      ensures AdminHere(s'.rooms[id].members, s'.creators[id]) || HasLeft(s'.events, id, s'.creators[id])
    {
      if id !in s.rooms {
        StepRooms(s, step, id);
        assert s'.rooms[id].members[0] in s'.rooms[id].members;
      } else {
        StepMembers(s, step, id, MemberInfo("", "", false, false));
        if HasLeft(s.events, id, s.creators[id]) {
          EventsGrow(s, step, id, s.creators[id]);
        } else {
          var m :| m in s.rooms[id].members && m.peerId == s.creators[id] && m.isAdmin;
          RemovalIsLogged(s, step, id, m);
        }
      }
    }
  }

  lemma {:induction false} RunKeepsCreator(s: State, steps: seq<Step>)
    requires Inv(s) && CreatorStays(s) && ValidRun(s, steps)
    ensures CreatorStays(Run(s, steps))
    decreases |steps|
  {
    if steps == [] {
    } else {
      StepKeepsInv(s, steps[0]);
      StepKeepsCreator(s, steps[0]);
      RunKeepsCreator(Next(s, steps[0]), steps[1..]);
    }
  }

  /** In every reachable state the creator of a room is an admin member of it, unless it has left. */
  lemma CreatorIsAdmin(steps: seq<Step>, id: string)
    requires ValidRun(INIT, steps) && id in Run(INIT, steps).rooms
    ensures var s := Run(INIT, steps);
      id in s.creators && (AdminHere(s.rooms[id].members, s.creators[id]) || HasLeft(s.events, id, s.creators[id]))
  {
    RunKeepsCreator(INIT, steps);
  }
}
