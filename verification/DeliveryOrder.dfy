/** When the order of delivery shows: when messages that could each decide a register would decide it differently. */
module DeliveryOrder {
  import opened Lww
  import opened Tasks
  import opened Convergence
  import opened Joins

  function Elements(msgs: seq<Message>): set<Message> { set m | m in msgs }

  ghost predicate Mentions(msg: Message, k: Key) { Present(Alone(msg), k.room, k.id) }

  /** Among messages that mention the task, this one is not older than any other in the register. */
  ghost predicate Leads(msgs: set<Message>, msg: Message, k: Key) {
    && msg in msgs && Mentions(msg, k)
    && forall m :: m in msgs && Mentions(m, k) ==> !Less(Reg(Alone(msg), k).At(), Reg(Alone(m), k).At())
  }

  /** The messages that lead in a register would each leave it the same. */
  ghost predicate Decided(msgs: set<Message>) {
    forall k, m, n :: Leads(msgs, m, k) && Leads(msgs, n, k) ==> Reg(Alone(m), k) == Reg(Alone(n), k)
  }

  /** What a replica holds in a register after some messages is what one that leads would leave there alone. */
  ghost predicate HeldByLeader(s: Store, msgs: set<Message>, k: Key) {
    if Present(s, k.room, k.id) then exists m :: Leads(msgs, m, k) && Reg(s, k) == Reg(Alone(m), k)
    else forall m :: m in msgs ==> !Mentions(m, k)
  }

  lemma ApplyKeepsLeader(s: Store, msgs: set<Message>, msg: Message, k: Key)
    requires HeldByLeader(s, msgs, k)
    ensures HeldByLeader(Apply(s, msg), msgs + {msg}, k)
  {
    ApplyIsJoin(s, msg);
    var (held, alone) := (Reg(s, k), Reg(Alone(msg), k));
    LessTrichotomy(alone.At(), alone.At());
    if Present(s, k.room, k.id) {
      var m :| Leads(msgs, m, k) && held == Reg(Alone(m), k);
      if Mentions(msg, k) && Less(held.At(), alone.At()) {
        NewLeader(msgs, m, msg, k);
      } else {
        assert Leads(msgs + {msg}, m, k);
      }
    } else if Mentions(msg, k) {
      assert Leads(msgs + {msg}, msg, k);
    }
  }

  lemma NewLeader(msgs: set<Message>, old': Message, new': Message, k: Key)
    requires Leads(msgs, old', k) && Mentions(new', k) && Less(Reg(Alone(old'), k).At(), Reg(Alone(new'), k).At())
    ensures Leads(msgs + {new'}, new', k)
  {
    var (low, high) := (Reg(Alone(old'), k).At(), Reg(Alone(new'), k).At());
    LessTrichotomy(high, high);
    forall m | m in msgs && Mentions(m, k) ensures !Less(high, Reg(Alone(m), k).At()) {
      NotLessStep(Reg(Alone(m), k).At(), low, high);
    }
  }

  lemma ElementsCons(msgs: seq<Message>)
    requires msgs != []
    ensures Elements(msgs) == {msgs[0]} + Elements(msgs[1..])
  {
    assert msgs == [msgs[0]] + msgs[1..];
  }

  lemma {:induction false} AllHeldByLeader(s: Store, seen: set<Message>, msgs: seq<Message>, k: Key)
    requires HeldByLeader(s, seen, k)
    ensures HeldByLeader(ApplyAll(s, msgs), seen + Elements(msgs), k)
    decreases |msgs|
  {
    if msgs == [] {
      assert seen + Elements(msgs) == seen;
    } else {
      ApplyKeepsLeader(s, seen, msgs[0], k);
      AllHeldByLeader(Apply(s, msgs[0]), seen + {msgs[0]}, msgs[1..], k);
      ElementsCons(msgs);
      assert seen + {msgs[0]} + Elements(msgs[1..]) == seen + ({msgs[0]} + Elements(msgs[1..]));
    }
  }

  lemma DecidedAgree(left: seq<Message>, right: seq<Message>)
    requires Elements(left) == Elements(right) && Decided(Elements(left))
    ensures SameTasks(ApplyAll(map[], left), ApplyAll(map[], right))
  {
    var (s, t) := (ApplyAll(map[], left), ApplyAll(map[], right));
    forall k ensures Reg(s, k) == Reg(t, k) && (Present(s, k.room, k.id) <==> Present(t, k.room, k.id)) {
      AllHeldByLeader(map[], {}, left, k);
      AllHeldByLeader(map[], {}, right, k);
      assert {} + Elements(left) == Elements(left) && {} + Elements(right) == Elements(right);
    }
    forall room, id ensures Present(s, room, id) <==> Present(t, room, id) {
      var k := Key(room, id, Title);
      assert Present(s, k.room, k.id) <==> Present(t, k.room, k.id);
    }
  }

  /** Whatever arrives after a message that leads in a register, the register stays as that message left it. */
  lemma {:induction false} LeaderStays(s: Store, rest: seq<Message>, msgs: set<Message>, msg: Message, k: Key)
    requires Leads(msgs, msg, k) && Elements(rest) <= msgs
    requires Present(s, k.room, k.id) && Reg(s, k) == Reg(Alone(msg), k)
    ensures Reg(ApplyAll(s, rest), k) == Reg(Alone(msg), k)
    decreases |rest|
  {
    if rest == [] {
    } else {
      assert rest[0] in Elements(rest);
      ApplyIsJoin(s, rest[0]);
      assert Elements(rest[1..]) <= Elements(rest);
      LeaderStays(Apply(s, rest[0]), rest[1..], msgs, msg, k);
    }
  }

  lemma {:induction false} ApplyInTwo(s: Store, first: seq<Message>, rest: seq<Message>)
    ensures ApplyAll(s, first + rest) == ApplyAll(ApplyAll(s, first), rest)
    decreases |first|
  {
    if first == [] {
      assert first + rest == rest;
    } else {
      assert (first + rest)[1..] == first[1..] + rest;
      ApplyInTwo(Apply(s, first[0]), first[1..], rest);
    }
  }

  /** A message that is as new as one that leads, leads too. */
  lemma AsNewLeads(msgs: set<Message>, leader: Message, m: Message, k: Key)
    requires Leads(msgs, leader, k) && m in msgs && Mentions(m, k)
    ensures !Less(Reg(Alone(m), k).At(), Reg(Alone(leader), k).At()) ==> Leads(msgs, m, k)
  {
    LessTrichotomy(Reg(Alone(m), k).At(), Reg(Alone(leader), k).At());
  }

  /** While no message that leads among all of `msgs` has arrived, what is held is older than what one leaves alone. */
  lemma BeforeLeaderOlder(s: Store, seen: set<Message>, msgs: set<Message>, leader: Message, k: Key)
    requires HeldByLeader(s, seen, k) && seen <= msgs && Leads(msgs, leader, k)
    requires forall m :: m in seen ==> !Leads(msgs, m, k)
    ensures Present(s, k.room, k.id) ==> Less(Reg(s, k).At(), Reg(Alone(leader), k).At())
  {
    if Present(s, k.room, k.id) {
      var m :| Leads(seen, m, k) && Reg(s, k) == Reg(Alone(m), k);
      AsNewLeads(msgs, leader, m, k);
    }
  }

  /** Message `i` is the first of those that lead in the register. */
  ghost predicate FirstToLead(msgs: seq<Message>, i: nat, k: Key) {
    && i < |msgs| && Leads(Elements(msgs), msgs[i], k)
    && forall j :: 0 <= j < i ==> !Leads(Elements(msgs), msgs[j], k)
  }

  lemma ApplyAround(s: Store, msgs: seq<Message>, i: nat)
    requires i < |msgs|
    ensures ApplyAll(s, msgs) == ApplyAll(Apply(ApplyAll(s, msgs[..i]), msgs[i]), msgs[i + 1..])
  {
    var rest := [msgs[i]] + msgs[i + 1..];
    assert msgs == msgs[..i] + rest && rest[1..] == msgs[i + 1..];
    ApplyInTwo(s, msgs[..i], rest);
  }

  lemma ArrivedHeld(msgs: seq<Message>, k: Key)
    ensures HeldByLeader(ApplyAll(map[], msgs), Elements(msgs), k)
  {
    AllHeldByLeader(map[], {}, msgs, k);
    assert {} + Elements(msgs) == Elements(msgs);
  }

  lemma LeaderTakesOver(s: Store, seen: set<Message>, msgs: set<Message>, leader: Message, k: Key)
    requires HeldByLeader(s, seen, k) && seen <= msgs && Leads(msgs, leader, k)
    requires forall m :: m in seen ==> !Leads(msgs, m, k)
    ensures Present(Apply(s, leader), k.room, k.id) && Reg(Apply(s, leader), k) == Reg(Alone(leader), k)
  {
    BeforeLeaderOlder(s, seen, msgs, leader, k);
    ApplyIsJoin(s, leader);
  }

  lemma {:induction false} PresentStays(s: Store, msgs: seq<Message>, room: string, id: TaskId)
    requires Present(s, room, id)
    ensures Present(ApplyAll(s, msgs), room, id)
    decreases |msgs|
  {
    if msgs == [] {
    } else {
      ApplyIsJoin(s, msgs[0]);
      PresentStays(Apply(s, msgs[0]), msgs[1..], room, id);
    }
  }

  /** Whatever the messages and their order, a register ends up as the first of those that lead leaves it alone. */
  lemma FirstLeaderDecides(msgs: seq<Message>, i: nat, k: Key)
    requires FirstToLead(msgs, i, k)
    ensures Present(ApplyAll(map[], msgs), k.room, k.id)
    ensures Reg(ApplyAll(map[], msgs), k) == Reg(Alone(msgs[i]), k)
  {
    var (all, s) := (Elements(msgs), ApplyAll(map[], msgs[..i]));
    ArrivedHeld(msgs[..i], k);
    LeaderTakesOver(s, Elements(msgs[..i]), all, msgs[i], k);
    LeaderStays(Apply(s, msgs[i]), msgs[i + 1..], all, msgs[i], k);
    PresentStays(Apply(s, msgs[i]), msgs[i + 1..], k.room, k.id);
    ApplyAround(map[], msgs, i);
  }

  lemma {:induction false} FirstSuch(msgs: seq<Message>, all: set<Message>, k: Key) returns (i: nat)
    requires exists m :: m in msgs && Leads(all, m, k)
    ensures i < |msgs| && Leads(all, msgs[i], k) && forall j :: 0 <= j < i ==> !Leads(all, msgs[j], k)
    decreases |msgs|
  {
    if Leads(all, msgs[0], k) {
      i := 0;
    } else {
      assert msgs == [msgs[0]] + msgs[1..];
      i := FirstSuch(msgs[1..], all, k);
      i := i + 1;
    }
  }

  /** There is such a message for every register of a task that any message mentions. */
  lemma SomeLeads(msgs: seq<Message>, k: Key) returns (i: nat)
    requires exists m :: m in msgs && Mentions(m, k)
    ensures FirstToLead(msgs, i, k)
  {
    ArrivedHeld(msgs, k);
    i := FirstSuch(msgs, Elements(msgs), k);
  }

  lemma {:induction false} Enumerate(msgs: set<Message>) returns (order: seq<Message>)
    ensures Elements(order) == msgs
    decreases |msgs|
  {
    if msgs == {} {
      order := [];
    } else {
      var m :| m in msgs;
      var rest := Enumerate(msgs - {m});
      order := [m] + rest;
      assert Elements(order) == {m} + Elements(rest);
    }
  }

  /** An order of delivery in which a given message comes first, so that what it leaves in the register stays. */
  lemma LeadWith(msgs: set<Message>, msg: Message, k: Key) returns (order: seq<Message>)
    requires Leads(msgs, msg, k)
    ensures Elements(order) == msgs && Reg(ApplyAll(map[], order), k) == Reg(Alone(msg), k)
  {
    var rest := Enumerate(msgs);
    order := [msg] + rest;
    assert Elements(order) == {msg} + Elements(rest);
    assert order[1..] == rest;
    LeaderStays(Alone(msg), rest, msgs, msg, k);
  }

  /** Two leading messages that disagree are told apart by which of them comes first. */
  lemma UndecidedDiverges(msgs: set<Message>, k: Key, m: Message, n: Message)
    returns (left: seq<Message>, right: seq<Message>)
    requires Leads(msgs, m, k) && Leads(msgs, n, k) && Reg(Alone(m), k) != Reg(Alone(n), k)
    ensures Elements(left) == msgs == Elements(right)
    ensures !SameTasks(ApplyAll(map[], left), ApplyAll(map[], right))
  {
    left := LeadWith(msgs, m, k);
    right := LeadWith(msgs, n, k);
  }

  /**
   Delivering one set of messages in any order, with any repetition, always leaves the same tasks and registers
   exactly when messages that lead in a register agree on it. Disagreement among older ones does not matter.
   */
  lemma OrderIsIrrelevantIff(msgs: set<Message>)
    ensures (forall left, right :: Elements(left) == msgs == Elements(right)
               ==> SameTasks(ApplyAll(map[], left), ApplyAll(map[], right)))
       <==> Decided(msgs)
  {
    if Decided(msgs) {
      forall left, right | Elements(left) == msgs == Elements(right)
        ensures SameTasks(ApplyAll(map[], left), ApplyAll(map[], right))
      {
        DecidedAgree(left, right);
      }
    } else {
      var k, m, n :| Leads(msgs, m, k) && Leads(msgs, n, k) && Reg(Alone(m), k) != Reg(Alone(n), k);
      var left, right := UndecidedDiverges(msgs, k, m, n);
    }
  }

  // ---------- The same in terms of register writes ----------

  /** One message writes a register at most once, and never puts the stub's stamp on another value. */
  ghost predicate Plain(msg: Message) {
    && (forall v, w :: v in Writes(msg) && w in Writes(msg) && v.key == w.key ==> v == w)
    && (forall w :: w in Writes(msg) && w.reg.At() == LEAST ==> w.reg == Bottom(w.key.field))
  }

  /** Alone, such a message leaves a register as it writes it, and as a stub if it does not. */
  lemma PlainAlone(msg: Message, k: Key)
    requires Plain(msg)
    ensures forall w :: w in Writes(msg) && w.key == k ==> Reg(Alone(msg), k) == w.reg && Mentions(msg, k)
    ensures (forall w :: w in Writes(msg) ==> w.key != k) ==> Reg(Alone(msg), k) == Bottom(k.field)
  {
    EmptyReflects();
    ApplyReflects(map[], {}, msg);
    assert {} + Writes(msg) == Writes(msg);
    forall w | w in Writes(msg) && w.key == k ensures Reg(Alone(msg), k) == w.reg && Mentions(msg, k) {
      LeastIsLeast(w.reg.At());
      LessTrichotomy(Reg(Alone(msg), k).At(), w.reg.At());
      assert (w.key.room, w.key.id) in Ids(Writes(msg));
    }
  }

  /** The newest writes to each register agree. */
  ghost predicate NewestAgree(ws: set<Write>) {
    forall v, w :: Newest(ws, v) && Newest(ws, w) && v.key == w.key ==> v == w
  }

  lemma NewestLeads(msgs: set<Message>, msg: Message, w: Write)
    requires (forall m :: m in msgs ==> Plain(m)) && msg in msgs && w in Writes(msg) && Newest(WritesOf(msgs), w)
    ensures Leads(msgs, msg, w.key) && Reg(Alone(msg), w.key) == w.reg
  {
    PlainAlone(msg, w.key);
    forall m | m in msgs && Mentions(m, w.key) ensures !Less(w.reg.At(), Reg(Alone(m), w.key).At()) {
      PlainAlone(m, w.key);
      LeastIsLeast(w.reg.At());
    }
  }

  lemma LeaderIsNewest(msgs: set<Message>, msg: Message, k: Key)
    requires (forall m :: m in msgs ==> Plain(m)) && Leads(msgs, msg, k)
    ensures Reg(Alone(msg), k) == Bottom(k.field) || Newest(WritesOf(msgs), Write(k, Reg(Alone(msg), k)))
  {
    PlainAlone(msg, k);
    forall w | w in WritesOf(msgs) && w.key == k ensures !Less(Reg(Alone(msg), k).At(), w.reg.At()) {
      var m :| m in msgs && w in Writes(m);
      PlainAlone(m, k);
    }
  }

  /** For plain messages the condition is that the newest writes to each register agree. */
  lemma DecidedIffNewestAgree(msgs: set<Message>)
    requires forall m :: m in msgs ==> Plain(m)
    ensures Decided(msgs) <==> NewestAgree(WritesOf(msgs))
  {
    var ws := WritesOf(msgs);
    if Decided(msgs) {
      forall v, w | Newest(ws, v) && Newest(ws, w) && v.key == w.key ensures v == w {
        var m :| m in msgs && v in Writes(m);
        var n :| n in msgs && w in Writes(n);
        NewestLeads(msgs, m, v);
        NewestLeads(msgs, n, w);
      }
    }
    if NewestAgree(ws) {
      forall k, m, n | Leads(msgs, m, k) && Leads(msgs, n, k) ensures Reg(Alone(m), k) == Reg(Alone(n), k) {
        LeadersAgree(msgs, k, m, n);
      }
    }
  }

  lemma LeadersAgree(msgs: set<Message>, k: Key, m: Message, n: Message)
    requires (forall x :: x in msgs ==> Plain(x)) && NewestAgree(WritesOf(msgs))
    requires Leads(msgs, m, k) && Leads(msgs, n, k)
    ensures Reg(Alone(m), k) == Reg(Alone(n), k)
  {
    LeaderIsNewest(msgs, m, k);
    LeaderIsNewest(msgs, n, k);
    PlainAlone(m, k);
    PlainAlone(n, k);
    LessTrichotomy(Reg(Alone(m), k).At(), Reg(Alone(n), k).At());
    LeastIsLeast(Reg(Alone(m), k).At());
  }
}
