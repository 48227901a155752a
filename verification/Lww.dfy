/** Last-write-wins registers: the order on write stamps and the merge of two registers. */
module Lww {
  /** A write is stamped with a clock reading and the peer that made it. */
  datatype Stamp = Stamp(timestamp: nat, author: string)

  datatype Register<+T> = Register(value: T, timestamp: nat, author: string) {
    function At(): Stamp { Stamp(timestamp, author) }
  }

  /** Lexicographic order on strings, by character. */
  predicate StringLess(a: string, b: string) {
    b != [] && (a == [] || a[0] < b[0] || (a[0] == b[0] && StringLess(a[1..], b[1..])))
  }

  /** Timestamp first, author second. */
  predicate Less(a: Stamp, b: Stamp) {
    a.timestamp < b.timestamp || (a.timestamp == b.timestamp && StringLess(a.author, b.author))
  }

  /** The remote register replaces the local one only when its stamp is strictly larger. */
  function MergeLww<T>(local: Register<T>, remote: Register<T>): Register<T> {
    if remote.timestamp > local.timestamp
       || (remote.timestamp == local.timestamp && StringLess(local.author, remote.author))
    then remote else local
  }

  /** The strings agree before position `i`; there the first ends or has the smaller character. */
  predicate LessAt(a: string, b: string, i: nat) {
    i <= |a| && i < |b| && a[..i] == b[..i] && (i == |a| || a[i] < b[i])
  }

  lemma LessAtTail(a: string, b: string, i: nat)
    requires a != [] && b != [] && a[0] == b[0]
    ensures LessAt(a, b, i + 1) <==> LessAt(a[1..], b[1..], i)
  {
    if i <= |a| - 1 && i <= |b| - 1 {
      assert a[..i + 1] == [a[0]] + a[1..][..i] && b[..i + 1] == [b[0]] + b[1..][..i];
      assert a[1..][..i] == a[..i + 1][1..] && b[1..][..i] == b[..i + 1][1..];
    }
  }

  /** The order is decided at the first difference. */
  lemma {:induction false} StringLessIff(a: string, b: string)
    ensures StringLess(a, b) <==> exists i: nat :: LessAt(a, b, i)
  {
    if a == [] || b == [] {
      assert b != [] ==> LessAt(a, b, 0) || a != [];
    } else if a[0] != b[0] {
      assert a[0] < b[0] ==> LessAt(a, b, 0);
      assert forall i: nat :: LessAt(a, b, i) && i > 0 ==> a[..i][0] == b[..i][0];
    } else {
      StringLessIff(a[1..], b[1..]);
      if i: nat :| LessAt(a[1..], b[1..], i) { LessAtTail(a, b, i); }
      if i: nat :| LessAt(a, b, i) {
        assert i > 0;
        LessAtTail(a, b, i - 1);
      }
    }
  }

  /** The documented rules, in order: the higher timestamp wins, then the higher author, then the local register. */
  lemma MergeRules<T>(local: Register<T>, remote: Register<T>)
    ensures remote.timestamp > local.timestamp ==> MergeLww(local, remote) == remote
    ensures remote.timestamp < local.timestamp ==> MergeLww(local, remote) == local
    ensures remote.timestamp == local.timestamp ==>
      MergeLww(local, remote) == if StringLess(local.author, remote.author) then remote else local
  {
  }

  // ---------- The stamp order is a strict total order with a least element ----------

  lemma {:induction false} StringLessTransitive(a: string, b: string, c: string)
    requires StringLess(a, b) && StringLess(b, c)
    ensures StringLess(a, c)
  {
    if a != [] && a[0] == b[0] == c[0] {
      StringLessTransitive(a[1..], b[1..], c[1..]);
    }
  }

  lemma {:induction false} StringLessTrichotomy(a: string, b: string)
    ensures StringLess(a, b) || a == b || StringLess(b, a)
    ensures !(StringLess(a, b) && StringLess(b, a))
    ensures !StringLess(a, a)
  {
    if a == [] {
    } else {
      StringLessTrichotomy(a[1..], a[1..]);
    }
    if a != [] && b != [] && a[0] == b[0] {
      StringLessTrichotomy(a[1..], b[1..]);
      assert a == [a[0]] + a[1..] && b == [b[0]] + b[1..];
    }
  }

  lemma LessTransitive(a: Stamp, b: Stamp, c: Stamp)
    requires Less(a, b) && Less(b, c)
    ensures Less(a, c)
  {
    if a.timestamp == b.timestamp == c.timestamp {
      StringLessTransitive(a.author, b.author, c.author);
    }
  }

  lemma LessTrichotomy(a: Stamp, b: Stamp)
    ensures Less(a, b) || a == b || Less(b, a)
    ensures !(Less(a, b) && Less(b, a))
    ensures !Less(a, a)
  {
    StringLessTrichotomy(a.author, b.author);
    StringLessTrichotomy(a.author, a.author);
  }

  /** Not being below survives a step upwards of the larger side. */
  lemma NotLessStep(low: Stamp, mid: Stamp, high: Stamp)
    requires !Less(mid, low) && Less(mid, high)
    ensures !Less(high, low)
  {
    if Less(high, low) {
      LessTransitive(mid, high, low);
    }
  }

  /** Not being below is transitive. */
  lemma NotLessTransitive(low: Stamp, mid: Stamp, high: Stamp)
    requires !Less(mid, low) && !Less(high, mid)
    ensures !Less(high, low)
  {
    LessTrichotomy(mid, high);
    if mid != high { NotLessStep(low, mid, high); }
  }

  // ---------- Algebra of the merge ----------

  /** A stamp that both registers carry determines the value. */
  predicate Agree<T(==)>(a: Register<T>, b: Register<T>) {
    a.At() == b.At() ==> a.value == b.value
  }

  /** The merge is commutative exactly where equal stamps mean equal values. */
  lemma MergeCommutesIff<T>(a: Register<T>, b: Register<T>)
    ensures MergeLww(a, b) == MergeLww(b, a) <==> Agree(a, b)
  {
    LessTrichotomy(a.At(), b.At());
  }

  /** Associativity and idempotence need no condition. */
  lemma MergeAssociative<T>(a: Register<T>, b: Register<T>, c: Register<T>)
    ensures MergeLww(MergeLww(a, b), c) == MergeLww(a, MergeLww(b, c))
    ensures MergeLww(a, a) == a
  {
    LessTrichotomy(a.At(), b.At());
    LessTrichotomy(b.At(), c.At());
    LessTrichotomy(a.At(), c.At());
    if Less(a.At(), b.At()) && Less(b.At(), c.At()) {
      LessTransitive(a.At(), b.At(), c.At());
    }
    if !Less(a.At(), b.At()) && !Less(b.At(), c.At()) && Less(a.At(), c.At()) {
      NotLessStep(b.At(), a.At(), c.At());
    }
  }

  /** The merge is the least upper bound: one of the two, below neither. */
  lemma MergeIsUpperBound<T>(a: Register<T>, b: Register<T>)
    ensures MergeLww(a, b) in {a, b}
    ensures !Less(MergeLww(a, b).At(), a.At()) && !Less(MergeLww(a, b).At(), b.At())
  {
    LessTrichotomy(a.At(), b.At());
    LessTrichotomy(a.At(), a.At());
    LessTrichotomy(b.At(), b.At());
  }

  /** Merging keeps whatever lower bound the local register already had. */
  lemma MergeKeepsBound<T>(a: Register<T>, b: Register<T>, bound: Stamp)
    requires !Less(a.At(), bound)
    ensures !Less(MergeLww(a, b).At(), bound)
  {
    if Less(a.At(), b.At()) {
      NotLessStep(bound, a.At(), b.At());
    }
  }

  const LEAST := Stamp(0, "")

  /** Nothing is below the stamp that stub registers carry. */
  lemma LeastIsLeast(a: Stamp)
    ensures !Less(a, LEAST)
    ensures a != LEAST ==> Less(LEAST, a)
  {
  }
}
