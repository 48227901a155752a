/** How often an element occurs in a list, and which lists are left after dropping elements. */
module Counting {
  function Count<T(==)>(s: seq<T>, x: T): nat {
    if s == [] then 0 else Count(s[..|s| - 1], x) + (if s[|s| - 1] == x then 1 else 0)
  }

  lemma CountAppend<T>(s: seq<T>, last: T, x: T)
    ensures Count(s + [last], x) == Count(s, x) + (if last == x then 1 else 0)
  {
    assert (s + [last])[..|s|] == s;
  }

  lemma {:induction false} CountJoin<T>(s: seq<T>, t: seq<T>, x: T)
    ensures Count(s + t, x) == Count(s, x) + Count(t, x)
  {
    if t == [] {
      assert s + t == s;
    } else {
      var last := |t| - 1;
      CountJoin(s, t[..last], x);
      assert (s + t)[..|s| + last] == s + t[..last];
    }
  }

  lemma CountHead<T>(s: seq<T>, x: T)
    requires s != []
    ensures Count(s, x) == Count([s[0]], x) + Count(s[1..], x)
  {
    CountJoin([s[0]], s[1..], x);
    assert s == [s[0]] + s[1..];
  }

  lemma {:induction false} CountPositive<T>(s: seq<T>, x: T)
    ensures Count(s, x) > 0 <==> x in s
  {
    if s == [] {
    } else {
      CountPositive(s[..|s| - 1], x);
      assert s == s[..|s| - 1] + [s[|s| - 1]];
    }
  }

  /** Two positions with one element make it occur twice. */
  lemma TwiceIn<T>(s: seq<T>, i: nat, j: nat)
    requires i < |s| && j < |s| && s[i] == s[j] && i != j
    ensures Count(s, s[i]) >= 2
  {
    var (lo, hi) := if i < j then (i, j) else (j, i);
    assert s == s[..hi] + s[hi..] && s[lo] == s[..hi][lo] && s[hi] == s[hi..][0];
    CountJoin(s[..hi], s[hi..], s[i]);
    CountPositive(s[..hi], s[i]);
    CountPositive(s[hi..], s[i]);
  }

  /** `s` is what is left of `t` after dropping some of its elements. */
  predicate Subsequence<T(==)>(s: seq<T>, t: seq<T>)
    decreases |t|
  {
    || s == []
    || (t != [] && (|| Subsequence(s, t[..|t| - 1])
                    || (s[|s| - 1] == t[|t| - 1] && Subsequence(s[..|s| - 1], t[..|t| - 1]))))
  }

  lemma {:induction false} SubsequenceCons<T>(s: seq<T>, t: seq<T>, x: T)
    requires Subsequence(s, t)
    ensures Subsequence(s, [x] + t) && Subsequence([x] + s, [x] + t)
    decreases |t|
  {
    if t == [] {
      assert [x] + s == [x] == [x] + t && [x][..0] == [];
    } else {
      var t1 := t[..|t| - 1];
      assert ([x] + t)[..|t|] == [x] + t1;
      if Subsequence(s, t1) {
        SubsequenceCons(s, t1, x);
      } else {
        var s1 := s[..|s| - 1];
        SubsequenceCons(s1, t1, x);
        assert ([x] + s)[..|s|] == [x] + s1;
      }
    }
  }
}
