/** Agent ids: sanitizing what a client asks for, and finding a peer id nobody else has. */
module AgentIds {
  import opened Outcomes
  import Rooms

  const MAX_AGENT_ID_LEN := 64
  const AGENT_PEER_PREFIX := "agent:"

  // ---------- Sanitizing ----------

  /** Strip, trim, refuse what is left empty, and only then cut to length. */
  function ValidateAgentId(id: string): Option<string> {
    var clean := Rooms.Sanitized(id);
    if clean == "" then None
    else Some(if |clean| > MAX_AGENT_ID_LEN then clean[..MAX_AGENT_ID_LEN] else clean)
  }

  /** An accepted id is non-empty, within the limit, and free of control characters; it never starts with a blank. */
  lemma ValidAgentId(id: string)
    requires ValidateAgentId(id).Some?
    ensures var valid := ValidateAgentId(id).value;
      && 0 < |valid| <= MAX_AGENT_ID_LEN
      && (forall c :: c in valid ==> !Rooms.IsControl(c)) && !Rooms.IsWhitespace(valid[0])
  {
    Rooms.SanitizedClean(id);
  }

  /** An id is refused exactly when it is all control characters and blanks; else it is cut to 64 of what is left. */
  lemma AgentIdRefusedIff(id: string)
    ensures ValidateAgentId(id) == None <==> Rooms.AllBlank(id)
    ensures ValidateAgentId(id).Some? ==>
      var (clean, valid) := (Rooms.Sanitized(id), ValidateAgentId(id).value);
      valid <= clean && |valid| == if |clean| < 64 then |clean| else 64
  {
    Rooms.SanitizedEmptyIff(id);
  }

  /**
   Validating an accepted id again changes nothing exactly when the cut did not leave a blank at its end,
   which it does when the 64th character of an overlong id is one.
   */
  lemma RevalidationStableIff(id: string)
    requires ValidateAgentId(id).Some?
    ensures var (clean, valid) := (Rooms.Sanitized(id), ValidateAgentId(id).value);
      ValidateAgentId(valid) == Some(valid)
      <==> |clean| <= MAX_AGENT_ID_LEN || !Rooms.IsWhitespace(clean[MAX_AGENT_ID_LEN - 1])
  {
    var (clean, valid) := (Rooms.Sanitized(id), ValidateAgentId(id).value);
    Rooms.SanitizedClean(id);
    Rooms.SanitizedClean(valid);
    ValidAgentId(id);
    if |clean| <= MAX_AGENT_ID_LEN || !Rooms.IsWhitespace(clean[MAX_AGENT_ID_LEN - 1]) {
      assert Rooms.Clean(valid);
      Rooms.CleanIsSanitized(valid);
    } else {
      assert Rooms.IsWhitespace(valid[|valid| - 1]);
    }
  }

  /** 63 letters, a blank and one letter more: the blank is where the cut falls. */
  lemma RevalidationCanChange()
    ensures var id := seq(63, _ => 'a') + " b";
      ValidateAgentId(id).Some? && ValidateAgentId(ValidateAgentId(id).value) != ValidateAgentId(id)
  {
    var id := seq(63, _ => 'a') + " b";
    assert id[0] == 'a' && id[63] == ' ' && id[64] == 'b';
    Rooms.CleanIsSanitized(id);
    RevalidationStableIff(id);
  }

  // ---------- Uniqueness ----------

  function Digit(d: nat): char
    requires d < 10
  { "0123456789"[d] }

  function Decimal(n: nat): string {
    if n < 10 then [Digit(n)] else Decimal(n / 10) + [Digit(n % 10)]
  }

  /** The number that a string of digits stands for. */
  function Reads(s: string): int {
    if s == "" then 0 else 10 * Reads(s[..|s| - 1]) + (s[|s| - 1] as int - '0' as int)
  }

  lemma DigitReads(d: nat)
    requires d < 10
    ensures Digit(d) as int == '0' as int + d
  {
    var digits := "0123456789";
    assert digits[0] == '0' && digits[1] == '1' && digits[2] == '2' && digits[3] == '3' && digits[4] == '4';
    assert digits[5] == '5' && digits[6] == '6' && digits[7] == '7' && digits[8] == '8' && digits[9] == '9';
  }

  /** A number is rendered by its decimal digits, without leading zeros. */
  lemma {:induction false} DecimalReads(n: nat)
    ensures var s := Decimal(n);
      && Reads(s) == n && s != "" && (n > 0 ==> s[0] != '0')
      && forall i :: 0 <= i < |s| ==> '0' <= s[i] <= '9'
  {
    DigitReads(n % 10);
    if n < 10 {
      assert [Digit(n)][..0] == "";
    } else {
      var most := Decimal(n / 10);
      DecimalReads(n / 10);
      assert (most + [Digit(n % 10)])[..|most|] == most;
    }
  }

  lemma {:induction false} DecimalInjective(m: nat, n: nat)
    requires Decimal(m) == Decimal(n)
    ensures m == n
    decreases m + n
  {
    var (a, b) := (Decimal(m), Decimal(n));
    DecimalShape(m);
    DecimalShape(n);
    DigitInjective(m % 10, n % 10);
    if m >= 10 && n >= 10 {
      assert Decimal(m / 10) == a[..|a| - 1] && Decimal(n / 10) == b[..|b| - 1];
      DecimalInjective(m / 10, n / 10);
    }
  }

  lemma DecimalShape(n: nat)
    ensures var s := Decimal(n); |s| >= 1 && s[|s| - 1] == Digit(n % 10) && (|s| == 1 <==> n < 10)
  {
    if n >= 10 { assert |Decimal(n / 10)| >= 1; }
  }

  lemma DigitInjective(c: nat, d: nat)
    requires c < 10 && d < 10 && Digit(c) == Digit(d)
    ensures c == d
  {
    var digits := "0123456789";
    assert digits[0] == '0' && digits[1] == '1' && digits[2] == '2' && digits[3] == '3' && digits[4] == '4';
    assert digits[5] == '5' && digits[6] == '6' && digits[7] == '7' && digits[8] == '8' && digits[9] == '9';
  }

  /** The plain candidate, counted as the first, or the one with a numeric suffix. */
  function Candidate(base: string, k: nat): string {
    if k == 1 then AGENT_PEER_PREFIX + base else AGENT_PEER_PREFIX + base + "-" + Decimal(k)
  }

  lemma CandidateInjective(base: string, j: nat, k: nat)
    requires 1 <= j && 1 <= k && Candidate(base, j) == Candidate(base, k)
    ensures j == k
  {
    var stem := AGENT_PEER_PREFIX + base;
    DecimalShape(j);
    DecimalShape(k);
    if j == 1 || k == 1 {
      assert |Candidate(base, 1)| == |stem|;
    } else {
      var dashed := stem + "-";
      assert Candidate(base, j) == dashed + Decimal(j) && Candidate(base, k) == dashed + Decimal(k);
      assert Decimal(j) == Candidate(base, j)[|dashed|..] && Decimal(k) == Candidate(base, k)[|dashed|..];
      DecimalInjective(j, k);
    }
  }

  function Elements(s: seq<string>): set<string> { set x | x in s }

  lemma {:induction false} ElementsBound(s: seq<string>)
    ensures |Elements(s)| <= |s|
  {
    if s == [] {
    } else {
      ElementsBound(s[1..]);
      assert s == [s[0]] + s[1..];
      assert Elements(s) == {s[0]} + Elements(s[1..]);
    }
  }

  function Candidates(base: string, n: nat): set<string> {
    set k | 1 <= k <= n :: Candidate(base, k)
  }

  lemma {:induction false} CandidatesCount(base: string, n: nat)
    ensures |Candidates(base, n)| == n
  {
    if n == 0 {
    } else {
      CandidatesCount(base, n - 1);
      assert Candidates(base, n) == Candidates(base, n - 1) + {Candidate(base, n)};
      if Candidate(base, n) in Candidates(base, n - 1) {
        var k :| 1 <= k <= n - 1 && Candidate(base, k) == Candidate(base, n);
        CandidateInjective(base, k, n);
      }
    }
  }

  lemma SubsetCount(small: set<string>, large: set<string>)
    requires small <= large
    ensures |small| <= |large|
  {
    assert |large - small| == |large| - |small| by {
      assert large == small + (large - small);
    }
  }

  /** If the first n candidates are all taken, there are at least n existing ids: the search cannot go on for ever. */
  lemma Pigeonhole(base: string, existing: seq<string>, n: nat)
    requires forall k :: 1 <= k <= n ==> Candidate(base, k) in existing
    ensures n <= |existing|
  {
    assert Candidates(base, n) <= Elements(existing);
    CandidatesCount(base, n);
    SubsetCount(Candidates(base, n), Elements(existing));
    ElementsBound(existing);
  }

  /** The search: it ends with the first candidate nobody has, after at most one more than there are ids. */
  method MakeUnique(base: string, existing: seq<string>) returns (id: string, ghost k: nat)
    ensures id !in existing
    ensures 1 <= k <= |existing| + 1 && id == Candidate(base, k)
    ensures id == if k == 1 then "agent:" + base else "agent:" + base + "-" + Decimal(k)
    ensures forall j :: 1 <= j < k ==> Candidate(base, j) in existing
  {
    id, k := AGENT_PEER_PREFIX + base, 1;
    if id !in existing { return; }
    var suffix := 2;
    Pigeonhole(base, existing, 1);
    while true
      invariant 2 <= suffix <= |existing| + 1
      invariant forall j :: 1 <= j < suffix ==> Candidate(base, j) in existing
      decreases |existing| + 1 - suffix
    {
      id, k := AGENT_PEER_PREFIX + base + "-" + Decimal(suffix), suffix;
      if id !in existing { return; }
      assert id == Candidate(base, suffix);
      Pigeonhole(base, existing, suffix);
      suffix := suffix + 1;
    }
  }
}
