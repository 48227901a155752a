/**
 Reconnecting with exponential backoff: the delays, their jitter, and the attempts announced.
 Durations are in nanoseconds.
 */
module Backoff {
  import opened Arithmetic

  const U32_MAX := 0xFFFF_FFFF
  const U64_MAX := 0xFFFF_FFFF_FFFF_FFFF
  const NANOS_PER_MILLI := 1_000_000
  const DURATION_MAX := U64_MAX * 1_000_000_000 + 999_999_999

  function Pow2(k: nat): (r: nat)
    ensures r >= 1
  { if k == 0 then 1 else 2 * Pow2(k - 1) }

  function Min(a: nat, b: nat): nat { if a <= b then a else b }

  /** `2u32.saturating_pow(k)`. */
  function SaturatingPow2(k: nat): nat { if Pow2(k) <= U32_MAX then Pow2(k) else U32_MAX }

  /** `Duration::saturating_mul`. */
  function SaturatingMul(d: nat, factor: nat): nat { if d * factor <= DURATION_MAX then d * factor else DURATION_MAX }

  datatype ReconnectConfig = ReconnectConfig(initialDelay: nat, maxDelay: nat, maxAttempts: nat) {
    predicate Valid() { initialDelay <= DURATION_MAX && maxDelay <= DURATION_MAX }
  }

  function CappedDelay(cfg: ReconnectConfig, attempt: nat): nat {
    Min(SaturatingMul(cfg.initialDelay, SaturatingPow2(attempt)), cfg.maxDelay)
  }

  /** The largest jitter, in milliseconds: a quarter of the capped delay. */
  function JitterRange(delay: nat): nat { delay / NANOS_PER_MILLI / 4 }

  /** The sleep for a drawn jitter; one that does not fit 64 bits counts as zero. */
  function Sleep(delay: nat, jitterMillis: nat): nat {
    delay + (if jitterMillis <= U64_MAX then jitterMillis else 0) * NANOS_PER_MILLI
  }

  /** The jitter range is exactly the whole milliseconds that fit a quarter of the delay. */
  lemma JitterRangeIff(delay: nat, millis: nat)
    ensures millis <= JitterRange(delay) <==> 4 * (millis * NANOS_PER_MILLI) <= delay
  {
    assert JitterRange(delay) == delay / (4 * NANOS_PER_MILLI);
    assert delay == delay / (4 * NANOS_PER_MILLI) * (4 * NANOS_PER_MILLI) + delay % (4 * NANOS_PER_MILLI);
  }

  /** A sleep is the delay plus the jitter drawn, as long as that fits 64 bits. */
  lemma SleepIsSum(delay: nat, jitterMillis: nat)
    ensures jitterMillis <= 0xFFFF_FFFF_FFFF_FFFF ==> Sleep(delay, jitterMillis) == delay + jitterMillis * 1_000_000
    ensures jitterMillis > 0xFFFF_FFFF_FFFF_FFFF ==> Sleep(delay, jitterMillis) == delay
  {
  }

  /** The powers are of two. */
  lemma {:induction false} Pow2Doubles(k: nat)
    ensures Pow2(0) == 1 && Pow2(k + 1) == Pow2(k) + Pow2(k)
  {
  }

  // ---------- The delays ----------

  lemma {:induction false} Pow2Monotone(j: nat, k: nat)
    requires j <= k
    ensures Pow2(j) <= Pow2(k)
  {
    if j < k { Pow2Monotone(j, k - 1); }
  }

  /** Saturation never shows below the cap: the delay is the exact product, capped. */
  lemma CappedDelayExact(cfg: ReconnectConfig, k: nat)
    requires cfg.Valid()
    ensures CappedDelay(cfg, k) == Min(cfg.initialDelay * Min(Pow2(k), U32_MAX), cfg.maxDelay)
  {
  }

  lemma CappedDelayMonotone(cfg: ReconnectConfig, j: nat, k: nat)
    requires cfg.Valid() && j <= k
    ensures CappedDelay(cfg, j) <= CappedDelay(cfg, k)
  {
    Pow2Monotone(j, k);
    CappedDelayExact(cfg, j);
    CappedDelayExact(cfg, k);
    MulMonotone(Min(Pow2(j), U32_MAX), Min(Pow2(k), U32_MAX), cfg.initialDelay);
  }

  /** Jitter adds at most a quarter. */
  lemma SleepWithinQuarter(delay: nat, jitterMillis: nat)
    requires jitterMillis <= JitterRange(delay)
    ensures delay <= Sleep(delay, jitterMillis) && 4 * Sleep(delay, jitterMillis) <= 5 * delay
  {
    var millis := delay / NANOS_PER_MILLI;
    assert millis * NANOS_PER_MILLI <= delay;
    assert 4 * (millis / 4) <= millis;
  }

  /** The longest sleep after a delay: all the jitter that counts. */
  function LongestSleep(delay: nat): nat { delay + Min(JitterRange(delay), U64_MAX) * NANOS_PER_MILLI }

  lemma SleepAtMostLongest(delay: nat, jitterMillis: nat)
    requires jitterMillis <= JitterRange(delay)
    ensures Sleep(delay, jitterMillis) <= LongestSleep(delay)
  {
    MulMonotone(jitterMillis, Min(JitterRange(delay), U64_MAX), NANOS_PER_MILLI);
  }

  /** Delay and jitter stay within a duration, whatever jitter is drawn, exactly when the longest sleep does. */
  lemma SleepFitsIff(delay: nat)
    ensures (forall j :: 0 <= j <= JitterRange(delay) ==> Sleep(delay, j) <= DURATION_MAX)
      <==> LongestSleep(delay) <= DURATION_MAX
  {
    forall j | 0 <= j <= JitterRange(delay) ensures Sleep(delay, j) <= LongestSleep(delay) {
      SleepAtMostLongest(delay, j);
    }
    var most := Min(JitterRange(delay), U64_MAX);
    assert Sleep(delay, most) == LongestSleep(delay);
  }

  lemma LongestMonotone(a: nat, b: nat)
    requires a <= b
    ensures LongestSleep(a) <= LongestSleep(b)
  {
    assert a / NANOS_PER_MILLI <= b / NANOS_PER_MILLI;
    MulMonotone(Min(JitterRange(a), U64_MAX), Min(JitterRange(b), U64_MAX), NANOS_PER_MILLI);
  }

  /** No attempt can overflow its sleep, exactly when the last one cannot. */
  lemma NoSleepOverflowsIff(cfg: ReconnectConfig)
    requires cfg.Valid()
    ensures (forall k: nat, j: nat :: k < cfg.maxAttempts && j <= JitterRange(CappedDelay(cfg, k))
               ==> Sleep(CappedDelay(cfg, k), j) <= DURATION_MAX)
      <==> cfg.maxAttempts == 0 || LongestSleep(CappedDelay(cfg, cfg.maxAttempts - 1)) <= DURATION_MAX
  {
    if cfg.maxAttempts > 0 {
      var last := CappedDelay(cfg, cfg.maxAttempts - 1);
      forall k: nat, j: nat | k < cfg.maxAttempts && j <= JitterRange(CappedDelay(cfg, k))
        ensures Sleep(CappedDelay(cfg, k), j) <= LongestSleep(last)
      {
        CappedDelayMonotone(cfg, k, cfg.maxAttempts - 1);
        SleepAtMostLongest(CappedDelay(cfg, k), j);
        LongestMonotone(CappedDelay(cfg, k), last);
      }
      var most := Min(JitterRange(last), U64_MAX);
      assert Sleep(last, most) == LongestSleep(last) && most <= JitterRange(last);
    }
  }

  /** The longest delays a duration can hold do overflow. */
  lemma SleepCanOverflow()
    ensures var cfg := ReconnectConfig(DURATION_MAX, DURATION_MAX, 1);
      cfg.Valid() && LongestSleep(CappedDelay(cfg, 0)) > DURATION_MAX
  {
    CappedDelayExact(ReconnectConfig(DURATION_MAX, DURATION_MAX, 1), 0);
  }

  function Sum(s: seq<nat>): nat {
    if s == [] then 0 else Sum(s[..|s| - 1]) + s[|s| - 1]
  }

  /** A sleep that attempt k can draw. */
  ghost predicate Drawable(cfg: ReconnectConfig, k: nat, sleep: nat) {
    exists j :: 0 <= j <= JitterRange(CappedDelay(cfg, k)) && sleep == Sleep(CappedDelay(cfg, k), j)
  }

  ghost predicate Jittered(cfg: ReconnectConfig, sleeps: seq<nat>) {
    forall k :: 0 <= k < |sleeps| ==> Drawable(cfg, k, sleeps[k])
  }

  /** One sleep is at most 1.25 times the cap, and 1.25 times the exact product. */
  lemma SleepBounds(cfg: ReconnectConfig, k: nat, sleep: nat)
    requires cfg.Valid() && Drawable(cfg, k, sleep)
    ensures 4 * sleep <= 5 * cfg.maxDelay && 4 * sleep <= 5 * (cfg.initialDelay * Pow2(k))
  {
    var d := CappedDelay(cfg, k);
    var j: nat :| j <= JitterRange(d) && sleep == Sleep(d, j);
    SleepWithinQuarter(d, j);
    CappedDelayExact(cfg, k);
    MulMonotone(Min(Pow2(k), U32_MAX), Pow2(k), cfg.initialDelay);
  }

  lemma OneMore(k: nat, a: nat)
    ensures k * a + a == (k + 1) * a
  {
  }

  lemma {:induction false} TotalUnderCap(cfg: ReconnectConfig, sleeps: seq<nat>)
    requires cfg.Valid() && Jittered(cfg, sleeps)
    ensures 4 * Sum(sleeps) <= 5 * (|sleeps| * cfg.maxDelay)
  {
    if sleeps == [] {
    } else {
      var k := |sleeps| - 1;
      TotalUnderCap(cfg, sleeps[..k]);
      SleepBounds(cfg, k, sleeps[k]);
      OneMore(k, cfg.maxDelay);
    }
  }

  lemma {:induction false} TotalUnderDoubling(cfg: ReconnectConfig, sleeps: seq<nat>)
    requires cfg.Valid() && Jittered(cfg, sleeps)
    ensures 4 * Sum(sleeps) <= 5 * (cfg.initialDelay * (Pow2(|sleeps|) - 1))
  {
    if sleeps == [] {
    } else {
      var k := |sleeps| - 1;
      TotalUnderDoubling(cfg, sleeps[..k]);
      SleepBounds(cfg, k, sleeps[k]);
      Distribute(cfg.initialDelay, Pow2(k));
    }
  }

  lemma Distribute(a: nat, p: nat)
    requires p > 0
    ensures a * (p - 1) + a * p == a * (2 * p - 1)
  {
  }

  /** The first n sleeps together: at most 1.25 times the smaller of the two closed forms. */
  lemma TotalSleep(cfg: ReconnectConfig, sleeps: seq<nat>)
    requires cfg.Valid() && Jittered(cfg, sleeps)
    ensures 4 * Sum(sleeps) <= 5 * Min(cfg.initialDelay * (Pow2(|sleeps|) - 1), |sleeps| * cfg.maxDelay)
  {
    TotalUnderCap(cfg, sleeps);
    TotalUnderDoubling(cfg, sleeps);
  }

  // ---------- The attempt loop ----------

  /** What attempt k meets: shutdown before or after its sleep, its jitter, and whether it connects. */
  datatype Attempt = Attempt(stoppedBefore: bool, jitter: nat, stoppedAfter: bool, connects: bool)

  ghost predicate Drawn(cfg: ReconnectConfig, fate: seq<Attempt>) {
    |fate| == cfg.maxAttempts && forall k :: 0 <= k < |fate| ==> fate[k].jitter <= JitterRange(CappedDelay(cfg, k))
  }

  /** The sleep of attempt k is longer than a duration can be: the addition panics. */
  predicate Overflows(cfg: ReconnectConfig, k: nat, now: Attempt) {
    !now.stoppedBefore && Sleep(CappedDelay(cfg, k), now.jitter) > DURATION_MAX
  }

  /** How the loop ends. */
  datatype Ending = Connected | Stopped | Exhausted | Panicked

  /** Attempt k is the one the loop ends at, that way; every earlier one sleeps, is announced and fails to connect. */
  ghost predicate EndsAt(cfg: ReconnectConfig, fate: seq<Attempt>, k: nat, ending: Ending)
    requires |fate| == cfg.maxAttempts
  {
    match ending
    case Exhausted => k == cfg.maxAttempts
    case Stopped => k < |fate| && !Overflows(cfg, k, fate[k]) && (fate[k].stoppedBefore || fate[k].stoppedAfter)
    case Panicked => k < |fate| && Overflows(cfg, k, fate[k])
    case Connected =>
      k < |fate| && !Overflows(cfg, k, fate[k]) && !fate[k].stoppedBefore && !fate[k].stoppedAfter && fate[k].connects
  }

  /** An attempt that changes nothing: it sleeps, is announced and fails. */
  predicate Fails(cfg: ReconnectConfig, k: nat, now: Attempt) {
    !now.stoppedBefore && !Overflows(cfg, k, now) && !now.stoppedAfter && !now.connects
  }

  /**
   Attempts are announced 1, 2, 3, ... without gaps. The loop ends at the first one that connects, is stopped by a
   shutdown or overflows its sleep, or after the last; `k` is where, and all before it have failed.
   */
  method Reconnect(cfg: ReconnectConfig, fate: seq<Attempt>)
    returns (ending: Ending, announced: seq<nat>, sleeps: seq<nat>, k: nat)
    requires cfg.Valid() && Drawn(cfg, fate)
    ensures k <= cfg.maxAttempts && EndsAt(cfg, fate, k, ending)
    ensures forall i :: 0 <= i < k ==> Fails(cfg, i, fate[i])
    ensures |announced| == (if ending.Connected? then k + 1 else k)
    ensures forall i :: 0 <= i < |announced| ==> announced[i] == i + 1
    ensures |sleeps| == (if ending.Connected? || (ending.Stopped? && !fate[k].stoppedBefore) then k + 1 else k)
    ensures Jittered(cfg, sleeps) && forall i :: 0 <= i < |sleeps| ==> sleeps[i] <= DURATION_MAX
  {
    announced, sleeps, k := [], [], 0;
    while k < cfg.maxAttempts
      invariant k == |announced| == |sleeps| <= cfg.maxAttempts
      invariant forall i :: 0 <= i < k ==> announced[i] == i + 1
      invariant forall i :: 0 <= i < k ==> Fails(cfg, i, fate[i])
      invariant Jittered(cfg, sleeps) && forall i :: 0 <= i < |sleeps| ==> sleeps[i] <= DURATION_MAX
    {
      var now := fate[k];
      if now.stoppedBefore { return Stopped, announced, sleeps, k; }
      var sleep := Sleep(CappedDelay(cfg, k), now.jitter);
      if sleep > DURATION_MAX { return Panicked, announced, sleeps, k; }
      assert Drawable(cfg, k, sleep);
      sleeps := sleeps + [sleep];
      if now.stoppedAfter { return Stopped, announced, sleeps, k; }
      announced := announced + [k + 1];
      if now.connects { return Connected, announced, sleeps, k; }
      k := k + 1;
    }
    ending := Exhausted;
  }
}
