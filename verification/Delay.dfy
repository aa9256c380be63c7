/** Delay arithmetic: the TTL of a first publish, the retry backoff, and their sums. */
module Delay {
  import opened Domain

  const MAX_INT64: int := 0x7FFF_FFFF_FFFF_FFFF
  const MIN_INT64: int := -0x8000_0000_0000_0000
  /** The broker's limit on a per-message TTL, in milliseconds. */
  const MAX_TTL: int := 0xFFFF_FFFF

  function Pow2(k: nat): (r: nat)
    ensures r >= 1
  {
    if k == 0 then 1 else 2 * Pow2(k - 1)
  }

  /** int64 multiplication keeps the low 64 bits. */
  function WrapInt64(x: int): (r: int)
    ensures MIN_INT64 <= r <= MAX_INT64
    ensures r == x <==> MIN_INT64 <= x <= MAX_INT64
  {
    var m := x % 0x1_0000_0000_0000_0000;
    if m > MAX_INT64 then m - 0x1_0000_0000_0000_0000 else m
  }

  /** 5 * 2^attempt, cut to whole seconds. */
  function BackoffSeconds(attempt: int): nat {
    if attempt >= 0 then 5 * Pow2(attempt) else if attempt == -1 then 2 else if attempt == -2 then 1 else 0
  }

  /** calculateExponentialBackoff in nanoseconds: the seconds, then an int64 product. */
  function Backoff(attempt: int): int {
    WrapInt64(BackoffSeconds(attempt) * SECOND)
  }

  /** Duration.Milliseconds: integer division that truncates toward zero. */
  function Milliseconds(d: int): int {
    if d >= 0 then d / MILLISECOND else -(-d / MILLISECOND)
  }

  /** The backoff as the TTL text of PublishRetry carries it. */
  function RetryTtl(attempt: int): int {
    Milliseconds(Backoff(attempt))
  }

  /** time.Until: the difference saturates at the int64 range. */
  function Until(at: Time, now: Time): (d: int)
    ensures MIN_INT64 <= d <= MAX_INT64
  {
    if at - now > MAX_INT64 then MAX_INT64 else if at - now < MIN_INT64 then MIN_INT64 else at - now
  }

  /** The TTL in milliseconds that Publish computes. */
  function PublishTtl(scheduledAt: Time, now: Time): nat {
    var delay := Until(scheduledAt, now);
    Milliseconds(if delay < 0 then 0 else delay)
  }

  /** Total wait of k retries. */
  function RetryWait(k: nat): int {
    if k == 0 then 0 else RetryWait(k - 1) + 5 * Pow2(k) * SECOND
  }

  lemma {:induction false} Pow2Monotone(a: nat, b: nat)
    requires a < b
    ensures 2 * Pow2(a) <= Pow2(b)
  {
    if a + 1 < b { Pow2Monotone(a, b - 1); }
  }

  lemma Pow2Small()
    ensures Pow2(0) == 1 && Pow2(1) == 2 && Pow2(2) == 4 && Pow2(3) == 8 && Pow2(4) == 16 && Pow2(5) == 32
  {
    assert Pow2(3) == 2 * Pow2(2);
    assert Pow2(4) == 2 * Pow2(3);
    assert Pow2(5) == 2 * Pow2(4);
  }

  lemma Pow2Of30()
    ensures Pow2(30) == 0x4000_0000 && Pow2(31) == 0x8000_0000
  {
    Pow2Sum(5, 5); Pow2Sum(10, 10); Pow2Sum(20, 10); Pow2Sum(30, 1); Pow2Small();
  }

  lemma {:induction false} Pow2Sum(a: nat, b: nat)
    ensures Pow2(a + b) == Pow2(a) * Pow2(b)
  {
    if b > 0 { Pow2Sum(a, b - 1); }
  }

  /** The backoff formula is exact precisely up to attempt 30; from 31 on the int64 product overflows. */
  lemma BackoffExactIff(attempt: nat)
    ensures Backoff(attempt) == 5 * Pow2(attempt) * SECOND <==> attempt <= 30
  {
    Pow2Of30();
    if attempt < 30 { Pow2Monotone(attempt, 30); }
    if attempt > 31 { Pow2Monotone(31, attempt); }
  }

  /** Where it is exact it at least doubles with every attempt. */
  lemma BackoffDoubles(a: nat, b: nat)
    requires a < b <= 30
    ensures 0 < 2 * Backoff(a) <= Backoff(b)
  {
    BackoffExactIff(a); BackoffExactIff(b); Pow2Monotone(a, b);
  }

  /** The closed form of the total retry wait, for every number of retries. */
  lemma {:induction false} RetryWaitClosedForm(k: nat)
    ensures RetryWait(k) == 10 * (Pow2(k) - 1) * SECOND
  {
    if k > 0 { RetryWaitClosedForm(k - 1); }
  }

  /** Every TTL the consumer can produce is exact to the millisecond, and one lineage waits 150 s in all. */
  lemma ReachableRetryTtl(attempt: nat)
    requires 1 <= attempt < MAX_RETRIES
    ensures RetryTtl(attempt) * MILLISECOND == 5 * Pow2(attempt) * SECOND
    ensures RetryTtl(attempt) == 5_000 * Pow2(attempt)
    ensures RetryTtl(attempt) in {10_000, 20_000, 40_000, 80_000}
    ensures RetryWait(attempt) <= RetryWait(4) == 150 * SECOND
  {
    BackoffExactIff(attempt);
    Pow2Small();
    RetryWaitClosedForm(attempt); RetryWaitClosedForm(4);
  }

  /** The TTL of a first publish undershoots the schedule by less than a millisecond, and the clamp makes a
      message for the past immediately due. It is the whole remaining delay unless the broker would refuse it. */
  lemma PublishTtlBounds(scheduledAt: Time, now: Time)
    requires PublishTtl(scheduledAt, now) <= MAX_TTL
    ensures now + PublishTtl(scheduledAt, now) * MILLISECOND > scheduledAt - MILLISECOND
    ensures scheduledAt >= now ==> now + PublishTtl(scheduledAt, now) * MILLISECOND <= scheduledAt
    ensures scheduledAt < now ==> PublishTtl(scheduledAt, now) == 0
  {
    var d := Until(scheduledAt, now);
    if d >= 0 {
      assert d == (d / MILLISECOND) * MILLISECOND + d % MILLISECOND;
    }
  }
}
