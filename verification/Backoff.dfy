/** The retry-delay arithmetic shared by startup validation (src/config.rs) and the
    retry loops (crates/consumer/src/delivery.rs). */
module Backoff {
  import opened Common

  const MAX_U32: nat := 0xFFFF_FFFF
  const MAX_RETRY_DELAY_MS: nat := 30 * 60 * 1000

  function Min(a: nat, b: nat): nat {
    if a <= b then a else b
  }

  function SaturatingMul(a: nat, b: nat): nat {
    Min(a * b, MAX_U64)
  }

  /** 1 << n */
  function Shift(n: nat): nat {
    if n == 0 then 1 else 2 * Shift(n - 1)
  }

  /** The sleep before attempt `attempt`, in milliseconds. */
  function RetryDelayMs(baseMs: nat, attempt: nat): nat {
    Min(SaturatingMul(baseMs, Shift(Min(attempt, 10))), MAX_RETRY_DELAY_MS)
  }

  /** The sleep after the `rlCount`-th consecutive rate-limit answer, in seconds. */
  function RateLimitDelaySecs(rlCount: nat): nat {
    30 * Shift(Min(rlCount, 3))
  }

  /** Startup accepts the base delay. */
  predicate AcceptsBase(baseMs: nat) {
    Min(SaturatingMul(baseMs, 2), MAX_RETRY_DELAY_MS) < MAX_RETRY_DELAY_MS
  }

  /** The total startup warns about: the sum over attempts 1 to `maxRetries`. */
  function TotalDelayMs(baseMs: nat, maxRetries: nat): nat {
    if maxRetries == 0 then 0 else TotalDelayMs(baseMs, maxRetries - 1) + RetryDelayMs(baseMs, maxRetries)
  }

  lemma {:induction false} ShiftMonotone(i: nat, j: nat)
    requires i <= j
    ensures 1 <= Shift(i) <= Shift(j)
  {
    if i < j {
      ShiftMonotone(i, j - 1);
    } else if i > 0 {
      ShiftMonotone(i - 1, j - 1);
    }
  }

  lemma ShiftAtCap()
    ensures Shift(10) == 1024 && Shift(3) == 8
  {
    assert Shift(5) == 32;
  }

  lemma MulMonotone(a: nat, x: nat, y: nat)
    requires x <= y
    ensures a * x <= a * y
  {
  }

  /** Waiting longer never means waiting less, and no wait exceeds 30 minutes. */
  lemma DelayMonotone(baseMs: nat, i: nat, j: nat)
    requires i <= j
    ensures RetryDelayMs(baseMs, i) <= RetryDelayMs(baseMs, j) <= MAX_RETRY_DELAY_MS
  {
    ShiftMonotone(Min(i, 10), Min(j, 10));
    MulMonotone(baseMs, Shift(Min(i, 10)), Shift(Min(j, 10)));
  }

  lemma DoubledCap(x: nat, cap: nat)
    ensures Min(2 * x, cap) == Min(2 * Min(x, cap), cap)
  {
  }

  lemma SaturationIsCapped(a: nat, b: nat)
    ensures Min(SaturatingMul(a, b), MAX_RETRY_DELAY_MS) == Min(a * b, MAX_RETRY_DELAY_MS)
  {
  }

  lemma TwiceTheProduct(a: nat, b: nat)
    ensures a * (2 * b) == 2 * (a * b)
  {
  }

  lemma DelayStep(baseMs: nat, attempt: nat)
    requires attempt < 10
    ensures RetryDelayMs(baseMs, attempt + 1) == Min(2 * RetryDelayMs(baseMs, attempt), MAX_RETRY_DELAY_MS)
  {
    var s := Shift(attempt);
    assert Shift(attempt + 1) == 2 * s;
    SaturationIsCapped(baseMs, s);
    SaturationIsCapped(baseMs, 2 * s);
    TwiceTheProduct(baseMs, s);
    DoubledCap(baseMs * s, MAX_RETRY_DELAY_MS);
  }

  /** The first retry waits twice the base, each further one twice as long as the one before, up
      to 30 minutes; from the tenth on the wait stays the same. */
  lemma DelayDoubles(baseMs: nat, attempt: nat)
    ensures RetryDelayMs(baseMs, 0) == Min(baseMs, MAX_RETRY_DELAY_MS)
    ensures RetryDelayMs(baseMs, 1) == Min(2 * baseMs, MAX_RETRY_DELAY_MS)
    ensures attempt < 10 ==>
              RetryDelayMs(baseMs, attempt + 1) == Min(2 * RetryDelayMs(baseMs, attempt), MAX_RETRY_DELAY_MS)
    ensures attempt >= 10 ==> RetryDelayMs(baseMs, attempt) == RetryDelayMs(baseMs, 10)
  {
    assert Shift(0) == 1;
    SaturationIsCapped(baseMs, 1);
    DelayStep(baseMs, 0);
    DoubledCap(baseMs, MAX_RETRY_DELAY_MS);
    if attempt < 10 {
      DelayStep(baseMs, attempt);
    }
  }

  /** Rate-limit waits are one, two and then four minutes. */
  lemma RateLimitDelays(rlCount: nat)
    requires rlCount >= 1
    ensures RateLimitDelaySecs(rlCount) == if rlCount == 1 then 60 else if rlCount == 2 then 120 else 240
  {
    ShiftAtCap();
  }

  /** Startup accepts exactly the bases below 900 000 ms, and for those the saturating
      product is the exact product at every attempt. */
  lemma AcceptedBaseNeverSaturates(baseMs: nat, attempt: nat)
    ensures AcceptsBase(baseMs) <==> baseMs < 900_000
    ensures AcceptsBase(baseMs) ==>
              SaturatingMul(baseMs, Shift(Min(attempt, 10))) == baseMs * Shift(Min(attempt, 10))
  {
    ShiftAtCap();
    ShiftMonotone(Min(attempt, 10), 10);
    if baseMs < 900_000 {
      MulMonotone(baseMs, Shift(Min(attempt, 10)), 1024);
    }
  }

  /** Whatever the configuration, the 64-bit sum at startup cannot overflow. */
  lemma TotalFitsU64(baseMs: nat, maxRetries: nat)
    requires maxRetries <= MAX_U32
    ensures TotalDelayMs(baseMs, maxRetries) <= MAX_U64
  {
    TotalBound(baseMs, maxRetries);
    MulMonotone(MAX_RETRY_DELAY_MS, maxRetries, MAX_U32);
  }

  lemma {:induction false} TotalBound(baseMs: nat, maxRetries: nat)
    ensures TotalDelayMs(baseMs, maxRetries) <= MAX_RETRY_DELAY_MS * maxRetries
  {
    if maxRetries > 0 {
      TotalBound(baseMs, maxRetries - 1);
      DelayMonotone(baseMs, maxRetries, maxRetries);
    }
  }
}
