/** The reconnection back-off: `Math.min(1000 * 2 ** retryCount, MAX_RETRY_DELAY_MS)`. */
module Backoff {

  const BaseDelayMs: nat := 1000
  const MaxRetryDelayMs: nat := 10000

  function Pow2(n: nat): (r: nat)
    ensures r >= 1
  {
    if n == 0 then 1 else 2 * Pow2(n - 1)
  }

  /** Milliseconds to wait before the reconnection attempt that follows
      `retryCount` earlier attempts.  Unbounded integers agree with the
      source's doubles here: once `2 ** n` overflows to Infinity the
      minimum is the cap either way. */
  function Delay(retryCount: nat): (d: nat)
    ensures BaseDelayMs <= d <= MaxRetryDelayMs
    ensures d <= BaseDelayMs * Pow2(retryCount)
    ensures d == MaxRetryDelayMs || d == BaseDelayMs * Pow2(retryCount)
  {
    var raw := BaseDelayMs * Pow2(retryCount);
    if raw < MaxRetryDelayMs then raw else MaxRetryDelayMs
  }

  lemma {:induction false} Pow2Monotone(m: nat, n: nat)
    requires m <= n
    ensures Pow2(m) <= Pow2(n)
    decreases n
  {
    if m < n {
      Pow2Monotone(m, n - 1);
    }
  }

  /** Waiting never gets shorter as retries accumulate. */
  lemma DelayMonotone(m: nat, n: nat)
    requires m <= n
    ensures Delay(m) <= Delay(n)
  {
    Pow2Monotone(m, n);
  }

  /** Each further retry doubles the wait until it reaches the cap. */
  lemma DelayDoubles(n: nat)
    ensures Delay(n + 1) == if 2 * Delay(n) < MaxRetryDelayMs then 2 * Delay(n) else MaxRetryDelayMs
  {
    assert Pow2(n + 1) == 2 * Pow2(n);
  }

  /** From the fifth attempt on (retryCount >= 4) the wait is the cap. */
  lemma {:induction false} DelayCapped(n: nat)
    requires n >= 4
    ensures Delay(n) == MaxRetryDelayMs
  {
    Pow2Monotone(4, n);
    assert Pow2(4) == 16;
  }

  /** The first waits of the schedule. */
  lemma DelaySchedule()
    ensures Delay(0) == 1000 && Delay(1) == 2000 && Delay(2) == 4000 && Delay(3) == 8000
    ensures Delay(4) == 10000
  {
    assert Pow2(4) == 16;
  }
}
