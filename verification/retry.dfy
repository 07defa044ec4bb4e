/**
 * The retry policy the API client installs on its HTTP client: at most three
 * retries, exponential backoff capped at ten seconds, and the condition under
 * which a failed attempt is retried.
 */
module Retry {
  import opened Wrappers
  import opened Http

  const MaxRetries: nat := 3
  const BaseDelayMs: nat := 1000
  const MaxDelayMs: nat := 10000

  function Pow2(n: nat): (p: nat)
    ensures p >= 1
  {
    if n == 0 then 1 else 2 * Pow2(n - 1)
  }

  lemma {:induction false} Pow2Monotone(a: nat, b: nat)
    requires a <= b
    ensures Pow2(a) <= Pow2(b)
    decreases b
  {
    if a < b {
      Pow2Monotone(a, b - 1);
    }
  }

  /** Below four doublings the power stays at most 8; from four on it is at least 16. */
  lemma Pow2Threshold(n: nat)
    ensures n <= 3 ==> Pow2(n) <= 8
    ensures n >= 4 ==> Pow2(n) >= 16
  {
    if n <= 3 {
      Pow2Monotone(n, 3);
    } else {
      Pow2Monotone(4, n);
    }
  }

  /** `Math.min(1000 * Math.pow(2, retryCount), 10000)` */
  function RetryDelay(retryCount: nat): (ms: nat)
    ensures ms <= MaxDelayMs
    ensures retryCount <= 3 ==> ms == BaseDelayMs * Pow2(retryCount)
    ensures retryCount >= 4 ==> ms == MaxDelayMs
  {
    Pow2Threshold(retryCount);
    var d := BaseDelayMs * Pow2(retryCount);
    if d < MaxDelayMs then d else MaxDelayMs
  }

  /** The backoff never shrinks as the retry count grows. */
  lemma RetryDelayMonotone(a: nat, b: nat)
    requires a <= b
    ensures RetryDelay(a) <= RetryDelay(b)
  {
    Pow2Monotone(a, b);
  }

  /**
   * Whether a failed attempt is retried. `networkOrIdempotent` is the retry
   * library's own network-or-idempotent-request test, taken as given.
   */
  predicate RetryCondition(error: AxiosError, networkOrIdempotent: bool) {
    networkOrIdempotent
    || (error.response.Some? && error.response.value.status == 429)
    || (error.response.Some? && error.response.value.status == 500)
    || error.code == Some(TimeoutCode)
    || error.response.None?
  }

  /** An attempt that failed and that the retry condition accepts. */
  predicate ShouldRetry(a: Attempt, networkOrIdempotent: bool) {
    Settle(a).Failure? && RetryCondition(Settle(a).error, networkOrIdempotent)
  }

  /**
   * For the errors the transport can actually raise, the condition reduces to:
   * the library's own test, no reply at all, or a 500. A 429 is accepted by the
   * status check, so it is never an error and never retried.
   */
  lemma ShouldRetryIff(a: Attempt, networkOrIdempotent: bool)
    ensures ShouldRetry(a, networkOrIdempotent) <==>
      (a.NoReply?
       || (!ValidateStatus(a.response.status) && (networkOrIdempotent || a.response.status == 500)))
    ensures a.Replied? && a.response.status == 429 ==> !ShouldRetry(a, networkOrIdempotent)
  {
  }

  /**
   * The attempt a request ends on and how many retries preceded it, where
   * `attempts(k)` is what attempt `k` (0 for the first request) produces and
   * `retried` retries have already been made. The retry library counts a
   * retry before asking for its delay, so the k-th retry waits `RetryDelay(k)`.
   */
  function RetryFrom(attempts: nat -> Attempt, networkOrIdempotent: nat -> bool, retried: nat): (r: (Attempt, nat))
    requires retried <= MaxRetries
    ensures retried <= r.1 <= MaxRetries
    ensures r.0 == attempts(r.1)
    ensures forall k | retried <= k < r.1 :: ShouldRetry(attempts(k), networkOrIdempotent(k))
    ensures r.1 < MaxRetries ==> !ShouldRetry(r.0, networkOrIdempotent(r.1))
    decreases MaxRetries - retried
  {
    var a := attempts(retried);
    if retried < MaxRetries && ShouldRetry(a, networkOrIdempotent(retried)) then
      RetryFrom(attempts, networkOrIdempotent, retried + 1)
    else
      (a, retried)
  }

  /** The delays slept before each of the first `n` retries. */
  function Delays(n: nat): (ds: seq<nat>)
    ensures |ds| == n
    ensures forall i | 0 <= i < n :: ds[i] == RetryDelay(i + 1)
  {
    seq(n, i requires 0 <= i < n => RetryDelay(i + 1))
  }

  /**
   * Runs a request under the retry policy: repeats while the latest attempt
   * failed retryably and fewer than three retries were made, sleeping the
   * backoff delay before each retry. Returns the final attempt and the delays.
   */
  method Execute(attempts: nat -> Attempt, networkOrIdempotent: nat -> bool) returns (final: Attempt, delays: seq<nat>)
    ensures |delays| <= MaxRetries
    ensures final == attempts(|delays|)
    ensures delays == Delays(|delays|)
    ensures forall k | 0 <= k < |delays| :: ShouldRetry(attempts(k), networkOrIdempotent(k))
    ensures |delays| < MaxRetries ==> !ShouldRetry(final, networkOrIdempotent(|delays|))
    ensures (final, |delays|) == RetryFrom(attempts, networkOrIdempotent, 0)
  {
    var retried: nat := 0;
    final := attempts(0);
    delays := [];
    while retried < MaxRetries && ShouldRetry(final, networkOrIdempotent(retried))
      invariant retried <= MaxRetries
      invariant |delays| == retried
      invariant final == attempts(retried)
      invariant delays == Delays(retried)
      invariant forall k | 0 <= k < retried :: ShouldRetry(attempts(k), networkOrIdempotent(k))
      invariant RetryFrom(attempts, networkOrIdempotent, 0) == RetryFrom(attempts, networkOrIdempotent, retried)
      decreases MaxRetries - retried
    {
      retried := retried + 1;
      delays := delays + [RetryDelay(retried)];
      final := attempts(retried);
    }
  }

  /** A request that keeps failing with 500 is retried three times, after 2, 4 and 8 seconds, and ends on its fourth attempt. */
  lemma PersistentServerErrorSchedule(attempts: nat -> Attempt, networkOrIdempotent: nat -> bool)
    requires forall k :: attempts(k).Replied? && attempts(k).response.status == 500
    ensures RetryFrom(attempts, networkOrIdempotent, 0).1 == MaxRetries
    ensures Delays(MaxRetries) == [2000, 4000, 8000]
  {
    assert ShouldRetry(attempts(0), networkOrIdempotent(0));
    assert ShouldRetry(attempts(1), networkOrIdempotent(1));
    assert ShouldRetry(attempts(2), networkOrIdempotent(2));
    assert Pow2(3) == 8;
  }

  /** A reply the status check accepts ends the request on the spot: no retry follows. */
  lemma AcceptedReplyIsFinal(attempts: nat -> Attempt, networkOrIdempotent: nat -> bool)
    requires attempts(0).Replied? && ValidateStatus(attempts(0).response.status)
    ensures RetryFrom(attempts, networkOrIdempotent, 0) == (attempts(0), 0)
  {
  }
}
