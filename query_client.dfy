/**
 * The default retry policy of the query client: which failed queries and
 * mutations are tried again, and how long to wait before each new attempt.
 * The error's `status` is an optional number; the services throw errors
 * without one, but the policy is stated for every status.
 */
module QueryClient {
  import opened Wrappers

  /** `status && status >= 400 && status < 500`: a truthy status in the 4xx range. */
  predicate ClientError(status: Option<int>) {
    status.Some? && status.value != 0 && 400 <= status.value < 500
  }

  /** The `retry` option of queries. */
  function QueryRetry(failureCount: nat, status: Option<int>): (retry: bool)
    ensures ClientError(status) ==> !retry
    ensures !ClientError(status) ==> (retry <==> failureCount < 2)
  {
    if status.Some? && status.value != 0 && status.value >= 400 && status.value < 500 then false
    else failureCount < 2
  }

  /** The `retry` option of mutations. */
  function MutationRetry(failureCount: nat, status: Option<int>): (retry: bool)
    ensures ClientError(status) ==> !retry
    ensures !ClientError(status) ==> (retry <==> failureCount < 1)
  {
    if status.Some? && status.value != 0 && status.value >= 400 && status.value < 500 then false
    else failureCount < 1
  }

  /** How many times a request that keeps failing with the same status is tried again when
      the policy is asked after each failure, `failureCount` starting at `k` and counting up. */
  function Retries(policy: (nat, Option<int>) -> bool, status: Option<int>, k: nat, bound: nat): nat
    decreases bound
  {
    if bound == 0 || !policy(k, status) then 0 else 1 + Retries(policy, status, k + 1, bound - 1)
  }

  /** A query that keeps failing is retried twice, or never on a 4xx error. */
  lemma {:induction false} QueryRetriedAtMostTwice(status: Option<int>, bound: nat)
    requires bound >= 2
    ensures Retries(QueryRetry, status, 0, bound) == if ClientError(status) then 0 else 2
  {
    if !ClientError(status) {
      assert QueryRetry(0, status) && QueryRetry(1, status) && !QueryRetry(2, status);
      assert Retries(QueryRetry, status, 2, bound - 2) == 0;
      assert Retries(QueryRetry, status, 1, bound - 1) == 1;
    }
  }

  /** A mutation that keeps failing is retried once, or never on a 4xx error. */
  lemma {:induction false} MutationRetriedAtMostOnce(status: Option<int>, bound: nat)
    requires bound >= 1
    ensures Retries(MutationRetry, status, 0, bound) == if ClientError(status) then 0 else 1
  {
    if !ClientError(status) {
      assert MutationRetry(0, status) && !MutationRetry(1, status);
      assert Retries(MutationRetry, status, 1, bound - 1) == 0;
    }
  }

  function Pow2(k: nat): (r: nat)
    ensures r >= 1
  {
    if k == 0 then 1 else 2 * Pow2(k - 1)
  }

  const MaxDelay: nat := 30000

  /** `retryDelay(attemptIndex)`: `Math.min(1000 * 2 ** attemptIndex, 30000)` milliseconds. */
  function RetryDelay(attemptIndex: nat): (ms: nat)
    ensures ms <= MaxDelay
    ensures ms <= 1000 * Pow2(attemptIndex)
    ensures ms == MaxDelay || ms == 1000 * Pow2(attemptIndex)
  {
    if 1000 * Pow2(attemptIndex) < MaxDelay then 1000 * Pow2(attemptIndex) else MaxDelay
  }

  /** The first delay is one second. */
  lemma FirstDelay()
    ensures RetryDelay(0) == 1000
  {
  }

  lemma {:induction false} Pow2Monotone(j: nat, k: nat)
    requires j <= k
    ensures Pow2(j) <= Pow2(k)
    decreases k
  {
    if j < k {
      Pow2Monotone(j, k - 1);
    }
  }

  /** Waiting never gets shorter from one attempt to the next. */
  lemma RetryDelayMonotone(j: nat, k: nat)
    requires j <= k
    ensures RetryDelay(j) <= RetryDelay(k)
  {
    Pow2Monotone(j, k);
  }

  /** From the sixth attempt on the delay stays at its cap. */
  lemma RetryDelayCapped(k: nat)
    requires k >= 5
    ensures RetryDelay(k) == MaxDelay
  {
    Pow2Monotone(5, k);
    assert Pow2(5) == 32;
  }

  /** Below that the delay doubles each time. */
  lemma RetryDelayDoubles(k: nat)
    requires k < 4
    ensures RetryDelay(k + 1) == 2 * RetryDelay(k)
  {
    Pow2Monotone(k + 1, 4);
    assert Pow2(4) == 16;
  }
}
