/**
 * `withRetry` (background.js:106-129): calls an operation up to `maxRetries`
 * times, sleeping between failed attempts with a capped exponential backoff,
 * and returns the first success with its attempt number or throws the last
 * error.
 *
 * The operation is a function from the 1-based attempt number to what that
 * attempt yields, so every possible sequence of network answers is covered.
 * `Math.random()` is a per-mille jitter factor chosen for each attempt (the
 * source's `0.8 + 0.4 * Math.random()` lies in [800, 1200) per mille).
 */
module BackgroundRetry {
  import opened Common

  /** The cap on one backoff delay, in milliseconds. */
  const MAX_DELAY_MS: nat := 30000

  /** What one call of the operation yields. */
  datatype Attempt<T> = Succeeded(value: T) | Failed(error: string)

  /** `{ result, attempt }` on success; otherwise the thrown `lastError` (undefined after zero attempts). */
  datatype Retried<T> = Success(value: T, attempt: nat) | Exhausted(lastError: Option<string>)

  /** `min(initialDelay * 2^(attempt-1) * jitter, 30000)`, with the jitter in per mille. */
  function BackoffDelay(initialDelay: nat, attempt: nat, jitterPerMille: nat): (d: nat)
    requires attempt >= 1
    ensures d <= MAX_DELAY_MS
    ensures d == MAX_DELAY_MS || d == initialDelay * Pow2(attempt - 1) * jitterPerMille / 1000
  {
    var raw := initialDelay * Pow2(attempt - 1) * jitterPerMille / 1000;
    if raw < MAX_DELAY_MS then raw else MAX_DELAY_MS
  }

  /** The uncapped delay of the next attempt is twice that of this one, before the division by 1000. */
  lemma RawDelayDoubles(initialDelay: nat, attempt: nat, jitterPerMille: nat)
    requires attempt >= 1
    ensures initialDelay * Pow2(attempt) * jitterPerMille == 2 * (initialDelay * Pow2(attempt - 1) * jitterPerMille)
  {
    var p := Pow2(attempt - 1);
    assert Pow2(attempt) == 2 * p;
    calc {
      initialDelay * (2 * p) * jitterPerMille;
      2 * (initialDelay * p) * jitterPerMille;
      2 * (initialDelay * p * jitterPerMille);
    }
  }

  /** With the same jitter, the next attempt never waits less than this one. */
  lemma BackoffStep(initialDelay: nat, attempt: nat, jitterPerMille: nat)
    requires attempt >= 1
    ensures BackoffDelay(initialDelay, attempt, jitterPerMille) <= BackoffDelay(initialDelay, attempt + 1, jitterPerMille)
  {
    var raw := initialDelay * Pow2(attempt - 1) * jitterPerMille;
    RawDelayDoubles(initialDelay, attempt, jitterPerMille);
    assert raw <= 2 * raw;
    DivisionMonotone(raw, 2 * raw, 1000);
  }

  /** Integer division by a positive number is monotone. */
  lemma DivisionMonotone(x: nat, y: nat, d: nat)
    requires x <= y && d > 0
    ensures x / d <= y / d
  {
    var qx, qy := x / d, y / d;
    assert d * qx <= x;
    assert y < d * qy + d;
    ProductBelowProduct(d, qx, qy + 1);
  }

  /** `d * a < d * b` with `d` positive means `a < b`. */
  lemma ProductBelowProduct(d: nat, a: int, b: int)
    requires d > 0 && d * a < d * b
    ensures a < b
  {
    assert d * (b - a) == d * b - d * a;
  }

  /** With the same jitter, a later attempt never waits less than an earlier one. */
  lemma {:induction false} BackoffGrows(initialDelay: nat, a: nat, b: nat, jitterPerMille: nat)
    requires 1 <= a <= b
    ensures BackoffDelay(initialDelay, a, jitterPerMille) <= BackoffDelay(initialDelay, b, jitterPerMille)
    decreases b - a
  {
    if a < b {
      BackoffStep(initialDelay, a, jitterPerMille);
      BackoffGrows(initialDelay, a + 1, b, jitterPerMille);
    }
  }

  /** Every attempt before `n` (1-based) failed. */
  predicate FailedBefore<T>(op: nat -> Attempt<T>, n: nat)
  {
    forall i :: 1 <= i < n ==> op(i).Failed?
  }

  /**
   * The retry loop. `calls` is the number of times the operation ran and
   * `sleeps` the delays awaited, in order.
   */
  method WithRetry<T>(op: nat -> Attempt<T>, maxRetries: nat, initialDelay: nat, jitter: nat -> nat)
    returns (result: Retried<T>, calls: nat, sleeps: seq<nat>)
    ensures calls <= maxRetries
    ensures result.Success? ==> 1 <= result.attempt == calls && op(calls) == Succeeded(result.value)
    ensures FailedBefore(op, calls)
    ensures result.Exhausted? ==> calls == maxRetries && FailedBefore(op, maxRetries + 1)
    ensures result.Exhausted? ==> result.lastError == if maxRetries == 0 then None else Some(op(maxRetries).error)
    ensures |sleeps| == if calls == 0 then 0 else calls - 1
    ensures forall i :: 0 <= i < |sleeps| ==> sleeps[i] == BackoffDelay(initialDelay, i + 1, jitter(i + 1))
  {
    var lastError: Option<string> := None;
    sleeps := [];
    calls := 0;
    for attempt := 1 to maxRetries + 1
      invariant calls == attempt - 1
      invariant FailedBefore(op, attempt)
      invariant attempt > 1 ==> lastError == Some(op(attempt - 1).error)
      invariant attempt == 1 ==> lastError == None
      invariant |sleeps| == if attempt <= maxRetries || attempt == 1 then attempt - 1 else attempt - 2
      invariant forall i :: 0 <= i < |sleeps| ==> sleeps[i] == BackoffDelay(initialDelay, i + 1, jitter(i + 1))
    {
      calls := calls + 1;
      var outcome := op(attempt);
      if outcome.Succeeded? {
        return Success(outcome.value, attempt), calls, sleeps;
      }
      lastError := Some(outcome.error);
      if attempt < maxRetries {
        sleeps := sleeps + [BackoffDelay(initialDelay, attempt, jitter(attempt))];
      }
    }
    result := Exhausted(lastError);
  }
}
