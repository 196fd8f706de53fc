/** `retryWithBackOff` (server/agent.ts): call a function up to `maxRetries` times, retrying
    only when it throws a value whose `status` is 429, and waiting `min(1000 * 2^attempt, 30000)`
    milliseconds before the next attempt. The function is an oracle `fn` from the attempt
    number (1, 2, ...) to how that call ends; the wait is returned instead of slept. */
module Retry {
  import opened Js

  const BaseDelayMs: nat := 1000
  const MaxDelayMs: nat := 30000
  const RateLimitStatus: int := 429
  /** The default of the `maxRetries` parameter, the value every caller in the agent uses. */
  const DefaultMaxRetries: int := 3

  /** How `retryWithBackOff` settles: with a value of `fn`, by rethrowing what `fn` threw, or
      with `new Error("Max retries exceeded")`. */
  datatype RetryOutcome<+T> =
    | Resolved(value: T)
    | Rethrown(error: JsError)
    | MaxRetriesExceeded

  /** A run: how it settled, how many times `fn` was called, and the waits between calls. */
  datatype Run<+T> = Run(outcome: RetryOutcome<T>, calls: nat, delays: seq<nat>)

  /** The guard of agent.ts's catch block before `attempt < maxRetries`: an error object
      with a `status` property equal to 429. */
  predicate IsRateLimited(e: JsError)
    ensures e.status == None ==> !IsRateLimited(e)
    ensures IsRateLimited(e) ==> e.status == Some(429)
  {
    e.status == Some(RateLimitStatus)
  }

  predicate RateLimitedCall<T>(c: Completion<T>) {
    c.Throw? && IsRateLimited(c.error)
  }

  function Pow2(k: nat): (p: nat)
    ensures p >= 1
  {
    if k == 0 then 1 else 2 * Pow2(k - 1)
  }

  /** `Math.min(1000 * Math.pow(2, attempt), 30000)`. */
  function BackoffDelay(attempt: nat): (d: nat)
    ensures BaseDelayMs <= d <= MaxDelayMs
  {
    var d := BaseDelayMs * Pow2(attempt);
    if d < MaxDelayMs then d else MaxDelayMs
  }

  lemma {:induction false} Pow2Monotone(j: nat, k: nat)
    requires j <= k
    ensures Pow2(j) <= Pow2(k)
  {
    if j < k {
      Pow2Monotone(j, k - 1);
    }
  }

  /** The waits after failed attempts 1, 2, 3, 4 are 2, 4, 8 and 16 seconds; from attempt 5 on
      the 30-second cap applies, and no wait ever exceeds it. */
  lemma BackoffSchedule(k: nat)
    ensures BackoffDelay(1) == 2000 && BackoffDelay(2) == 4000
    ensures BackoffDelay(3) == 8000 && BackoffDelay(4) == 16000
    ensures k >= 5 ==> BackoffDelay(k) == MaxDelayMs
    ensures BackoffDelay(k) <= MaxDelayMs
  {
    assert Pow2(5) == 32;
    if k >= 5 {
      Pow2Monotone(5, k);
    }
  }

  /** The reference run of `for (let attempt = start; attempt <= maxRetries; attempt++)`. */
  function RetryRun<T>(fn: nat -> Completion<T>, maxRetries: int, attempt: nat): (run: Run<T>)
    ensures run.calls == 0 <==> attempt > maxRetries
    ensures |run.delays| == if run.calls == 0 then 0 else run.calls - 1
    decreases maxRetries - attempt + 1
  {
    if attempt > maxRetries then Run(MaxRetriesExceeded, 0, [])
    else match fn(attempt)
      case Normal(v) => Run(Resolved(v), 1, [])
      case Throw(e) =>
        if IsRateLimited(e) && attempt < maxRetries then
          var rest := RetryRun(fn, maxRetries, attempt + 1);
          Run(rest.outcome, rest.calls + 1, [BackoffDelay(attempt)] + rest.delays)
        else Run(Rethrown(e), 1, [])
  }

  /** `retryWithBackOff(fn, maxRetries)`. */
  method RetryWithBackOff<T>(fn: nat -> Completion<T>, maxRetries: int)
    returns (outcome: RetryOutcome<T>, calls: nat, delays: seq<nat>)
    ensures Run(outcome, calls, delays) == RetryRun(fn, maxRetries, 1)
  {
    var attempt: nat := 1;
    calls, delays := 0, [];
    while attempt <= maxRetries
      invariant attempt >= 1 && calls == attempt - 1
      invariant var rest := RetryRun(fn, maxRetries, attempt);
        RetryRun(fn, maxRetries, 1) == Run(rest.outcome, calls + rest.calls, delays + rest.delays)
      decreases maxRetries - attempt
    {
      var call := fn(attempt);
      calls := calls + 1;
      if call.Normal? {
        return Resolved(call.value), calls, delays;
      }
      if IsRateLimited(call.error) && attempt < maxRetries {
        ghost var rest := RetryRun(fn, maxRetries, attempt + 1);
        assert (delays + [BackoffDelay(attempt)]) + rest.delays
            == delays + ([BackoffDelay(attempt)] + rest.delays);
        delays := delays + [BackoffDelay(attempt)];
        attempt := attempt + 1;
        continue;
      }
      return Rethrown(call.error), calls, delays;
    }
    outcome := MaxRetriesExceeded;
  }

  /** Everything a run from attempt `start` determines: every call but the last threw a 429
      and was followed by the backoff wait for its attempt number; the last call decides the
      outcome, and a 429 is rethrown only on the last permitted attempt; no call is made at all
      exactly when `start > maxRetries`, which is also exactly when "Max retries exceeded"
      is thrown. */
  lemma {:induction false} RetryRunCharacterized<T>(fn: nat -> Completion<T>, maxRetries: int, start: nat)
    requires start >= 1
    ensures var run := RetryRun(fn, maxRetries, start);
      && (run.calls == 0 <==> start > maxRetries)
      && (run.outcome.MaxRetriesExceeded? <==> start > maxRetries)
      && run.calls <= (if start > maxRetries then 0 else maxRetries - start + 1)
      && |run.delays| == (if run.calls == 0 then 0 else run.calls - 1)
      && (forall j :: 0 <= j < |run.delays| ==> run.delays[j] == BackoffDelay(start + j))
      && (forall k :: start <= k < start + |run.delays| ==> RateLimitedCall(fn(k)))
      && (run.calls > 0 ==>
            var last := fn(start + run.calls - 1);
            && (last.Normal? ==> run.outcome == Resolved(last.value))
            && (last.Throw? ==> run.outcome == Rethrown(last.error)
                                && (!IsRateLimited(last.error) || start + run.calls - 1 == maxRetries)))
    decreases maxRetries - start + 1
  {
    if start <= maxRetries && fn(start).Throw? && IsRateLimited(fn(start).error) && start < maxRetries {
      RetryRunCharacterized(fn, maxRetries, start + 1);
      var rest := RetryRun(fn, maxRetries, start + 1);
      var run := RetryRun(fn, maxRetries, start);
      assert run.delays == [BackoffDelay(start)] + rest.delays;
      forall j | 0 <= j < |run.delays| ensures run.delays[j] == BackoffDelay(start + j) {
        if j > 0 {
          assert run.delays[j] == rest.delays[j - 1];
        }
      }
    }
  }

  /** `fn` is called at most `maxRetries` times, and at least once when `maxRetries >= 1`. */
  lemma CallsBounded<T>(fn: nat -> Completion<T>, maxRetries: int)
    ensures var run := RetryRun(fn, maxRetries, 1);
      (maxRetries >= 1 ==> 1 <= run.calls <= maxRetries) && (maxRetries < 1 ==> run.calls == 0)
  {
    RetryRunCharacterized(fn, maxRetries, 1);
  }

  /** "Max retries exceeded" is thrown exactly when `maxRetries < 1`, and then `fn` is never
      called. */
  lemma MaxRetriesExceededOnlyWithoutAttempts<T>(fn: nat -> Completion<T>, maxRetries: int)
    ensures var run := RetryRun(fn, maxRetries, 1);
      run.outcome.MaxRetriesExceeded? <==> maxRetries < 1
    ensures maxRetries < 1 ==> RetryRun(fn, maxRetries, 1) == Run(MaxRetriesExceeded, 0, [])
  {
    RetryRunCharacterized(fn, maxRetries, 1);
  }

  /** When attempts 1 .. k-1 hit the rate limit and attempt k returns, the value of attempt k
      is returned after exactly k calls, with the backoff wait of each failed attempt. */
  lemma {:induction false} FirstSuccessReturned<T>(fn: nat -> Completion<T>, maxRetries: int, k: nat)
    requires 1 <= k <= maxRetries
    requires forall j :: 1 <= j < k ==> RateLimitedCall(fn(j))
    requires fn(k).Normal?
    ensures var run := RetryRun(fn, maxRetries, 1);
      && run.outcome == Resolved(fn(k).value)
      && run.calls == k
      && run.delays == seq(k - 1, j requires 0 <= j < k - 1 => BackoffDelay(j + 1))
  {
    RetryRunCharacterized(fn, maxRetries, 1);
    var run := RetryRun(fn, maxRetries, 1);
    var c := run.calls;
    // The last call is the first one that did not hit the rate limit, which is call k.
    assert c < k ==> RateLimitedCall(fn(c));
    assert c > k ==> RateLimitedCall(fn(k));
  }

  /** Any error other than a 429 is rethrown unchanged after one call, with no wait. */
  lemma NonRateLimitErrorRethrownAtOnce<T>(fn: nat -> Completion<T>, maxRetries: int)
    requires maxRetries >= 1
    requires fn(1).Throw? && !IsRateLimited(fn(1).error)
    ensures RetryRun(fn, maxRetries, 1) == Run(Rethrown(fn(1).error), 1, [])
  {
  }

  /** When every call hits the rate limit, `fn` is called exactly `maxRetries` times and the
      last 429 is rethrown unchanged. */
  lemma AlwaysRateLimited<T>(fn: nat -> Completion<T>, maxRetries: int)
    requires maxRetries >= 1
    requires forall j :: 1 <= j <= maxRetries ==> RateLimitedCall(fn(j))
    ensures var run := RetryRun(fn, maxRetries, 1);
      && RateLimitedCall(fn(maxRetries))
      && run.calls == maxRetries && run.outcome == Rethrown(fn(maxRetries).error)
      && |run.delays| == maxRetries - 1
  {
    RetryRunCharacterized(fn, maxRetries, 1);
    var run := RetryRun(fn, maxRetries, 1);
    var last := run.calls;
    assert RateLimitedCall(fn(last));
  }

  /** `callModel` calls `retryWithBackOff` without `maxRetries`, so the default 3 applies: the
      model is called one to three times, "Max retries exceeded" cannot happen, and the waits
      are at most 2 and then 4 seconds. */
  lemma DefaultRetries<T>(fn: nat -> Completion<T>)
    ensures var run := RetryRun(fn, DefaultMaxRetries, 1);
      && 1 <= run.calls <= 3
      && !run.outcome.MaxRetriesExceeded?
      && run.delays <= [2000, 4000]
  {
    RetryRunCharacterized(fn, DefaultMaxRetries, 1);
    BackoffSchedule(1);
    var run := RetryRun(fn, DefaultMaxRetries, 1);
    assert |run.delays| <= 2;
  }
}
