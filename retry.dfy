/** The retry executor `withRetry`: bounded retry with doubling delay around one remote call.
    Both services/modelCouncilService.ts and services/geminiService.ts carry an identical copy;
    this module stands for both. The recursion of the source becomes the loop of `WithRetry`,
    specified by the recursive function `Retry`. */
module Retry {
  import opened Wrappers
  import Strings

  /** What a failed call rejects with: an HTTP-like status and a message, each possibly absent. */
  datatype ApiError = ApiError(status: Option<int>, message: Option<string>)

  /** The outcome of one call of the wrapped operation. */
  datatype Attempt<+T> = Ok(value: T) | Fail(error: ApiError)

  const DEFAULT_RETRIES: nat := 3
  const RETRY_DELAY_MS: nat := 2000

  /** Service unavailable, rate limited, or a transport failure ("fetch failed" in the message). */
  predicate IsRetryable(e: ApiError) {
    e.status == Some(503) || e.status == Some(429)
    || (e.message.Some? && Strings.Contains(e.message.value, "fetch failed"))
  }

  /** A failure that the executor would retry if it had attempts left. */
  predicate Transient<T>(a: Attempt<T>) {
    a.Fail? && IsRetryable(a.error)
  }

  /** What a retried call comes to: the outcome handed back, how many calls were made,
      and the waits (in ms) slept between them. */
  datatype RetryOutcome<+T> = RetryOutcome(result: Attempt<T>, calls: nat, waits: seq<nat>)

  function Pow2(k: nat): (p: nat)
    ensures p >= 1
  {
    if k == 0 then 1 else 2 * Pow2(k - 1)
  }

  /** `withRetry(fn, retries, delay)` where call `attempt + j` of `fn` resolves as `call(attempt + j)`. */
  function Retry<T>(call: nat -> Attempt<T>, attempt: nat, retries: nat, delay: nat): RetryOutcome<T>
    decreases retries
  {
    var out := call(attempt);
    if out.Ok? || retries == 0 || !IsRetryable(out.error) then RetryOutcome(out, 1, [])
    else
      var rest := Retry(call, attempt + 1, retries - 1, delay * 2);
      RetryOutcome(rest.result, rest.calls + 1, [delay] + rest.waits)
  }

  /** Account for `waits` already slept before `t` started. */
  function After<T>(waits: seq<nat>, t: RetryOutcome<T>): RetryOutcome<T> {
    RetryOutcome(t.result, t.calls + |waits|, waits + t.waits)
  }

  /** The executor as a loop over (attempt, retries left, delay) state. */
  method WithRetry<T>(call: nat -> Attempt<T>, retries: nat, delay: nat) returns (t: RetryOutcome<T>)
    ensures t == Retry(call, 0, retries, delay)
  {
    var attempt: nat, left: nat, wait: nat := 0, retries, delay;
    var waits: seq<nat> := [];
    var out := call(0);
    while out.Fail? && left > 0 && IsRetryable(out.error)
      invariant attempt + left == retries
      invariant out == call(attempt)
      invariant Retry(call, 0, retries, delay) == After(waits, Retry(call, attempt, left, wait))
      decreases left
    {
      RetryOnce(call, attempt, left, wait);
      AfterAfter(waits, wait, Retry(call, attempt + 1, left - 1, wait * 2));
      waits := waits + [wait];
      attempt, left, wait := attempt + 1, left - 1, wait * 2;
      out := call(attempt);
    }
    t := RetryOutcome(out, |waits| + 1, waits);
  }

  /** A retryable failure with attempts left costs one wait of the current delay, then the rest. */
  lemma RetryOnce<T>(call: nat -> Attempt<T>, attempt: nat, left: nat, wait: nat)
    requires Transient(call(attempt)) && left > 0
    ensures Retry(call, attempt, left, wait) == After([wait], Retry(call, attempt + 1, left - 1, wait * 2))
  {
  }

  /** Waits slept in two stretches add up. */
  lemma AfterAfter<T>(waits: seq<nat>, wait: nat, t: RetryOutcome<T>)
    ensures After(waits, After([wait], t)) == After(waits + [wait], t)
  {
    assert waits + ([wait] + t.waits) == (waits + [wait]) + t.waits;
  }

  /** The executor stops at the first call that succeeds, fails for good, or uses up the budget;
      it returns exactly that call's outcome, every earlier call was a retryable failure, and
      the k-th wait is the initial delay doubled k times. */
  lemma RetryStopsAtFirstDecisive<T>(call: nat -> Attempt<T>, attempt: nat, retries: nat, delay: nat)
    ensures var t := Retry(call, attempt, retries, delay);
      && 1 <= t.calls <= retries + 1
      && t.result == call(attempt + t.calls - 1)
      && (forall j :: attempt <= j < attempt + t.calls - 1 ==> Transient(call(j)))
      && (t.calls <= retries ==> !Transient(call(attempt + t.calls - 1)))
      && |t.waits| == t.calls - 1
      && (forall k :: 0 <= k < |t.waits| ==> t.waits[k] == delay * Pow2(k))
  {
    RetryStopsAtDecisiveCall(call, attempt, retries, delay);
    RetryWaitsDouble(call, attempt, retries, delay);
  }

  /** Which call the executor stops at, and that every call before it was a retryable failure. */
  lemma {:induction false} RetryStopsAtDecisiveCall<T>(call: nat -> Attempt<T>, attempt: nat, retries: nat, delay: nat)
    ensures var t := Retry(call, attempt, retries, delay);
      && 1 <= t.calls <= retries + 1
      && t.result == call(attempt + t.calls - 1)
      && (forall j :: attempt <= j < attempt + t.calls - 1 ==> Transient(call(j)))
      && (t.calls <= retries ==> !Transient(call(attempt + t.calls - 1)))
    decreases retries
  {
    if Transient(call(attempt)) && retries > 0 {
      RetryOnce(call, attempt, retries, delay);
      RetryStopsAtDecisiveCall(call, attempt + 1, retries - 1, delay * 2);
    }
  }

  /** One wait between consecutive calls, the k-th of them the initial delay doubled k times. */
  lemma {:induction false} RetryWaitsDouble<T>(call: nat -> Attempt<T>, attempt: nat, retries: nat, delay: nat)
    ensures var t := Retry(call, attempt, retries, delay);
      && |t.waits| == t.calls - 1
      && (forall k :: 0 <= k < |t.waits| ==> t.waits[k] == delay * Pow2(k))
    decreases retries
  {
    if Transient(call(attempt)) && retries > 0 {
      RetryOnce(call, attempt, retries, delay);
      RetryWaitsDouble(call, attempt + 1, retries - 1, delay * 2);
      var rest := Retry(call, attempt + 1, retries - 1, delay * 2);
      var t := Retry(call, attempt, retries, delay);
      assert t.waits == [delay] + rest.waits;
      forall k | 0 <= k < |t.waits| ensures t.waits[k] == delay * Pow2(k) {
        if k > 0 {
          assert t.waits[k] == rest.waits[k - 1] == delay * 2 * Pow2(k - 1);
        }
      }
    }
  }

  /** A success is returned unchanged as soon as it happens, provided only retryable failures came before it. */
  lemma RetryReturnsFirstSuccess<T>(call: nat -> Attempt<T>, retries: nat, delay: nat, n: nat)
    requires n <= retries
    requires forall j :: 0 <= j < n ==> Transient(call(j))
    requires call(n).Ok?
    ensures Retry(call, 0, retries, delay).result == call(n)
    ensures Retry(call, 0, retries, delay).calls == n + 1
  {
    RetryStopsAtFirstDecisive(call, 0, retries, delay);
    var t := Retry(call, 0, retries, delay);
    var last: nat := t.calls - 1;
    assert last < n ==> Transient(call(last));
    assert last > n ==> Transient(call(n));
  }

  /** A failure that is not retryable is rethrown at once, after a single call. */
  lemma NonRetryableRethrown<T>(call: nat -> Attempt<T>, retries: nat, delay: nat)
    requires call(0).Fail? && !IsRetryable(call(0).error)
    ensures Retry(call, 0, retries, delay) == RetryOutcome(call(0), 1, [])
  {
  }

  /** With the defaults (3 retries from 2000 ms) there are at most 4 calls, and the waits
      are a prefix of 2000, 4000, 8000 ms. */
  lemma DefaultPolicy<T>(call: nat -> Attempt<T>)
    ensures var t := Retry(call, 0, DEFAULT_RETRIES, RETRY_DELAY_MS);
      && 1 <= t.calls <= 4
      && t.waits == [2000, 4000, 8000][..t.calls - 1]
  {
    RetryStopsAtFirstDecisive(call, 0, DEFAULT_RETRIES, RETRY_DELAY_MS);
    var t := Retry(call, 0, DEFAULT_RETRIES, RETRY_DELAY_MS);
    assert Pow2(1) == 2 && Pow2(2) == 4;
    assert forall k :: 0 <= k < |t.waits| ==> t.waits[k] == [2000, 4000, 8000][k];
  }

  /** Exhausting the budget on retryable failures rejects with the last failure after 4 calls. */
  lemma DefaultPolicyExhausted<T>(call: nat -> Attempt<T>)
    requires forall j :: 0 <= j < 4 ==> Transient(call(j))
    ensures Retry(call, 0, DEFAULT_RETRIES, RETRY_DELAY_MS) == RetryOutcome(call(3), 4, [2000, 4000, 8000])
  {
    assert Transient(call(0)) && Transient(call(1)) && Transient(call(2));
  }

  /** A rejection reaches the caller only if it is not retryable or the budget is spent:
      the retry count bounds how long a transient outage can be hidden. */
  lemma RejectionReachesCaller<T>(call: nat -> Attempt<T>, retries: nat, delay: nat)
    ensures var t := Retry(call, 0, retries, delay);
      t.result.Fail? ==> !IsRetryable(t.result.error) || t.calls == retries + 1
  {
    RetryStopsAtFirstDecisive(call, 0, retries, delay);
  }

  /** Where a rejection comes from: the first call that was not a transient failure, when that
      call's error is not retryable, or else the last of retries + 1 transient failures. */
  lemma RejectionCause<T>(call: nat -> Attempt<T>, retries: nat, delay: nat)
    ensures var t := Retry(call, 0, retries, delay);
      t.result.Fail? ==>
        || (exists m :: 0 <= m <= retries && call(m) == t.result && !IsRetryable(t.result.error)
              && forall j :: 0 <= j < m ==> Transient(call(j)))
        || (t.result == call(retries) && forall j :: 0 <= j <= retries ==> Transient(call(j)))
  {
    var t := Retry(call, 0, retries, delay);
    RetryStopsAtFirstDecisive(call, 0, retries, delay);
    if t.result.Fail? {
      var m := t.calls - 1;
      if !IsRetryable(t.result.error) {
        assert 0 <= m <= retries && call(m) == t.result;
      } else {
        assert m == retries && Transient(call(m));
      }
    }
  }

  /** Two "503 Service Unavailable" rejections, then a success: three calls, waits of 2000 and 4000 ms. */
  lemma TwoOutagesThenSuccess(v: int)
    ensures var call := (k: nat) => if k < 2 then Fail(ApiError(Some(503), None)) else Ok(v);
      Retry(call, 0, DEFAULT_RETRIES, RETRY_DELAY_MS) == RetryOutcome(Ok(v), 3, [2000, 4000])
  {
  }
}
