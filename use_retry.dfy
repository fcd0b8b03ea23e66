/**
 * src/lib/hooks/useRetry.ts: a React hook that calls an asynchronous
 * function up to `maxAttempts` times. A success returns at once; an error
 * whose `status` is 404, 401 or 403 is rethrown at once; any other error is
 * followed by a wait of `delay * backoff^(attempt - 1)` ms before the next
 * attempt, except after the last one. The hook's two state values,
 * `isRetrying` and `attemptCount`, follow the attempts and are reset on
 * every exit.
 */
module UseRetry {
  import opened Wrappers
  import opened Json

  const UnknownError := "Unknown error"
  const DefaultMaxAttempts := 3
  const DefaultDelay := 1000
  const DefaultBackoff := 2

  /** What the hook's `catch` sees: the message and the `status` property, if the thrown object has one. */
  datatype Error = Error(message: string, status: Option<Json>)

  /** The outcome of the k-th call of `fn`. */
  datatype Attempt = Succeeded(value: Json) | Failed(error: Error)

  /** How `executeWithRetry` ends: its result, how many times it called `fn`, and the waits between calls, in order. */
  datatype RetryRun = RetryRun(result: Result<Json, Error>, calls: nat, waits: seq<int>)

  /** One snapshot of the hook's state, taken after each state-setter call. */
  datatype HookState = HookState(attemptCount: int, isRetrying: bool)

  /** `status === 404 || status === 401 || status === 403`. */
  predicate NonRetryable(e: Error) {
    e.status == Some(JNum(404)) || e.status == Some(JNum(401)) || e.status == Some(JNum(403))
  }

  /** A call that fails with an error worth retrying. */
  predicate RetryableFailure(a: Attempt) {
    a.Failed? && !NonRetryable(a.error)
  }

  /** `Math.pow(backoff, n)` for a whole-number backoff. */
  function Pow(b: nat, n: nat): nat {
    if n == 0 then 1 else b * Pow(b, n - 1)
  }

  /** The wait after a retryable failure of attempt `attempt`. */
  function WaitAfter(attempt: nat, delay: int, backoff: nat): int
    requires attempt >= 1
  {
    delay * Pow(backoff, attempt - 1)
  }

  /** The waits after attempts `j` .. `k - 1`. */
  function Schedule(j: nat, k: nat, delay: int, backoff: nat): (s: seq<int>)
    requires 1 <= j <= k
    ensures |s| == k - j
  {
    seq(k - j, i requires 0 <= i < k - j => WaitAfter(j + i, delay, backoff))
  }

  /**
   * The attempts from `attempt` on, with `lastError` the error of the
   * previous one: the reference definition the loop is proved against.
   */
  function RunFrom(fn: nat -> Attempt, attempt: nat, maxAttempts: int, delay: int, backoff: nat, lastError: Error): RetryRun
    requires attempt >= 1
    decreases maxAttempts - attempt
  {
    if attempt > maxAttempts then RetryRun(Failure(lastError), attempt - 1, [])
    else match fn(attempt)
      case Succeeded(v) => RetryRun(Success(v), attempt, [])
      case Failed(e) =>
        if NonRetryable(e) then RetryRun(Failure(e), attempt, [])
        else
          var rest := RunFrom(fn, attempt + 1, maxAttempts, delay, backoff, e);
          var wait := if attempt < maxAttempts then [WaitAfter(attempt, delay, backoff)] else [];
          rest.(waits := wait + rest.waits)
  }

  /** A run preceded by the waits `w` already taken. */
  function After(w: seq<int>, r: RetryRun): RetryRun {
    r.(waits := w + r.waits)
  }

  /** A retryable failure of attempt `attempt` hands over to the next attempt, after its wait unless it was the last. */
  lemma RetryStep(fn: nat -> Attempt, attempt: nat, maxAttempts: int, delay: int, backoff: nat, last: Error, w: seq<int>)
    requires 1 <= attempt <= maxAttempts && RetryableFailure(fn(attempt))
    ensures After(w, RunFrom(fn, attempt, maxAttempts, delay, backoff, last))
      == After(w + (if attempt < maxAttempts then [WaitAfter(attempt, delay, backoff)] else []),
               RunFrom(fn, attempt + 1, maxAttempts, delay, backoff, fn(attempt).error))
  {
    var wait := if attempt < maxAttempts then [WaitAfter(attempt, delay, backoff)] else [];
    var rest := RunFrom(fn, attempt + 1, maxAttempts, delay, backoff, fn(attempt).error);
    assert w + (wait + rest.waits) == (w + wait) + rest.waits;
  }

  /** A success or a non-retryable error on attempt `attempt` ends the run with that outcome after `attempt` calls. */
  lemma StopStep(fn: nat -> Attempt, attempt: nat, maxAttempts: int, delay: int, backoff: nat, last: Error, w: seq<int>)
    requires 1 <= attempt <= maxAttempts && !RetryableFailure(fn(attempt))
    ensures After(w, RunFrom(fn, attempt, maxAttempts, delay, backoff, last))
      == RetryRun(if fn(attempt).Succeeded? then Success(fn(attempt).value) else Failure(fn(attempt).error), attempt, w)
  {
    assert w + [] == w;
  }

  /** Past the last attempt the run fails with the previous error. */
  lemma ExhaustedStep(fn: nat -> Attempt, attempt: nat, maxAttempts: int, delay: int, backoff: nat, last: Error, w: seq<int>)
    requires attempt >= 1 && attempt > maxAttempts
    ensures After(w, RunFrom(fn, attempt, maxAttempts, delay, backoff, last)) == RetryRun(Failure(last), attempt - 1, w)
  {
    assert w + [] == w;
  }

  /** The whole run from attempt 1. */
  function Run(fn: nat -> Attempt, maxAttempts: int, delay: int, backoff: nat): (r: RetryRun)
    ensures maxAttempts <= 0 ==> r == RetryRun(Failure(Error(UnknownError, None)), 0, [])
    ensures r.calls <= if maxAttempts > 0 then maxAttempts else 0
    ensures |r.waits| == if r.calls > 0 then r.calls - 1 else 0
    ensures forall i :: 0 <= i < |r.waits| ==> r.waits[i] == delay * Pow(backoff, i)
  {
    RunShape(fn, 1, maxAttempts, delay, backoff, Error(UnknownError, None));
    RunFrom(fn, 1, maxAttempts, delay, backoff, Error(UnknownError, None))
  }

  /**
   * From attempt `j` on: the calls stay within `maxAttempts`, there is one
   * wait fewer than calls, and the waits are the geometric schedule from
   * attempt `j`.
   */
  lemma {:induction false} RunShape(fn: nat -> Attempt, j: nat, maxAttempts: int, delay: int, backoff: nat, last: Error)
    requires j >= 1
    ensures var r := RunFrom(fn, j, maxAttempts, delay, backoff, last);
      && j - 1 <= r.calls <= (if maxAttempts > j - 1 then maxAttempts else j - 1)
      && |r.waits| == (if r.calls >= j then r.calls - j else 0)
      && forall i :: 0 <= i < |r.waits| ==> r.waits[i] == WaitAfter(j + i, delay, backoff)
    decreases maxAttempts - j
  {
    if j <= maxAttempts && RetryableFailure(fn(j)) {
      RunShape(fn, j + 1, maxAttempts, delay, backoff, fn(j).error);
    }
  }

  /**
   * Retryable failures on attempts `j` .. `k - 1`, then a success or a
   * non-retryable error on attempt `k`: the run ends there with that
   * outcome, after `k` calls and the waits after attempts `j` .. `k - 1`.
   */
  lemma {:induction false} StopsAt(fn: nat -> Attempt, j: nat, k: nat, maxAttempts: int, delay: int, backoff: nat, last: Error)
    requires 1 <= j <= k <= maxAttempts
    requires forall i: nat :: j <= i < k ==> RetryableFailure(fn(i))
    requires !RetryableFailure(fn(k))
    ensures RunFrom(fn, j, maxAttempts, delay, backoff, last)
      == RetryRun(if fn(k).Succeeded? then Success(fn(k).value) else Failure(fn(k).error), k, Schedule(j, k, delay, backoff))
    decreases k - j
  {
    if j < k {
      StopsAt(fn, j + 1, k, maxAttempts, delay, backoff, fn(j).error);
      assert [WaitAfter(j, delay, backoff)] + Schedule(j + 1, k, delay, backoff) == Schedule(j, k, delay, backoff);
    }
  }

  /**
   * Retryable failures on every attempt from `j` to `maxAttempts`: exactly
   * `maxAttempts` calls, the last error rethrown, and a wait after every
   * attempt but the last.
   */
  lemma {:induction false} AllRetryable(fn: nat -> Attempt, j: nat, maxAttempts: nat, delay: int, backoff: nat, last: Error)
    requires 1 <= j <= maxAttempts
    requires forall i: nat :: j <= i <= maxAttempts ==> RetryableFailure(fn(i))
    ensures fn(maxAttempts).Failed?
    ensures RunFrom(fn, j, maxAttempts, delay, backoff, last)
      == RetryRun(Failure(fn(maxAttempts).error), maxAttempts, Schedule(j, maxAttempts, delay, backoff))
    decreases maxAttempts - j
  {
    if j < maxAttempts {
      AllRetryable(fn, j + 1, maxAttempts, delay, backoff, fn(j).error);
      assert [WaitAfter(j, delay, backoff)] + Schedule(j + 1, maxAttempts, delay, backoff)
        == Schedule(j, maxAttempts, delay, backoff);
    }
  }

  /** With the default options and three retryable failures: three calls, waits of 1000 then 2000 ms, the third error thrown. */
  lemma DefaultSchedule(fn: nat -> Attempt)
    requires RetryableFailure(fn(1)) && RetryableFailure(fn(2)) && RetryableFailure(fn(3))
    ensures Run(fn, DefaultMaxAttempts, DefaultDelay, DefaultBackoff)
      == RetryRun(Failure(fn(3).error), 3, [1000, 2000])
  {
    AllRetryable(fn, 1, DefaultMaxAttempts, DefaultDelay, DefaultBackoff, Error(UnknownError, None));
    assert Pow(2, 1) == 2;
  }

  /** A 404, 401 or 403 on the first attempt is rethrown after that single call, with no wait. */
  lemma NonRetryableIsRethrownAtOnce(fn: nat -> Attempt, maxAttempts: int, delay: int, backoff: nat)
    requires maxAttempts >= 1 && fn(1).Failed? && NonRetryable(fn(1).error)
    ensures Run(fn, maxAttempts, delay, backoff) == RetryRun(Failure(fn(1).error), 1, [])
  {
    StopsAt(fn, 1, 1, maxAttempts, delay, backoff, Error(UnknownError, None));
  }

  /** In these snapshots the hook only ever says it is retrying from attempt 2 on. */
  predicate RetryingOnlyFromSecond(s: seq<HookState>) {
    forall i :: 0 <= i < |s| && s[i].isRetrying ==> s[i].attemptCount >= 2
  }

  lemma AppendKeeps(a: seq<HookState>, b: seq<HookState>)
    requires RetryingOnlyFromSecond(a) && RetryingOnlyFromSecond(b)
    ensures RetryingOnlyFromSecond(a + b)
  {
    forall i | 0 <= i < |a + b| && (a + b)[i].isRetrying
      ensures (a + b)[i].attemptCount >= 2
    {
      if i >= |a| {
        assert (a + b)[i] == b[i - |a|];
      }
    }
  }

  /** The hook: its options and its two pieces of React state. */
  class RetryHook {
    var isRetrying: bool
    var attemptCount: int
    /** Every state value set so far, in order. */
    ghost var states: seq<HookState>
    const maxAttempts: int
    const delay: int
    const backoff: nat

    /** Between calls the hook is idle: not retrying, attempt count 0. */
    predicate Valid()
      reads this
    {
      !isRetrying && attemptCount == 0
    }

    /** `useRetry(fn, options)`: both state values start at `false` and 0. */
    constructor (maxAttempts: int, delay: int, backoff: nat)
      ensures Valid() && states == []
      ensures this.maxAttempts == maxAttempts && this.delay == delay && this.backoff == backoff
    {
      isRetrying := false;
      attemptCount := 0;
      states := [];
      this.maxAttempts := maxAttempts;
      this.delay := delay;
      this.backoff := backoff;
    }

    /** `useRetry(fn)` with the default options `{maxAttempts: 3, delay: 1000, backoff: 2}`. */
    constructor Default()
      ensures Valid() && states == []
      ensures maxAttempts == DefaultMaxAttempts && delay == DefaultDelay && backoff == DefaultBackoff
    {
      isRetrying := false;
      attemptCount := 0;
      states := [];
      maxAttempts := DefaultMaxAttempts;
      delay := DefaultDelay;
      backoff := DefaultBackoff;
    }

    /** `setAttemptCount(n)`. */
    method SetAttemptCount(n: int)
      modifies this
      ensures attemptCount == n && isRetrying == old(isRetrying)
      ensures states == old(states) + [HookState(n, isRetrying)]
    {
      attemptCount := n;
      states := states + [HookState(attemptCount, isRetrying)];
    }

    /** `setIsRetrying(b)`. */
    method SetIsRetrying(b: bool)
      modifies this
      ensures isRetrying == b && attemptCount == old(attemptCount)
      ensures states == old(states) + [HookState(attemptCount, b)]
    {
      isRetrying := b;
      states := states + [HookState(attemptCount, isRetrying)];
    }

    /** `setIsRetrying(false); setAttemptCount(0)`. */
    method Reset()
      modifies this
      ensures Valid()
      ensures states == old(states) + [HookState(old(attemptCount), false), HookState(0, false)]
    {
      SetIsRetrying(false);
      SetAttemptCount(0);
    }

    /** `setAttemptCount(attempt)`, then `setIsRetrying(true)` from the second attempt on. */
    method BeginAttempt(attempt: nat)
      requires attempt >= 1
      modifies this
      ensures attemptCount == attempt && isRetrying == (attempt > 1 || old(isRetrying))
      ensures states == old(states) + (if attempt > 1 then [HookState(attempt, old(isRetrying)), HookState(attempt, true)]
                                       else [HookState(attempt, old(isRetrying))])
    {
      SetAttemptCount(attempt);
      if attempt > 1 {
        SetIsRetrying(true);
      }
    }

    /**
     * `executeWithRetry(...args)`, where `fn(k)` is what the k-th call of
     * `fn(...args)` does. The waits are returned rather than slept.
     */
    method ExecuteWithRetry(fn: nat -> Attempt) returns (result: Result<Json, Error>, calls: nat, waits: seq<int>)
      requires Valid()
      modifies this
      ensures Valid()
      ensures RetryRun(result, calls, waits) == Run(fn, maxAttempts, delay, backoff)
      ensures |states| > |old(states)| && states[..|old(states)|] == old(states)
      ensures RetryingOnlyFromSecond(states[|old(states)|..])
    {
      ghost var base := states;
      ghost var trace: seq<HookState> := [];
      ghost var spec := RunFrom(fn, 1, maxAttempts, delay, backoff, Error(UnknownError, None));
      assert After([], spec) == spec;
      var lastError := Error(UnknownError, None);
      var attempt: nat := 1;
      calls := 0;
      waits := [];
      while attempt <= maxAttempts
        invariant attempt >= 1 && calls == attempt - 1
        invariant isRetrying <==> attempt >= 3
        invariant attemptCount == attempt - 1
        invariant states == base + trace && RetryingOnlyFromSecond(trace)
        invariant spec == After(waits, RunFrom(fn, attempt, maxAttempts, delay, backoff, lastError))
        decreases maxAttempts - attempt
      {
        trace := Track(base, trace, attempt);
        calls := calls + 1;
        var outcome := fn(attempt);
        if !RetryableFailure(outcome) {
          StopStep(fn, attempt, maxAttempts, delay, backoff, lastError, waits);
        }
        if outcome.Succeeded? {
          Finish(base, trace);
          return Success(outcome.value), calls, waits;
        }
        if NonRetryable(outcome.error) {
          Finish(base, trace);
          return Failure(outcome.error), calls, waits;
        }
        RetryStep(fn, attempt, maxAttempts, delay, backoff, lastError, waits);
        lastError := outcome.error;
        if attempt < maxAttempts {
          waits := waits + [WaitAfter(attempt, delay, backoff)];
        }
        attempt := attempt + 1;
      }
      ExhaustedStep(fn, attempt, maxAttempts, delay, backoff, lastError, waits);
      Finish(base, trace);
      result := Failure(lastError);
    }

    /** `BeginAttempt(attempt)`, with the snapshots it sets appended to `trace`. */
    method Track(ghost base: seq<HookState>, ghost trace: seq<HookState>, attempt: nat) returns (ghost trace': seq<HookState>)
      requires attempt >= 1 && (isRetrying <==> attempt >= 3)
      requires states == base + trace && RetryingOnlyFromSecond(trace)
      modifies this
      ensures attemptCount == attempt && (isRetrying <==> attempt >= 2)
      ensures states == base + trace' && RetryingOnlyFromSecond(trace')
    {
      ghost var before := states;
      BeginAttempt(attempt);
      AppendKeeps(trace, states[|before|..]);
      trace' := trace + states[|before|..];
    }

    /** The reset on exit, after the snapshots `trace` this call added to `base`. */
    method Finish(ghost base: seq<HookState>, ghost trace: seq<HookState>)
      requires states == base + trace
      requires RetryingOnlyFromSecond(trace)
      modifies this
      ensures Valid()
      ensures |states| > |base| && states[..|base|] == base
      ensures RetryingOnlyFromSecond(states[|base|..])
    {
      Reset();
      AppendKeeps(trace, [HookState(old(attemptCount), false), HookState(0, false)]);
      assert states[|base|..] == trace + [HookState(old(attemptCount), false), HookState(0, false)];
    }
  }
}
