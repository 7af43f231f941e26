/** The reconnect policy `retry_strategy` that server/redis.js hands to the command
    connection, as written and as evidently intended. */
module Retry {
  import opened Js
  import opened Optional

  /** The argument the client library passes to `retry_strategy`. */
  datatype Options = Options(error: Value, attempt: int, totalRetryTime: int)

  /** What `retry_strategy` returns: a number (reconnect after that many milliseconds),
      an `Error` (stop reconnecting and report it) or `undefined` (stop reconnecting). */
  datatype Decision = RetryAfter(ms: int) | StopWithError(err: Value) | Stop

  const DelayStep := 100
  const MaxDelay := 3000
  /** One hour in milliseconds, written `1000 * 60 * 60` in server/redis.js. */
  const RetryTimeLimit := 1000 * 60 * 60
  const MaxAttempts := 10
  const ExhaustedError := ErrorObj("Retry time exhausted", Undefined)

  /** The reconnect delay: 100 ms per attempt, capped at three seconds. */
  function Backoff(attempt: int): (ms: int)
    ensures ms <= MaxDelay && ms <= attempt * DelayStep
    ensures ms == MaxDelay || ms == attempt * DelayStep
  {
    if attempt * DelayStep <= MaxDelay then attempt * DelayStep else MaxDelay
  }

  /** From attempt 30 on the cap is reached; before that the delay is linear. */
  lemma BackoffShape(attempt: int)
    ensures attempt >= 30 ==> Backoff(attempt) == MaxDelay
    ensures attempt < 30 ==> Backoff(attempt) == attempt * DelayStep
    ensures 1 <= attempt ==> 0 < Backoff(attempt)
  {
  }

  /** The delay never decreases as the attempt count grows. */
  lemma BackoffMonotonic(a: int, b: int)
    requires a <= b
    ensures Backoff(a) <= Backoff(b)
  {
  }

  /** True when the error is a truthy value whose `code` is `"ECONNREFUSED"`. */
  predicate Refused(error: Value)
  {
    Truthy(error) && CodeOf(error) == Str("ECONNREFUSED")
  }

  /** The guard of the first `if`, evaluated as JavaScript parses it:
      `((error && error.code === "ECONNREFUSED") || "ETIMEDOUT") || "CONNECTION_BROKEN"`.
      `&&` reads `code` only when `error` is truthy. The guard is always truthy: it is
      `true` for a refused connection and the literal `"ETIMEDOUT"` otherwise, so the last
      alternative is never reached. */
  function ReconnectGuard(o: Options): (v: Value)
    ensures Truthy(v)
    ensures Refused(o.error) ==> v == Bool(true)
    ensures !Refused(o.error) ==> v == Str("ETIMEDOUT")
  {
    var left := if Truthy(o.error) then Bool(CodeOf(o.error) == Str("ECONNREFUSED")) else o.error;
    Or(Or(left, Str("ETIMEDOUT")), Str("CONNECTION_BROKEN"))
  }

  /** The tail of the policy after the first `if`: the time limit is checked before the
      attempt limit, and only an attempt within both limits is retried. */
  function TimeAndAttemptLimits(o: Options): (d: Decision)
    ensures d.StopWithError? <==> o.totalRetryTime > RetryTimeLimit
    ensures d.StopWithError? ==> d.err == ExhaustedError
    ensures d.Stop? <==> o.totalRetryTime <= RetryTimeLimit && o.attempt > MaxAttempts
    ensures d.RetryAfter? ==> d.ms == Backoff(o.attempt) && o.attempt <= MaxAttempts
  {
    if o.totalRetryTime > RetryTimeLimit then StopWithError(ExhaustedError)
    else if o.attempt > MaxAttempts then Stop
    else RetryAfter(Backoff(o.attempt))
  }

  /** `retry_strategy` as written. Because the guard is always truthy the function always
      returns the capped backoff, whatever the error, attempt count or elapsed time. */
  function RetryStrategy(o: Options): (d: Decision)
    ensures d == RetryAfter(Backoff(o.attempt))
    ensures d.ms <= MaxDelay
  {
    if Truthy(ReconnectGuard(o)) then RetryAfter(Backoff(o.attempt))
    else TimeAndAttemptLimits(o)
  }

  /** The error codes the first `if` evidently meant to test for. */
  predicate ConnectionError(error: Value)
  {
    Truthy(error) && CodeOf(error) in {Str("ECONNREFUSED"), Str("ETIMEDOUT"), Str("CONNECTION_BROKEN")}
  }

  /** `retry_strategy` with the guard read as
      `error && (error.code === "ECONNREFUSED" || error.code === "ETIMEDOUT" || error.code === "CONNECTION_BROKEN")`. */
  function IntendedRetryStrategy(o: Options): (d: Decision)
    ensures d.StopWithError? <==> !ConnectionError(o.error) && o.totalRetryTime > RetryTimeLimit
    ensures d.StopWithError? ==> d.err == ExhaustedError
    ensures d.Stop? <==> !ConnectionError(o.error) && o.totalRetryTime <= RetryTimeLimit && o.attempt > MaxAttempts
    ensures d.RetryAfter? ==> d.ms == Backoff(o.attempt)
  {
    if ConnectionError(o.error) then RetryAfter(Backoff(o.attempt))
    else TimeAndAttemptLimits(o)
  }

  /** The as-written policy never ends reconnection: neither stopping branch is reachable. */
  lemma StopBranchesUnreachable(o: Options)
    ensures RetryStrategy(o) != StopWithError(ExhaustedError)
    ensures RetryStrategy(o) != Stop
    ensures RetryStrategy(o).RetryAfter?
  {
    assert Truthy(ReconnectGuard(o));
  }

  /** A connection that is down with no error, after eleven attempts and more than an hour:
      the as-written policy still schedules a retry, the intended one reports the error. */
  lemma GuardIgnoresTimeLimit()
    ensures RetryStrategy(Options(Undefined, 11, RetryTimeLimit + 1)) == RetryAfter(1100)
    ensures IntendedRetryStrategy(Options(Undefined, 11, RetryTimeLimit + 1)) == StopWithError(ExhaustedError)
  {
  }

  /** The same situation within the hour: the intended policy stops without an error. */
  lemma GuardIgnoresAttemptLimit()
    ensures RetryStrategy(Options(Undefined, 11, 0)) == RetryAfter(1100)
    ensures IntendedRetryStrategy(Options(Undefined, 11, 0)) == Stop
  {
  }

  /** A run of consecutive failed connection attempts under one policy, in a modelled
      driver that consults only the policy: after a delay `ms` the next attempt is numbered
      one higher and `ms` is added to the elapsed retry time. Limits the client library
      enforces on its own are not part of this driver. `end` is the stopping decision, or
      `None` when the run is still retrying after `fuel` attempts. */
  datatype Run = Run(delays: seq<int>, end: Option<Decision>)

  function Reconnect(policy: Options -> Decision, error: Value, attempt: int, total: int, fuel: nat): (r: Run)
    ensures |r.delays| <= fuel
    ensures r.end.Some? ==> !r.end.value.RetryAfter?
    decreases fuel
  {
    if fuel == 0 then Run([], None)
    else
      match policy(Options(error, attempt, total))
      case RetryAfter(ms) =>
        var rest := Reconnect(policy, error, attempt + 1, total + ms, fuel - 1);
        Run([ms] + rest.delays, rest.end)
      case d => Run([], Some(d))
  }

  /** In the modelled driver, the as-written policy follows every attempt, however many,
      with another one after `min(attempt * 100, 3000)` milliseconds: the policy itself
      never asks to stop. */
  lemma {:induction false} AsWrittenNeverEnds(error: Value, attempt: int, total: int, fuel: nat)
    ensures Reconnect(RetryStrategy, error, attempt, total, fuel).end == None
    ensures |Reconnect(RetryStrategy, error, attempt, total, fuel).delays| == fuel
    ensures forall i :: 0 <= i < fuel ==>
      Reconnect(RetryStrategy, error, attempt, total, fuel).delays[i] == Backoff(attempt + i)
    decreases fuel
  {
    if fuel > 0 {
      var ms := Backoff(attempt);
      AsWrittenNeverEnds(error, attempt + 1, total + ms, fuel - 1);
      var rest := Reconnect(RetryStrategy, error, attempt + 1, total + ms, fuel - 1);
      assert Reconnect(RetryStrategy, error, attempt, total, fuel) == Run([ms] + rest.delays, rest.end);
    }
  }

  /** Under the limits of lines 37-46, a run started at attempt `attempt >= 1` retries at
      most `MaxAttempts + 1 - attempt` times and then stops. */
  lemma {:induction false} LimitsEndRun(policy: Options -> Decision, error: Value, attempt: int, total: int, fuel: nat)
    requires forall a: int, t: int :: policy(Options(error, a, t)) == TimeAndAttemptLimits(Options(error, a, t))
    requires 1 <= attempt
    requires fuel > if attempt <= MaxAttempts then MaxAttempts + 1 - attempt else 0
    ensures Reconnect(policy, error, attempt, total, fuel).end.Some?
    ensures |Reconnect(policy, error, attempt, total, fuel).delays| <= if attempt <= MaxAttempts then MaxAttempts + 1 - attempt else 0
    decreases fuel
  {
    var o := Options(error, attempt, total);
    assert policy(o) == TimeAndAttemptLimits(o);
    if attempt <= MaxAttempts && total <= RetryTimeLimit {
      var ms := Backoff(attempt);
      LimitsEndRun(policy, error, attempt + 1, total + ms, fuel - 1);
      var rest := Reconnect(policy, error, attempt + 1, total + ms, fuel - 1);
      assert Reconnect(policy, error, attempt, total, fuel) == Run([ms] + rest.delays, rest.end);
    } else {
      assert Reconnect(policy, error, attempt, total, fuel) == Run([], Some(TimeAndAttemptLimits(o)));
    }
  }

  /** With the corrected guard, a connection failing for any other reason than the three
      listed codes is given up after at most ten retries from the first attempt. */
  lemma IntendedEndsWithinTenRetries(error: Value, total: int, fuel: nat)
    requires !ConnectionError(error)
    requires fuel > MaxAttempts
    ensures Reconnect(IntendedRetryStrategy, error, 1, total, fuel).end.Some?
    ensures |Reconnect(IntendedRetryStrategy, error, 1, total, fuel).delays| <= MaxAttempts
  {
    forall a: int, t: int
      ensures IntendedRetryStrategy(Options(error, a, t)) == TimeAndAttemptLimits(Options(error, a, t))
    {
    }
    LimitsEndRun(IntendedRetryStrategy, error, 1, total, fuel);
  }
}
