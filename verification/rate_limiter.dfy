/**
 * Rate limiting and retries for model calls (semgrepai/async_utils/rate_limiter.py).
 *
 * The retry loop is stated over what each attempt's await yields (`op(a)`
 * for attempt `a`). `execute_with_retry` is handed one awaitable object and
 * awaits that same object on every attempt: `Awaited(first, again)` gives
 * the outcome of its one run on the first await and the exception `again`
 * on every later one (for a coroutine object, the RuntimeError raised on
 * reuse). Whether an exception is one of the retried types is the
 * predicate `retryable`. The random jitter is the fraction
 * `jitter(a)` drawn on attempt `a`, so `random.uniform(0, d/10)` is
 * `jitter(a) * d/10`. Sleeps are recorded instead of performed.
 */
module RateLimiter {
  import opened Common

  datatype RateLimitConfig = RateLimitConfig(
    maxConcurrent: int,
    requestsPerMinute: int,
    maxRetries: int,
    baseDelay: real,
    maxDelay: real,
    jitter: bool)

  /** `RateLimitConfig()` with every field at its default. */
  const DefaultConfig := RateLimitConfig(4, 60, 3, 1.0, 60.0, true)

  function Pow2(n: nat): (r: nat)
    ensures r >= 1
  {
    if n == 0 then 1 else 2 * Pow2(n - 1)
  }

  lemma {:induction false} Pow2Monotone(a: nat, b: nat)
    requires a <= b
    ensures Pow2(a) <= Pow2(b)
  {
    if a < b {
      Pow2Monotone(a, b - 1);
    }
  }

  /** `min(base_delay * 2**attempt, max_delay)`. */
  function BaseBackoff(cfg: RateLimitConfig, attempt: nat): (d: real)
    ensures d <= cfg.maxDelay
    ensures d == cfg.maxDelay || d == cfg.baseDelay * (Pow2(attempt) as real)
  {
    var grown := cfg.baseDelay * (Pow2(attempt) as real);
    if grown <= cfg.maxDelay then grown else cfg.maxDelay
  }

  /** `_calculate_backoff(attempt)` when `random.uniform` returns the fraction `u` of its range. */
  function CalculateBackoff(cfg: RateLimitConfig, attempt: nat, u: real): (d: real)
    ensures !cfg.jitter ==> d == BaseBackoff(cfg, attempt)
  {
    var delay := BaseBackoff(cfg, attempt);
    if cfg.jitter then delay + u * (delay * 0.1) else delay
  }

  /** Without jitter the delay never exceeds `max_delay` and does not shrink from one attempt to the next. */
  lemma BackoffCappedAndMonotone(cfg: RateLimitConfig, a: nat, b: nat)
    requires !cfg.jitter && cfg.baseDelay >= 0.0 && a <= b
    ensures CalculateBackoff(cfg, a, 0.0) <= cfg.maxDelay
    ensures CalculateBackoff(cfg, a, 0.0) <= CalculateBackoff(cfg, b, 0.0)
  {
    Pow2Monotone(a, b);
    var ga, gb := cfg.baseDelay * (Pow2(a) as real), cfg.baseDelay * (Pow2(b) as real);
    ScaleMonotone(cfg.baseDelay, Pow2(a) as real, Pow2(b) as real);
    assert ga <= gb;
    var da, db := CalculateBackoff(cfg, a, 0.0), CalculateBackoff(cfg, b, 0.0);
    assert da == if ga <= cfg.maxDelay then ga else cfg.maxDelay;
    assert db == if gb <= cfg.maxDelay then gb else cfg.maxDelay;
    if ga <= cfg.maxDelay {
      assert da == ga <= db;
    } else {
      assert da == cfg.maxDelay == db;
    }
  }

  lemma ScaleMonotone(x: real, p: real, q: real)
    requires x >= 0.0 && p <= q
    ensures x * p <= x * q
  {
    assert x * q - x * p == x * (q - p);
    NonNegativeProduct(x, q - p);
  }

  /** With jitter the delay for base value d lies between d and 1.1 d. */
  lemma JitterBounds(cfg: RateLimitConfig, attempt: nat, u: real)
    requires cfg.jitter && 0.0 <= u <= 1.0
    requires cfg.baseDelay >= 0.0 && cfg.maxDelay >= 0.0
    ensures BaseBackoff(cfg, attempt) <= CalculateBackoff(cfg, attempt, u) <= 1.1 * BaseBackoff(cfg, attempt)
  {
    var d := BaseBackoff(cfg, attempt);
    var p := Pow2(attempt) as real;
    NonNegativeProduct(cfg.baseDelay, p);
    assert d >= 0.0;
    JitterArith(d, u);
    var c := CalculateBackoff(cfg, attempt, u);
    assert c == d + u * (d * 0.1);
    assert d <= c;
    assert c <= 1.1 * d;
  }

  lemma JitterArith(d: real, u: real)
    requires d >= 0.0 && 0.0 <= u <= 1.0
    ensures d <= d + u * (d * 0.1) <= 1.1 * d
  {
    FractionBounds(u, d * 0.1);
  }

  lemma NonNegativeProduct(x: real, y: real)
    requires x >= 0.0 && y >= 0.0
    ensures x * y >= 0.0
  {
  }

  lemma FractionBounds(u: real, x: real)
    requires 0.0 <= u <= 1.0 && x >= 0.0
    ensures 0.0 <= u * x <= x
  {
    assert x - u * x == (1.0 - u) * x;
    NonNegativeProduct(1.0 - u, x);
    NonNegativeProduct(u, x);
  }

  /** What one attempt of the awaited operation did. */
  datatype Outcome<+T, +E> = Success(value: T) | Raised(exc: E)

  /** How `execute_with_retry` ends. */
  datatype RetryResult<+T, +E> =
    | Returned(value: T)
    | Propagated(exc: E)               // an exception that is not retried escapes as is
    | MaxRetriesExceeded(cause: Option<E>) // chained to the last retried exception, if any

  /** The result, the number of attempts made and the delays slept. */
  datatype Trace<+T, +E> = Trace(result: RetryResult<T, E>, attempts: nat, sleeps: seq<real>)

  /** The retry loop from `attempt` on, having last seen `last`. */
  function Run<T, E>(cfg: RateLimitConfig, op: nat -> Outcome<T, E>, retryable: E -> bool,
                     jitter: nat -> real, attempt: nat, last: Option<E>): (t: Trace<T, E>)
    decreases if attempt <= cfg.maxRetries then cfg.maxRetries - attempt else 0
  {
    if attempt >= cfg.maxRetries then Trace(MaxRetriesExceeded(last), 0, [])
    else match op(attempt)
      case Success(v) => Trace(Returned(v), 1, [])
      case Raised(e) =>
        if !retryable(e) then Trace(Propagated(e), 1, [])
        else
          var rest := Run(cfg, op, retryable, jitter, attempt + 1, Some(e));
          var pause := if attempt < cfg.maxRetries - 1 then [CalculateBackoff(cfg, attempt, jitter(attempt))] else [];
          Trace(rest.result, 1 + rest.attempts, pause + rest.sleeps)
  }

  /** The whole call: `Run` from attempt 0 with no exception seen yet. */
  function Retry<T, E>(cfg: RateLimitConfig, op: nat -> Outcome<T, E>, retryable: E -> bool,
                       jitter: nat -> real): Trace<T, E>
  {
    Run(cfg, op, retryable, jitter, 0, None)
  }

  /**
   * At most `max_retries` attempts are made, and there is exactly one sleep
   * between consecutive attempts, none after the last.
   */
  lemma {:induction false} AttemptsAndSleeps<T, E>(cfg: RateLimitConfig, op: nat -> Outcome<T, E>, retryable: E -> bool,
                                                   jitter: nat -> real, attempt: nat, last: Option<E>)
    ensures var t := Run(cfg, op, retryable, jitter, attempt, last);
      t.attempts <= Max(0, cfg.maxRetries - attempt) &&
      |t.sleeps| == Max(0, t.attempts - 1)
    decreases if attempt <= cfg.maxRetries then cfg.maxRetries - attempt else 0
  {
    if attempt < cfg.maxRetries && op(attempt).Raised? && retryable(op(attempt).exc) {
      AttemptsAndSleeps(cfg, op, retryable, jitter, attempt + 1, Some(op(attempt).exc));
      var rest := Run(cfg, op, retryable, jitter, attempt + 1, Some(op(attempt).exc));
      if attempt == cfg.maxRetries - 1 {
        assert rest.attempts == 0;
      } else {
        assert rest.attempts >= 1 by {
          if rest.attempts == 0 {
            RunMakesAnAttempt(cfg, op, retryable, jitter, attempt + 1, Some(op(attempt).exc));
          }
        }
      }
    }
  }

  /** Below the limit, the loop always makes at least one attempt. */
  lemma RunMakesAnAttempt<T, E>(cfg: RateLimitConfig, op: nat -> Outcome<T, E>, retryable: E -> bool,
                                jitter: nat -> real, attempt: nat, last: Option<E>)
    requires attempt < cfg.maxRetries
    ensures Run(cfg, op, retryable, jitter, attempt, last).attempts >= 1
  {
  }

  /**
   * When attempts before `j` raise retried exceptions and attempt `j` (within
   * the limit) succeeds, the call returns that value after `j + 1` attempts.
   */
  lemma {:induction false} FirstSuccessWins<T, E>(cfg: RateLimitConfig, op: nat -> Outcome<T, E>, retryable: E -> bool,
                                                  jitter: nat -> real, attempt: nat, last: Option<E>, j: nat)
    requires attempt <= j < cfg.maxRetries
    requires forall a :: attempt <= a < j ==> op(a).Raised? && retryable(op(a).exc)
    requires op(j).Success?
    ensures Run(cfg, op, retryable, jitter, attempt, last).result == Returned(op(j).value)
    ensures Run(cfg, op, retryable, jitter, attempt, last).attempts == j - attempt + 1
    decreases j - attempt
  {
    if attempt < j {
      FirstSuccessWins(cfg, op, retryable, jitter, attempt + 1, Some(op(attempt).exc), j);
    }
  }

  /**
   * An operation that always raises a retried exception is attempted
   * `max_retries` times with `max_retries - 1` sleeps of the computed backoff,
   * and the call raises MaxRetriesExceeded chained to the last exception.
   */
  lemma {:induction false} AlwaysFailing<T, E>(cfg: RateLimitConfig, op: nat -> Outcome<T, E>, retryable: E -> bool,
                                               jitter: nat -> real, attempt: nat, last: Option<E>)
    requires attempt < cfg.maxRetries
    requires forall a :: attempt <= a < cfg.maxRetries ==> op(a).Raised? && retryable(op(a).exc)
    ensures var t := Run(cfg, op, retryable, jitter, attempt, last);
      t.result == MaxRetriesExceeded(Some(op(cfg.maxRetries - 1).exc)) &&
      t.attempts == cfg.maxRetries - attempt &&
      |t.sleeps| == cfg.maxRetries - attempt - 1 &&
      forall i :: 0 <= i < |t.sleeps| ==> t.sleeps[i] == CalculateBackoff(cfg, attempt + i, jitter(attempt + i))
    decreases cfg.maxRetries - attempt
  {
    if attempt < cfg.maxRetries - 1 {
      AlwaysFailing(cfg, op, retryable, jitter, attempt + 1, Some(op(attempt).exc));
      var t := Run(cfg, op, retryable, jitter, attempt, last);
      var rest := Run(cfg, op, retryable, jitter, attempt + 1, Some(op(attempt).exc));
      assert t.sleeps == [CalculateBackoff(cfg, attempt, jitter(attempt))] + rest.sleeps;
    }
  }

  /** An operation that raises on every attempt from `attempt` on never returns a value. */
  lemma {:induction false} NeverReturns<T, E>(cfg: RateLimitConfig, op: nat -> Outcome<T, E>, retryable: E -> bool,
                                              jitter: nat -> real, attempt: nat, last: Option<E>)
    requires forall a :: a >= attempt ==> op(a).Raised?
    ensures !Run(cfg, op, retryable, jitter, attempt, last).result.Returned?
    decreases if attempt <= cfg.maxRetries then cfg.maxRetries - attempt else 0
  {
    if attempt < cfg.maxRetries && retryable(op(attempt).exc) {
      NeverReturns(cfg, op, retryable, jitter, attempt + 1, Some(op(attempt).exc));
    }
  }

  // ---------------------------------------------------------------- one awaitable, awaited on every attempt

  /** What the text of the RuntimeError says when a finished coroutine object is awaited again. */
  const ReuseError := "cannot reuse already awaited coroutine"

  /**
   * The attempts of `execute_with_retry` over one awaitable object: its single
   * run yields `first` on the first await, and every later await raises `again`.
   */
  function Awaited<T, E>(first: Outcome<T, E>, again: E): nat -> Outcome<T, E> {
    a => if a == 0 then first else Raised(again)
  }

  /**
   * Retrying one awaitable returns a value exactly when at least one attempt
   * is allowed and the first await succeeded with that value: a failure is
   * never recovered from by a later attempt.
   */
  lemma AwaitedReturnsOnlyFirst<T, E>(cfg: RateLimitConfig, first: Outcome<T, E>, again: E, retryable: E -> bool,
                                      jitter: nat -> real, v: T)
    ensures Retry(cfg, Awaited(first, again), retryable, jitter).result == Returned(v) <==>
      cfg.maxRetries >= 1 && first == Success(v)
  {
    var op := Awaited(first, again);
    if cfg.maxRetries >= 1 && first.Raised? && retryable(first.exc) {
      assert forall a :: a >= 1 ==> op(a) == Raised(again);
      NeverReturns(cfg, op, retryable, jitter, 1, Some(first.exc));
    }
  }

  /** The value a retried awaitable returns is the one its first await produced. */
  lemma AwaitedReturned<T, E>(cfg: RateLimitConfig, first: Outcome<T, E>, again: E, retryable: E -> bool, jitter: nat -> real)
    ensures var r := Retry(cfg, Awaited(first, again), retryable, jitter).result;
      r.Returned? ==> first == Success(r.value)
  {
    var r := Retry(cfg, Awaited(first, again), retryable, jitter).result;
    if r.Returned? {
      AwaitedReturnsOnlyFirst(cfg, first, again, retryable, jitter, r.value);
    }
  }

  /**
   * A retried failure of the first await with room for a second attempt: the
   * second await raises `again`. When that is retried too, every attempt up
   * to `max_retries` is made and MaxRetriesExceeded is chained to `again`;
   * otherwise `again` escapes from the second attempt.
   */
  lemma AwaitedFailureRetried<T, E>(cfg: RateLimitConfig, e: E, again: E, retryable: E -> bool, jitter: nat -> real)
    requires cfg.maxRetries >= 2 && retryable(e)
    ensures var t := Retry(cfg, Awaited<T, E>(Raised(e), again), retryable, jitter);
      (retryable(again) ==> t.result == MaxRetriesExceeded(Some(again)) && t.attempts == cfg.maxRetries) &&
      (!retryable(again) ==> t.result == Propagated(again) && t.attempts == 2)
  {
    var op := Awaited<T, E>(Raised(e), again);
    if retryable(again) {
      assert forall a :: 0 <= a < cfg.maxRetries ==> op(a).Raised? && retryable(op(a).exc);
      AlwaysFailing(cfg, op, retryable, jitter, 0, None);
      assert op(cfg.maxRetries - 1) == Raised(again);
    } else {
      assert op(1) == Raised(again);
      assert Run(cfg, op, retryable, jitter, 1, Some(e)) == Trace(Propagated(again), 1, []);
    }
  }

  /**
   * `with_rate_limit` hands over one coroutine object and retries every
   * exception: with the default configuration a call whose first run times
   * out fails after three attempts with the reuse error, whereas a fresh
   * coroutine per attempt that succeeds on the second one returns its value.
   */
  lemma ReusedCoroutineNeverRecovers()
    ensures var t := Retry(DefaultConfig, Awaited<int, string>(Raised("timeout"), ReuseError), _ => true, _ => 0.0);
      t.result == MaxRetriesExceeded(Some(ReuseError)) && t.attempts == 3
    ensures Retry(DefaultConfig, TimeoutThenOne, _ => true, _ => 0.0).result == Returned(1)
  {
    AwaitedFailureRetried<int, string>(DefaultConfig, "timeout", ReuseError, _ => true, _ => 0.0);
    FirstSuccessWins(DefaultConfig, TimeoutThenOne, _ => true, _ => 0.0, 0, None, 1);
  }

  /** Fresh coroutines, one per attempt: the first times out, the rest return 1. */
  function TimeoutThenOne(a: nat): Outcome<int, string> {
    if a == 0 then Raised("timeout") else Success(1)
  }

  /** With `max_retries <= 0` nothing is attempted and MaxRetriesExceeded has no cause. */
  lemma NoRetriesNoAttempt<T, E>(cfg: RateLimitConfig, op: nat -> Outcome<T, E>, retryable: E -> bool, jitter: nat -> real)
    requires cfg.maxRetries <= 0
    ensures Retry(cfg, op, retryable, jitter) == Trace(MaxRetriesExceeded(None), 0, [])
  {
  }

  /** An exception outside the retried types escapes from the first attempt, with no sleep. */
  lemma NonRetryablePropagates<T, E>(cfg: RateLimitConfig, op: nat -> Outcome<T, E>, retryable: E -> bool, jitter: nat -> real)
    requires cfg.maxRetries >= 1 && op(0).Raised? && !retryable(op(0).exc)
    ensures Retry(cfg, op, retryable, jitter) == Trace(Propagated(op(0).exc), 1, [])
  {
  }

  class AsyncRateLimiter {
    const config: RateLimitConfig
    var requestCount: nat

    constructor(config: Option<RateLimitConfig>)
      ensures this.config == config.GetOr(DefaultConfig) && requestCount == 0
    {
      this.config := config.GetOr(DefaultConfig);
      requestCount := 0;
    }

    /** `__aenter__`: one more request. The semaphore and token bucket are not modelled. */
    method Enter()
      modifies this`requestCount
      ensures requestCount == old(requestCount) + 1
    {
      requestCount := requestCount + 1;
    }

    /** `__aexit__`: never suppresses the exception in flight. */
    method Exit() returns (suppress: bool)
      ensures !suppress
    {
      suppress := false;
    }

    /**
     * `execute_with_retry` on one awaitable object, proved against `Retry` over
     * `Awaited(first, again)`; each attempt enters the limiter once, and a
     * value is returned only when the first await produced it.
     */
    method ExecuteWithRetry<T, E>(first: Outcome<T, E>, again: E, retryable: E -> bool, jitter: nat -> real)
      returns (result: RetryResult<T, E>, sleeps: seq<real>)
      modifies this`requestCount
      ensures var t := Retry(config, Awaited(first, again), retryable, jitter);
        result == t.result && sleeps == t.sleeps && requestCount == old(requestCount) + t.attempts
      ensures result.Returned? ==> first == Success(result.value)
    {
      AwaitedReturned(config, first, again, retryable, jitter);
      result, sleeps := RetryLoop(Awaited(first, again), retryable, jitter);
    }

    /** The loop of `execute_with_retry`, over what the await of each attempt yields. */
    method RetryLoop<T, E>(op: nat -> Outcome<T, E>, retryable: E -> bool, jitter: nat -> real)
      returns (result: RetryResult<T, E>, sleeps: seq<real>)
      modifies this`requestCount
      ensures var t := Retry(config, op, retryable, jitter);
        result == t.result && sleeps == t.sleeps && requestCount == old(requestCount) + t.attempts
    {
      var last: Option<E> := None;
      sleeps := [];
      var attempt: nat := 0;
      while attempt < config.maxRetries
        invariant var whole, here := Retry(config, op, retryable, jitter), Run(config, op, retryable, jitter, attempt, last);
          whole.result == here.result &&
          whole.attempts == attempt + here.attempts &&
          whole.sleeps == sleeps + here.sleeps &&
          requestCount == old(requestCount) + attempt
        decreases config.maxRetries - attempt
      {
        Enter();
        var outcome := op(attempt);
        var _ := Exit();
        match outcome {
          case Success(v) =>
            result := Returned(v);
            return;
          case Raised(e) =>
            if !retryable(e) {
              result := Propagated(e);
              return;
            }
            last := Some(e);
            if attempt < config.maxRetries - 1 {
              var delay := CalculateBackoff(config, attempt, jitter(attempt));
              sleeps := sleeps + [delay];
            }
        }
        attempt := attempt + 1;
      }
      result := MaxRetriesExceeded(last);
    }
  }
}
