/** The retry decorator of src/utils/retry.py: configuration checks, the
    attempt loop of the wrapper and the capped exponential delay. The wrapped
    function's behaviour on each attempt and the random jitter draws are
    parameters, and each sleep is returned instead of performed. An exception
    is modelled by the name of its type. */
module Retry {
  import opened Wrappers

  datatype RetryConfig = RetryConfig(
    maxRetries: int,
    initialDelay: real,
    maxDelay: real,
    exponentialBase: real,
    jitter: bool,
    exceptions: seq<string>)

  /** The decorator's defaults: three retries, 1 s initial delay, 60 s cap,
      doubling, jitter on, every exception retried. */
  const DefaultConfig: RetryConfig := RetryConfig(3, 1.0, 60.0, 2.0, true, [])

  datatype ConfigError =
    | NegativeMaxRetries
    | NonPositiveInitialDelay
    | MaxDelayBelowInitial
    | BaseNotAboveOne

  predicate ValidConfig(c: RetryConfig) {
    c.maxRetries >= 0 && c.initialDelay > 0.0 && c.maxDelay >= c.initialDelay && c.exponentialBase > 1.0
  }

  /** The checks `retry` makes before building the decorator, in their order:
      the first one that fails is reported. */
  function ValidateConfig(c: RetryConfig): (r: Outcome<ConfigError>)
    ensures r.Pass? <==> ValidConfig(c)
    ensures c.maxRetries < 0 ==> r == Fail(NegativeMaxRetries)
    ensures c.maxRetries >= 0 && c.initialDelay <= 0.0 ==> r == Fail(NonPositiveInitialDelay)
    ensures c.maxRetries >= 0 && c.initialDelay > 0.0 && c.maxDelay < c.initialDelay ==> r == Fail(MaxDelayBelowInitial)
    ensures c.maxRetries >= 0 && c.initialDelay > 0.0 && c.maxDelay >= c.initialDelay && c.exponentialBase <= 1.0 ==>
              r == Fail(BaseNotAboveOne)
  {
    if c.maxRetries < 0 then Fail(NegativeMaxRetries)
    else if c.initialDelay <= 0.0 then Fail(NonPositiveInitialDelay)
    else if c.maxDelay < c.initialDelay then Fail(MaxDelayBelowInitial)
    else if c.exponentialBase <= 1.0 then Fail(BaseNotAboveOne)
    else Pass
  }

  /** `exceptions and not isinstance(e, exceptions)` is false: no exception
      types given (None or an empty tuple) retries everything. */
  predicate Retryable(exceptions: seq<string>, kind: string) {
    exceptions == [] || kind in exceptions
  }

  function Pow(b: real, n: nat): real {
    if n == 0 then 1.0 else b * Pow(b, n - 1)
  }

  /** The delay before jitter after failed attempt number `attempt`. */
  function BaseDelay(c: RetryConfig, attempt: nat): real {
    var d := c.initialDelay * Pow(c.exponentialBase, attempt);
    if d <= c.maxDelay then d else c.maxDelay
  }

  /** `delay *= (0.5 + random.random())` */
  function Jittered(d: real, r: real): real {
    d * (0.5 + r)
  }

  /** The delay actually slept after failed attempt number `attempt`, with
      `r` the random draw. */
  function Delay(c: RetryConfig, attempt: nat, r: real): real {
    if c.jitter then Jittered(BaseDelay(c, attempt), r) else BaseDelay(c, attempt)
  }

  lemma {:induction false} PowGrows(b: real, n: nat)
    requires b >= 1.0
    ensures Pow(b, n) >= 1.0
    ensures Pow(b, n + 1) >= Pow(b, n)
  {
    if n > 0 {
      PowGrows(b, n - 1);
    }
    var p := Pow(b, n);
    assert Pow(b, n + 1) == b * p;
    assert b * p - p == (b - 1.0) * p;
  }

  lemma {:induction false} PowMonotone(b: real, m: nat, n: nat)
    requires b >= 1.0 && m <= n
    ensures Pow(b, m) <= Pow(b, n)
    decreases n - m
  {
    if m < n {
      PowGrows(b, n - 1);
      PowMonotone(b, m, n - 1);
    }
  }

  /** The pre-jitter delay lies between the initial delay and the cap. */
  lemma BaseDelayBounds(c: RetryConfig, attempt: nat)
    requires ValidConfig(c)
    ensures c.initialDelay <= BaseDelay(c, attempt) <= c.maxDelay
  {
    PowGrows(c.exponentialBase, attempt);
    var p := Pow(c.exponentialBase, attempt);
    assert c.initialDelay * p - c.initialDelay == c.initialDelay * (p - 1.0);
  }

  /** The pre-jitter delay never shrinks from one attempt to a later one. */
  lemma BaseDelayMonotone(c: RetryConfig, m: nat, n: nat)
    requires ValidConfig(c) && m <= n
    ensures BaseDelay(c, m) <= BaseDelay(c, n)
  {
    PowMonotone(c.exponentialBase, m, n);
    var pm, pn := Pow(c.exponentialBase, m), Pow(c.exponentialBase, n);
    assert c.initialDelay * pn - c.initialDelay * pm == c.initialDelay * (pn - pm);
  }

  /** Jitter scales a delay into [d/2, 3d/2). */
  lemma JitterBounds(d: real, r: real)
    requires d > 0.0 && 0.0 <= r < 1.0
    ensures 0.5 * d <= Jittered(d, r) < 1.5 * d
  {
    assert Jittered(d, r) == 0.5 * d + d * r;
    assert d * r >= 0.0;
    assert d - d * r == d * (1.0 - r);
  }

  /** Every slept delay is the capped exponential one, scaled by the jitter
      factor when jitter is on. */
  lemma DelayBounds(c: RetryConfig, attempt: nat, r: real)
    requires ValidConfig(c) && 0.0 <= r < 1.0
    ensures !c.jitter ==> c.initialDelay <= Delay(c, attempt, r) <= c.maxDelay
    ensures c.jitter ==> 0.5 * BaseDelay(c, attempt) <= Delay(c, attempt, r) < 1.5 * BaseDelay(c, attempt)
    ensures c.jitter ==> 0.5 * c.initialDelay <= Delay(c, attempt, r) < 1.5 * c.maxDelay
  {
    BaseDelayBounds(c, attempt);
    if c.jitter {
      JitterBounds(BaseDelay(c, attempt), r);
    }
  }

  /** The defaults are accepted and, before jitter, wait 1, 2 and 4 seconds. */
  lemma DefaultDelays()
    ensures ValidateConfig(DefaultConfig) == Pass
    ensures BaseDelay(DefaultConfig, 0) == 1.0 && BaseDelay(DefaultConfig, 1) == 2.0 && BaseDelay(DefaultConfig, 2) == 4.0
  {
    assert Pow(2.0, 2) == 4.0;
  }

  /** What one call of the wrapped function does. */
  datatype Attempt<T> = Returned(value: T) | Raised(kind: string)

  /** How the wrapper ends: with the function's result, by re-raising an
      exception it does not retry, or with `MaxRetriesExceededError` caused by
      the last exception. */
  datatype RetryResult<T> = Succeeded(value: T) | Propagated(kind: string) | MaxRetriesExceeded(last: string)

  datatype Retried<T> = Retried(result: RetryResult<T>, calls: nat, sleeps: seq<real>)

  /** The wrapper's loop from attempt number `attempt` on; `func(k)` is what
      attempt `k` does and `random(k)` the jitter draw after it. */
  function RetryFrom<T>(c: RetryConfig, func: nat -> Attempt<T>, random: nat -> real, attempt: nat): Retried<T>
    decreases c.maxRetries - attempt
  {
    match func(attempt)
    case Returned(v) => Retried(Succeeded(v), attempt + 1, [])
    case Raised(e) =>
      if !Retryable(c.exceptions, e) then Retried(Propagated(e), attempt + 1, [])
      else if attempt >= c.maxRetries then Retried(MaxRetriesExceeded(e), attempt + 1, [])
      else
        var rest := RetryFrom(c, func, random, attempt + 1);
        Retried(rest.result, rest.calls, [Delay(c, attempt, random(attempt))] + rest.sleeps)
  }

  /** The wrapper calls the function at most `max_retries + 1` times and stops
      at the first attempt that returns or raises an exception it does not
      retry; every earlier attempt raised a retried exception and was followed
      by one sleep of the computed delay; it gives up exactly when the last
      allowed attempt raises a retried exception. */
  lemma {:induction false} RetryFromShape<T>(c: RetryConfig, func: nat -> Attempt<T>, random: nat -> real, attempt: nat)
    requires attempt <= c.maxRetries
    ensures var res := RetryFrom(c, func, random, attempt);
      && attempt < res.calls <= c.maxRetries + 1
      && |res.sleeps| == res.calls - 1 - attempt
      && (forall i :: 0 <= i < |res.sleeps| ==> res.sleeps[i] == Delay(c, attempt + i, random(attempt + i)))
      && (forall k :: attempt <= k < res.calls - 1 ==> func(k).Raised? && Retryable(c.exceptions, func(k).kind))
      && (res.result.Succeeded? <==> func(res.calls - 1).Returned?)
      && (res.result.Succeeded? ==> res.result.value == func(res.calls - 1).value)
      && (res.result.Propagated? <==>
            func(res.calls - 1).Raised? && !Retryable(c.exceptions, func(res.calls - 1).kind))
      && (res.result.MaxRetriesExceeded? <==>
            func(res.calls - 1).Raised? && Retryable(c.exceptions, func(res.calls - 1).kind) && res.calls == c.maxRetries + 1)
      && (res.result.Propagated? ==> res.result.kind == func(res.calls - 1).kind)
      && (res.result.MaxRetriesExceeded? ==> res.result.last == func(res.calls - 1).kind)
    decreases c.maxRetries - attempt
  {
    match func(attempt)
    case Returned(v) =>
    case Raised(e) =>
      if Retryable(c.exceptions, e) && attempt < c.maxRetries {
        RetryFromShape(c, func, random, attempt + 1);
        var rest := RetryFrom(c, func, random, attempt + 1);
        var res := RetryFrom(c, func, random, attempt);
        assert res.sleeps == [Delay(c, attempt, random(attempt))] + rest.sleeps;
        forall i | 0 <= i < |res.sleeps|
          ensures res.sleeps[i] == Delay(c, attempt + i, random(attempt + i))
        {
          if i > 0 {
            assert res.sleeps[i] == rest.sleeps[i - 1];
          }
        }
      }
  }

  /** A function that works at once is called once and nothing is slept; one
      that always raises a retried exception is called `max_retries + 1`
      times with a sleep between every two calls. */
  lemma RetryExtremes<T>(c: RetryConfig, func: nat -> Attempt<T>, random: nat -> real)
    requires ValidConfig(c)
    ensures func(0).Returned? ==> RetryFrom(c, func, random, 0) == Retried(Succeeded(func(0).value), 1, [])
    ensures (forall k :: func(k).Raised? && Retryable(c.exceptions, func(k).kind)) ==>
      && RetryFrom(c, func, random, 0).result.MaxRetriesExceeded?
      && RetryFrom(c, func, random, 0).calls == c.maxRetries + 1
      && |RetryFrom(c, func, random, 0).sleeps| == c.maxRetries
  {
    RetryFromShape(c, func, random, 0);
  }

  /** The `wrapper` of a decorator built from an accepted configuration. */
  method CallWithRetry<T>(c: RetryConfig, func: nat -> Attempt<T>, random: nat -> real)
    returns (r: RetryResult<T>, calls: nat, sleeps: seq<real>)
    requires ValidConfig(c)
    ensures Retried(r, calls, sleeps) == RetryFrom(c, func, random, 0)
  {
    sleeps := [];
    var attempt: nat := 0;
    while true
      invariant attempt <= c.maxRetries
      invariant var rest := RetryFrom(c, func, random, attempt);
        RetryFrom(c, func, random, 0) == Retried(rest.result, rest.calls, sleeps + rest.sleeps)
      decreases c.maxRetries - attempt
    {
      ghost var total := RetryFrom(c, func, random, 0);
      ghost var here := RetryFrom(c, func, random, attempt);
      assert total == Retried(here.result, here.calls, sleeps + here.sleeps);
      var outcome := func(attempt);
      match outcome {
        case Returned(v) =>
          assert here == Retried(Succeeded(v), attempt + 1, []);
          assert sleeps + [] == sleeps;
          return Succeeded(v), attempt + 1, sleeps;
        case Raised(e) =>
          if c.exceptions != [] && e !in c.exceptions {
            assert here == Retried(Propagated(e), attempt + 1, []);
            assert sleeps + [] == sleeps;
            return Propagated(e), attempt + 1, sleeps;
          }
          if attempt == c.maxRetries {
            assert here == Retried(MaxRetriesExceeded(e), attempt + 1, []);
            assert sleeps + [] == sleeps;
            return MaxRetriesExceeded(e), attempt + 1, sleeps;
          }
          var delay := BaseDelay(c, attempt);
          if c.jitter {
            delay := delay * (0.5 + random(attempt));
          }
          assert delay == Delay(c, attempt, random(attempt));
          ghost var rest := RetryFrom(c, func, random, attempt + 1);
          assert here == Retried(rest.result, rest.calls, [delay] + rest.sleeps);
          assert sleeps + ([delay] + rest.sleeps) == (sleeps + [delay]) + rest.sleeps;
          sleeps := sleeps + [delay];
          attempt := attempt + 1;
      }
    }
  }
}
