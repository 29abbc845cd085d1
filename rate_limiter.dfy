/** The fixed-window rate limiter of src/utils/rate_limiter.py. A limit counts
    the calls made since the start of its current one-minute window; the
    limiter waits for a free slot at most `max_retries` times. Clock readings
    are parameters, and each sleep is returned instead of performed. */
module RateLimiting {
  import opened Wrappers

  datatype RateLimitError =
    | NonPositiveCallsPerMinute
    | NegativeMaxRetries
    | UnknownApi(name: string)
    | Exceeded(name: string, retries: int)

  /** Length of a window, in seconds. */
  const WindowLength: real := 60.0

  /** The `_call_count` and `_window_start` of a limit. */
  datatype WindowState = WindowState(count: nat, start: real)

  /** `_reset_if_needed` at clock reading `now`. */
  function ResetAt(w: WindowState, now: real): WindowState {
    if now - w.start >= WindowLength then WindowState(0, now) else w
  }

  /** `can_proceed` at clock reading `now`. */
  predicate Proceeds(w: WindowState, callsPerMinute: int, now: real) {
    ResetAt(w, now).count < callsPerMinute
  }

  /** `wait_time` at clock reading `now`: the time left in the window after
      the reset. */
  function WaitFor(w: WindowState, now: real): real {
    var left := WindowLength - (now - ResetAt(w, now).start);
    if left >= 0.0 then left else 0.0
  }

  /** A reset either leaves the window alone or opens a new, empty one later
      than the old one; resetting twice at the same moment is resetting once;
      afterwards less than a minute of the window has passed. */
  lemma ResetFacts(w: WindowState, now: real)
    ensures ResetAt(w, now) == w || (ResetAt(w, now) == WindowState(0, now) && now >= w.start + WindowLength)
    ensures ResetAt(w, now).start == w.start ==> ResetAt(w, now) == w
    ensures ResetAt(w, now).start != w.start ==> ResetAt(w, now).count == 0
    ensures ResetAt(ResetAt(w, now), now) == ResetAt(w, now)
    ensures ResetAt(w, now).count <= w.count
    ensures now - ResetAt(w, now).start < WindowLength
  {
  }

  /** With a single clock reading the wait is positive and at most a window. */
  lemma WaitForBounds(w: WindowState, now: real)
    ensures 0.0 < WaitFor(w, now)
    ensures now >= w.start ==> WaitFor(w, now) <= WindowLength
  {
  }

  /** The result of `wait_if_needed` on one limit: the window afterwards, the
      outcome and the sleeps taken. */
  datatype Waited = Waited(window: WindowState, outcome: Outcome<RateLimitError>, sleeps: seq<real>)

  /** The `wait_if_needed` loop from its `retries`-th test on. Test number
      `retries` reads the clock at `clock(2 * retries)`, the wait time that may
      follow reads it at `clock(2 * retries + 1)`, and the sleep in between is
      what lets the clock move on. On a free slot the call is recorded. */
  function WaitLoop(w: WindowState, callsPerMinute: int, maxRetries: int, name: string,
                    clock: nat -> real, retries: nat): Waited
    decreases maxRetries - retries
  {
    var w1 := ResetAt(w, clock(2 * retries));
    if w1.count < callsPerMinute then Waited(WindowState(w1.count + 1, w1.start), Pass, [])
    else if retries >= maxRetries then Waited(w1, Fail(Exceeded(name, retries)), [])
    else
      var now := clock(2 * retries + 1);
      var rest := WaitLoop(ResetAt(w1, now), callsPerMinute, maxRetries, name, clock, retries + 1);
      Waited(rest.window, rest.outcome, [WaitFor(w1, now)] + rest.sleeps)
  }

  /** The loop sleeps at most `max_retries` times, each time for a positive
      wait, and raises after exactly `max_retries` sleeps; a normal return
      records one call in the current window, so a window that started within
      the limit stays within it. */
  lemma {:induction false} WaitLoopBounds(w: WindowState, callsPerMinute: int, maxRetries: int, name: string,
                                          clock: nat -> real, retries: nat)
    requires 0 < callsPerMinute && w.count <= callsPerMinute && retries <= maxRetries
    ensures var res := WaitLoop(w, callsPerMinute, maxRetries, name, clock, retries);
      && |res.sleeps| <= maxRetries - retries
      && (res.outcome.Fail? ==> res.outcome == Fail(Exceeded(name, maxRetries)) && |res.sleeps| == maxRetries - retries)
      && (forall i :: 0 <= i < |res.sleeps| ==> res.sleeps[i] > 0.0)
      && res.window.count <= callsPerMinute
      && res.window.start >= w.start
      && (res.outcome.Pass? ==> res.window.count == (if res.window.start == w.start then w.count + 1 else 1))
    decreases maxRetries - retries
  {
    var w1 := ResetAt(w, clock(2 * retries));
    ResetFacts(w, clock(2 * retries));
    if w1.count < callsPerMinute {
    } else if retries >= maxRetries {
    } else {
      var now := clock(2 * retries + 1);
      var w2 := ResetAt(w1, now);
      ResetFacts(w1, now);
      WaitForBounds(w1, now);
      WaitLoopBounds(w2, callsPerMinute, maxRetries, name, clock, retries + 1);
    }
  }

  /** A limit below its count returns at once, without sleeping. */
  lemma FreeSlotNoWait(w: WindowState, callsPerMinute: int, maxRetries: int, name: string, clock: nat -> real)
    requires Proceeds(w, callsPerMinute, clock(0))
    ensures WaitLoop(w, callsPerMinute, maxRetries, name, clock, 0).outcome == Pass
    ensures WaitLoop(w, callsPerMinute, maxRetries, name, clock, 0).sleeps == []
  {
  }

  /** With `max_retries` 0 a full window raises at once. */
  lemma NoRetriesFailsAtOnce(w: WindowState, callsPerMinute: int, name: string, clock: nat -> real)
    requires !Proceeds(w, callsPerMinute, clock(0))
    ensures WaitLoop(w, callsPerMinute, 0, name, clock, 0) == Waited(ResetAt(w, clock(0)), Fail(Exceeded(name, 0)), [])
  {
  }

  class RateLimit {
    var callsPerMinute: int
    var maxRetries: int
    var callCount: nat
    var windowStart: real

    function Window(): WindowState
      reads this
    {
      WindowState(callCount, windowStart)
    }

    /** The configuration `__post_init__` accepts, and a count within the limit. */
    ghost predicate Valid()
      reads this
    {
      callsPerMinute > 0 && maxRetries >= 0 && callCount <= callsPerMinute
    }

    constructor (callsPerMinute: int, maxRetries: int, now: real)
      requires callsPerMinute > 0 && maxRetries >= 0
      ensures Valid()
      ensures this.callsPerMinute == callsPerMinute && this.maxRetries == maxRetries
      ensures Window() == WindowState(0, now)
    {
      this.callsPerMinute := callsPerMinute;
      this.maxRetries := maxRetries;
      callCount := 0;
      windowStart := now;
    }

    /** `_reset_if_needed` */
    method ResetIfNeeded(now: real)
      modifies this`callCount, this`windowStart
      ensures Window() == ResetAt(old(Window()), now)
      ensures old(Valid()) ==> Valid()
    {
      if now - windowStart >= WindowLength {
        callCount := 0;
        windowStart := now;
      }
    }

    /** `can_proceed` */
    method CanProceed(now: real) returns (b: bool)
      modifies this`callCount, this`windowStart
      ensures Window() == ResetAt(old(Window()), now)
      ensures b == Proceeds(old(Window()), callsPerMinute, now)
      ensures old(Valid()) ==> Valid()
    {
      ResetIfNeeded(now);
      b := callCount < callsPerMinute;
    }

    /** `wait_time` */
    method WaitTime(now: real) returns (w: real)
      modifies this`callCount, this`windowStart
      ensures Window() == ResetAt(old(Window()), now)
      ensures w == WaitFor(old(Window()), now)
      ensures old(Valid()) ==> Valid()
    {
      ResetIfNeeded(now);
      var left := WindowLength - (now - windowStart);
      w := if left >= 0.0 then left else 0.0;
    }

    /** `record_call` */
    method RecordCall()
      modifies this`callCount
      ensures callCount == old(callCount) + 1
    {
      callCount := callCount + 1;
    }
  }

  /** `RateLimit(calls_per_minute, max_retries)` created at clock reading
      `now`: a non-positive rate is rejected first, then a negative retry
      count. */
  method NewRateLimit(callsPerMinute: int, maxRetries: int, now: real) returns (r: Result<RateLimit, RateLimitError>)
    ensures callsPerMinute <= 0 ==> r == Failure(NonPositiveCallsPerMinute)
    ensures callsPerMinute > 0 && maxRetries < 0 ==> r == Failure(NegativeMaxRetries)
    ensures callsPerMinute > 0 && maxRetries >= 0 ==>
      && r.Success? && fresh(r.value) && r.value.Valid()
      && r.value.callsPerMinute == callsPerMinute && r.value.maxRetries == maxRetries
      && r.value.Window() == WindowState(0, now)
  {
    if callsPerMinute <= 0 {
      return Failure(NonPositiveCallsPerMinute);
    }
    if maxRetries < 0 {
      return Failure(NegativeMaxRetries);
    }
    var limit := new RateLimit(callsPerMinute, maxRetries, now);
    r := Success(limit);
  }

  class RateLimiter {
    var limits: map<string, RateLimit>

    ghost predicate Valid()
      reads this, limits.Values
    {
      forall name :: name in limits ==> limits[name].Valid()
    }

    /** The limit objects a wait on `name` may change. */
    function Footprint(name: string): set<RateLimit>
      reads this
    {
      if name in limits then {limits[name]} else {}
    }

    /** `RateLimiter()` at clock reading `now`: anthropic 50, google_search 60
        and web_scrape 30 calls per minute, three retries each, in separate
        limits. */
    constructor (now: real)
      ensures Valid()
      ensures limits.Keys == {"anthropic", "google_search", "web_scrape"}
      ensures limits["anthropic"].callsPerMinute == 50
      ensures limits["google_search"].callsPerMinute == 60
      ensures limits["web_scrape"].callsPerMinute == 30
      ensures forall name :: name in limits ==>
        && fresh(limits[name]) && limits[name].maxRetries == 3 && limits[name].Window() == WindowState(0, now)
      ensures limits["anthropic"] != limits["google_search"] && limits["anthropic"] != limits["web_scrape"]
      ensures limits["google_search"] != limits["web_scrape"]
    {
      var anthropic := new RateLimit(50, 3, now);
      var google := new RateLimit(60, 3, now);
      var scrape := new RateLimit(30, 3, now);
      limits := map["anthropic" := anthropic, "google_search" := google, "web_scrape" := scrape];
    }

    /** `wait_if_needed(name)`: an unknown name raises; otherwise the loop of
        `WaitLoop` runs on that name's limit, and no other limit changes. */
    method WaitIfNeeded(name: string, clock: nat -> real) returns (r: Outcome<RateLimitError>, sleeps: seq<real>)
      requires Valid()
      modifies Footprint(name)
      ensures Valid()
      ensures name !in limits ==> r == Fail(UnknownApi(name)) && sleeps == []
      ensures name in limits ==>
        var res := WaitLoop(old(limits[name].Window()), limits[name].callsPerMinute, limits[name].maxRetries,
                            name, clock, 0);
        limits[name].Window() == res.window && r == res.outcome && sleeps == res.sleeps
    {
      if name !in limits {
        return Fail(UnknownApi(name)), [];
      }
      var limit := limits[name];
      ghost var res := WaitLoop(limit.Window(), limit.callsPerMinute, limit.maxRetries, name, clock, 0);
      WaitLoopBounds(limit.Window(), limit.callsPerMinute, limit.maxRetries, name, clock, 0);
      var retries: nat := 0;
      sleeps := [];
      while true
        invariant limit.Valid() && retries <= limit.maxRetries
        invariant limit.callsPerMinute == old(limit.callsPerMinute) && limit.maxRetries == old(limit.maxRetries)
        invariant var rest := WaitLoop(limit.Window(), limit.callsPerMinute, limit.maxRetries, name, clock, retries);
          rest.window == res.window && rest.outcome == res.outcome && sleeps + rest.sleeps == res.sleeps
        decreases limit.maxRetries - retries
      {
        var ok := limit.CanProceed(clock(2 * retries));
        if ok {
          break;
        }
        if retries >= limit.maxRetries {
          return Fail(Exceeded(name, retries)), sleeps;
        }
        var wait := limit.WaitTime(clock(2 * retries + 1));
        sleeps := sleeps + [wait];
        retries := retries + 1;
      }
      limit.RecordCall();
      r := Pass;
    }
  }

  /** Waiting on a limit that starts within its count keeps it within its
      count, and a wait that returns normally has taken one slot. */
  lemma WaitKeepsWithinLimit(w: WindowState, callsPerMinute: int, maxRetries: int, name: string, clock: nat -> real)
    requires 0 < callsPerMinute && w.count <= callsPerMinute && 0 <= maxRetries
    ensures WaitLoop(w, callsPerMinute, maxRetries, name, clock, 0).window.count <= callsPerMinute
    ensures WaitLoop(w, callsPerMinute, maxRetries, name, clock, 0).outcome.Pass? ==>
      WaitLoop(w, callsPerMinute, maxRetries, name, clock, 0).window.count >= 1
  {
    WaitLoopBounds(w, callsPerMinute, maxRetries, name, clock, 0);
  }
}
