/**
 * The synchronous retry loop and the per-service rate limiters (retry.py).
 * The wrapped call is a function from the attempt number to the outcome
 * of that attempt; sleeping is reported as the list of waits, and the
 * clock is a parameter.
 */
module Retry {
  import opened Wrappers
  import opened Strings
  import opened Py
  import opened Dicts
  import opened Errors
  import opened Exceptions
  import opened Config

  /** `RETRYABLE_EXCEPTIONS`: timeouts and connection errors (every
      subclass of ConnectionError counts). */
  predicate Retryable(e: Exception) {
    e.Builtin? && (e.cls.TimeoutError? || IsConnectionError(e.cls))
  }

  predicate Transient(o: Outcome<Value>) {
    o.Err? && Retryable(o.error)
  }

  /** `base ** n` */
  function Pow(base: real, n: nat): real {
    if n == 0 then 1.0 else base * Pow(base, n - 1)
  }

  /** `range(max_retries + 1)` has this many attempts. */
  function Attempts(maxRetries: int): nat {
    if maxRetries + 1 > 0 then maxRetries + 1 else 0
  }

  /** The first attempt at or after `a` (below `n`) that is not a transient
      failure, or `n` when there is none. */
  function Stop(call: nat -> Outcome<Value>, n: nat, a: nat): (s: nat)
    ensures a <= s || (a > n && s == n)
    ensures s <= n || s == a
    ensures forall i :: a <= i < s ==> Transient(call(i))
    ensures a <= s < n ==> !Transient(call(s))
    decreases n - a
  {
    if a >= n then n
    else if !Transient(call(a)) then a
    else Stop(call, n, a + 1)
  }

  /** The error raised once every attempt failed transiently. */
  function Exhausted(maxRetries: int, service: string, last: Option<Exception>): MCPError {
    var lastText := if last.Some? then ExceptionText(last.value) else "None";
    var attempts := maxRetries + 1;
    MCPError(ServiceFailure, "Operation failed after " + IntToString(attempts) + " attempts: " + lastText, service, true,
      "The service may be temporarily unavailable. Try again later.",
      [("last_error", Str(lastText)), ("attempts", Int(attempts))])
  }

  /** The error `time.sleep` raises for a negative length. */
  function SleepError(): Exception {
    Builtin(ValueError, "sleep length must be non-negative")
  }

  /** `base ** n` is negative only for a negative base and an odd power, so
      the first sleep that can be negative is the second, `base ** 1`. */
  lemma {:induction false} PowSign(base: real, n: nat)
    ensures base >= 0.0 ==> Pow(base, n) >= 0.0
    ensures Pow(base, n) < 0.0 ==> base < 0.0 && n % 2 == 1
    ensures base < 0.0 ==> (n % 2 == 0 ==> Pow(base, n) > 0.0) && (n % 2 == 1 ==> Pow(base, n) < 0.0)
    ensures n == 1 ==> Pow(base, n) == base
  {
    if n > 0 {
      PowSign(base, n - 1);
      var p := Pow(base, n - 1);
      assert Pow(base, n) == base * p;
      if base < 0.0 {
        if n % 2 == 0 {
          assert p < 0.0;
          assert base * p > 0.0;
        } else {
          assert p > 0.0;
          assert base * p < 0.0;
        }
      }
    }
  }

  /** The second sleep, `time.sleep(backoff_factor ** 1)`, raises: the
      backoff is negative, the first two attempts fail transiently and a
      third attempt is allowed. */
  predicate SleepRaises(call: nat -> Outcome<Value>, maxRetries: int, backoff: real) {
    backoff < 0.0 && 2 <= maxRetries && Transient(call(0)) && Transient(call(1))
  }

  /** What `run_sync_with_retry` returns or raises. */
  function RetryResult(call: nat -> Outcome<Value>, maxRetries: int, backoff: real, service: string): Outcome<Value> {
    var n := Attempts(maxRetries);
    var s := Stop(call, n, 0);
    if SleepRaises(call, maxRetries, backoff) then Err(SleepError())
    else if s < n then call(s)
    else Err(Mcp(Exhausted(maxRetries, service, if n == 0 then None else Some(call(n - 1).error))))
  }

  /** How many times `run_sync_with_retry` invokes the call. */
  function RetryCalls(call: nat -> Outcome<Value>, maxRetries: int, backoff: real): nat {
    var n := Attempts(maxRetries);
    var s := Stop(call, n, 0);
    if SleepRaises(call, maxRetries, backoff) then 2
    else if s < n then s + 1 else n
  }

  /** The sleeps `run_sync_with_retry` completes, in order. */
  function RetryWaits(call: nat -> Outcome<Value>, maxRetries: int, backoff: real): seq<real> {
    var calls := RetryCalls(call, maxRetries, backoff);
    if SleepRaises(call, maxRetries, backoff) then Backoffs(backoff, 1)
    else Backoffs(backoff, if calls > 0 then calls - 1 else 0)
  }

  /** The first `count` waits: 1, backoff, backoff ** 2, ... */
  function Backoffs(backoff: real, count: nat): (w: seq<real>)
    ensures |w| == count && forall i :: 0 <= i < count ==> w[i] == Pow(backoff, i)
  {
    seq(count, i requires 0 <= i => Pow(backoff, i))
  }

  /** `run_sync_with_retry(func, max_retries=..., backoff_factor=...,
      service=...)`; None parameters take the configured defaults. */
  method RunSyncWithRetry(cfg: ServiceConfig, call: nat -> Outcome<Value>, maxRetriesArg: Option<int>,
    backoffArg: Option<real>, service: string)
    returns (r: Outcome<Value>, calls: nat, waits: seq<real>)
    ensures var maxRetries := maxRetriesArg.GetOr(cfg.defaults.maxRetries);
      var backoff := backoffArg.GetOr(cfg.defaults.backoffFactor);
      r == RetryResult(call, maxRetries, backoff, service) && calls == RetryCalls(call, maxRetries, backoff)
      && waits == RetryWaits(call, maxRetries, backoff)
  {
    var maxRetries := maxRetriesArg.GetOr(cfg.defaults.maxRetries);
    var backoff := backoffArg.GetOr(cfg.defaults.backoffFactor);
    r, calls, waits := RetryAttempts(call, maxRetries, backoff, service);
  }

  /** The attempt loop of `run_sync_with_retry`: what it returns or raises,
      how many calls it makes and which sleeps it completes. */
  method RetryAttempts(call: nat -> Outcome<Value>, maxRetries: int, backoff: real, service: string)
    returns (r: Outcome<Value>, calls: nat, waits: seq<real>)
    ensures r == RetryResult(call, maxRetries, backoff, service) && calls == RetryCalls(call, maxRetries, backoff)
    ensures waits == RetryWaits(call, maxRetries, backoff)
  {
    var n := Attempts(maxRetries);
    var last: Option<Exception> := None;
    calls, waits := 0, [];
    for attempt := 0 to n
      invariant calls == attempt
      invariant forall i :: 0 <= i < attempt ==> Transient(call(i))
      invariant last == if attempt == 0 then None else Some(call(attempt - 1).error)
      invariant waits == Backoffs(backoff, if attempt <= maxRetries then attempt else if maxRetries > 0 then maxRetries else 0)
      invariant backoff < 0.0 && attempt >= 2 ==> maxRetries <= 1
    {
      var o := call(attempt);
      calls := calls + 1;
      if o.Ok? || !Retryable(o.error) {
        RetryStopsAt(call, maxRetries, backoff, service, attempt);
        assert !(backoff < 0.0 && attempt >= 2);
        return o, calls, waits;
      }
      last := Some(o.error);
      if attempt < maxRetries {
        var w := Pow(backoff, attempt);
        PowSign(backoff, attempt);
        if w < 0.0 {
          assert attempt == 1 && SleepRaises(call, maxRetries, backoff);
          SleepFails(call, maxRetries, backoff, service);
          assert waits == [1.0];
          return Err(SleepError()), calls, waits;
        }
        waits := waits + [w];
      }
    }
    RetryRunsOut(call, maxRetries, backoff, service);
    assert !(backoff < 0.0 && maxRetries >= 2);
    return Err(Mcp(Exhausted(maxRetries, service, last))), calls, waits;
  }

  /** When the second sleep raises, its ValueError is the outcome, after
      two calls and the one sleep of a second. */
  lemma SleepFails(call: nat -> Outcome<Value>, maxRetries: int, backoff: real, service: string)
    requires SleepRaises(call, maxRetries, backoff)
    ensures RetryResult(call, maxRetries, backoff, service) == Err(Builtin(ValueError, "sleep length must be non-negative"))
    ensures RetryCalls(call, maxRetries, backoff) == 2
    ensures RetryWaits(call, maxRetries, backoff) == [1.0]
  {
  }

  /** The first attempt that does not fail transiently ends the loop, unless
      a negative backoff made the second sleep raise first. */
  lemma RetryStopsAt(call: nat -> Outcome<Value>, maxRetries: int, backoff: real, service: string, a: nat)
    requires a < Attempts(maxRetries) && !Transient(call(a))
    requires forall i :: 0 <= i < a ==> Transient(call(i))
    ensures SleepRaises(call, maxRetries, backoff) <==> backoff < 0.0 && a >= 2
    ensures !(backoff < 0.0 && a >= 2) ==>
      RetryResult(call, maxRetries, backoff, service) == call(a)
      && RetryCalls(call, maxRetries, backoff) == a + 1
      && RetryWaits(call, maxRetries, backoff) == Backoffs(backoff, a)
  {
    assert Stop(call, Attempts(maxRetries), 0) == a;
  }

  /** When every attempt fails transiently, the last failure is reported,
      unless a negative backoff made the second sleep raise first. */
  lemma RetryRunsOut(call: nat -> Outcome<Value>, maxRetries: int, backoff: real, service: string)
    requires forall i :: 0 <= i < Attempts(maxRetries) ==> Transient(call(i))
    ensures Attempts(maxRetries) > 0 ==> call(Attempts(maxRetries) - 1).Err?
    ensures SleepRaises(call, maxRetries, backoff) <==> backoff < 0.0 && maxRetries >= 2
    ensures var n := Attempts(maxRetries);
      !(backoff < 0.0 && maxRetries >= 2) ==>
        RetryResult(call, maxRetries, backoff, service)
          == Err(Mcp(Exhausted(maxRetries, service, if n == 0 then None else Some(call(n - 1).error))))
        && RetryCalls(call, maxRetries, backoff) == n
        && RetryWaits(call, maxRetries, backoff) == Backoffs(backoff, if maxRetries > 0 then maxRetries else 0)
  {
    assert Stop(call, Attempts(maxRetries), 0) == Attempts(maxRetries);
  }

  /** The call is never made more than max_retries + 1 times, and a
      returned value comes from the last call made. */
  lemma RetryBounded(call: nat -> Outcome<Value>, maxRetries: int, backoff: real, service: string)
    ensures RetryCalls(call, maxRetries, backoff) <= Attempts(maxRetries)
    ensures RetryResult(call, maxRetries, backoff, service).Ok? ==>
      RetryCalls(call, maxRetries, backoff) > 0
      && RetryResult(call, maxRetries, backoff, service) == call(RetryCalls(call, maxRetries, backoff) - 1)
  {
  }

  /** Transient failures before attempt `k` are skipped over. */
  lemma {:induction false} StopAfterTransients(call: nat -> Outcome<Value>, n: nat, a: nat, k: nat)
    requires a <= k <= n
    requires forall i :: a <= i < k ==> Transient(call(i))
    ensures Stop(call, n, a) == Stop(call, n, k)
    decreases k - a
  {
    if a < k {
      StopAfterTransients(call, n, a + 1, k);
    }
  }

  /** k transient failures and then success within the budget: the
      success is returned after k + 1 calls; with a negative backoff and
      k >= 2 the second sleep raises ValueError after 2 calls instead. */
  lemma RetrySucceeds(call: nat -> Outcome<Value>, maxRetries: int, backoff: real, service: string, k: nat)
    requires k <= maxRetries
    requires forall i :: 0 <= i < k ==> Transient(call(i))
    requires call(k).Ok?
    ensures !(backoff < 0.0 && k >= 2) ==>
      RetryResult(call, maxRetries, backoff, service) == call(k) && RetryCalls(call, maxRetries, backoff) == k + 1
    ensures backoff < 0.0 && k >= 2 ==>
      RetryResult(call, maxRetries, backoff, service) == Err(SleepError()) && RetryCalls(call, maxRetries, backoff) == 2
  {
    StopAfterTransients(call, Attempts(maxRetries), 0, k);
  }

  /** A failure that is not retryable propagates unchanged at its first
      occurrence (unless the second sleep raised before it). */
  lemma RetryFatal(call: nat -> Outcome<Value>, maxRetries: int, backoff: real, service: string, k: nat)
    requires k <= maxRetries
    requires forall i :: 0 <= i < k ==> Transient(call(i))
    requires call(k).Err? && !Retryable(call(k).error)
    ensures !(backoff < 0.0 && k >= 2) ==>
      RetryResult(call, maxRetries, backoff, service) == Err(call(k).error) && RetryCalls(call, maxRetries, backoff) == k + 1
    ensures backoff < 0.0 && k >= 2 ==>
      RetryResult(call, maxRetries, backoff, service) == Err(SleepError()) && RetryCalls(call, maxRetries, backoff) == 2
  {
    StopAfterTransients(call, Attempts(maxRetries), 0, k);
  }

  /** More transient failures than the budget allows: SERVICE_ERROR after
      exactly max_retries + 1 calls, recoverable, naming the attempts and
      the last error; with a negative backoff and at least two retries the
      second sleep raises ValueError after 2 calls instead. */
  lemma RetryExhausts(call: nat -> Outcome<Value>, maxRetries: nat, backoff: real, service: string)
    requires forall i :: 0 <= i <= maxRetries ==> Transient(call(i))
    ensures var r := RetryResult(call, maxRetries, backoff, service);
      !(backoff < 0.0 && maxRetries >= 2) ==>
        r.Err? && r.error.Mcp? && r.error.err.code == ServiceFailure && r.error.err.recoverable
        && r.error.err.details == [("last_error", Str(ExceptionText(call(maxRetries).error))), ("attempts", Int(maxRetries + 1))]
        && RetryCalls(call, maxRetries, backoff) == maxRetries + 1
    ensures backoff < 0.0 && maxRetries >= 2 ==>
      RetryResult(call, maxRetries, backoff, service) == Err(SleepError()) && RetryCalls(call, maxRetries, backoff) == 2
  {
    StopAfterTransients(call, maxRetries + 1, 0, maxRetries + 1);
  }

  /** The i-th sleep lasts backoff ** i (so the first is 1 s, with no
      cap), no sleep follows the last call, and every completed sleep has
      a non-negative length. */
  lemma RetryWaitsShape(call: nat -> Outcome<Value>, maxRetries: int, backoff: real)
    ensures var w := RetryWaits(call, maxRetries, backoff);
      var calls := RetryCalls(call, maxRetries, backoff);
      (calls > 0 ==> |w| == calls - 1) && (calls == 0 ==> w == [])
      && (forall i :: 0 <= i < |w| ==> w[i] == Pow(backoff, i) && w[i] >= 0.0)
      && (|w| > 0 ==> w[0] == 1.0)
  {
    var w := RetryWaits(call, maxRetries, backoff);
    var n := Attempts(maxRetries);
    if backoff < 0.0 && !SleepRaises(call, maxRetries, backoff) && n > 1 {
      if Transient(call(0)) {
        StopAfterTransients(call, n, 0, 1);
      }
      assert |w| <= 1;
    }
    forall i | 0 <= i < |w| ensures w[i] >= 0.0 {
      PowSign(backoff, i);
    }
  }

  // ------------------------------------------------------------ rate limits

  /** A limiter granting at most `requests_per_second` calls per second. */
  class RateLimiter {
    const minInterval: real
    var last: real

    constructor(rps: real)
      requires rps != 0.0
      ensures minInterval == 1.0 / rps && last == 0.0
    {
      minInterval := 1.0 / rps;
      last := 0.0;
    }

    /** `acquire()` called when the clock reads `now`: waits out the rest of
        the interval and stamps the clock reading after the wait, which the
        scheduler may delay by `slack`. */
    method Acquire(now: real, slack: real) returns (wait: real)
      requires slack >= 0.0
      modifies this
      ensures wait == if now - old(last) < minInterval then minInterval - (now - old(last)) else 0.0
      ensures last == now + wait + slack
      ensures last >= old(last) + minInterval
    {
      var elapsed := now - last;
      wait := 0.0;
      if elapsed < minInterval {
        wait := minInterval - elapsed;
      }
      last := now + wait + slack;
    }
  }

  /** The requests per second configured for a service, 10 otherwise. */
  function RequestsPerSecond(cfg: ServiceConfig, service: string): real {
    match Get(cfg.rateLimits, service)
    case Some(rc) => rc.requestsPerSecond
    case None => 10.0
  }

  /** `_rate_limiters` and `get_rate_limiter(service)` */
  class RateLimiterRegistry {
    var limiters: map<string, RateLimiter>

    constructor()
      ensures limiters == map[]
    {
      limiters := map[];
    }

    method GetRateLimiter(cfg: ServiceConfig, service: string) returns (r: Outcome<RateLimiter>)
      modifies this
      ensures service in old(limiters) ==> r == Ok(old(limiters)[service]) && limiters == old(limiters)
      ensures service !in old(limiters) && RequestsPerSecond(cfg, service) == 0.0 ==>
        r.Err? && limiters == old(limiters)
      ensures service !in old(limiters) && RequestsPerSecond(cfg, service) != 0.0 ==>
        r.Ok? && fresh(r.value) && r.value.minInterval == 1.0 / RequestsPerSecond(cfg, service)
        && r.value.last == 0.0 && limiters == old(limiters)[service := r.value]
    {
      if service !in limiters {
        var rps := RequestsPerSecond(cfg, service);
        if rps == 0.0 {
          return Err(Builtin(OtherException("ZeroDivisionError"), "float division by zero"));
        }
        var limiter := new RateLimiter(rps);
        limiters := limiters[service := limiter];
      }
      return Ok(limiters[service]);
    }
  }
}
