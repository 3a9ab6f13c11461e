/** Retries with jittered exponential backoff, and what one job's attempts leave behind. */
module Retry {
  import opened Options

  /** An error chain: `Wrapped` stands for fmt.Errorf with %w. */
  datatype Error =
    | Canceled
    | DeadlineExceeded
    | Plain(message: string)
    | Wrapped(inner: Error)
    | Permanent(inner: Error)

  predicate IsPermanent(e: Error) {
    match e
    case Permanent(_) => true
    case Wrapped(inner) => IsPermanent(inner)
    case _ => false
  }

  /** errors.Is(e, context.Canceled) || errors.Is(e, context.DeadlineExceeded) */
  predicate IsCtx(e: Error) {
    match e
    case Canceled => true
    case DeadlineExceeded => true
    case Wrapped(inner) => IsCtx(inner)
    case Permanent(inner) => IsCtx(inner)
    case Plain(_) => false
  }

  /** An error and whatever it wraps, outermost first. */
  function Chain(e: Error): seq<Error> {
    match e
    case Wrapped(inner) => [e] + Chain(inner)
    case Permanent(inner) => [e] + Chain(inner)
    case _ => [e]
  }

  /** Both classifications look for their kind of error anywhere in the chain. */
  lemma {:induction false} ErrorChains(e: Error)
    ensures IsPermanent(e) <==> exists x <- Chain(e) :: x.Permanent?
    ensures IsCtx(e) <==> Canceled in Chain(e) || DeadlineExceeded in Chain(e)
  {
    match e
    case Wrapped(inner) => ErrorChains(inner);
    case Permanent(inner) =>
      ErrorChains(inner);
      assert e in Chain(e);
    case _ =>
  }

  // ---------------------------------------------------------------------
  // Backoff delays, in nanoseconds
  // ---------------------------------------------------------------------

  const MAX_INT64: int := 0x7FFF_FFFF_FFFF_FFFF
  const MIN_INT64: int := -0x8000_0000_0000_0000

  /** Two's complement wrap-around of a 64-bit sum. */
  function Wrap64(x: int): (r: int)
    ensures MIN_INT64 <= r <= MAX_INT64 && (x - r) % 0x1_0000_0000_0000_0000 == 0
    ensures MIN_INT64 <= x <= MAX_INT64 ==> r == x
  {
    (x + 0x8000_0000_0000_0000) % 0x1_0000_0000_0000_0000 - 0x8000_0000_0000_0000
  }

  function Pow(base: real, n: nat): real {
    if n == 0 then 1.0 else base * Pow(base, n - 1)
  }

  /** The uncapped delay of an attempt, BaseDelay * Factor^attempt. */
  function Scaled(baseDelay: int, factor: real, attempt: nat): real {
    baseDelay as real * Pow(factor, attempt)
  }

  function Truncate(x: real): (r: int)
    ensures if x >= 0.0 then r as real <= x < r as real + 1.0 else r as real - 1.0 < x <= r as real
  {
    if x >= 0.0 then x.Floor else -((-x).Floor)
  }

  /** Conversion of a float to time.Duration; out of range Go leaves the value open, so it
      is whatever `open` says. */
  function ToDuration(x: real, open: real -> int): int {
    if MIN_INT64 <= Truncate(x) <= MAX_INT64 then Truncate(x) else Wrap64(open(x))
  }

  datatype Policy = Policy(baseDelay: int, maxDelay: int, jitter: int, factor: real, maxAttempts: int)

  /** What the retrier's surroundings do: the k-th call of op, whether the context has fired
      at the k-th check or cuts the k-th sleep, and the k-th random draw. */
  datatype World = World(
    op: nat -> Option<Error>,
    fired: nat -> bool,
    cut: nat -> bool,
    ctxErr: Error,
    draw: nat -> int,
    open: real -> int)

  ghost predicate ProperWorld(w: World, p: Policy) {
    IsCtx(w.ctxErr) && (p.jitter > 0 ==> forall k :: 0 <= w.draw(k) < p.jitter)
  }

  function Normalised(p: Policy): Policy {
    p.(maxAttempts := if p.maxAttempts < 1 then 1 else p.maxAttempts,
       factor := if p.factor <= 0.0 then 2.0 else p.factor)
  }

  function Delay(p: Policy, w: World, attempt: nat): int {
    var raw := ToDuration(Scaled(p.baseDelay, p.factor, attempt), w.open);
    var capped := if p.maxDelay > 0 && raw > p.maxDelay then p.maxDelay else raw;
    if p.jitter > 0 then Wrap64(capped + w.draw(attempt)) else capped
  }

  // ---------------------------------------------------------------------
  // The attempt loop
  // ---------------------------------------------------------------------

  /** How Execute ended: what it returned, how often it called op and how often it slept. */
  datatype Ending = Ending(err: Option<Error>, calls: nat, sleeps: nat)

  /** Execute from attempt `k` on. */
  function Attempts(w: World, max: int, k: nat): Ending
    requires k < max
    decreases max - k
  {
    if w.fired(k) then Ending(Some(w.ctxErr), k, k)
    else
      match w.op(k)
      case None => Ending(None, k + 1, k)
      case Some(e) =>
        if IsPermanent(e) || k == max - 1 then Ending(Some(e), k + 1, k)
        else if w.cut(k) then Ending(Some(w.ctxErr), k + 1, k + 1)
        else Attempts(w, max, k + 1)
  }

  function Execution(w: World, p: Policy): Ending {
    Attempts(w, Normalised(p).maxAttempts, 0)
  }

  function Requested(p: Policy, w: World, sleeps: nat): int {
    if sleeps == 0 then 0 else Requested(p, w, sleeps - 1) + Delay(p, w, sleeps - 1)
  }

  ghost predicate Retryable(w: World, k: nat) {
    w.op(k).Some? && !IsPermanent(w.op(k).value)
  }

  /** The trace of one Execute: at most max(1, MaxAttempts) calls, each but the last a
      retryable failure after which the context let the sleep run out; nil exactly when the
      last call succeeded; otherwise the last call's error if it was permanent or the
      attempts are used up, or else the context's, which has then fired. */
  lemma {:induction false} ExecuteTrace(w: World, p: Policy)
    ensures var r := Execution(w, p); var max := if p.maxAttempts < 1 then 1 else p.maxAttempts;
      && r.calls <= max && r.sleeps < max
      && (forall k :: 0 <= k < r.calls ==> !w.fired(k))
      && (forall k :: 0 <= k < r.calls - 1 ==> Retryable(w, k) && !w.cut(k))
      && (r.err == None <==> r.calls > 0 && w.op(r.calls - 1) == None)
      && (r.calls > 0 && w.op(r.calls - 1).Some? && (IsPermanent(w.op(r.calls - 1).value) || r.calls == max)
          ==> r.err == w.op(r.calls - 1) && r.sleeps == r.calls - 1)
      && (r.calls == 0 || (Retryable(w, r.calls - 1) && r.calls < max)
          ==> r.err == Some(w.ctxErr) && r.sleeps == r.calls
              && (w.fired(r.calls) || (r.calls > 0 && w.cut(r.calls - 1))))
  {
    AttemptsTrace(w, Normalised(p).maxAttempts, 0);
  }

  lemma {:induction false} AttemptsTrace(w: World, max: int, k: nat)
    requires k < max
    ensures var r := Attempts(w, max, k);
      && k <= r.calls <= max && r.sleeps < max && r.calls - 1 <= r.sleeps <= r.calls
      && (forall j :: k <= j < r.calls ==> !w.fired(j))
      && (forall j :: k <= j < r.calls - 1 ==> Retryable(w, j) && !w.cut(j))
      && (r.err == None <==> r.calls > k && w.op(r.calls - 1) == None)
      && (r.calls > k && w.op(r.calls - 1).Some? && (IsPermanent(w.op(r.calls - 1).value) || r.calls == max)
          ==> r.err == w.op(r.calls - 1) && r.sleeps == r.calls - 1)
      && (r.calls == k || (Retryable(w, r.calls - 1) && r.calls < max)
          ==> r.err == Some(w.ctxErr) && r.sleeps == r.calls
              && (w.fired(r.calls) || (r.calls > k && w.cut(r.calls - 1))))
    decreases max - k
  {
    if !w.fired(k) && Retryable(w, k) && k != max - 1 && !w.cut(k) {
      AttemptsTrace(w, max, k + 1);
    }
  }

  /** The uncapped delay still converts to a duration. */
  predicate Representable(p: Policy, attempt: nat) {
    Scaled(p.baseDelay, p.factor, attempt) < (MAX_INT64 + 1) as real
  }

  predicate Bounded(p: Policy, delay: int) {
    0 <= delay <= p.maxDelay + (if p.jitter > 0 then p.jitter - 1 else 0)
  }

  predicate Sensible(p: Policy) {
    p.baseDelay >= 0 && p.factor > 0.0 && p.maxDelay > 0 && p.jitter >= 0 && p.maxDelay + p.jitter <= MAX_INT64
  }

  lemma DelayBound(p: Policy, w: World, attempt: nat)
    requires ProperWorld(w, p) && Sensible(p) && Representable(p, attempt)
    ensures Bounded(p, Delay(p, w, attempt))
  {
    PowPositive(p.factor, attempt);
    assert Scaled(p.baseDelay, p.factor, attempt) >= 0.0;
  }

  /** What is slept: the uncapped delay in whole nanoseconds or the cap, if there is one, and a
      draw on top. */
  lemma DelayExact(p: Policy, w: World, attempt: nat)
    requires p.baseDelay >= 0 && p.factor > 0.0 && Representable(p, attempt)
    ensures var grown := Scaled(p.baseDelay, p.factor, attempt).Floor;
      var capped := if p.maxDelay > 0 && grown > p.maxDelay then p.maxDelay else grown;
      && (p.jitter <= 0 ==> Delay(p, w, attempt) == capped)
      && (p.jitter > 0 && 0 <= w.draw(attempt) <= MAX_INT64 - capped ==>
            Delay(p, w, attempt) == capped + w.draw(attempt))
  {
    PowPositive(p.factor, attempt);
    assert Scaled(p.baseDelay, p.factor, attempt) >= 0.0;
  }

  function Doubled(n: nat, times: nat): nat {
    if times == 0 then n else 2 * Doubled(n, times - 1)
  }

  lemma {:induction false} ScaledByTwo(base: nat, attempt: nat)
    ensures Scaled(base, 2.0, attempt) == Doubled(base, attempt) as real
  {
    if attempt > 0 {
      ScaledByTwo(base, attempt - 1);
      assert Pow(2.0, attempt) == 2.0 * Pow(2.0, attempt - 1);
      assert base as real * (2.0 * Pow(2.0, attempt - 1)) == 2.0 * (base as real * Pow(2.0, attempt - 1));
    }
  }

  /** With the default factor the backoff starts at the base delay and doubles from attempt to
      attempt, up to the cap. */
  lemma BackoffDoubles(p: Policy, w: World, attempt: nat)
    requires Sensible(p) && p.factor == 2.0 && p.jitter == 0 && Representable(p, attempt)
    ensures var grown := Doubled(p.baseDelay, attempt);
      Delay(p, w, attempt) == if grown > p.maxDelay then p.maxDelay else grown
  {
    ScaledByTwo(p.baseDelay, attempt);
  }

  /** The uncapped delays: the base delay first, then each the factor times the one before. */
  lemma ScaledGrows(p: Policy, attempt: nat)
    requires p.baseDelay >= 0 && p.factor > 0.0
    ensures Scaled(p.baseDelay, p.factor, 0) == p.baseDelay as real
    ensures Scaled(p.baseDelay, p.factor, attempt + 1) == p.factor * Scaled(p.baseDelay, p.factor, attempt)
    ensures p.factor >= 1.0 ==> Scaled(p.baseDelay, p.factor, attempt) <= Scaled(p.baseDelay, p.factor, attempt + 1)
  {
    PowPositive(p.factor, attempt);
    assert Scaled(p.baseDelay, p.factor, attempt) >= 0.0;
    Associates(p.baseDelay as real, p.factor, Pow(p.factor, attempt));
    if p.factor >= 1.0 {
      Amplifies(p.factor, Scaled(p.baseDelay, p.factor, attempt));
    }
  }

  /** With a factor from 1 on, what is slept never shrinks but for the draw. */
  lemma BackoffGrows(p: Policy, w: World, attempt: nat)
    requires Sensible(p) && p.factor >= 1.0 && p.jitter == 0 && Representable(p, attempt + 1)
    ensures Delay(p, w, attempt) <= Delay(p, w, attempt + 1)
  {
    ScaledGrows(p, attempt);
    DelayExact(p, w, attempt);
    DelayExact(p, w, attempt + 1);
    FloorMonotone(Scaled(p.baseDelay, p.factor, attempt), Scaled(p.baseDelay, p.factor, attempt + 1));
  }

  lemma FloorMonotone(x: real, y: real)
    requires x <= y
    ensures x.Floor <= y.Floor
  {}

  lemma Amplifies(factor: real, x: real)
    requires factor >= 1.0 && x >= 0.0
    ensures factor * x >= x
  {
    assert (factor - 1.0) * x >= 0.0;
  }

  lemma Associates(a: real, b: real, c: real)
    ensures a * (b * c) == b * (a * c)
  {}

  /** Exactly when cap and jitter bound a sleep: while the uncapped delay is representable.
      Beyond that a platform that converts it to a negative duration, as amd64 does, gets
      past the cap and leaves no backoff at all. */
  lemma DelayBoundIffRepresentable(p: Policy, attempt: nat)
    requires Sensible(p)
    ensures (forall w :: ProperWorld(w, p) ==> Bounded(p, Delay(p, w, attempt))) <==> Representable(p, attempt)
  {
    if Representable(p, attempt) {
      forall w | ProperWorld(w, p) ensures Bounded(p, Delay(p, w, attempt)) {
        DelayBound(p, w, attempt);
      }
    } else {
      var w := World(k => None, k => false, k => false, Canceled, k => 0, x => MIN_INT64);
      assert Delay(p, w, attempt) == MIN_INT64;
      assert ProperWorld(w, p) && !Bounded(p, Delay(p, w, attempt));
    }
  }

  lemma {:induction false} PowPositive(base: real, n: nat)
    requires base > 0.0
    ensures Pow(base, n) > 0.0
  {
    if n > 0 {
      PowPositive(base, n - 1);
    }
  }

  lemma {:induction false} RequestedBound(p: Policy, w: World, sleeps: nat)
    requires ProperWorld(w, p) && Sensible(p)
    requires forall k :: 0 <= k < sleeps ==> Representable(p, k)
    ensures 0 <= Requested(p, w, sleeps) <= sleeps * (p.maxDelay + p.jitter)
  {
    if sleeps > 0 {
      RequestedBound(p, w, sleeps - 1);
      DelayBound(p, w, sleeps - 1);
      OneMore(sleeps - 1, p.maxDelay + p.jitter);
    }
  }

  lemma OneMore(n: nat, each: nat)
    ensures (n + 1) * each == n * each + each
  {}

  lemma MoreSleeps(few: nat, many: nat, each: nat)
    requires few <= many
    ensures few * each <= many * each
  {}

  /** All the backoff one Execute asks for: at most (attempts - 1) * (MaxDelay + Jitter). */
  lemma TotalBackoff(w: World, p: Policy)
    requires ProperWorld(w, p) && Sensible(Normalised(p))
    requires forall k :: 0 <= k < p.maxAttempts - 1 ==> Representable(Normalised(p), k)
    ensures var n := Normalised(p);
            0 <= Requested(n, w, Execution(w, p).sleeps) <= (n.maxAttempts - 1) * (p.maxDelay + p.jitter)
  {
    var n := Normalised(p);
    var sleeps := Execution(w, p).sleeps;
    ExecuteTrace(w, p);
    RequestedBound(n, w, sleeps);
    MoreSleeps(sleeps, n.maxAttempts - 1, p.maxDelay + p.jitter);
  }

  class ExponentialBackoff {
    var baseDelay: int
    var maxDelay: int
    var jitter: int
    var factor: real
    var maxAttempts: int

    ghost function Settings(): Policy
      reads this
    {
      Policy(baseDelay, maxDelay, jitter, factor, maxAttempts)
    }

    method ComputeDelay(attempt: nat, w: World) returns (delay: int)
      ensures delay == Delay(Settings(), w, attempt)
    {
      delay := ToDuration(Scaled(baseDelay, factor, attempt), w.open);
      if maxDelay > 0 && delay > maxDelay {
        delay := maxDelay;
      }
      if jitter > 0 {
        delay := Wrap64(delay + w.draw(attempt));
      }
    }

    method Execute(w: World) returns (err: Option<Error>, ghost calls: nat, ghost delays: seq<int>)
      modifies this`factor, this`maxAttempts
      ensures Settings() == Normalised(old(Settings()))
      ensures maxAttempts == if old(maxAttempts) < 1 then 1 else old(maxAttempts)
      ensures factor == if old(factor) <= 0.0 then 2.0 else old(factor)
      ensures Ending(err, calls, |delays|) == Execution(w, old(Settings()))
      ensures forall k :: 0 <= k < |delays| ==> delays[k] == Delay(Settings(), w, k)
    {
      if maxAttempts < 1 {
        maxAttempts := 1;
      }
      if factor <= 0.0 {
        factor := 2.0;
      }
      var lastErr := None;
      calls, delays := 0, [];
      var attempt := 0;
      while attempt < maxAttempts
        invariant Settings() == Normalised(old(Settings()))
        invariant 0 <= attempt < maxAttempts && calls == attempt == |delays|
        invariant Attempts(w, maxAttempts, 0) == Attempts(w, maxAttempts, attempt)
        invariant forall k :: 0 <= k < |delays| ==> delays[k] == Delay(Settings(), w, k)
      {
        if w.fired(attempt) {
          return Some(w.ctxErr), calls, delays;
        }
        var e := w.op(attempt);
        calls := calls + 1;
        if e == None {
          return None, calls, delays;
        }
        lastErr := e;
        if IsPermanent(e.value) {
          return e, calls, delays;
        }
        if attempt == maxAttempts - 1 {
          break;
        }
        var delay := ComputeDelay(attempt, w);
        delays := delays + [delay];
        if w.cut(attempt) {
          return Some(w.ctxErr), calls, delays;
        }
        attempt := attempt + 1;
      }
      return lastErr, calls, delays;
    }
  }

  // ---------------------------------------------------------------------
  // One job: Warm called by the retrier, its last result captured
  // ---------------------------------------------------------------------

  datatype CacheState = Hit | Miss | Bypass | Unknown

  datatype WarmResult = WarmResult(status: int, cache: CacheState)

  datatype Warmed = Warmed(res: Option<WarmResult>, err: Option<Error>)

  /** Warm's error for a response status. */
  function StatusError(status: int): Option<Error> {
    if 200 <= status < 400 then None
    else if status == 429 || status >= 500 then Some(Plain("transient status"))
    else Some(Permanent(Plain("permanent status")))
  }

  /** 2xx and 3xx are fine, 429 and 5xx worth another attempt, all else is permanent; no
      status looks like a cancellation. */
  lemma StatusClasses(status: int)
    ensures StatusError(status) == None <==> 200 <= status <= 399
    ensures StatusError(status).Some? && !IsPermanent(StatusError(status).value) <==> status == 429 || status >= 500
    ensures StatusError(status).Some? ==> !IsCtx(StatusError(status).value)
  {}

  /** What Warm can return: no result and an error, or a result and its status's error. */
  predicate WarmReturns(o: Warmed) {
    match o.res
    case None => o.err.Some?
    case Some(r) => o.err == StatusError(r.status)
  }

  /** The captured lastResult after `calls` calls. */
  function LastResult(warm: nat -> Warmed, calls: nat): Option<WarmResult> {
    if calls == 0 then None
    else if warm(calls - 1).res.Some? then warm(calls - 1).res
    else LastResult(warm, calls - 1)
  }

  /** The captured result is that of the last call that had one. */
  lemma {:induction false} LastResultMeaning(warm: nat -> Warmed, calls: nat)
    ensures var last := LastResult(warm, calls);
      if last == None then forall k :: 0 <= k < calls ==> warm(k).res == None
      else exists k :: 0 <= k < calls && warm(k).res == last && forall j :: k < j < calls ==> warm(j).res == None
  {
    if calls > 0 && warm(calls - 1).res == None {
      LastResultMeaning(warm, calls - 1);
    }
  }

  /** A job that ends without error has the result of its last, successful attempt, with a
      status in 200..399; and a 4xx other than 429 is never retried. */
  lemma JobOutcome(warm: nat -> Warmed, w: World, p: Policy)
    requires forall k :: WarmReturns(warm(k)) && w.op(k) == warm(k).err
    ensures var r := Execution(w, p); var last := LastResult(warm, r.calls);
      && (r.err == None ==>
            r.calls > 0 && last.Some? && last == warm(r.calls - 1).res && 200 <= last.value.status < 400)
      && (forall k :: 0 <= k < r.calls - 1 && warm(k).res.Some? ==>
            warm(k).res.value.status == 429 || warm(k).res.value.status >= 500)
  {
    ExecuteTrace(w, p);
    var r := Execution(w, p);
    forall k | 0 <= k < r.calls - 1 && warm(k).res.Some?
      ensures warm(k).res.value.status == 429 || warm(k).res.value.status >= 500
    {
      assert Retryable(w, k);
    }
  }
}
