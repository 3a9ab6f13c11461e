/** The lazily refilled token bucket in front of every outbound request.
    Time is a real number of seconds and tokens are exact reals. */
module TokenBuckets {
  import opened Options

  /** The state guarded by the bucket's mutex; `rate` is baseRate times the multiplier. */
  datatype Bucket = Bucket(
    baseRate: real,
    rate: real,
    capacity: int,
    tokens: real,
    lastFilled: real)
  {
    predicate Valid() {
      baseRate > 0.0 && rate > 0.0 && capacity >= 1 && 0.0 <= tokens <= capacity as real
    }
  }

  function Min(a: real, b: real): real {
    if a <= b then a else b
  }

  /** Non-positive multipliers become a tiny floor. */
  function Clamp(m: real): real {
    if m <= 0.0 then 0.01 else m
  }

  /** Tokens accrued over `span` seconds at a constant rate. */
  function Accrued(span: real, rate: real): real {
    span * rate
  }

  function Refill(b: Bucket, now: real): Bucket {
    if now <= b.lastFilled then b
    else b.(tokens := Min(b.tokens + Accrued(now - b.lastFilled, b.rate), b.capacity as real), lastFilled := now)
  }

  // ---------------------------------------------------------------------
  // Runs of critical sections
  // ---------------------------------------------------------------------

  /** What can happen to the bucket: the critical section of one Wait iteration, a
      change of multiplier (which does not refill), or an idealised extra refill. */
  datatype Event = Take(at: real) | SetMultiplier(m: real) | Refresh(at: real)

  predicate Granted(b: Bucket, ev: Event) {
    ev.Take? && Refill(b, ev.at).tokens >= 1.0
  }

  function Step(b: Bucket, ev: Event): (b': Bucket)
  {
    match ev
    case Take(at) =>
      var r := Refill(b, at);
      if r.tokens >= 1.0 then r.(tokens := r.tokens - 1.0) else r
    case SetMultiplier(m) => b.(rate := b.baseRate * Clamp(m))
    case Refresh(at) => Refill(b, at)
  }

  function Run(b: Bucket, evs: seq<Event>): Bucket
    decreases |evs|
  {
    if evs == [] then b else Run(Step(b, evs[0]), evs[1..])
  }

  /** The clock readings of a run never go back. */
  predicate Chronological(evs: seq<Event>, from: real) {
    evs == []
    || (if evs[0].SetMultiplier? then Chronological(evs[1..], from)
        else from <= evs[0].at && Chronological(evs[1..], evs[0].at))
  }

  predicate MultipliersAtMost(evs: seq<Event>, max: real) {
    forall ev <- evs :: ev.SetMultiplier? ==> Clamp(ev.m) <= max
  }

  /** The number of tokens granted at instants within [s, t]. */
  function GrantsIn(b: Bucket, evs: seq<Event>, s: real, t: real): nat
    decreases |evs|
  {
    if evs == [] then 0
    else
      (if Granted(b, evs[0]) && s <= evs[0].at <= t then 1 else 0)
      + GrantsIn(Step(b, evs[0]), evs[1..], s, t)
  }

  lemma AccruedIs(span: real, rate: real)
    ensures Accrued(span, rate) == rate * span
  {}

  lemma PositiveProduct(a: real, b: real)
    requires a > 0.0 && b > 0.0
    ensures a * b > 0.0
  {}

  lemma AccruedNonNegative(span: real, rate: real)
    requires span >= 0.0 && rate >= 0.0
    ensures Accrued(span, rate) >= 0.0
  {}

  lemma AccruedMonotone(span: real, low: real, high: real)
    requires span >= 0.0 && low <= high
    ensures Accrued(span, low) <= Accrued(span, high)
  {}

  lemma AccruedSplits(a: real, b: real, c: real, rate: real)
    ensures Accrued(c - a, rate) == Accrued(c - b, rate) + Accrued(b - a, rate)
  {}

  lemma RefillKeepsValid(b: Bucket, now: real)
    requires b.Valid()
    ensures Refill(b, now).Valid()
    ensures Refill(b, now).tokens >= b.tokens
  {
    if now > b.lastFilled {
      AccruedNonNegative(now - b.lastFilled, b.rate);
    }
  }

  lemma StepKeepsValid(b: Bucket, ev: Event)
    requires b.Valid()
    ensures Step(b, ev).Valid()
  {
    if ev.SetMultiplier? {
      PositiveProduct(b.baseRate, Clamp(ev.m));
    } else {
      RefillKeepsValid(b, ev.at);
    }
  }

  /** Every run keeps the token count within [0, capacity]. */
  lemma {:induction false} TokensStayInRange(b: Bucket, evs: seq<Event>)
    requires b.Valid()
    ensures Run(b, evs).Valid()
    ensures 0.0 <= Run(b, evs).tokens <= b.capacity as real
    decreases |evs|
  {
    if evs != [] {
      StepKeepsValid(b, evs[0]);
      TokensStayInRange(Step(b, evs[0]), evs[1..]);
    }
  }

  // ---------------------------------------------------------------------
  // Rate bound
  // ---------------------------------------------------------------------

  /** The most tokens the bucket could show at `now` if it had been filling at `peak`. */
  function Potential(b: Bucket, peak: real, now: real): real {
    if now <= b.lastFilled then b.tokens
    else Min(b.tokens + Accrued(now - b.lastFilled, peak), b.capacity as real)
  }

  lemma PotentialInRange(b: Bucket, peak: real, now: real)
    requires b.Valid() && b.rate <= peak
    ensures 0.0 <= Potential(b, peak, now) <= b.capacity as real
  {
    if now > b.lastFilled {
      var accrued := Accrued(now - b.lastFilled, peak);
      AccruedNonNegative(now - b.lastFilled, peak);
      assert Potential(b, peak, now) == Min(b.tokens + accrued, b.capacity as real);
    }
  }

  /** The bucket's rate is positive and at most `peak` now and after every event. */
  predicate RatesAtMost(b: Bucket, evs: seq<Event>, peak: real) {
    0.0 < b.rate <= peak && forall ev <- evs :: ev.SetMultiplier? ==> 0.0 < b.baseRate * Clamp(ev.m) <= peak
  }

  lemma RatesAtMostStep(b: Bucket, evs: seq<Event>, peak: real)
    requires evs != [] && RatesAtMost(b, evs, peak)
    ensures RatesAtMost(Step(b, evs[0]), evs[1..], peak)
  {
    assert evs[0] in evs;
    assert forall ev <- evs[1..] :: ev in evs;
  }

  /** Refilling at `at` yields no more than the potential at an earlier instant plus peak
      filling since then. */
  lemma RefillWithinPotential(b: Bucket, peak: real, from: real, at: real)
    requires b.Valid() && b.rate <= peak && from <= at
    ensures Refill(b, at).tokens <= Potential(b, peak, from) + Accrued(at - from, peak)
  {
    AccruedNonNegative(at - from, peak);
    if at > b.lastFilled {
      AccruedMonotone(at - b.lastFilled, b.rate, peak);
      AccruedSplits(from, b.lastFilled, at, peak);
      if from <= b.lastFilled {
        AccruedNonNegative(b.lastFilled - from, peak);
      }
    }
  }

  /** One critical section at `ev.at` pays for its grant out of the potential. */
  lemma StepWithinPotential(b: Bucket, ev: Event, peak: real, from: real)
    requires b.Valid() && b.rate <= peak && !ev.SetMultiplier? && from <= ev.at
    ensures Potential(Step(b, ev), peak, ev.at) + (if Granted(b, ev) then 1.0 else 0.0)
            <= Potential(b, peak, from) + Accrued(ev.at - from, peak)
  {
    RefillWithinPotential(b, peak, from, ev.at);
    assert Potential(Step(b, ev), peak, ev.at) == Step(b, ev).tokens;
  }

  lemma {:induction false} GrantsWithinPotential(b: Bucket, evs: seq<Event>, peak: real, from: real, s: real, t: real)
    requires b.Valid() && RatesAtMost(b, evs, peak)
    requires Chronological(evs, from) && s <= from <= t
    ensures GrantsIn(b, evs, s, t) as real <= Potential(b, peak, from) + Accrued(t - from, peak)
    decreases |evs|
  {
    var budget := Potential(b, peak, from) + Accrued(t - from, peak);
    assert budget >= 0.0 by {
      PotentialInRange(b, peak, from);
      AccruedNonNegative(t - from, peak);
    }
    if evs != [] {
      var ev := evs[0];
      RatesAtMostStep(b, evs, peak);
      if ev.SetMultiplier? {
        GrantsWithinPotential(Step(b, ev), evs[1..], peak, from, s, t);
      } else if ev.at <= t {
        RefillKeepsValid(b, ev.at);
        var spent := if Granted(b, ev) then 1.0 else 0.0;
        var rest := Potential(Step(b, ev), peak, ev.at) + Accrued(t - ev.at, peak);
        assert spent + rest <= budget by {
          StepWithinPotential(b, ev, peak, from);
          AccruedSplits(from, ev.at, t, peak);
        }
        GrantsWithinPotential(Step(b, ev), evs[1..], peak, ev.at, s, t);
        assert GrantsIn(b, evs, s, t) as real <= budget;
      } else {
        NoGrantsPast(Step(b, ev), evs[1..], ev.at, s, t);
      }
    }
  }

  lemma {:induction false} NoGrantsPast(b: Bucket, evs: seq<Event>, from: real, s: real, t: real)
    requires Chronological(evs, from) && from > t
    ensures GrantsIn(b, evs, s, t) == 0
    decreases |evs|
  {
    if evs != [] {
      NoGrantsPast(Step(b, evs[0]), evs[1..], if evs[0].SetMultiplier? then from else evs[0].at, s, t);
    }
  }

  lemma {:induction false} GrantsWithinPeak(b: Bucket, evs: seq<Event>, peak: real, from: real, s: real, t: real)
    requires b.Valid() && RatesAtMost(b, evs, peak)
    requires Chronological(evs, from) && s <= t
    ensures GrantsIn(b, evs, s, t) as real <= b.capacity as real + Accrued(t - s, peak)
    decreases |evs|
  {
    AccruedNonNegative(t - s, peak);
    if evs != [] {
      var ev := evs[0];
      RatesAtMostStep(b, evs, peak);
      if ev.SetMultiplier? {
        GrantsWithinPeak(Step(b, ev), evs[1..], peak, from, s, t);
      } else if ev.at < s {
        RefillKeepsValid(b, ev.at);
        GrantsWithinPeak(Step(b, ev), evs[1..], peak, ev.at, s, t);
      } else {
        assert Chronological(evs, s);
        GrantsWithinPotential(b, evs, peak, s, s, t);
      }
    }
  }

  lemma MultipliersBoundRates(b: Bucket, evs: seq<Event>, max: real)
    requires b.Valid() && b.rate <= b.baseRate * max && MultipliersAtMost(evs, max)
    ensures RatesAtMost(b, evs, b.baseRate * max)
  {
    forall ev <- evs | ev.SetMultiplier? ensures 0.0 < b.baseRate * Clamp(ev.m) <= b.baseRate * max {
      AccruedMonotone(b.baseRate, Clamp(ev.m), max);
      PositiveProduct(b.baseRate, Clamp(ev.m));
    }
  }

  lemma GrantsWithinRate(b: Bucket, evs: seq<Event>, max: real, from: real, s: real, t: real)
    requires b.Valid() && b.rate <= b.baseRate * max && MultipliersAtMost(evs, max)
    requires Chronological(evs, from) && s <= t
    ensures GrantsIn(b, evs, s, t) as real <= b.capacity as real + Accrued(t - s, b.baseRate * max)
  {
    MultipliersBoundRates(b, evs, max);
    GrantsWithinPeak(b, evs, b.baseRate * max, from, s, t);
  }

  /** Rate bound: whatever the multipliers do below `max`, and although SetMultiplier
      re-rates the time since the last refill, the tokens granted in any interval [s, t]
      of any run number at most capacity + baseRate * max * (t - s). */
  lemma RateBound(b: Bucket, evs: seq<Event>, max: real, from: real, s: real, t: real)
    requires b.Valid() && b.rate <= b.baseRate * max && MultipliersAtMost(evs, max)
    requires Chronological(evs, from) && s <= t
    ensures GrantsIn(b, evs, s, t) as real <= b.capacity as real + b.baseRate * max * (t - s)
  {
    var grants := GrantsIn(b, evs, s, t);
    assert grants as real <= b.capacity as real + Accrued(t - s, b.baseRate * max) by {
      GrantsWithinRate(b, evs, max, from, s, t);
    }
    AccruedIs(t - s, b.baseRate * max);
  }

  lemma GrantsWithinBaseRate(b: Bucket, evs: seq<Event>, from: real, s: real, t: real)
    requires b.Valid() && b.rate <= b.baseRate && MultipliersAtMost(evs, 1.0)
    requires Chronological(evs, from) && s <= t
    ensures GrantsIn(b, evs, s, t) as real <= b.capacity as real + Accrued(t - s, b.baseRate)
  {
    assert b.baseRate * 1.0 == b.baseRate;
    GrantsWithinRate(b, evs, 1.0, from, s, t);
  }

  /** The usual case: a slowdown only ever lowers the rate. */
  lemma BaseRateBound(b: Bucket, evs: seq<Event>, from: real, s: real, t: real)
    requires b.Valid() && b.rate <= b.baseRate && MultipliersAtMost(evs, 1.0)
    requires Chronological(evs, from) && s <= t
    ensures GrantsIn(b, evs, s, t) as real <= b.capacity as real + b.baseRate * (t - s)
  {
    GrantsWithinBaseRate(b, evs, from, s, t);
    AccruedIs(t - s, b.baseRate);
  }

  // ---------------------------------------------------------------------
  // Lazy refill against a continuously filling bucket
  // ---------------------------------------------------------------------

  /** One refill at the end of an interval equals two, one of them at any instant between. */
  lemma RefillComposes(b: Bucket, t1: real, t2: real)
    requires b.Valid() && t1 <= t2
    ensures Refill(Refill(b, t1), t2) == Refill(b, t2)
  {
    if b.lastFilled < t1 < t2 {
      AccruedSplits(b.lastFilled, t1, t2, b.rate);
      AccruedNonNegative(t2 - t1, b.rate);
    }
  }

  /** The run with the idealised refills removed: what the code really does. */
  function Lazily(evs: seq<Event>): seq<Event> {
    if evs == [] then []
    else if evs[0].Refresh? then Lazily(evs[1..])
    else [evs[0]] + Lazily(evs[1..])
  }

  function GrantTimes(b: Bucket, evs: seq<Event>): seq<real>
    decreases |evs|
  {
    if evs == [] then []
    else (if Granted(b, evs[0]) then [evs[0].at] else []) + GrantTimes(Step(b, evs[0]), evs[1..])
  }

  predicate FixedMultiplier(evs: seq<Event>) {
    forall ev <- evs :: !ev.SetMultiplier?
  }

  /** Two buckets that cannot be told apart from `now` on. */
  predicate SameLevel(a: Bucket, b: Bucket, now: real) {
    a.Valid() && b.Valid() && a.lastFilled <= now && b.lastFilled <= now && Refill(a, now) == Refill(b, now)
  }

  function LastInstant(evs: seq<Event>, now: real): real {
    if evs == [] then now
    else LastInstant(evs[1..], if evs[0].SetMultiplier? then now else evs[0].at)
  }

  lemma {:induction false} SameLevelStep(lazy: Bucket, eager: Bucket, ev: Event, now: real)
    requires SameLevel(lazy, eager, now) && !ev.SetMultiplier? && now <= ev.at
    ensures Refill(lazy, ev.at) == Refill(eager, ev.at)
    ensures ev.Refresh? ==> SameLevel(lazy, Step(eager, ev), ev.at)
    ensures ev.Take? ==> SameLevel(Step(lazy, ev), Step(eager, ev), ev.at)
  {
    RefillComposes(lazy, now, ev.at);
    RefillComposes(eager, now, ev.at);
    RefillComposes(eager, ev.at, ev.at);
    RefillKeepsValid(lazy, ev.at);
    RefillKeepsValid(eager, ev.at);
  }

  lemma {:induction false} EagerSimulatesLazy(lazy: Bucket, eager: Bucket, evs: seq<Event>, now: real)
    requires SameLevel(lazy, eager, now) && FixedMultiplier(evs) && Chronological(evs, now)
    ensures GrantTimes(lazy, Lazily(evs)) == GrantTimes(eager, evs)
    ensures SameLevel(Run(lazy, Lazily(evs)), Run(eager, evs), LastInstant(evs, now))
    decreases |evs|
  {
    if evs != [] {
      var ev := evs[0];
      assert ev in evs;
      assert forall e <- evs[1..] :: e in evs;
      SameLevelStep(lazy, eager, ev, now);
      if ev.Refresh? {
        EagerSimulatesLazy(lazy, Step(eager, ev), evs[1..], ev.at);
      } else {
        assert Lazily(evs)[1..] == Lazily(evs[1..]);
        EagerSimulatesLazy(Step(lazy, ev), Step(eager, ev), evs[1..], ev.at);
      }
    }
  }

  /** Refinement: at a fixed multiplier the lazy bucket grants at exactly the instants at
      which a bucket refilled at any further instants would, and ends at the same level. */
  lemma {:induction false} LazyRefillRefinesIdeal(b: Bucket, evs: seq<Event>)
    requires b.Valid() && FixedMultiplier(evs) && Chronological(evs, b.lastFilled)
    ensures GrantTimes(b, Lazily(evs)) == GrantTimes(b, evs)
    ensures SameLevel(Run(b, Lazily(evs)), Run(b, evs), LastInstant(evs, b.lastFilled))
  {
    EagerSimulatesLazy(b, b, evs, b.lastFilled);
  }

  /** Below a whole token the cap plays no part: the level has risen at the constant rate. */
  lemma LevelAt(b: Bucket, from: real, at: real)
    requires b.Valid() && b.lastFilled <= from <= at
    ensures Refill(b, at).tokens <= Refill(b, from).tokens + Accrued(at - from, b.rate)
    ensures Refill(b, at).tokens < 1.0 ==>
              Refill(b, at).tokens == Refill(b, from).tokens + Accrued(at - from, b.rate)
  {
    RefillComposes(b, from, at);
    AccruedSplits(at, at, at, b.rate);
    AccruedNonNegative(at - from, b.rate);
  }

  // ---------------------------------------------------------------------
  // Conservation
  // ---------------------------------------------------------------------

  /** Tokens accrued by the refill inside one event, before the cap. */
  function Credit(b: Bucket, ev: Event): real {
    if ev.SetMultiplier? || ev.at <= b.lastFilled then 0.0 else Accrued(ev.at - b.lastFilled, b.rate)
  }

  /** Tokens of that credit lost to the cap. */
  function Spill(b: Bucket, ev: Event): real {
    var over := b.tokens + Credit(b, ev) - b.capacity as real;
    if over > 0.0 then over else 0.0
  }

  function Credited(b: Bucket, evs: seq<Event>): real
    decreases |evs|
  {
    if evs == [] then 0.0 else Credit(b, evs[0]) + Credited(Step(b, evs[0]), evs[1..])
  }

  function Spilled(b: Bucket, evs: seq<Event>): real
    decreases |evs|
  {
    if evs == [] then 0.0 else Spill(b, evs[0]) + Spilled(Step(b, evs[0]), evs[1..])
  }

  /** Every token is accounted for: what was there plus what was credited is what is
      left plus what was granted plus what the cap discarded. */
  lemma {:induction false} TokensConserved(b: Bucket, evs: seq<Event>)
    requires b.Valid()
    ensures b.tokens + Credited(b, evs)
            == Run(b, evs).tokens + |GrantTimes(b, evs)| as real + Spilled(b, evs)
    ensures Spilled(b, evs) >= 0.0 && Credited(b, evs) >= 0.0
    decreases |evs|
  {
    if evs != [] {
      if !evs[0].SetMultiplier? {
        RefillKeepsValid(b, evs[0].at);
        if evs[0].at > b.lastFilled {
          AccruedNonNegative(evs[0].at - b.lastFilled, b.rate);
        }
      }
      TokensConserved(Step(b, evs[0]), evs[1..]);
    }
  }

  // ---------------------------------------------------------------------
  // The limiter itself
  // ---------------------------------------------------------------------

  /** The longest single sleep inside Wait, in seconds. */
  const SLEEP_CAP: real := 0.25

  class TokenBucket {
    var baseRate: real
    var multiplier: real
    var capacity: int
    var tokens: real
    var lastFilled: real

    ghost function State(): Bucket
      reads this
    {
      Bucket(baseRate, baseRate * multiplier, capacity, tokens, lastFilled)
    }

    constructor (rps: real, burst: int, now: real)
      ensures State() == Bucket(rps, rps, if burst < 1 then 1 else burst, capacity as real, now)
      ensures multiplier == 1.0 && (State().Valid() <==> rps > 0.0)
    {
      var size := if burst < 1 then 1 else burst;
      baseRate, multiplier, capacity, tokens, lastFilled := rps, 1.0, size, size as real, now;
    }

    method SetMultiplier(m: real)
      modifies this`multiplier
      ensures State() == Step(old(State()), Event.SetMultiplier(m))
      ensures multiplier == if m <= 0.0 then 0.01 else m
    {
      var scale := m;
      if scale <= 0.0 {
        scale := 0.01;
      }
      multiplier := scale;
    }

    method RefillLocked(now: real)
      modifies this`tokens, this`lastFilled
      ensures State() == Refill(old(State()), now)
      ensures now <= old(lastFilled) ==> tokens == old(tokens) && lastFilled == old(lastFilled)
      ensures now > old(lastFilled) ==>
        var full := old(tokens) + (now - old(lastFilled)) * (baseRate * multiplier);
        lastFilled == now && tokens == if full > capacity as real then capacity as real else full
    {
      var elapsed := now - lastFilled;
      if elapsed <= 0.0 {
        return;
      }
      var rate := baseRate * multiplier;
      tokens := tokens + elapsed * rate;
      if tokens > capacity as real {
        tokens := capacity as real;
      }
      lastFilled := now;
    }

    /** The part of one Wait iteration that runs under the mutex. A refused caller is told to
        sleep exactly until its token is there, or for the cap if that is sooner. */
    method TryTake(now: real) returns (granted: bool, waitFor: real)
      requires State().Valid()
      modifies this`tokens, this`lastFilled
      ensures State() == Step(old(State()), Take(now)) && State().Valid()
      ensures granted <==> Granted(old(State()), Take(now))
      ensures granted <==> Refill(old(State()), now).tokens >= 1.0
      ensures tokens == Refill(old(State()), now).tokens - if granted then 1.0 else 0.0
      ensures !granted ==> 0.0 < waitFor <= 0.25 && tokens + Accrued(waitFor, State().rate) <= 1.0
      ensures !granted && waitFor < 0.25 ==> tokens + Accrued(waitFor, State().rate) == 1.0
    {
      RefillKeepsValid(State(), now);
      RefillLocked(now);
      if tokens >= 1.0 {
        tokens := tokens - 1.0;
        return true, 0.0;
      }
      var rate := baseRate * multiplier;
      if rate <= 0.0 {
        rate := 0.01;
      }
      var need := 1.0 - tokens;
      waitFor := need / rate;
      assert waitFor * rate == need;
      if waitFor > SLEEP_CAP {
        AccruedMonotone(rate, SLEEP_CAP, waitFor);
        waitFor := SLEEP_CAP;
      }
      granted := false;
    }

    /** Wait for a sole waiter. The k-th timer overshoots by `oversleep(k)`; the context
        fires at `deadline` if there is one. A granted call takes exactly one token, a
        cancelled one takes none, and despite the cap on single sleeps there are at most
        ceil(4 * missing tokens / rate) sleeps, which is also why the loop ends. No sleep but
        for its overshoot goes past the instant at which the token is there, so with exact
        timers and no deadline the grant comes at that instant. */
    method Wait(now: real, oversleep: nat -> real, deadline: Option<real>)
      returns (granted: bool, at: real, sleeps: nat)
      requires State().Valid() && lastFilled <= now
      requires forall k :: oversleep(k) >= 0.0
      modifies this`tokens, this`lastFilled
      ensures State().Valid() && now <= at && lastFilled <= at
      ensures granted ==> Granted(old(State()), Take(at)) && State() == Step(old(State()), Take(at))
      ensures !granted ==> deadline.Some? && deadline.value <= at && State() == Refill(old(State()), lastFilled)
      ensures granted && deadline.Some? ==> at < deadline.value
      ensures sleeps > 0 ==> Refill(old(State()), now).tokens < 1.0
      ensures sleeps > 0 ==> (sleeps - 1) as real < MostSleeps(old(State()), now)
      ensures sleeps == 0 ==> at == now
      ensures var missing := 1.0 - Refill(old(State()), now).tokens;
              && (sleeps > 0 ==> Accrued(at - oversleep(sleeps - 1) - now, State().rate) <= missing)
              && (granted ==> Accrued(at - now, State().rate) >= missing)
              && ((forall k :: oversleep(k) == 0.0) && deadline.None? ==>
                    granted && (missing > 0.0 ==> Accrued(at - now, State().rate) == missing))
    {
      ghost var start := State();
      ghost var slack, most := 0.0, MostSleeps(start, now);
      RefillKeepsValid(start, now);
      at, sleeps := now, 0;
      while true
        invariant baseRate == start.baseRate && multiplier == old(multiplier) && capacity == start.capacity
        invariant State().Valid() && Waiting(start, State(), now, at, sleeps, slack, most)
        invariant sleeps > 0 ==> slack == oversleep(sleeps - 1)
        invariant sleeps > 0 && deadline.Some? ==> at < deadline.value
        decreases most.Floor + 1 - sleeps
      {
        if deadline.Some? && deadline.value <= at {
          return false, at, sleeps;
        }
        ghost var before := State();
        RefillComposes(start, lastFilled, at);
        LevelAt(start, now, at);
        var ok, waitFor := TryTake(at);
        if ok {
          return true, at, sleeps;
        }
        Refused(start, before, now, at, sleeps, slack, most, waitFor, oversleep(sleeps));
        slack := oversleep(sleeps);
        at, sleeps := at + waitFor + oversleep(sleeps), sleeps + 1;
        if deadline.Some? && deadline.value <= at {
          return false, at, sleeps;
        }
      }
    }
  }

  /** Four sleeps a second for as long as the missing part of a token takes. */
  function MostSleeps(b: Bucket, now: real): real
    requires b.rate > 0.0
  {
    4.0 * (1.0 - Refill(b, now).tokens) / b.rate
  }

  /** Where a sole waiter is that began in state `start` at `now`: after `sleeps` sleeps, the
      last of which has overshot by `slack`. */
  ghost predicate Waiting(
      start: Bucket, b: Bucket, now: real, at: real, sleeps: nat, slack: real, most: real)
  {
    var first := Refill(start, now).tokens;
    && start.Valid() && start.lastFilled <= b.lastFilled <= at && now <= at && start.lastFilled <= now
    && b == Refill(start, b.lastFilled)
    && if sleeps == 0 then at == now && b == start
       else && first < 1.0 && Awaited(b, at, first, sleeps) && (sleeps - 1) as real < most
            && Accrued(at - slack - now, start.rate) <= 1.0 - first
  }

  /** A refused waiter goes on to its next sleep. */
  lemma Refused(start: Bucket, b: Bucket, now: real, at: real, sleeps: nat, slack: real, most: real,
                waitFor: real, over: real)
    requires start.rate > 0.0 && most == MostSleeps(start, now)
    requires Waiting(start, b, now, at, sleeps, slack, most) && b.Valid() && Refill(b, at).tokens < 1.0 && over >= 0.0
    requires 0.0 < waitFor <= SLEEP_CAP && Refill(b, at).tokens + Accrued(waitFor, start.rate) <= 1.0
    requires waitFor < SLEEP_CAP ==> Refill(b, at).tokens + Accrued(waitFor, start.rate) == 1.0
    ensures Waiting(start, Refill(b, at), now, at + waitFor + over, sleeps + 1, over, most)
  {
    var first := Refill(start, now).tokens;
    var after := Refill(b, at);
    RefillComposes(start, b.lastFilled, at);
    assert after == Refill(start, at);
    LevelAt(start, now, at);
    RefilledEnough(b, at, first, sleeps);
    SleepsBelow(first, start.rate, sleeps);
    SleptEnough(after, waitFor, waitFor + over);
    SleptNoLonger(first, after.tokens, at - now, waitFor, start.rate);
    assert at + waitFor + over - over - now == at - now + waitFor && at + waitFor + over - at == waitFor + over;
    if sleeps == 0 {
      AccruedNonNegative(0.0, start.rate);
    }
  }

  /** After `sleeps` sleeps: all but the last have accrued a quarter second's worth, and the
      last has lasted a quarter second or long enough for a whole token. */
  ghost predicate Awaited(b: Bucket, at: real, first: real, sleeps: nat)
    requires sleeps > 0
  {
    && b.lastFilled < at
    && b.tokens >= first + Accrued((sleeps - 1) as real * 0.25, b.rate)
    && (at - b.lastFilled >= SLEEP_CAP || b.tokens + Accrued(at - b.lastFilled, b.rate) >= 1.0)
  }

  lemma RefilledEnough(b: Bucket, at: real, first: real, sleeps: nat)
    requires b.Valid() && Refill(b, at).tokens < 1.0
    requires if sleeps == 0 then Refill(b, at).tokens == first else Awaited(b, at, first, sleeps)
    ensures Refill(b, at).tokens >= first + Accrued(sleeps as real * 0.25, b.rate)
  {
    if sleeps > 0 {
      var span := at - b.lastFilled;
      assert Refill(b, at).tokens == Min(b.tokens + Accrued(span, b.rate), b.capacity as real);
      AccruedSplits(0.0, 0.25, span, b.rate);
      AccruedNonNegative(span - 0.25, b.rate);
      AccruedSplits(0.0, (sleeps - 1) as real * 0.25, sleeps as real * 0.25, b.rate);
      assert sleeps as real * 0.25 - (sleeps - 1) as real * 0.25 == 0.25;
    }
  }

  lemma SleepsBelow(first: real, rate: real, sleeps: nat)
    requires rate > 0.0 && first + Accrued(sleeps as real * 0.25, rate) < 1.0
    ensures sleeps as real < 4.0 * (1.0 - first) / rate
  {
    var q := 4.0 * (1.0 - first) / rate;
    assert q * rate == 4.0 * (1.0 - first);
    if sleeps as real >= q {
      AccruedMonotone(rate, q * 0.25, sleeps as real * 0.25);
    }
  }

  lemma SleptNoLonger(first: real, tokens: real, passed: real, waitFor: real, rate: real)
    requires tokens == first + Accrued(passed, rate) && tokens + Accrued(waitFor, rate) <= 1.0
    ensures Accrued(passed + waitFor, rate) <= 1.0 - first
  {
    AccruedSplits(0.0, passed, passed + waitFor, rate);
    assert passed + waitFor - passed == waitFor;
  }

  lemma SleptEnough(b: Bucket, waitFor: real, slept: real)
    requires b.rate > 0.0 && 0.0 < waitFor <= SLEEP_CAP && slept >= waitFor
    requires waitFor < SLEEP_CAP ==> b.tokens + Accrued(waitFor, b.rate) == 1.0
    ensures slept >= SLEEP_CAP || b.tokens + Accrued(slept, b.rate) >= 1.0
  {
    AccruedSplits(0.0, waitFor, slept, b.rate);
    AccruedNonNegative(slept - waitFor, b.rate);
  }
}
