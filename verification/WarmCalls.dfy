/** Any number of concurrent Warm calls in front of the global limiter and the per-host
    semaphores, interleaved at their atomic sections. */
module WarmCalls {
  import opened Options
  import opened Tallies
  import TB = TokenBuckets

  /** Where a caller of Warm is. A retry backoff lies between two Warm calls. */
  datatype Pc =
    | Idle
    | Backoff
    | WantsToken(host: string)
    | WantsSlot(host: string)   // has taken its token
    | Ready(host: string)       // has its slot; dispatches next
    | InFlight(host: string)

  datatype State = State(
    limiter: Option<TB.Bucket>,
    maxPerHost: int,
    slots: map<string, int>,     // length of each host's channel
    calls: seq<Pc>)

  datatype Step =
    | Begin(host: string)
    | Claim                 // critical section of one Wait iteration
    | GiveUp                // the context fired while waiting for a token or a slot
    | TakeSlot
    | Dispatch
    | Finish(retry: bool)   // response seen, slot released
    | Rescale(m: real)      // SetMultiplier, by the adaptive slowdown

  datatype Action = Action(at: real, call: nat, step: Step)

  predicate Capped(s: State, host: string) {
    s.maxPerHost > 0 && host != ""
  }

  function Length(slots: map<string, int>, host: string): int {
    if host in slots then slots[host] else 0
  }

  predicate Enabled(s: State, a: Action) {
    a.step.Rescale? || (
      a.call < |s.calls| &&
      match a.step
      case Begin(_) => s.calls[a.call].Idle? || s.calls[a.call].Backoff?
      case Claim => s.calls[a.call].WantsToken? && s.limiter.Some?
      case GiveUp => s.calls[a.call].WantsToken? || s.calls[a.call].WantsSlot?
      case TakeSlot =>
        s.calls[a.call].WantsSlot?
        && (Capped(s, s.calls[a.call].host) ==> Length(s.slots, s.calls[a.call].host) < s.maxPerHost)
      case Dispatch => s.calls[a.call].Ready?
      case Finish(_) => s.calls[a.call].InFlight?)
  }

  function Next(s: State, a: Action): State
    requires Enabled(s, a)
  {
    match a.step
    case Begin(host) =>
      s.(calls := s.calls[a.call := if s.limiter.None? then WantsSlot(host) else WantsToken(host)])
    case Claim =>
      var ev := TB.Take(a.at);
      s.(limiter := Some(TB.Step(s.limiter.value, ev)),
         calls := if TB.Granted(s.limiter.value, ev) then s.calls[a.call := WantsSlot(s.calls[a.call].host)]
                  else s.calls)
    case GiveUp => s.(calls := s.calls[a.call := Idle])
    case TakeSlot =>
      var host := s.calls[a.call].host;
      s.(slots := if Capped(s, host) then s.slots[host := Length(s.slots, host) + 1] else s.slots,
         calls := s.calls[a.call := Ready(host)])
    case Dispatch => s.(calls := s.calls[a.call := InFlight(s.calls[a.call].host)])
    case Finish(retry) =>
      var host := s.calls[a.call].host;
      s.(slots := if Capped(s, host) then s.slots[host := Length(s.slots, host) - 1] else s.slots,
         calls := s.calls[a.call := if retry then Backoff else Idle])
    case Rescale(m) =>
      if s.limiter.None? then s else s.(limiter := Some(TB.Step(s.limiter.value, TB.SetMultiplier(m))))
  }

  predicate CanRun(s: State, acts: seq<Action>)
    decreases |acts|
  {
    acts == [] || (Enabled(s, acts[0]) && CanRun(Next(s, acts[0]), acts[1..]))
  }

  function Run(s: State, acts: seq<Action>): State
    requires CanRun(s, acts)
    decreases |acts|
  {
    if acts == [] then s else Run(Next(s, acts[0]), acts[1..])
  }

  predicate Init(s: State) {
    s.slots == map[] && (forall i :: 0 <= i < |s.calls| ==> s.calls[i] == Idle)
    && (s.limiter.Some? ==> s.limiter.value.Valid() && s.limiter.value.rate == s.limiter.value.baseRate)
  }

  // ---------------------------------------------------------------------
  // Per-host cap
  // ---------------------------------------------------------------------

  /** Has sent into the host's channel and not yet received from it. */
  function Holds(host: string): Pc -> bool {
    (p: Pc) => (p.Ready? || p.InFlight?) && p.host == host
  }

  function Flying(host: string): Pc -> bool {
    (p: Pc) => p.InFlight? && p.host == host
  }

  ghost predicate Inv(s: State) {
    && (forall host :: Capped(s, host) ==> Length(s.slots, host) == Count(s.calls, Holds(host)) <= s.maxPerHost)
    && (forall host :: !Capped(s, host) ==> host !in s.slots)
    && (s.limiter.Some? ==> s.limiter.value.Valid())
    && (forall i :: 0 <= i < |s.calls| && s.calls[i].WantsToken? ==> s.limiter.Some?)
  }

  lemma InitInv(s: State)
    requires Init(s)
    ensures Inv(s)
  {
    forall host ensures Count(s.calls, Holds(host)) == 0 {
      CountNone(s.calls, Holds(host));
    }
  }

  lemma InvStep(s: State, a: Action)
    requires Inv(s) && Enabled(s, a)
    ensures Inv(Next(s, a))
  {
    var t := Next(s, a);
    if !a.step.Rescale? {
      assert t.calls == s.calls[a.call := t.calls[a.call]];
      forall host | Capped(s, host)
        ensures Length(t.slots, host) == Count(t.calls, Holds(host)) <= t.maxPerHost
      {
        CountUpdate(s.calls, a.call, t.calls[a.call], Holds(host));
      }
    }
    if s.limiter.Some? {
      TB.StepKeepsValid(s.limiter.value, if a.step.Rescale? then TB.SetMultiplier(a.step.m) else TB.Take(a.at));
    }
  }

  lemma {:induction false} InvRun(s: State, acts: seq<Action>)
    requires Inv(s) && CanRun(s, acts)
    ensures Inv(Run(s, acts))
    decreases |acts|
  {
    if acts != [] {
      InvStep(s, acts[0]);
      InvRun(Next(s, acts[0]), acts[1..]);
    }
  }

  /** What a caller is doing, told by its own steps alone. */
  datatype Doing = Nothing | Retrying | Warming(host: string)

  /** It warms the host of its last Begin until that call of Warm ends; then it backs off if it
      is to be retried. */
  function LastDoing(acts: seq<Action>, i: nat, before: Doing): Doing {
    if acts == [] then before
    else
      var a := acts[0];
      LastDoing(acts[1..], i,
                if a.call != i then before
                else match a.step
                     case Begin(host) => Warming(host)
                     case GiveUp => Nothing
                     case Finish(retry) => if retry then Retrying else Nothing
                     case _ => before)
  }

  function DoingOf(p: Pc): Doing {
    match p
    case Idle => Nothing
    case Backoff => Retrying
    case _ => Warming(p.host)
  }

  /** A call keeps the host it began with until it ends, and backs off exactly if retried. */
  lemma {:induction false} KeepsOwnHost(s: State, acts: seq<Action>, i: nat)
    requires CanRun(s, acts) && i < |s.calls| == |Run(s, acts).calls|
    ensures DoingOf(Run(s, acts).calls[i]) == LastDoing(acts, i, DoingOf(s.calls[i]))
    decreases |acts|
  {
    if acts != [] {
      KeepsOwnHost(Next(s, acts[0]), acts[1..], i);
    }
  }

  /** The calls in flight whose last Begin was for `host`. */
  ghost function FlyingTo(acts: seq<Action>, calls: seq<Pc>, host: string): set<nat> {
    set i: nat | i < |calls| && calls[i].InFlight? && LastDoing(acts, i, Nothing) == Warming(host)
  }

  /** The cap: in every run at most maxPerHost of the calls that began with this host are in
      flight. Its channel holds one entry per unreleased acquire, so a release always finds
      one to take back; waiting, cancelled and backing-off calls hold none. */
  lemma PerHostCap(init: State, acts: seq<Action>, host: string)
    requires Init(init) && CanRun(init, acts) && init.maxPerHost > 0 && host != ""
    ensures var s := Run(init, acts);
      && |FlyingTo(acts, s.calls, host)| <= init.maxPerHost
      && Length(s.slots, host) == Count(s.calls, Holds(host))
      && (forall i :: 0 <= i < |s.calls| && s.calls[i] == InFlight(host) ==> Length(s.slots, host) > 0)
  {
    InitInv(init);
    InvRun(init, acts);
    ConfigFixed(init, acts);
    var s := Run(init, acts);
    SumBound(s.calls, One(Flying(host)), One(Holds(host)), 1);
    CountIsCardinality(s.calls, Flying(host));
    forall i: nat | i < |s.calls| ensures i in FlyingTo(acts, s.calls, host) <==> Flying(host)(s.calls[i]) {
      KeepsOwnHost(init, acts, i);
    }
    assert FlyingTo(acts, s.calls, host) == Positions(s.calls, Flying(host));
    forall i | 0 <= i < |s.calls| && s.calls[i] == InFlight(host) ensures Length(s.slots, host) > 0 {
      CountPositive(s.calls, i, Holds(host));
    }
  }

  lemma {:induction false} ConfigFixed(s: State, acts: seq<Action>)
    requires CanRun(s, acts)
    ensures Run(s, acts).maxPerHost == s.maxPerHost && |Run(s, acts).calls| == |s.calls|
    decreases |acts|
  {
    if acts != [] {
      ConfigFixed(Next(s, acts[0]), acts[1..]);
    }
  }

  /** A call under way always has a next step of its own, but for one reason: it wants a slot
      of a capped host all of whose slots are taken. */
  lemma OnlyCapBlocks(s: State, i: nat, at: real)
    requires Inv(s) && i < |s.calls|
    ensures (forall step :: Enabled(s, Action(at, i, step)) ==> step.GiveUp? || step.Rescale?)
      <==> && s.calls[i].WantsSlot? && s.maxPerHost > 0 && s.calls[i].host != ""
           && Count(s.calls, Holds(s.calls[i].host)) == s.maxPerHost
  {
    var step := match s.calls[i]
      case WantsToken(_) => Claim
      case WantsSlot(_) => TakeSlot
      case Ready(_) => Dispatch
      case InFlight(_) => Finish(false)
      case _ => Begin("");
    assert Enabled(s, Action(at, i, step)) || s.calls[i].WantsSlot?;
  }

  /** A call blocked on a slot is blocked by another call to the same host that can move. */
  lemma BlockedByMover(s: State, i: nat, at: real)
    requires Inv(s) && i < |s.calls| && s.calls[i].WantsSlot? && !Enabled(s, Action(at, i, TakeSlot))
    ensures exists j ::
      && 0 <= j < |s.calls| && j != i && s.calls[j] in {Ready(s.calls[i].host), InFlight(s.calls[i].host)}
      && (Enabled(s, Action(at, j, Dispatch)) || Enabled(s, Action(at, j, Finish(false))))
  {
    var host := s.calls[i].host;
    assert Count(s.calls, Holds(host)) > 0;
    if forall j :: 0 <= j < |s.calls| ==> !Holds(host)(s.calls[j]) {
      CountNone(s.calls, Holds(host));
    }
  }

  // ---------------------------------------------------------------------
  // Pacing
  // ---------------------------------------------------------------------

  /** Has paid a token for a request that is not yet dispatched. */
  predicate HoldsToken(p: Pc) {
    p.WantsSlot? || p.Ready?
  }

  predicate Chronological(acts: seq<Action>, from: real) {
    acts == [] || (from <= acts[0].at && Chronological(acts[1..], acts[0].at))
  }

  predicate NoSpeedup(acts: seq<Action>) {
    forall a <- acts :: a.step.Rescale? ==> a.step.m <= 1.0
  }

  /** Requests dispatched no later than `t`. */
  function Dispatched(acts: seq<Action>, t: real): nat {
    if acts == [] then 0
    else (if acts[0].step.Dispatch? && acts[0].at <= t then 1 else 0) + Dispatched(acts[1..], t)
  }

  /** What a run does to the limiter. */
  function LimiterEvents(acts: seq<Action>): seq<TB.Event> {
    if acts == [] then []
    else
      (match acts[0].step
       case Claim => [TB.Take(acts[0].at)]
       case Rescale(m) => [TB.SetMultiplier(m)]
       case _ => [])
      + LimiterEvents(acts[1..])
  }

  lemma {:induction false} EventsChronological(acts: seq<Action>, from: real)
    requires Chronological(acts, from) && NoSpeedup(acts)
    ensures TB.Chronological(LimiterEvents(acts), from) && TB.MultipliersAtMost(LimiterEvents(acts), 1.0)
    decreases |acts|
  {
    if acts != [] {
      assert acts[0] in acts;
      assert forall a <- acts[1..] :: a in acts;
      EventsChronological(acts[1..], acts[0].at);
      var rest := LimiterEvents(acts[1..]);
      assert LimiterEvents(acts) != rest ==> LimiterEvents(acts)[1..] == rest;
      EventsFromEarlier(rest, acts[0].at, from);
    }
  }

  lemma {:induction false} EventsFromEarlier(evs: seq<TB.Event>, from: real, earlier: real)
    requires TB.Chronological(evs, from) && earlier <= from
    ensures TB.Chronological(evs, earlier)
  {
    if evs != [] && evs[0].SetMultiplier? {
      EventsFromEarlier(evs[1..], from, earlier);
    }
  }

  /** Every dispatch up to `t` was paid for by a token held at the start or granted since. */
  lemma {:induction false} DispatchesPaidFor(s: State, acts: seq<Action>, from: real, t: real)
    requires s.limiter.Some? && CanRun(s, acts) && Chronological(acts, from)
    ensures Dispatched(acts, t)
            <= Count(s.calls, HoldsToken) + TB.GrantsIn(s.limiter.value, LimiterEvents(acts), from, t)
    decreases |acts|
  {
    if acts != [] {
      var a := acts[0];
      var n := Next(s, a);
      var rest := LimiterEvents(acts[1..]);
      if a.at > t {
        NothingAfter(acts, from, t);
      } else {
        DispatchesPaidFor(n, acts[1..], a.at, t);
        WiderWindow(n.limiter.value, rest, from, a.at, t);
        TokenStep(s, a);
        assert LimiterEvents(acts) != rest ==> LimiterEvents(acts)[1..] == rest;
      }
    }
  }

  /** What the run does to the limiter are exactly these events. */
  lemma {:induction false} LimiterRuns(s: State, acts: seq<Action>)
    requires s.limiter.Some? && CanRun(s, acts)
    ensures Run(s, acts).limiter == Some(TB.Run(s.limiter.value, LimiterEvents(acts)))
    decreases |acts|
  {
    if acts != [] {
      var rest := LimiterEvents(acts[1..]);
      LimiterRuns(Next(s, acts[0]), acts[1..]);
      assert LimiterEvents(acts) != rest ==> LimiterEvents(acts)[1..] == rest;
    }
  }

  function Dispatches(acts: seq<Action>): nat {
    if acts == [] then 0 else (if acts[0].step.Dispatch? then 1 else 0) + Dispatches(acts[1..])
  }

  /** Calls that give up after they have got their token. */
  function Forfeited(s: State, acts: seq<Action>): nat
    requires CanRun(s, acts)
    decreases |acts|
  {
    if acts == [] then 0
    else (if acts[0].step.GiveUp? && HoldsToken(s.calls[acts[0].call]) then 1 else 0)
         + Forfeited(Next(s, acts[0]), acts[1..])
  }

  /** Every token is spent once: those held at first and those granted since have paid for a
      request, were forfeited by a cancelled call, or are still held. */
  lemma {:induction false} TokensAccounted(s: State, acts: seq<Action>)
    requires s.limiter.Some? && CanRun(s, acts)
    ensures Count(s.calls, HoldsToken) + |TB.GrantTimes(s.limiter.value, LimiterEvents(acts))|
            == Dispatches(acts) + Forfeited(s, acts) + Count(Run(s, acts).calls, HoldsToken)
    decreases |acts|
  {
    if acts != [] {
      var a := acts[0];
      var n := Next(s, a);
      var rest := LimiterEvents(acts[1..]);
      TokensAccounted(n, acts[1..]);
      TokenStep(s, a);
      assert LimiterEvents(acts) != rest ==> LimiterEvents(acts)[1..] == rest;
    }
  }

  /** A token is taken up by a granted claim and laid down by a dispatch or a late cancel. */
  lemma TokenStep(s: State, a: Action)
    requires s.limiter.Some? && Enabled(s, a)
    ensures Count(s.calls, HoldsToken)
            + (if a.step.Claim? && TB.Granted(s.limiter.value, TB.Take(a.at)) then 1 else 0)
            == Count(Next(s, a).calls, HoldsToken) + (if a.step.Dispatch? then 1 else 0)
               + (if a.step.GiveUp? && HoldsToken(s.calls[a.call]) then 1 else 0)
  {
    var n := Next(s, a);
    if !a.step.Rescale? {
      assert n.calls == s.calls[a.call := n.calls[a.call]];
      CountUpdate(s.calls, a.call, n.calls[a.call], HoldsToken);
    }
  }

  lemma {:induction false} NothingAfter(acts: seq<Action>, from: real, t: real)
    requires Chronological(acts, from) && acts != [] && acts[0].at > t
    ensures Dispatched(acts, t) == 0
  {
    if |acts| > 1 {
      NothingAfter(acts[1..], acts[0].at, t);
    }
  }

  lemma {:induction false} WiderWindow(b: TB.Bucket, evs: seq<TB.Event>, from: real, later: real, t: real)
    requires from <= later
    ensures TB.GrantsIn(b, evs, later, t) <= TB.GrantsIn(b, evs, from, t)
    decreases |evs|
  {
    if evs != [] {
      WiderWindow(TB.Step(b, evs[0]), evs[1..], from, later, t);
    }
  }

  lemma PacingAccrued(init: State, before: seq<Action>, after: seq<Action>, s: real, t: real)
    requires Init(init) && init.limiter.Some? && s <= t
    requires CanRun(init, before) && CanRun(Run(init, before), after)
    requires NoSpeedup(before) && NoSpeedup(after) && Chronological(after, s)
    ensures Dispatched(after, t) as real
            <= init.limiter.value.capacity as real + TB.Accrued(t - s, init.limiter.value.baseRate)
               + Count(Run(init, before).calls, HoldsToken) as real
  {
    var now := Run(init, before);
    InitInv(init);
    InvRun(init, before);
    RateNeverAboveBase(init, before);
    EventsChronological(after, s);
    DispatchesPaidFor(now, after, s, t);
    TB.GrantsWithinBaseRate(now.limiter.value, LimiterEvents(after), s, s, t);
  }

  /** End-to-end pacing: take any run of Warm calls, retries included, and the state it is
      in at instant `s`. With no multiplier above 1, at most burst + rps * (t - s) requests
      plus one per token then held leave the client in [s, t]. */
  lemma Pacing(init: State, before: seq<Action>, after: seq<Action>, s: real, t: real)
    requires Init(init) && init.limiter.Some? && s <= t
    requires CanRun(init, before) && CanRun(Run(init, before), after)
    requires NoSpeedup(before) && NoSpeedup(after) && Chronological(after, s)
    ensures Dispatched(after, t) as real
            <= init.limiter.value.capacity as real + init.limiter.value.baseRate * (t - s)
               + Count(Run(init, before).calls, HoldsToken) as real
  {
    PacingAccrued(init, before, after, s, t);
    TB.AccruedIs(t - s, init.limiter.value.baseRate);
  }

  lemma {:induction false} RateNeverAboveBase(s: State, acts: seq<Action>)
    requires s.limiter.Some? && s.limiter.value.Valid() && s.limiter.value.rate <= s.limiter.value.baseRate
    requires CanRun(s, acts) && NoSpeedup(acts)
    ensures var r := Run(s, acts).limiter;
            r.Some? && r.value.rate <= r.value.baseRate == s.limiter.value.baseRate
            && r.value.capacity == s.limiter.value.capacity
    decreases |acts|
  {
    if acts != [] {
      var a := acts[0];
      assert a in acts;
      assert forall x <- acts[1..] :: x in acts;
      TB.StepKeepsValid(s.limiter.value, if a.step.Rescale? then TB.SetMultiplier(a.step.m) else TB.Take(a.at));
      if a.step.Rescale? {
        TB.AccruedMonotone(s.limiter.value.baseRate, TB.Clamp(a.step.m), 1.0);
      }
      RateNeverAboveBase(Next(s, a), acts[1..]);
    }
  }

  // ---------------------------------------------------------------------
  // The semaphore table
  // ---------------------------------------------------------------------

  ghost predicate SameLengths(a: map<string, int>, b: map<string, int>) {
    forall h :: Length(a, h) == Length(b, h)
  }

  lemma SetBoth(a: map<string, int>, b: map<string, int>, host: string, n: int)
    requires SameLengths(a, b)
    ensures SameLengths(a[host := n], b[host := n])
  {
    var c, d := a[host := n], b[host := n];
    forall h ensures Length(c, h) == Length(d, h) {
      assert Length(a, h) == Length(b, h);
    }
  }

  datatype Outcome = Acquired | Cancelled | Blocked

  class HostSlots {
    const maxPerHost: int
    var hostSlots: map<string, int>

    constructor (maxPerHost: int)
      ensures this.maxPerHost == maxPerHost && hostSlots == map[]
      ensures forall s :: Init(s) && s.maxPerHost == maxPerHost ==> Tracks(s)
    {
      this.maxPerHost, hostSlots := maxPerHost, map[];
    }

    /** The table agrees with the machine's, though it may hold more empty channels: `Acquire`
        creates a channel even if it is then cancelled. */
    ghost predicate Tracks(s: State)
      reads this
    {
      s.maxPerHost == maxPerHost && SameLengths(hostSlots, s.slots)
    }

    /** Lazily creates a host's channel; an existing one is kept as it is. */
    method SlotsFor(host: string)
      modifies this
      ensures host in hostSlots
      ensures forall h :: Length(hostSlots, h) == Length(old(hostSlots), h)
      ensures hostSlots.Keys == old(hostSlots.Keys) + {host}
    {
      if host !in hostSlots {
        hostSlots := hostSlots[host := 0];
      }
    }

    /** The slot half of `acquire`; `preferCtx` is the select's choice when both are ready.
        Run for the call `i` of a machine in state `s`, it takes that call's step: TakeSlot if
        it acquires, GiveUp if it is cancelled, and none exactly if none is possible yet. */
    method Acquire(host: string, ctxDone: bool, preferCtx: bool, ghost s: State, ghost i: nat, ghost at: real)
        returns (o: Outcome)
      requires Tracks(s) && i < |s.calls| && s.calls[i] == WantsSlot(host)
      modifies this
      ensures match o
              case Acquired =>
                Enabled(s, Action(at, i, TakeSlot)) && Tracks(Next(s, Action(at, i, TakeSlot)))
              case Cancelled =>
                ctxDone && Capped(s, host)
                && Enabled(s, Action(at, i, GiveUp)) && Tracks(Next(s, Action(at, i, GiveUp)))
              case Blocked => !ctxDone && !Enabled(s, Action(at, i, TakeSlot)) && Tracks(s)
      ensures maxPerHost > 0 && host != "" ==>
        && (o == Blocked <==> Length(old(hostSlots), host) >= maxPerHost && !ctxDone)
        && (o == Acquired ==> Length(old(hostSlots), host) < maxPerHost)
        && Length(hostSlots, host) == Length(old(hostSlots), host) + (if o == Acquired then 1 else 0)
      ensures !(maxPerHost > 0 && host != "") ==> o == Acquired && hostSlots == old(hostSlots)
      ensures forall h :: h != host ==> Length(hostSlots, h) == Length(old(hostSlots), h)
    {
      if maxPerHost > 0 && host != "" {
        SlotsFor(host);
        var room := hostSlots[host] < maxPerHost;
        if ctxDone && (preferCtx || !room) {
          return Cancelled;
        }
        if !room {
          return Blocked;
        }
        SetBoth(hostSlots, s.slots, host, hostSlots[host] + 1);
        hostSlots := hostSlots[host := hostSlots[host] + 1];
      }
      return Acquired;
    }

    /** The function that `acquire` returns; it does nothing if no slot was taken. In any
        reachable state there is an entry to take back, and the step taken is Finish. */
    method Release(host: string, ghost retry: bool, ghost s: State, ghost i: nat, ghost at: real)
      requires Tracks(s) && Inv(s) && i < |s.calls| && s.calls[i] == InFlight(host)
      modifies this
      ensures Tracks(Next(s, Action(at, i, Finish(retry))))
      ensures maxPerHost > 0 && host != "" ==>
        && Length(old(hostSlots), host) > 0
        && hostSlots == old(hostSlots)[host := old(hostSlots)[host] - 1]
      ensures !(maxPerHost > 0 && host != "") ==> hostSlots == old(hostSlots)
    {
      if maxPerHost > 0 && host != "" {
        assert Length(s.slots, host) > 0 by {
          CountPositive(s.calls, i, Holds(host));
        }
        SetBoth(hostSlots, s.slots, host, hostSlots[host] - 1);
        hostSlots := hostSlots[host := hostSlots[host] - 1];
      }
    }
  }
}
