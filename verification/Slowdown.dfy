/** The adaptive slowdown: any number of observers of 429/503 responses and of recovery
    loops, interleaved at their atomic sections around one atomic deadline. */
module Slowdown {
  import opened Tallies
  import TB = TokenBuckets

  datatype Settings = Settings(factor: real, duration: int)

  /** Where a goroutine is. `Swapping` to `Spawning` are an observer's; `Loading` to
      `Restoring` are a recovery loop's. */
  datatype Pc =
    | Swapping(until: int)   // deadline computed, not yet stored
    | Lowering               // swapped out 0, SetMultiplier(factor) next
    | Spawning               // `go recoverLoop()` next
    | Loading
    | Checking(loaded: int)  // about to read the clock
    | Sleeping(loaded: int)
    | Closing(loaded: int)   // about to CompareAndSwap(loaded, 0)
    | Restoring              // swapped in 0, SetMultiplier(1.0) next
    | Done

  datatype State = State(now: int, deadline: int, multiplier: real, procs: seq<Pc>)

  datatype Action = Tick(elapsed: nat) | Respond(status: int) | Move(i: nat)

  predicate Slows(status: int) {
    status == 429 || status == 503
  }

  predicate Enabled(s: State, a: Action) {
    a.Move? ==>
      && a.i < |s.procs|
      && !s.procs[a.i].Done?
      && (s.procs[a.i].Sleeping? ==> s.procs[a.i].loaded <= s.now)
  }

  function Next(c: Settings, s: State, a: Action): State
    requires Enabled(s, a)
  {
    match a
    case Tick(elapsed) => s.(now := s.now + elapsed)
    case Respond(status) =>
      if Slows(status) then s.(procs := s.procs + [Swapping(s.now + c.duration)]) else s
    case Move(i) => Moved(c, s, i)
  }

  /** One atomic section of process `i`. */
  function Moved(c: Settings, s: State, i: nat): State
    requires Enabled(s, Move(i))
  {
    match s.procs[i]
    case Swapping(until) =>
      s.(deadline := until, procs := s.procs[i := if s.deadline == 0 then Lowering else Done])
    case Lowering => s.(multiplier := TB.Clamp(c.factor), procs := s.procs[i := Spawning])
    case Spawning => s.(procs := s.procs[i := Done] + [Loading])
    case Loading => s.(procs := s.procs[i := if s.deadline == 0 then Done else Checking(s.deadline)])
    case Checking(loaded) =>
      s.(procs := s.procs[i := if s.now >= loaded then Closing(loaded) else Sleeping(loaded)])
    case Sleeping(_) => s.(procs := s.procs[i := Loading])
    case Closing(loaded) =>
      if s.deadline == loaded then s.(deadline := 0, procs := s.procs[i := Restoring])
      else s.(procs := s.procs[i := Loading])
    case Restoring => s.(multiplier := 1.0, procs := s.procs[i := Done])
  }

  predicate CanRun(c: Settings, s: State, acts: seq<Action>)
    decreases |acts|
  {
    acts == [] || (Enabled(s, acts[0]) && CanRun(c, Next(c, s, acts[0]), acts[1..]))
  }

  function Run(c: Settings, s: State, acts: seq<Action>): State
    requires CanRun(c, s, acts)
    decreases |acts|
  {
    if acts == [] then s else Run(c, Next(c, s, acts[0]), acts[1..])
  }

  predicate Init(c: Settings, s: State) {
    s.deadline == 0 && s.multiplier == 1.0 && s.procs == [] && s.now + c.duration > 0
  }

  // ---------------------------------------------------------------------
  // The invariant
  // ---------------------------------------------------------------------

  /** Owns the window: has swapped out 0 and not yet closed it again. */
  predicate Owner(p: Pc) {
    p.Lowering? || p.Spawning? || p.Loading? || p.Checking? || p.Sleeping? || p.Closing?
  }

  /** Owns the window and has already lowered the multiplier. */
  predicate Lowered(p: Pc) {
    Owner(p) && !p.Lowering?
  }

  predicate Restorer(p: Pc) {
    p.Restoring?
  }

  ghost predicate Inv(c: Settings, s: State) {
    && s.now + c.duration > 0
    && (forall i :: 0 <= i < |s.procs| && s.procs[i].Swapping? ==> 0 < s.procs[i].until <= s.now + c.duration)
    && (forall i :: 0 <= i < |s.procs| && s.procs[i].Closing? ==> s.procs[i].loaded <= s.now)
    && 0 <= s.deadline <= s.now + c.duration
    && Count(s.procs, Owner) == (if s.deadline == 0 then 0 else 1)
    && (s.multiplier == 1.0 || Count(s.procs, Lowered) + Count(s.procs, Restorer) > 0)
    && s.multiplier in {1.0, TB.Clamp(c.factor)}
  }

  /** How one atomic section changes a tally. */
  lemma MoveTally(c: Settings, s: State, i: nat, f: Pc -> bool)
    requires Enabled(s, Move(i))
    ensures var t := Moved(c, s, i); var p := s.procs[i];
            Count(t.procs, f) == Count(s.procs, f) - (if f(p) then 1 else 0) + (if f(t.procs[i]) then 1 else 0)
                                 + (if p.Spawning? && f(Loading) then 1 else 0)
  {
    CountUpdate(s.procs, i, Moved(c, s, i).procs[i], f);
    if s.procs[i].Spawning? {
      CountAppend(s.procs[i := Done], Loading, f);
    }
  }

  lemma InvMove(c: Settings, s: State, i: nat)
    requires Inv(c, s) && Enabled(s, Move(i))
    ensures Inv(c, Moved(c, s, i))
  {
    MoveTally(c, s, i, Owner);
    MoveTally(c, s, i, Lowered);
    MoveTally(c, s, i, Restorer);
    if Owner(s.procs[i]) {
      CountPositive(s.procs, i, Owner);
    }
  }

  lemma InvStep(c: Settings, s: State, a: Action)
    requires Inv(c, s) && Enabled(s, a)
    ensures Inv(c, Next(c, s, a))
  {
    if a.Move? {
      InvMove(c, s, a.i);
    } else if a.Respond? && Slows(a.status) {
      var p := Swapping(s.now + c.duration);
      CountAppend(s.procs, p, Owner);
      CountAppend(s.procs, p, Lowered);
      CountAppend(s.procs, p, Restorer);
    }
  }

  lemma {:induction false} InvRun(c: Settings, s: State, acts: seq<Action>)
    requires Inv(c, s) && CanRun(c, s, acts)
    ensures Inv(c, Run(c, s, acts))
    decreases |acts|
  {
    if acts != [] {
      InvStep(c, s, acts[0]);
      InvRun(c, Next(c, s, acts[0]), acts[1..]);
    }
  }

  ghost function Witness(procs: seq<Pc>, f: Pc -> bool): (j: nat)
    requires Count(procs, f) > 0
    ensures j < |procs| && f(procs[j])
  {
    if f(procs[0]) then 0 else Witness(procs[1..], f) + 1
  }

  lemma InitInv(c: Settings, s: State)
    requires Init(c, s)
    ensures Inv(c, s)
  {}

  /** The deadline is non-zero exactly when there is a window owner, which is then unique,
      so a loop that loads the deadline never sees 0; and once no owner and no pending
      restore is left, the limiter is back at its base rate. */
  lemma UniqueOwner(c: Settings, init: State, acts: seq<Action>)
    requires Init(c, init) && CanRun(c, init, acts)
    ensures var s := Run(c, init, acts);
      && (s.deadline != 0 <==> Count(s.procs, Owner) == 1)
      && Count(s.procs, Owner) <= 1
      && (forall i :: 0 <= i < |s.procs| && s.procs[i].Loading? ==> s.deadline != 0)
      && (Count(s.procs, Owner) == 0 && Count(s.procs, Restorer) == 0 ==> s.deadline == 0 && s.multiplier == 1.0)
  {
    InitInv(c, init);
    InvRun(c, init, acts);
    var s := Run(c, init, acts);
    forall i | 0 <= i < |s.procs| && s.procs[i].Loading? ensures s.deadline != 0 {
      CountPositive(s.procs, i, Owner);
    }
    if Count(s.procs, Owner) == 0 {
      SumBound(s.procs, One(Lowered), One(Owner), 1);
    }
  }

  /** Only the owner's CAS ends a window, and never before the deadline then stored; any
      other change of a non-zero deadline is an observer's swap, which may move it back. */
  lemma NoEarlyEnd(c: Settings, init: State, acts: seq<Action>, a: Action)
    requires Init(c, init) && CanRun(c, init, acts) && Enabled(Run(c, init, acts), a)
    ensures var s := Run(c, init, acts); var t := Next(c, s, a);
      s.deadline != 0 && t.deadline != s.deadline ==>
        a.Move? && (if t.deadline == 0 then s.procs[a.i] == Closing(s.deadline) && s.deadline <= s.now
                    else s.procs[a.i] == Swapping(t.deadline))
  {
    InitInv(c, init);
    InvRun(c, init, acts);
  }

  // ---------------------------------------------------------------------
  // The multiplier during a window
  // ---------------------------------------------------------------------

  /** A run in which the window open at the start is still open, never closed in between. */
  predicate StaysOpen(c: Settings, s: State, acts: seq<Action>)
    requires CanRun(c, s, acts)
    decreases |acts|
  {
    s.deadline != 0 && (acts == [] || StaysOpen(c, Next(c, s, acts[0]), acts[1..]))
  }

  /** No restore of an earlier window is pending, and the owner, once it has
      lowered the multiplier, has the limiter at `m`. */
  ghost predicate Settled(s: State, m: real) {
    Count(s.procs, Restorer) == 0 && (Count(s.procs, Lowered) > 0 ==> s.multiplier == m)
  }

  lemma {:induction false} SettledRun(c: Settings, s: State, acts: seq<Action>, m: real)
    requires Inv(c, s) && CanRun(c, s, acts) && StaysOpen(c, s, acts) && Settled(s, m)
    requires m == TB.Clamp(c.factor) || Count(s.procs, Lowered) > 0
    ensures Settled(Run(c, s, acts), m)
    decreases |acts|
  {
    if acts != [] {
      var a := acts[0];
      var t := Next(c, s, a);
      InvStep(c, s, a);
      if a.Move? {
        MoveTally(c, s, a.i, Restorer);
        MoveTally(c, s, a.i, Lowered);
        MoveTally(c, s, a.i, Owner);
        CountZero(s.procs, Restorer);
        if s.procs[a.i].Lowering? {
          OwnerNotBoth(s.procs, a.i);
        }
      } else if a.Respond? && Slows(a.status) {
        CountAppend(s.procs, t.procs[|s.procs|], Restorer);
        CountAppend(s.procs, t.procs[|s.procs|], Lowered);
      }
      SettledRun(c, t, acts[1..], m);
    }
  }

  lemma {:induction false} OwnerNotBoth(procs: seq<Pc>, i: nat)
    requires i < |procs| && procs[i].Lowering? && Count(procs, Owner) <= 1
    ensures Count(procs, Lowered) == 0
  {
    var rest := procs[i := Done];
    CountUpdate(procs, i, Done, Owner);
    CountUpdate(procs, i, Done, Lowered);
    SumBound(rest, One(Lowered), One(Owner), 1);
  }

  /** A window opened while no earlier loop sits between its CAS and its SetMultiplier(1.0)
      runs at the clamped factor from the owner's SetMultiplier until the window closes. */
  lemma WindowRunsAtFactor(c: Settings, init: State, before: seq<Action>, i: nat, acts: seq<Action>)
    requires Init(c, init) && CanRun(c, init, before)
    requires var s := Run(c, init, before);
      && Enabled(s, Move(i)) && s.procs[i].Swapping? && s.deadline == 0 && Count(s.procs, Restorer) == 0
      && CanRun(c, Moved(c, s, i), acts) && StaysOpen(c, Moved(c, s, i), acts)
    ensures var t := Run(c, Moved(c, Run(c, init, before), i), acts);
      Count(t.procs, Lowered) > 0 ==> t.multiplier == TB.Clamp(c.factor)
  {
    var s := Run(c, init, before);
    InitInv(c, init);
    InvRun(c, init, before);
    InvMove(c, s, i);
    MoveTally(c, s, i, Restorer);
    MoveTally(c, s, i, Lowered);
    SumBound(s.procs, One(Lowered), One(Owner), 1);
    SettledRun(c, Moved(c, s, i), acts, TB.Clamp(c.factor));
  }

  /** Runs of the open window that start right after the swap and end with the owner past
      its SetMultiplier(factor) but the limiter at another multiplier. */
  ghost predicate LosesSlowdown(c: Settings, s: State, acts: seq<Action>) {
    CanRun(c, s, acts) && StaysOpen(c, s, acts)
    && Count(Run(c, s, acts).procs, Lowered) > 0 && Run(c, s, acts).multiplier != TB.Clamp(c.factor)
  }

  /** Exactly when the claim "the multiplier is the factor throughout a window" fails: a
      window can lose its slowdown if and only if, at the swap that opens it, an earlier
      loop is still between its CAS and its SetMultiplier(1.0). */
  lemma SlowdownLostIffRestorePending(c: Settings, init: State, before: seq<Action>, i: nat)
    requires Init(c, init) && CanRun(c, init, before) && TB.Clamp(c.factor) != 1.0
    requires var s := Run(c, init, before);
      Enabled(s, Move(i)) && s.procs[i].Swapping? && s.deadline == 0
    ensures var s := Run(c, init, before);
      (exists acts :: LosesSlowdown(c, Moved(c, s, i), acts)) <==> Count(s.procs, Restorer) > 0
  {
    var s := Run(c, init, before);
    InitInv(c, init);
    InvRun(c, init, before);
    if Count(s.procs, Restorer) == 0 {
      forall acts | CanRun(c, Moved(c, s, i), acts) && StaysOpen(c, Moved(c, s, i), acts)
        ensures !LosesSlowdown(c, Moved(c, s, i), acts)
      {
        WindowRunsAtFactor(c, init, before, i, acts);
      }
    } else {
      var j := Witness(s.procs, Restorer);
      LateRestoreUndoesWindow(c, s, i, j);
    }
  }

  lemma LateRestoreUndoesWindow(c: Settings, s: State, i: nat, j: nat)
    requires Inv(c, s) && s.deadline == 0 && i < |s.procs| && s.procs[i].Swapping?
    requires j < |s.procs| && s.procs[j].Restoring? && TB.Clamp(c.factor) != 1.0
    ensures LosesSlowdown(c, Moved(c, s, i), [Move(i), Move(j)])
  {
    var s1 := Moved(c, s, i);
    var s2 := Moved(c, s1, i);
    var s3 := Moved(c, s2, j);
    Extend(c, s1, [], Move(i));
    Extend(c, s1, [Move(i)], Move(j));
    assert [] + [Move(i)] == [Move(i)] && [Move(i)] + [Move(j)] == [Move(i), Move(j)];
    CountPositive(s3.procs, i, Lowered);
  }

  /** Extending a run by one action. */
  lemma {:induction false} Extend(c: Settings, s: State, acts: seq<Action>, a: Action)
    requires CanRun(c, s, acts) && Enabled(Run(c, s, acts), a)
    ensures CanRun(c, s, acts + [a])
    ensures Run(c, s, acts + [a]) == Next(c, Run(c, s, acts), a)
    ensures StaysOpen(c, s, acts + [a]) <==> StaysOpen(c, s, acts) && Next(c, Run(c, s, acts), a).deadline != 0
    decreases |acts|
  {
    if acts == [] {
      assert acts + [a] == [a] && [a][1..] == [];
      assert CanRun(c, Next(c, s, a), []) && CanRun(c, s, [a]);
      assert Run(c, s, [a]) == Run(c, Next(c, s, a), []);
    } else {
      assert (acts + [a])[1..] == acts[1..] + [a];
      Extend(c, Next(c, s, acts[0]), acts[1..], a);
    }
  }

  /** Extending a recorded run from `init` by one action. */
  lemma Go(c: Settings, init: State, acts: seq<Action>, s: State, a: Action) returns (acts': seq<Action>, s': State)
    requires CanRun(c, init, acts) && Run(c, init, acts) == s && Enabled(s, a)
    ensures acts' == acts + [a] && s' == Next(c, s, a)
    ensures CanRun(c, init, acts') && Run(c, init, acts') == s'
  {
    Extend(c, init, acts, a);
    acts', s' := acts + [a], Next(c, s, a);
  }

  // ---------------------------------------------------------------------
  // Witness runs
  // ---------------------------------------------------------------------

  /** From a throttle that has seen no traffic, an old loop's restore can land after the next
      window was lowered. The deadline is then non-zero, nothing is pending, and the limiter
      stays at its base rate for as long as that window is open. */
  lemma LateRestoreReachable(c: Settings, init: State)
    requires Init(c, init) && c.duration >= 0
    ensures exists acts ::
      && CanRun(c, init, acts)
      && (var s := Run(c, init, acts);
        && s.deadline != 0 && s.multiplier == 1.0 && Count(s.procs, Restorer) == 0
        && (forall more :: CanRun(c, s, more) && StaysOpen(c, s, more) ==> Run(c, s, more).multiplier == 1.0))
  {
    var acts, s := Go(c, init, [], init, Respond(429));
    acts, s := Go(c, init, acts, s, Move(0));
    acts, s := Go(c, init, acts, s, Move(0));
    acts, s := Go(c, init, acts, s, Move(0));
    assert s.procs == [Done, Loading];
    acts, s := Go(c, init, acts, s, Move(1));
    acts, s := Go(c, init, acts, s, Tick(c.duration));
    acts, s := Go(c, init, acts, s, Move(1));
    acts, s := Go(c, init, acts, s, Move(1));
    assert s.procs == [Done, Restoring];
    acts, s := Go(c, init, acts, s, Respond(503));
    acts, s := Go(c, init, acts, s, Move(2));
    acts, s := Go(c, init, acts, s, Move(2));
    acts, s := Go(c, init, acts, s, Move(1));
    acts, s := Go(c, init, acts, s, Move(2));
    assert s.procs == [Done, Done, Done, Loading];
    InitInv(c, init);
    InvRun(c, init, acts);
    CountPositive(s.procs, 3, Lowered);
    CountNone(s.procs, Restorer);
    forall more | CanRun(c, s, more) && StaysOpen(c, s, more) ensures Run(c, s, more).multiplier == 1.0 {
      SettledRun(c, s, more, 1.0);
      OpenKeepsLowered(c, s, more);
    }
  }

  /** An owner past its SetMultiplier stays past it while the window is open. */
  lemma {:induction false} OpenKeepsLowered(c: Settings, s: State, acts: seq<Action>)
    requires Inv(c, s) && CanRun(c, s, acts) && StaysOpen(c, s, acts) && Count(s.procs, Lowered) > 0
    ensures Count(Run(c, s, acts).procs, Lowered) > 0
    decreases |acts|
  {
    if acts != [] {
      var a := acts[0];
      InvStep(c, s, a);
      if a.Move? {
        MoveTally(c, s, a.i, Lowered);
      } else if a.Respond? && Slows(a.status) {
        CountAppend(s.procs, Swapping(s.now + c.duration), Lowered);
      }
      OpenKeepsLowered(c, Next(c, s, a), acts[1..]);
    }
  }

  /** Two observers may swap in the opposite order of their clock readings. The stored
      deadline then moves back, and the window closes before the later of the two. */
  lemma StaleSwapShortensWindow(c: Settings, init: State)
    requires Init(c, init) && c.duration >= 1
    ensures exists acts, more ::
      && CanRun(c, init, acts) && CanRun(c, Run(c, init, acts), more)
      && (var t := Run(c, Run(c, init, acts), more); t.deadline == 0 && t.now < Run(c, init, acts).deadline)
  {
    var acts, s := Go(c, init, [], init, Respond(429));
    acts, s := Go(c, init, acts, s, Tick(1));
    acts, s := Go(c, init, acts, s, Respond(429));
    acts, s := Go(c, init, acts, s, Move(1));
    var more, t := Go(c, s, [], s, Move(0));
    more, t := Go(c, s, more, t, Move(1));
    more, t := Go(c, s, more, t, Move(1));
    assert t.procs == [Done, Done, Loading];
    more, t := Go(c, s, more, t, Move(2));
    more, t := Go(c, s, more, t, Tick(c.duration - 1));
    more, t := Go(c, s, more, t, Move(2));
    more, t := Go(c, s, more, t, Move(2));
  }

  // ---------------------------------------------------------------------
  // Recovery
  // ---------------------------------------------------------------------

  predicate Swapper(p: Pc) {
    p.Swapping?
  }

  /** Upper bound on the atomic sections a window owner still has to run. */
  function Rank(now: int, deadline: int): Pc -> nat {
    (p: Pc) => match p
      case Lowering => 9
      case Spawning => 8
      case Loading => if now >= deadline then 4 else 7
      case Checking(u) => if u != deadline then 9 else if now >= u then 3 else 6
      case Sleeping(u) => if u != deadline then 8 else 5
      case Closing(u) => if u != deadline then 8 else 2
      case _ => 0
  }

  /** Upper bound on the atomic sections left if no further 429 or 503 arrives. */
  function Work(s: State): nat {
    20 * Count(s.procs, Swapper) + Count(s.procs, Restorer) + Sum(s.procs, Rank(s.now, s.deadline))
  }

  lemma RankOnlyOwners(s: State)
    ensures Sum(s.procs, Rank(s.now, s.deadline)) <= 9 * Count(s.procs, Owner)
  {
    SumBound(s.procs, Rank(s.now, s.deadline), One(Owner), 9);
  }

  lemma SwapShrinksWork(c: Settings, s: State, i: nat)
    requires Inv(c, s) && Enabled(s, Move(i)) && s.procs[i].Swapping?
    ensures Work(Moved(c, s, i)) < Work(s)
  {
    InvMove(c, s, i);
    MoveTally(c, s, i, Swapper);
    MoveTally(c, s, i, Restorer);
    RankOnlyOwners(Moved(c, s, i));
  }

  lemma CloseShrinksWork(c: Settings, s: State, i: nat)
    requires Inv(c, s) && Enabled(s, Move(i)) && s.procs[i] == Closing(s.deadline)
    ensures Work(Moved(c, s, i)) < Work(s)
  {
    InvMove(c, s, i);
    MoveTally(c, s, i, Swapper);
    MoveTally(c, s, i, Restorer);
    RankOnlyOwners(Moved(c, s, i));
    SumAtLeast(s.procs, i, Rank(s.now, s.deadline));
  }

  /** The other sections leave the deadline alone, so only the mover's rank changes. */
  lemma StepShrinksWork(c: Settings, s: State, i: nat)
    requires Inv(c, s) && Enabled(s, Move(i))
    requires !s.procs[i].Swapping? && s.procs[i] != Closing(s.deadline)
    ensures Work(Moved(c, s, i)) < Work(s)
  {
    var t := Moved(c, s, i);
    var rank := Rank(s.now, s.deadline);
    MoveTally(c, s, i, Swapper);
    MoveTally(c, s, i, Restorer);
    SumUpdate(s.procs, i, t.procs[i], rank);
    if s.procs[i].Spawning? {
      SumAppend(s.procs[i := Done], Loading, rank);
    }
    if s.procs[i].Loading? {
      CountPositive(s.procs, i, Owner);
    }
  }

  lemma MoveShrinksWork(c: Settings, s: State, i: nat)
    requires Inv(c, s) && Enabled(s, Move(i))
    ensures Work(Moved(c, s, i)) < Work(s)
  {
    if s.procs[i].Swapping? {
      SwapShrinksWork(c, s, i);
    } else if s.procs[i] == Closing(s.deadline) {
      CloseShrinksWork(c, s, i);
    } else {
      StepShrinksWork(c, s, i);
    }
  }

  lemma {:induction false} TickKeepsWork(procs: seq<Pc>, now: int, later: int, deadline: int)
    requires now <= later
    ensures Sum(procs, Rank(later, deadline)) <= Sum(procs, Rank(now, deadline))
  {
    if procs != [] {
      TickKeepsWork(procs[1..], now, later, deadline);
    }
  }

  predicate Quiet(acts: seq<Action>) {
    forall a <- acts :: !a.Respond?
  }

  function Moves(acts: seq<Action>): nat {
    if acts == [] then 0 else (if acts[0].Move? then 1 else 0) + Moves(acts[1..])
  }

  /** Once responses are fine again, only boundedly many atomic sections remain, however
      they are interleaved with the passing of time. */
  lemma {:induction false} RecoveryIsBounded(c: Settings, s: State, acts: seq<Action>)
    requires Inv(c, s) && CanRun(c, s, acts) && Quiet(acts)
    ensures Moves(acts) + Work(Run(c, s, acts)) <= Work(s)
    decreases |acts|
  {
    if acts != [] {
      var a := acts[0];
      assert a in acts;
      assert forall x <- acts[1..] :: x in acts;
      InvStep(c, s, a);
      if a.Move? {
        MoveShrinksWork(c, s, a.i);
      } else {
        TickKeepsWork(s.procs, s.now, s.now + a.elapsed, s.deadline);
      }
      RecoveryIsBounded(c, Next(c, s, a), acts[1..]);
    }
  }

  /** And when no section can run any more, however long one waits, the deadline is clear and
      the original rate restored: the protocol has no other resting state. */
  lemma RestsOnlyRecovered(c: Settings, s: State)
    requires Inv(c, s)
    requires forall wait: nat, i: nat :: !Enabled(Next(c, s, Tick(wait)), Move(i))
    ensures s.deadline == 0 && s.multiplier == 1.0 && forall p <- s.procs :: p == Done
  {
    forall i | 0 <= i < |s.procs| ensures s.procs[i] == Done {
      var wait := if s.procs[i].Sleeping? && s.procs[i].loaded > s.now then s.procs[i].loaded - s.now else 0;
      assert !Enabled(Next(c, s, Tick(wait)), Move(i));
    }
    CountNone(s.procs, Owner);
    CountNone(s.procs, Lowered);
    CountNone(s.procs, Restorer);
  }

  // ---------------------------------------------------------------------
  // Windows cut short
  // ---------------------------------------------------------------------

  /** `acts` keep the window of `s` open, and `a` then closes it before the deadline of `s`. */
  ghost predicate CutShort(c: Settings, s: State, acts: seq<Action>, a: Action, deadline: int) {
    && CanRun(c, s, acts) && StaysOpen(c, s, acts)
    && Enabled(Run(c, s, acts), a) && Next(c, Run(c, s, acts), a).deadline == 0
    && Run(c, s, acts).now < deadline
  }

  predicate Stale(p: Pc, deadline: int) {
    p.Swapping? && p.until < deadline
  }

  /** Will not look at the stored deadline again before `deadline`. */
  predicate WaitsFor(p: Pc, deadline: int) {
    (p.Checking? || p.Sleeping?) && p.loaded >= deadline
  }

  /** What keeps an open window open until `deadline`. */
  ghost predicate Guarded(s: State, deadline: int) {
    || s.now >= deadline
    || (s.deadline >= deadline && forall p <- s.procs :: !Stale(p, deadline))
    || exists j :: 0 <= j < |s.procs| && WaitsFor(s.procs[j], deadline)
  }

  /** Exactly when the window opened earlier can end before the deadline now stored: an
      observer is about to swap in an earlier one, and the owner is not already waiting for
      one at least as late. */
  lemma WindowCutShortIff(c: Settings, init: State, before: seq<Action>)
    requires Init(c, init) && CanRun(c, init, before) && Run(c, init, before).deadline != 0
    ensures var s := Run(c, init, before);
      (exists acts, a :: CutShort(c, s, acts, a, s.deadline))
      <==> && s.now < s.deadline
           && (exists p <- s.procs :: Stale(p, s.deadline)) && (forall p <- s.procs :: !WaitsFor(p, s.deadline))
  {
    var s := Run(c, init, before);
    InitInv(c, init);
    InvRun(c, init, before);
    if Guarded(s, s.deadline) {
      forall acts, a ensures !CutShort(c, s, acts, a, s.deadline) {
        if CutShort(c, s, acts, a, s.deadline) {
          GuardHolds(c, s, acts, a, s.deadline);
        }
      }
      assert s.now < s.deadline && (exists p <- s.procs :: Stale(p, s.deadline))
             ==> exists p <- s.procs :: WaitsFor(p, s.deadline);
    } else {
      var i :| 0 <= i < |s.procs| && Stale(s.procs[i], s.deadline);
      var t := Moved(c, s, i);
      InvMove(c, s, i);
      assert forall p <- t.procs :: p in s.procs || p == Done;
      var acts, a := CloseEarly(c, t, s.deadline);
      assert ([Move(i)] + acts)[1..] == acts;
      assert CutShort(c, s, [Move(i)] + acts, a, s.deadline);
    }
  }

  lemma TwoOwners(procs: seq<Pc>, i: nat, j: nat)
    requires i < |procs| && j < |procs| && i != j && Owner(procs[i]) && Owner(procs[j])
    ensures Count(procs, Owner) >= 2
  {
    CountUpdate(procs, i, Done, Owner);
    CountPositive(procs[i := Done], j, Owner);
  }

  /** A guarded window stays guarded, and its end is not early. */
  lemma {:induction false} GuardHolds(c: Settings, s: State, acts: seq<Action>, a: Action, deadline: int)
    requires Inv(c, s) && CanRun(c, s, acts) && StaysOpen(c, s, acts)
    requires Enabled(Run(c, s, acts), a) && Next(c, Run(c, s, acts), a).deadline == 0
    requires Guarded(s, deadline) && deadline <= s.now + c.duration
    ensures deadline <= Run(c, s, acts).now
    decreases |acts|
  {
    if acts == [] {
      if j :| 0 <= j < |s.procs| && WaitsFor(s.procs[j], deadline) && j != a.i {
        TwoOwners(s.procs, a.i, j);
      }
    } else {
      InvStep(c, s, acts[0]);
      GuardStep(c, s, acts[0], deadline);
      GuardHolds(c, Next(c, s, acts[0]), acts[1..], a, deadline);
    }
  }

  lemma GuardStep(c: Settings, s: State, a: Action, deadline: int)
    requires Inv(c, s) && Enabled(s, a) && Next(c, s, a).deadline != 0
    requires Guarded(s, deadline) && deadline <= s.now + c.duration
    ensures Guarded(Next(c, s, a), deadline)
  {
    var t := Next(c, s, a);
    if s.now >= deadline {
      assert t.now >= deadline;
    } else if j :| 0 <= j < |s.procs| && WaitsFor(s.procs[j], deadline) {
      assert WaitsFor(t.procs[j], deadline);
    } else {
      if a.Move? {
        assert s.procs[a.i] in s.procs;
      }
      forall p <- t.procs ensures !Stale(p, deadline) {
        assert p in s.procs || !p.Swapping? || p.until == s.now + c.duration;
      }
    }
  }

  /** With an earlier deadline stored and no owner waiting for a later one, the owner can
      close the window early. */
  lemma {:induction false} CloseEarly(c: Settings, s: State, deadline: int) returns (acts: seq<Action>, a: Action)
    requires Inv(c, s) && 0 < s.deadline < deadline && s.now < deadline
    requires forall p <- s.procs :: !WaitsFor(p, deadline)
    ensures CutShort(c, s, acts, a, deadline)
    decreases Work(s)
  {
    var j := Witness(s.procs, Owner);
    var p := s.procs[j];
    if p == Closing(s.deadline) {
      return [], Move(j);
    }
    var s1, s2 := OwnerMoves(c, s, j, deadline);
    var rest;
    rest, a := CloseEarly(c, s2, deadline);
    acts := [Tick(s1.now - s.now)] + ([Move(j)] + rest);
    CutShortLater(c, s1, Move(j), rest, a, deadline);
    CutShortLater(c, s, Tick(s1.now - s.now), [Move(j)] + rest, a, deadline);
  }

  lemma CutShortLater(c: Settings, s: State, first: Action, acts: seq<Action>, a: Action, deadline: int)
    requires s.deadline != 0 && Enabled(s, first) && CutShort(c, Next(c, s, first), acts, a, deadline)
    ensures CutShort(c, s, [first] + acts, a, deadline)
  {
    assert ([first] + acts)[1..] == acts;
  }

  /** The owner sleeps as long as it has to and runs its next section; the window stays open. */
  lemma OwnerMoves(c: Settings, s: State, j: nat, deadline: int) returns (s1: State, s2: State)
    requires Inv(c, s) && 0 < s.deadline < deadline && s.now < deadline
    requires forall p <- s.procs :: !WaitsFor(p, deadline)
    requires j < |s.procs| && Owner(s.procs[j]) && s.procs[j] != Closing(s.deadline)
    ensures s1.now >= s.now && s1 == Next(c, s, Tick(s1.now - s.now)) && Enabled(s1, Move(j)) && s2 == Moved(c, s1, j)
    ensures Inv(c, s2) && s2.deadline == s.deadline && s2.now < deadline && Work(s2) < Work(s)
    ensures forall p <- s2.procs :: !WaitsFor(p, deadline)
  {
    var p := s.procs[j];
    assert p in s.procs;
    var wait := if p.Sleeping? && p.loaded > s.now then p.loaded - s.now else 0;
    s1 := Next(c, s, Tick(wait));
    s2 := Moved(c, s1, j);
    InvStep(c, s, Tick(wait));
    InvMove(c, s1, j);
    TickKeepsWork(s.procs, s.now, s1.now, s.deadline);
    MoveShrinksWork(c, s1, j);
    forall q <- s2.procs ensures !WaitsFor(q, deadline) {
      assert q in s.procs || q == s2.procs[j] || q == Loading;
    }
  }

  // ---------------------------------------------------------------------
  // The throttle itself
  // ---------------------------------------------------------------------

  /** The shared state that observers and recovery loops update in place. */
  class Throttle {
    const settings: Settings
    const limiter: TB.TokenBucket
    var now: int
    var throttleUntil: int
    var procs: seq<Pc>

    ghost function Abstract(): State
      reads this, limiter
    {
      State(now, throttleUntil, limiter.multiplier, procs)
    }

    constructor (settings: Settings, limiter: TB.TokenBucket, now: int)
      requires limiter.multiplier == 1.0 && now + settings.duration > 0
      ensures this.settings == settings && this.limiter == limiter
      ensures Init(settings, Abstract()) && Abstract().now == now
    {
      this.settings, this.limiter, this.now := settings, limiter, now;
      throttleUntil, procs := 0, [];
    }

    /** The part of `observe` up to and including its reading of the clock. */
    method Observe(status: int)
      modifies this`procs
      ensures Abstract() == Next(settings, old(Abstract()), Respond(status))
      ensures status == 429 || status == 503 ==> procs == old(procs) + [Swapping(now + settings.duration)]
      ensures status != 429 && status != 503 ==> Abstract() == old(Abstract())
    {
      if status != 429 && status != 503 {
        return;
      }
      procs := procs + [Swapping(now + settings.duration)];
    }

    method Swap(until: int) returns (prev: int)
      modifies this`throttleUntil
      ensures prev == old(throttleUntil) && throttleUntil == until
    {
      prev, throttleUntil := throttleUntil, until;
    }

    method CompareAndSwap(expected: int, value: int) returns (swapped: bool)
      modifies this`throttleUntil
      ensures swapped == (old(throttleUntil) == expected)
      ensures throttleUntil == if swapped then value else old(throttleUntil)
    {
      swapped := throttleUntil == expected;
      if swapped {
        throttleUntil := value;
      }
    }

    /** The next atomic section of goroutine `i`. */
    method Advance(i: nat)
      requires Enabled(Abstract(), Move(i))
      modifies this, limiter`multiplier
      ensures Abstract() == Moved(settings, old(Abstract()), i)
    {
      match procs[i]
      case Swapping(until) =>
        var prev := Swap(until);
        procs := procs[i := if prev == 0 then Lowering else Done];
      case Lowering =>
        limiter.SetMultiplier(settings.factor);
        procs := procs[i := Spawning];
      case Spawning =>
        procs := procs[i := Done] + [Loading];
      case Loading =>
        procs := procs[i := if throttleUntil == 0 then Done else Checking(throttleUntil)];
      case Checking(until) =>
        procs := procs[i := if now >= until then Closing(until) else Sleeping(until)];
      case Sleeping(_) =>
        procs := procs[i := Loading];
      case Closing(until) =>
        var swapped := CompareAndSwap(until, 0);
        procs := procs[i := if swapped then Restoring else Loading];
      case Restoring =>
        limiter.SetMultiplier(1.0);
        procs := procs[i := Done];
    }
  }
}
