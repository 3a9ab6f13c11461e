/** What the counters, loaded one by one while the pool runs, and the failure list, read after
    them, promise about the run. */
module Snapshots {
  import opened Options
  import opened Tallies
  import opened Retry
  import opened WorkerPool

  predicate AtMost(a: Stats, b: Stats) {
    && a.total <= b.total && a.success <= b.success && a.failed <= b.failed && a.cached <= b.cached
    && a.hits <= b.hits && a.misses <= b.misses && a.bypass <= b.bypass && a.unknown <= b.unknown
  }

  lemma {:induction false} CountersGrow(s: State, acts: seq<Action>)
    requires CanRun(s, acts)
    ensures AtMost(s.stats, Run(s, acts).stats)
    decreases |acts|
  {
    if acts != [] {
      CountersGrow(Next(s, acts[0]), acts[1..]);
    }
  }

  ghost predicate Later(s: State, t: State) {
    exists acts :: CanRun(s, acts) && Run(s, acts) == t
  }

  /** Snapshot loads the eight counters one by one; `loads[k]` is the state at the k-th. */
  ghost predicate LoadTimes(s: State, loads: seq<State>) {
    |loads| == 8 && Later(s, loads[0]) && forall k :: 0 < k < 8 ==> Later(loads[k - 1], loads[k])
  }

  function Snapshot(loads: seq<State>): Stats
    requires |loads| == 8
  {
    Stats(loads[0].stats.total, loads[1].stats.success, loads[2].stats.failed, loads[3].stats.cached,
          loads[4].stats.hits, loads[5].stats.misses, loads[6].stats.bypass, loads[7].stats.unknown)
  }

  /** Although it is not atomic, a snapshot's Cached never exceeds its CacheHits: the adds
      happen hits first, the loads cached first. Each field lies between the counters when
      the snapshot began and when it ended. */
  lemma SnapshotConsistent(init: State, s: State, loads: seq<State>)
    requires Init(init) && Later(init, s) && LoadTimes(s, loads)
    ensures var snap := Snapshot(loads);
      snap.cached <= snap.hits && AtMost(s.stats, snap) && AtMost(snap, loads[7].stats)
  {
    InitInv(init);
    LaterGrows(init, s);
    LaterGrows(s, loads[0]);
    LoadsGrow(loads, 0, 3);
    LoadsGrow(loads, 3, 4);
    forall k | 0 <= k <= 7 ensures AtMost(s.stats, loads[k].stats) && AtMost(loads[k].stats, loads[7].stats) {
      LoadsGrow(loads, 0, k);
      LoadsGrow(loads, k, 7);
    }
  }

  lemma LaterGrows(s: State, t: State)
    requires Inv(s) && Later(s, t)
    ensures AtMost(s.stats, t.stats) && Inv(t)
  {
    var acts :| CanRun(s, acts) && Run(s, acts) == t;
    CountersGrow(s, acts);
    InvRun(s, acts);
  }

  lemma {:induction false} LoadsGrow(loads: seq<State>, j: nat, k: nat)
    requires |loads| == 8 && j <= k < 8 && Inv(loads[0])
    requires forall k :: 0 < k < 8 ==> Later(loads[k - 1], loads[k])
    ensures AtMost(loads[j].stats, loads[k].stats) && Inv(loads[k])
    decreases k
  {
    if k > 0 {
      LoadsGrow(loads, if j < k then j else 0, k - 1);
      LaterGrows(loads[k - 1], loads[k]);
    }
  }

  lemma LaterTransitive(s: State, t: State, u: State)
    requires Later(s, t) && Later(t, u)
    ensures Later(s, u)
  {
    var a :| CanRun(s, a) && Run(s, a) == t;
    var b :| CanRun(t, b) && Run(t, b) == u;
    RunAppend(s, a, b);
  }

  lemma {:induction false} RunAppend(s: State, a: seq<Action>, b: seq<Action>)
    requires CanRun(s, a) && CanRun(Run(s, a), b)
    ensures CanRun(s, a + b) && Run(s, a + b) == Run(Run(s, a), b)
    decreases |a|
  {
    if a == [] {
      assert a + b == b;
    } else {
      assert (a + b)[1..] == a[1..] + b;
      RunAppend(Next(s, a[0]), a[1..], b);
    }
  }

  /** One more action of a run that began in `init`. */
  lemma Go(init: State, s: State, a: Action) returns (t: State)
    requires Later(init, s) && Enabled(s, a)
    ensures t == Next(s, a) && Later(init, t) && Later(s, t)
  {
    t := Next(s, a);
    assert [a][1..] == [];
    assert CanRun(t, []) && CanRun(s, [a]) && Run(s, [a]) == Run(t, []);
    LaterTransitive(init, s, t);
  }

  lemma Stays(s: State)
    ensures Later(s, s)
  {
    assert CanRun(s, []) && Run(s, []) == s;
  }

  /** The same for a section of worker 0, told by its parts. */
  lemma GoWorker(init: State, s: State, out: Warmed) returns (t: State)
    requires Later(init, s) && |s.workers| > 0 && Enabled(s, Advance(0, out))
    ensures Later(init, t) && Later(s, t) && |t.workers| == |s.workers|
    ensures t.workers[0] == Section(s, 0, out)
    ensures t.queue == QueueAfter(s.workers[0], s.queue) && t.stats == StatsAfter(s.stats, s.workers[0])
    ensures t.captureFail == s.captureFail && t.cancelled == s.cancelled && t.attempts == s.attempts
    ensures |t.failures| == |s.failures| + Unit(s.captureFail && FailureUnreported(s.workers[0]))
  {
    t := Go(init, s, Advance(0, out));
  }

  // ---------------------------------------------------------------------
  // Successes ahead of starts
  // ---------------------------------------------------------------------

  /** Has a job that Total does not count yet. */
  predicate Uncounted(p: Pc) {
    p.Received? || p.Starting?
  }

  /** Has a counted job that can no longer succeed. */
  predicate Doomed(p: Pc) {
    (p.Tallying? || p.TallyingCached? || p.Classifying?) && p.out.err.Some?
  }

  /** Has a job that can still succeed unless the context fires. */
  predicate Hopeful(p: Pc) {
    Uncounted(p) || (Unclassified(p) && !Doomed(p))
  }

  /** Has a job that can still succeed even if the context fires. */
  predicate Safe(p: Pc) {
    Hopeful(p) && !Uncounted(p) && !p.Checking?
  }

  lemma {:induction false} HopefulSplit(ws: seq<Pc>)
    ensures Count(ws, Hopeful) + Count(ws, Doomed) == Count(ws, Uncounted) + Count(ws, Unclassified)
  {
    if ws != [] {
      HopefulSplit(ws[1..]);
      var p := ws[0];
      assert Unit(Hopeful(p)) + Unit(Doomed(p)) == Unit(Uncounted(p)) + Unit(Unclassified(p));
      assert One(Hopeful)(p) == Unit(Hopeful(p)) && One(Doomed)(p) == Unit(Doomed(p));
      assert One(Uncounted)(p) == Unit(Uncounted(p)) && One(Unclassified)(p) == Unit(Unclassified(p));
    }
  }

  /** The successes in sight: those counted, and the jobs that can still become one. */
  function Potential(s: State): nat {
    s.stats.success + |s.queue| + Count(s.workers, Hopeful)
  }

  /** A section can only lose potential; while the context holds and Warm succeeds it does not. */
  lemma PotentialStep(s: State, i: nat, out: Warmed)
    requires Enabled(s, Advance(i, out)) && Proper(s.workers[i])
    ensures Potential(Advanced(s, i, out)) <= Potential(s)
    ensures !s.cancelled && out.err == None ==> Potential(Advanced(s, i, out)) == Potential(s)
  {
    WorkerTally(s, i, out, Hopeful);
  }

  lemma {:induction false} ClosedKeepsPotential(s: State, acts: seq<Action>)
    requires Inv(s) && s.closed && CanRun(s, acts)
    ensures Potential(Run(s, acts)) <= Potential(s)
    decreases |acts|
  {
    if acts != [] {
      InvStep(s, acts[0]);
      if acts[0].Advance? {
        PotentialStep(s, acts[0].i, acts[0].out);
      }
      ClosedKeepsPotential(Next(s, acts[0]), acts[1..]);
    }
  }

  lemma SafeStep(s: State, i: nat, out: Warmed)
    requires Enabled(s, Advance(i, out)) && s.cancelled
    ensures var t := Advanced(s, i, out);
            t.stats.success + Count(t.workers, Safe) <= s.stats.success + Count(s.workers, Safe)
  {
    WorkerTally(s, i, out, Safe);
  }

  lemma {:induction false} CancelledKeepsSafe(s: State, acts: seq<Action>)
    requires s.cancelled && CanRun(s, acts)
    ensures Run(s, acts).stats.success + Count(Run(s, acts).workers, Safe) <= s.stats.success + Count(s.workers, Safe)
    decreases |acts|
  {
    if acts != [] {
      if acts[0].Advance? {
        SafeStep(s, acts[0].i, acts[0].out);
      }
      CancelledKeepsSafe(Next(s, acts[0]), acts[1..]);
    }
  }

  /** While successes are in sight, some worker can get on. */
  lemma SomeoneGetsOn(s: State) returns (i: nat)
    requires Inv(s) && !s.cancelled && Potential(s) > s.stats.success
    ensures forall out :: WarmReturns(out) ==> Enabled(s, Advance(i, out))
  {
    if j :| 0 <= j < |s.workers| && Hopeful(s.workers[j]) {
      return j;
    }
    CountNone(s.workers, Hopeful);
    if s.workers[0] == Exited(true) {
      CountPositive(s.workers, 0, GaveUp);
    }
    return 0;
  }

  /** A run in which every success in sight comes true. */
  lemma {:induction false} Fulfil(s: State) returns (t: State)
    requires Inv(s) && !s.cancelled
    ensures Later(s, t) && Inv(t) && !t.cancelled && t.closed == s.closed
    ensures t.stats.success == Potential(t) == Potential(s)
    decreases Remaining(s)
  {
    Stays(s);
    if Potential(s) == s.stats.success {
      return s;
    }
    var out := Warmed(Some(WarmResult(200, Miss)), None);
    var i := SomeoneGetsOn(s);
    var next := Go(s, s, Advance(i, out));
    PotentialStep(s, i, out);
    InvStep(s, Advance(i, out));
    AdvanceShrinks(s, i, out);
    t := Fulfil(next);
    LaterTransitive(s, next, t);
  }

  /** With an open queue there is no end of successes in sight. */
  lemma {:induction false} Exceed(s: State, n: nat) returns (t: State)
    requires Inv(s) && !s.cancelled && !s.closed
    ensures Later(s, t) && t.stats.success > n
    decreases n + 1 - s.stats.success
  {
    var u := Fulfil(s);
    if u.stats.success > n {
      return u;
    }
    var submit := Submit(Job("u", []), true);
    Stays(u);
    var v := Go(u, u, submit);
    InvStep(u, submit);
    LaterTransitive(s, u, v);
    var w := Fulfil(v);
    LaterTransitive(s, v, w);
    t := Exceed(w, n);
    LaterTransitive(s, w, t);
  }

  /** Exactly when a snapshot begun in `s` can show more successes than starts, for Total is
      loaded first: the context has not fired, and either more jobs may be submitted or the
      jobs not counted yet outnumber those that did not or cannot succeed. */
  lemma SnapshotOvercountsIff(init: State, s: State)
    requires Init(init) && Later(init, s)
    ensures (exists loads :: LoadTimes(s, loads) && Snapshot(loads).success > Snapshot(loads).total)
      <==> !s.cancelled
           && (!s.closed || |s.queue| + Count(s.workers, Uncounted)
                            > s.stats.failed + s.past.ctxEndings + Count(s.workers, Doomed))
  {
    InitInv(init);
    LaterGrows(init, s);
    HopefulSplit(s.workers);
    if s.cancelled || (s.closed && Potential(s) <= s.stats.total) {
      forall loads | LoadTimes(s, loads) ensures Snapshot(loads).success <= Snapshot(loads).total {
        LaterGrows(s, loads[0]);
        LaterTransitive(s, loads[0], loads[1]);
        SuccessBound(s, loads[1]);
      }
    } else {
      var t := Overtake(s);
      Stays(s);
      Stays(t);
      assert LoadTimes(s, [s, t, t, t, t, t, t, t]);
    }
  }

  lemma SuccessBound(s: State, t: State)
    requires Inv(s) && Later(s, t) && (s.cancelled || s.closed)
    ensures t.stats.success <= if s.cancelled then s.stats.total else Potential(s)
  {
    var acts :| CanRun(s, acts) && Run(s, acts) == t;
    if s.cancelled {
      CancelledKeepsSafe(s, acts);
      SumBound(s.workers, One(Safe), One(Unclassified), 1);
    } else {
      ClosedKeepsPotential(s, acts);
    }
  }

  lemma Overtake(s: State) returns (t: State)
    requires Inv(s) && !s.cancelled && (s.closed ==> Potential(s) > s.stats.total)
    ensures Later(s, t) && t.stats.success > s.stats.total
  {
    if s.closed {
      t := Fulfil(s);
    } else {
      t := Exceed(s, s.stats.total);
    }
  }

  /** From a fresh pool a snapshot can always do so. */
  lemma SnapshotCanOvercount(init: State)
    requires Init(init)
    ensures exists loads :: LoadTimes(init, loads) && Snapshot(loads).success > Snapshot(loads).total
  {
    Stays(init);
    SnapshotOvercountsIff(init, init);
  }

  // ---------------------------------------------------------------------
  // The summary
  // ---------------------------------------------------------------------

  /** The snapshot of the summary is exact if Wait has seen every worker exit. */
  lemma FinalSnapshotExact(s: State, loads: seq<State>)
    requires AllExited(s) && LoadTimes(s, loads)
    ensures Snapshot(loads) == s.stats && loads[7].failures == s.failures
  {
    ExitedStays(s, loads[0]);
    ExitedLoads(s, loads, 7);
  }

  lemma {:induction false} ExitedLoads(s: State, loads: seq<State>, k: nat)
    requires AllExited(s) && LoadTimes(s, loads) && k < 8
    ensures forall j :: 0 <= j <= k ==> SameResults(s, loads[j])
  {
    if k == 0 {
      ExitedStays(s, loads[0]);
    } else {
      ExitedLoads(s, loads, k - 1);
      ExitedStays(loads[k - 1], loads[k]);
    }
  }

  ghost predicate SameResults(s: State, t: State) {
    t.workers == s.workers && t.stats == s.stats && t.failures == s.failures
  }

  lemma ExitedStays(s: State, t: State)
    requires AllExited(s) && Later(s, t)
    ensures SameResults(s, t)
  {
    var acts :| CanRun(s, acts) && Run(s, acts) == t;
    ExitedRun(s, acts);
  }

  lemma {:induction false} ExitedRun(s: State, acts: seq<Action>)
    requires AllExited(s) && CanRun(s, acts)
    ensures SameResults(s, Run(s, acts))
    decreases |acts|
  {
    if acts != [] {
      ExitedRun(Next(s, acts[0]), acts[1..]);
    }
  }

  /** Has a job whose failure can still be counted after a cancel: a call of Warm under way, or
      a failure not counted yet. Whoever is about to look at the context will not call again. */
  predicate MayFail(p: Pc) {
    p.Calling? || ((p.Tallying? || p.TallyingCached? || p.Classifying?) && Failure(p.out))
  }

  /** A cancelled run's summary reads the counters while workers may still be busy, and the
      failure list later. Exactly when the list can end up longer than the count beside it:
      some worker has a job that can still fail. */
  lemma SummaryDisagreesIff(init: State, s: State)
    requires Init(init) && Later(init, s) && s.captureFail && s.cancelled
    ensures (exists t :: Later(s, t) && |t.failures| > s.stats.failed) <==> exists p <- s.workers :: MayFail(p)
  {
    InitInv(init);
    LaterGrows(init, s);
    if i :| 0 <= i < |s.workers| && MayFail(s.workers[i]) {
      var t := FailJob(s, i);
      LaterGrows(s, t);
      var u := ReportAll(t);
      LaterTransitive(s, t, u);
    } else {
      forall t | Later(s, t) ensures |t.failures| <= s.stats.failed {
        var acts :| CanRun(s, acts) && Run(s, acts) == t;
        NoMoreFailures(s, acts);
        InvRun(s, acts);
      }
    }
  }

  lemma {:induction false} NoMoreFailures(s: State, acts: seq<Action>)
    requires s.cancelled && CanRun(s, acts) && forall p <- s.workers :: !MayFail(p)
    ensures Run(s, acts).stats.failed == s.stats.failed
    decreases |acts|
  {
    if acts != [] {
      if acts[0].Advance? {
        NoFailureStep(s, acts[0].i, acts[0].out);
      }
      NoMoreFailures(Next(s, acts[0]), acts[1..]);
    }
  }

  lemma NoFailureStep(s: State, i: nat, out: Warmed)
    requires s.cancelled && Enabled(s, Advance(i, out)) && forall p <- s.workers :: !MayFail(p)
    ensures var t := Advanced(s, i, out); t.stats.failed == s.stats.failed && forall p <- t.workers :: !MayFail(p)
  {
    var t := Advanced(s, i, out);
    assert s.workers[i] in s.workers && !MayFail(t.workers[i]);
    assert forall p <- t.workers :: p in s.workers || p == t.workers[i];
  }

  /** Lets worker `i`'s job fail. */
  lemma {:induction false} FailJob(s: State, i: nat) returns (t: State)
    requires i < |s.workers| && MayFail(s.workers[i])
    ensures Later(s, t) && t.stats.failed > s.stats.failed && t.captureFail == s.captureFail
    decreases Rank(s.attempts)(s.workers[i])
  {
    var out := Warmed(None, Some(Permanent(Plain("bad URL"))));
    Stays(s);
    var next := Go(s, s, Advance(i, out));
    FailStep(s.workers[i], s.queue, s.cancelled, s.attempts, out, s.stats);
    if s.workers[i].Classifying? {
      return next;
    }
    t := FailJob(next, i);
    LaterTransitive(s, next, t);
  }

  lemma FailStep(p: Pc, queue: seq<Job>, cancelled: bool, attempts: nat, out: Warmed, st: Stats)
    requires MayFail(p) && out == Warmed(None, Some(Permanent(Plain("bad URL"))))
    ensures var q := PcAfter(p, queue, cancelled, attempts, out);
      if p.Classifying? then StatsAfter(st, p).failed == st.failed + 1
      else MayFail(q) && Rank(attempts)(q) < Rank(attempts)(p) && StatsAfter(st, p).failed == st.failed
  {}

  /** Lets the workers report every failure counted so far. */
  lemma {:induction false} ReportAll(s: State) returns (t: State)
    requires Inv(s) && s.captureFail
    ensures Later(s, t) && |t.failures| >= s.stats.failed
    decreases Count(s.workers, FailureUnreported)
  {
    Stays(s);
    if Count(s.workers, FailureUnreported) == 0 {
      return s;
    }
    if forall i :: 0 <= i < |s.workers| ==> !FailureUnreported(s.workers[i]) {
      CountNone(s.workers, FailureUnreported);
    }
    var i :| 0 <= i < |s.workers| && FailureUnreported(s.workers[i]);
    var out := Warmed(None, Some(Canceled));
    var next := Go(s, s, Advance(i, out));
    WorkerTally(s, i, out, FailureUnreported);
    InvStep(s, Advance(i, out));
    t := ReportAll(next);
    LaterTransitive(s, next, t);
  }

  /** A job taken and started by worker 0 of a fresh pool, now in Warm. */
  lemma Started(init: State, job: Job) returns (t: State)
    requires Init(init)
    ensures Later(init, t) && |t.workers| > 0 && t.workers[0].Calling?
    ensures t.captureFail == init.captureFail
  {
    var out := Warmed(None, Some(Canceled));
    Stays(init);
    t := Go(init, init, Submit(job, true));
    assert t.queue == [job] && t.workers == init.workers;
    t := GoWorker(init, t, out);
    t := GoWorker(init, t, out);
    t := GoWorker(init, t, out);
    t := GoWorker(init, t, out);
  }

  /** That happens: every pool can get there. */
  lemma SummaryCanDisagree(init: State)
    requires Init(init) && init.captureFail
    ensures exists s, t :: Later(init, s) && Later(s, t) && s.cancelled && |t.failures| > s.stats.failed
  {
    var s := Started(init, Job("u", []));
    s := Cancelled(init, s);
    assert MayFail(s.workers[0]);
    SummaryDisagreesIff(init, s);
  }

  lemma Cancelled(init: State, s: State) returns (t: State)
    requires Later(init, s)
    ensures Later(init, t) && t == s.(cancelled := true)
  {
    t := Go(init, s, Cancel);
  }
}
