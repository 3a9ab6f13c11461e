/** The counters and the failure list, told by the outcomes of the processed jobs; and the order
    in which the queue hands jobs out. */
module Outcomes {
  import opened Options
  import opened Tallies
  import opened Retry
  import opened WorkerPool

  // ---------------------------------------------------------------------
  // What counts as what
  // ---------------------------------------------------------------------

  predicate Succeeds(out: Warmed) {
    out.err == None
  }

  predicate Fails(out: Warmed) {
    out.err.Some? && !IsCtx(out.err.value)
  }

  predicate EndedByContext(out: Warmed) {
    out.err.Some? && IsCtx(out.err.value)
  }

  predicate HasResult(out: Warmed) {
    out.res.Some?
  }

  function HasCache(c: CacheState): Warmed -> bool {
    (out: Warmed) => out.res.Some? && out.res.value.cache == c
  }

  function Reported(ps: Warmed -> bool): Outcome -> bool {
    (o: Outcome) => ps(o.out)
  }

  /** How far a job has come behind Execute. */
  function Stage(p: Pc): nat {
    match p
    case Tallying(_, _) => 1
    case TallyingCached(_, _) => 2
    case Classifying(_, _) => 3
    case Reporting(_, _) => 4
    case _ => 0
  }

  function Beyond(ps: Warmed -> bool, k: nat): Pc -> bool {
    (p: Pc) => Stage(p) > k && ps(p.out)
  }

  /** The jobs with such an outcome that are processed or past stage `k`. */
  function Past(s: State, ps: Warmed -> bool, k: nat): nat {
    Count(s.past.outcomes, Reported(ps)) + Count(s.workers, Beyond(ps, k))
  }

  predicate Crosses(p: Pc, q: Pc, ps: Warmed -> bool, k: nat) {
    Stage(p) <= k && Stage(q) > k && ps(q.out)
  }

  /** A job's outcome stays as it is; it is either past the stage already, or crosses it. */
  lemma BeyondBalance(p: Pc, queue: seq<Job>, cancelled: bool, attempts: nat, out: Warmed, ps: Warmed -> bool, k: nat)
    requires k < 4
    ensures var q := PcAfter(p, queue, cancelled, attempts, out);
      Unit(Beyond(ps, k)(q)) + Unit(p.Reporting? && ps(p.out)) == Unit(Beyond(ps, k)(p)) + Unit(Crosses(p, q, ps, k))
  {
    var q := PcAfter(p, queue, cancelled, attempts, out);
    assert Stage(p) > 0 && !p.Reporting? ==> Stage(q) > Stage(p) && q.out == p.out;
    assert Beyond(ps, k)(p) == (Stage(p) > k && ps(p.out)) && Beyond(ps, k)(q) == (Stage(q) > k && ps(q.out));
  }

  lemma PastStep(s: State, i: nat, out: Warmed, ps: Warmed -> bool, k: nat)
    requires Enabled(s, Advance(i, out)) && k < 4
    ensures Past(Advanced(s, i, out), ps, k)
            == Past(s, ps, k) + Unit(Crosses(s.workers[i], Section(s, i, out), ps, k))
  {
    var p := s.workers[i];
    BeyondBalance(p, s.queue, s.cancelled, s.attempts, out, ps, k);
    WorkerTally(s, i, out, Beyond(ps, k));
    if p.Reporting? {
      CountAppend(s.past.outcomes, Outcome(p.job, p.out), Reported(ps));
    }
  }

  /** The section that adds to a counter is the one in which the job passes its stage. */
  lemma CountersCross(p: Pc, queue: seq<Job>, cancelled: bool, attempts: nat, out: Warmed, st: Stats)
    requires Proper(p)
    ensures var q := PcAfter(p, queue, cancelled, attempts, out); var t := StatsAfter(st, p);
      && t.success == st.success + Unit(Crosses(p, q, Succeeds, 3))
      && t.failed == st.failed + Unit(Crosses(p, q, Fails, 3))
      && t.cached == st.cached + Unit(Crosses(p, q, HasCache(Hit), 2))
      && t.hits == st.hits + Unit(Crosses(p, q, HasCache(Hit), 1))
      && t.misses == st.misses + Unit(Crosses(p, q, HasCache(Miss), 1))
      && t.bypass == st.bypass + Unit(Crosses(p, q, HasCache(Bypass), 1))
      && t.unknown == st.unknown + Unit(Crosses(p, q, HasCache(Unknown), 1))
  {}

  lemma HistoryCrosses(p: Pc, queue: seq<Job>, cancelled: bool, attempts: nat, out: Warmed, h: History)
    ensures var q := PcAfter(p, queue, cancelled, attempts, out); var g := PastAfter(h, p, q);
      && g.ctxEndings == h.ctxEndings + Unit(Crosses(p, q, EndedByContext, 3))
      && g.results == h.results + Unit(Crosses(p, q, HasResult, 0))
  {}

  function JobsOf(outcomes: seq<Outcome>): seq<Job> {
    if outcomes == [] then []
    else JobsOf(outcomes[..|outcomes| - 1]) + [outcomes[|outcomes| - 1].job]
  }

  /** The jobs that failed for another reason than the context, in the order of the reports. */
  function FailedJobs(outcomes: seq<Outcome>): seq<Job> {
    if outcomes == [] then []
    else
      var last := outcomes[|outcomes| - 1];
      FailedJobs(outcomes[..|outcomes| - 1])
      + if last.out.err.Some? && !IsCtx(last.out.err.value) then [last.job] else []
  }

  ghost predicate Counted(s: State) {
    var st := s.stats;
    && st.success == Past(s, Succeeds, 3) && st.failed == Past(s, Fails, 3)
    && st.cached == Past(s, HasCache(Hit), 2) && st.hits == Past(s, HasCache(Hit), 1)
    && st.misses == Past(s, HasCache(Miss), 1) && st.bypass == Past(s, HasCache(Bypass), 1)
    && st.unknown == Past(s, HasCache(Unknown), 1)
    && s.past.ctxEndings == Past(s, EndedByContext, 3) && s.past.results == Past(s, HasResult, 0)
  }

  ghost predicate Reports(s: State) {
    && s.past.processed == multiset(JobsOf(s.past.outcomes))
    && s.failures == if s.captureFail then FailedJobs(s.past.outcomes) else []
  }

  /** First in, first out; and every submitted job was sent or rejected. */
  ghost predicate InOrder(s: State) {
    && s.past.accepted == s.past.taken + s.queue
    && multiset(s.past.submitted) == multiset(s.past.accepted) + s.past.rejected
  }

  lemma CountedStep(s: State, i: nat, out: Warmed)
    requires Counted(s) && Enabled(s, Advance(i, out)) && Proper(s.workers[i])
    ensures Counted(Advanced(s, i, out))
  {
    CountersCross(s.workers[i], s.queue, s.cancelled, s.attempts, out, s.stats);
    HistoryCrosses(s.workers[i], s.queue, s.cancelled, s.attempts, out, s.past);
    PastStep(s, i, out, Succeeds, 3);
    PastStep(s, i, out, Fails, 3);
    PastStep(s, i, out, HasCache(Hit), 2);
    PastStep(s, i, out, HasCache(Hit), 1);
    PastStep(s, i, out, HasCache(Miss), 1);
    PastStep(s, i, out, HasCache(Bypass), 1);
    PastStep(s, i, out, HasCache(Unknown), 1);
    PastStep(s, i, out, EndedByContext, 3);
    PastStep(s, i, out, HasResult, 0);
  }

  lemma ReportsStep(s: State, i: nat, out: Warmed)
    requires Reports(s) && Enabled(s, Advance(i, out))
    ensures Reports(Advanced(s, i, out))
  {
    if s.workers[i].Reporting? {
      ReportAdds(s.past.outcomes, Outcome(s.workers[i].job, s.workers[i].out));
    }
  }

  lemma ReportAdds(os: seq<Outcome>, o: Outcome)
    ensures JobsOf(os + [o]) == JobsOf(os) + [o.job]
    ensures FailedJobs(os + [o]) == FailedJobs(os) + if Failure(o.out) then [o.job] else []
  {
    assert (os + [o])[..|os|] == os;
  }

  lemma InOrderStep(s: State, i: nat, out: Warmed)
    requires InOrder(s) && Enabled(s, Advance(i, out))
    ensures InOrder(Advanced(s, i, out))
  {
    if s.workers[i].Receiving? && s.queue != [] {
      HeadMoves(s.past.taken, s.queue);
    }
  }

  lemma HeadMoves(taken: seq<Job>, queue: seq<Job>)
    requires queue != []
    ensures taken + queue == (taken + [queue[0]]) + queue[1..]
  {}

  lemma SubmitInOrder(s: State, job: Job, accept: bool)
    requires InOrder(s) && Enabled(s, Submit(job, accept))
    ensures InOrder(Next(s, Submit(job, accept)))
  {
    assert s.past.taken + (s.queue + [job]) == s.past.taken + s.queue + [job];
  }

  ghost predicate Recorded(s: State) {
    Counted(s) && Reports(s) && InOrder(s)
  }

  lemma RecordedStep(s: State, a: Action)
    requires Inv(s) && Recorded(s) && Enabled(s, a)
    ensures Recorded(Next(s, a))
  {
    match a
    case Advance(i, out) =>
      CountedStep(s, i, out);
      ReportsStep(s, i, out);
      InOrderStep(s, i, out);
    case Submit(job, accept) => SubmitInOrder(s, job, accept);
    case _ =>
  }

  lemma {:induction false} RecordedRun(s: State, acts: seq<Action>)
    requires Inv(s) && Recorded(s) && CanRun(s, acts)
    ensures Recorded(Run(s, acts)) && Run(s, acts).captureFail == s.captureFail
    decreases |acts|
  {
    if acts != [] {
      InvStep(s, acts[0]);
      RecordedStep(s, acts[0]);
      RecordedRun(Next(s, acts[0]), acts[1..]);
    }
  }

  lemma NothingPast(s: State, ps: Warmed -> bool, k: nat)
    requires forall i :: 0 <= i < |s.workers| ==> Stage(s.workers[i]) == 0
    ensures Past(s, ps, k) == Count(s.past.outcomes, Reported(ps))
  {
    CountNone(s.workers, Beyond(ps, k));
  }

  lemma NothingYet(s: State, ps: Warmed -> bool, k: nat)
    requires s.past.outcomes == [] && forall i :: 0 <= i < |s.workers| ==> s.workers[i] == Receiving
    ensures Past(s, ps, k) == 0
  {
    assert forall i :: 0 <= i < |s.workers| ==> Stage(s.workers[i]) == 0;
    NothingPast(s, ps, k);
  }

  lemma CountedInitially(s: State)
    requires Init(s)
    ensures Counted(s)
  {
    NothingYet(s, Succeeds, 3);
    NothingYet(s, Fails, 3);
    NothingYet(s, HasCache(Hit), 2);
    NothingYet(s, HasCache(Hit), 1);
    NothingYet(s, HasCache(Miss), 1);
    NothingYet(s, HasCache(Bypass), 1);
    NothingYet(s, HasCache(Unknown), 1);
    NothingYet(s, EndedByContext, 3);
    NothingYet(s, HasResult, 0);
  }

  lemma InitRecorded(s: State)
    requires Init(s)
    ensures Recorded(s)
  {
    CountedInitially(s);
    ReportsInitially(s);
    InOrderInitially(s);
  }

  lemma ReportsInitially(s: State)
    requires Init(s)
    ensures Reports(s)
  {
    NothingReported(s.past.outcomes);
  }

  lemma InOrderInitially(s: State)
    requires Init(s)
    ensures InOrder(s)
  {}

  lemma NothingReported(os: seq<Outcome>)
    requires os == []
    ensures JobsOf(os) == [] && FailedJobs(os) == []
  {}

  // ---------------------------------------------------------------------
  // Main results
  // ---------------------------------------------------------------------

  /** At every interleaving the failure list names, in the order of the reports, exactly the
      processed jobs that failed for another reason than the context. */
  lemma FailureList(init: State, acts: seq<Action>)
    requires Init(init) && CanRun(init, acts)
    ensures var s := Run(init, acts);
      && s.failures == (if init.captureFail then FailedJobs(s.past.outcomes) else [])
      && multiset(JobsOf(s.past.outcomes)) == s.past.processed
  {
    InitInv(init);
    InitRecorded(init);
    RecordedRun(init, acts);
  }

  /** The workers get the jobs in the order in which they were sent, without gaps. */
  lemma FirstInFirstOut(init: State, acts: seq<Action>)
    requires Init(init) && CanRun(init, acts)
    ensures var s := Run(init, acts);
      && s.past.accepted == s.past.taken + s.queue
      && multiset(s.past.submitted) == multiset(s.past.accepted) + s.past.rejected
  {
    InitInv(init);
    InitRecorded(init);
    RecordedRun(init, acts);
  }

  /** When all workers have exited, every counter is the number of processed jobs that ended
      that way. */
  lemma CountersTellOutcomes(init: State, acts: seq<Action>)
    requires Init(init) && CanRun(init, acts) && AllExited(Run(init, acts))
    ensures var st, os := Run(init, acts).stats, Run(init, acts).past.outcomes;
      && st.total == |os|
      && st.success == Count(os, Reported(Succeeds)) && st.failed == Count(os, Reported(Fails))
      && st.cached == st.hits == Count(os, Reported(HasCache(Hit)))
      && st.misses == Count(os, Reported(HasCache(Miss))) && st.bypass == Count(os, Reported(HasCache(Bypass)))
      && st.unknown == Count(os, Reported(HasCache(Unknown)))
  {
    InitInv(init);
    InitRecorded(init);
    RecordedRun(init, acts);
    CountedAtEnd(Run(init, acts));
    assert |multiset(JobsOf(Run(init, acts).past.outcomes))| == |Run(init, acts).past.outcomes| by {
      JobsOfLength(Run(init, acts).past.outcomes);
    }
    FinalCounters(init, acts);
  }

  lemma CountedAtEnd(s: State)
    requires Counted(s) && AllExited(s)
    ensures var st, os := s.stats, s.past.outcomes;
      && st.success == Count(os, Reported(Succeeds)) && st.failed == Count(os, Reported(Fails))
      && st.hits == Count(os, Reported(HasCache(Hit)))
      && st.misses == Count(os, Reported(HasCache(Miss))) && st.bypass == Count(os, Reported(HasCache(Bypass)))
      && st.unknown == Count(os, Reported(HasCache(Unknown)))
  {
    NothingPast(s, Succeeds, 3);
    NothingPast(s, Fails, 3);
    NothingPast(s, HasCache(Hit), 1);
    NothingPast(s, HasCache(Miss), 1);
    NothingPast(s, HasCache(Bypass), 1);
    NothingPast(s, HasCache(Unknown), 1);
  }

  lemma {:induction false} JobsOfLength(os: seq<Outcome>)
    ensures |JobsOf(os)| == |os|
  {
    if os != [] {
      JobsOfLength(os[..|os| - 1]);
    }
  }

  predicate AtStart(p: Pc) {
    p.Starting?
  }

  /** After a cancel no worker starts another job: at most those already past their look at
      the context, one a worker, are still counted. */
  lemma {:induction false} CancelStopsStarts(s: State, acts: seq<Action>)
    requires s.cancelled && CanRun(s, acts)
    ensures var t := Run(s, acts);
            t.stats.total + Count(t.workers, AtStart) == s.stats.total + Count(s.workers, AtStart)
    decreases |acts|
  {
    if acts != [] {
      if acts[0].Advance? {
        WorkerTally(s, acts[0].i, acts[0].out, AtStart);
      }
      CancelStopsStarts(Next(s, acts[0]), acts[1..]);
    }
  }
}
