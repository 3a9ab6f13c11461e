/** The bounded worker pool with its counters and the failure reporter, interleaved at
    their atomic sections: one producer, `size` workers, a cancel at any moment. */
module WorkerPool {
  import opened Options
  import opened Tallies
  import opened Retry

  datatype Job = Job(url: string, values: seq<string>)

  /** Where a worker is. From `Starting` to `Reporting` it is inside `process`; with `left`
      attempts to go and the result `last` captured so far it is inside `Execute`. */
  datatype Pc =
    | Receiving
    | Received(job: Job)     // about to look at the context
    | Starting(job: Job)     // Total next
    | Checking(job: Job, left: nat, last: Option<WarmResult>)   // backoff over, about to look at the context
    | Calling(job: Job, left: nat, last: Option<WarmResult>)    // in Warm
    | Tallying(job: Job, out: Warmed)      // lastResult's cache counter next
    | TallyingCached(job: Job, out: Warmed)
    | Classifying(job: Job, out: Warmed)
    | Reporting(job: Job, out: Warmed)     // OnComplete next
    | Exited(abandoned: bool)

  datatype Stats = Stats(
    total: nat, success: nat, failed: nat, cached: nat,
    hits: nat, misses: nat, bypass: nat, unknown: nat)

  /** A processed job and what Execute left it with. */
  datatype Outcome = Outcome(job: Job, out: Warmed)

  /** What happened so far, for the accounting: not part of the program's own state. */
  datatype History = History(
    submitted: seq<Job>,
    accepted: seq<Job>,     // sent into the queue, in order
    taken: seq<Job>,        // received from it, in order
    rejected: multiset<Job>,
    abandoned: multiset<Job>,
    processed: multiset<Job>,
    outcomes: seq<Outcome>,
    ctxEndings: nat,
    results: nat)

  datatype State = State(
    size: nat,
    attempts: nat,
    captureFail: bool,
    queue: seq<Job>,
    closed: bool,
    cancelled: bool,
    workers: seq<Pc>,
    stats: Stats,
    failures: seq<Job>,
    past: History)

  datatype Action =
    | Submit(job: Job, accept: bool)   // accept: which ready case the select takes
    | Stop
    | Cancel
    | Advance(i: nat, out: Warmed)     // out: what Warm returns, if it does in this section

  /** What Execute leaves a job with: no error only with a result that earned it. */
  predicate Ends(out: Warmed) {
    out.err == None ==> out.res.Some? && 200 <= out.res.value.status < 400
  }

  predicate Failure(out: Warmed) {
    out.err.Some? && !IsCtx(out.err.value)
  }

  predicate Enabled(s: State, a: Action) {
    match a
    case Submit(_, accept) => !s.closed && (if accept then |s.queue| < 4 * s.size else s.cancelled)
    case Stop => true
    case Cancel => true
    case Advance(i, out) =>
      i < |s.workers| &&
      match s.workers[i]
      case Receiving => s.queue != [] || s.closed
      case Calling(_, _, _) => WarmReturns(out)
      case Exited(_) => false
      case _ => true
  }

  function Next(s: State, a: Action): State
    requires Enabled(s, a)
  {
    match a
    case Submit(job, accept) =>
      s.(queue := if accept then s.queue + [job] else s.queue,
         past := s.past.(submitted := s.past.submitted + [job],
                         accepted := if accept then s.past.accepted + [job] else s.past.accepted,
                         rejected := if accept then s.past.rejected else s.past.rejected + multiset{job}))
    case Stop => s.(closed := true)
    case Cancel => s.(cancelled := true)
    case Advance(i, out) => Advanced(s, i, out)
  }

  /** One atomic section of worker `i`. */
  function Advanced(s: State, i: nat, out: Warmed): State
    requires Enabled(s, Advance(i, out))
  {
    var p, q := s.workers[i], Section(s, i, out);
    s.(queue := QueueAfter(p, s.queue),
       workers := s.workers[i := q],
       stats := StatsAfter(s.stats, p),
       failures := if p.Reporting? && s.captureFail && Failure(p.out) then s.failures + [p.job] else s.failures,
       past := PastAfter(s.past, p, q))
  }

  /** Where worker `i` is after its next section. */
  function Section(s: State, i: nat, out: Warmed): Pc
    requires i < |s.workers|
  {
    PcAfter(s.workers[i], s.queue, s.cancelled, s.attempts, out)
  }

  function QueueAfter(p: Pc, queue: seq<Job>): seq<Job> {
    if p.Receiving? && queue != [] then queue[1..] else queue
  }

  function PcAfter(p: Pc, queue: seq<Job>, cancelled: bool, attempts: nat, out: Warmed): Pc {
    match p
    case Receiving => if queue != [] then Received(queue[0]) else Exited(false)
    case Received(job) => if cancelled then Exited(true) else Starting(job)
    case Starting(job) => Checking(job, attempts, None)
    case Checking(job, left, last) =>
      if cancelled then Ended(job, Warmed(last, Some(Canceled))) else Calling(job, left, last)
    case Calling(job, left, last) => AfterCall(job, left, if out.res.Some? then out.res else last, out.err)
    case Tallying(job, o) =>
      if o.res.Some? && o.res.value.cache.Hit? then TallyingCached(job, o) else Classifying(job, o)
    case TallyingCached(job, o) => Classifying(job, o)
    case Classifying(job, o) => Reporting(job, o)
    case Reporting(_, _) => Receiving
    case Exited(_) => p
  }

  /** Retryable errors lead to the next attempt, if there is one. */
  function AfterCall(job: Job, left: nat, last: Option<WarmResult>, err: Option<Error>): Pc {
    if err.Some? && !IsPermanent(err.value) && left > 1 then Checking(job, left - 1, last)
    else Ended(job, Warmed(last, err))
  }

  function Ended(job: Job, out: Warmed): Pc {
    if out.res.Some? then Tallying(job, out) else Classifying(job, out)
  }

  function StatsAfter(st: Stats, p: Pc): Stats {
    st.(total := st.total + Unit(p.Starting?),
        success := st.success + Unit(p.Classifying? && p.out.err == None),
        failed := st.failed + Unit(p.Classifying? && Failure(p.out)),
        cached := st.cached + Unit(p.TallyingCached?),
        hits := st.hits + Unit(p.Tallying? && Cache(p.out) == Some(Hit)),
        misses := st.misses + Unit(p.Tallying? && Cache(p.out) == Some(Miss)),
        bypass := st.bypass + Unit(p.Tallying? && Cache(p.out) == Some(Bypass)),
        unknown := st.unknown + Unit(p.Tallying? && Cache(p.out) == Some(Unknown)))
  }

  function Unit(b: bool): nat {
    if b then 1 else 0
  }

  function Cache(out: Warmed): Option<CacheState> {
    if out.res.None? then None else Some(out.res.value.cache)
  }

  /** What a section that takes a worker from `p` to `q` adds to the accounts. */
  function PastAfter(h: History, p: Pc, q: Pc): History {
    h.(taken := if p.Receiving? && q.Received? then h.taken + [q.job] else h.taken,
       processed := h.processed + Finished(p),
       outcomes := if p.Reporting? then h.outcomes + [Outcome(p.job, p.out)] else h.outcomes,
       abandoned := h.abandoned + Dropped(p, q),
       ctxEndings := h.ctxEndings + Unit(p.Classifying? && p.out.err.Some? && !Failure(p.out)),
       results := h.results + Unit(q.Tallying? && !p.Tallying?))
  }

  function Finished(p: Pc): multiset<Job> {
    if p.Reporting? then multiset{p.job} else multiset{}
  }

  function Dropped(p: Pc, q: Pc): multiset<Job> {
    if p.Received? && q.Exited? then multiset{p.job} else multiset{}
  }

  predicate CanRun(s: State, acts: seq<Action>)
    decreases |acts|
  {
    acts == [] || (Enabled(s, acts[0]) && CanRun(Next(s, acts[0]), acts[1..]))
  }

  function Run(s: State, acts: seq<Action>): State
    requires CanRun(s, acts)
    decreases |acts|
  {
    if acts == [] then s else Run(Next(s, acts[0]), acts[1..])
  }

  predicate Init(s: State) {
    && s.size >= 1 && s.attempts >= 1
    && |s.workers| == s.size && (forall i :: 0 <= i < |s.workers| ==> s.workers[i] == Receiving)
    && s.queue == [] && !s.closed && !s.cancelled && s.failures == []
    && s.stats == Stats(0, 0, 0, 0, 0, 0, 0, 0)
    && s.past == History([], [], [], multiset{}, multiset{}, multiset{}, [], 0, 0)
  }

  // ---------------------------------------------------------------------
  // Where the jobs are
  // ---------------------------------------------------------------------

  function JobOf(p: Pc): multiset<Job> {
    if p.Receiving? || p.Exited? then multiset{} else multiset{p.job}
  }

  function InProcess(ws: seq<Pc>): multiset<Job> {
    if ws == [] then multiset{} else JobOf(ws[0]) + InProcess(ws[1..])
  }

  function Carries(job: Job): Pc -> nat {
    (p: Pc) => JobOf(p)[job]
  }

  lemma {:induction false} InProcessCount(ws: seq<Pc>, job: Job)
    ensures InProcess(ws)[job] == Sum(ws, Carries(job))
  {
    if ws != [] {
      InProcessCount(ws[1..], job);
    }
  }

  lemma {:induction false} NothingInProcess(ws: seq<Pc>)
    requires forall i :: 0 <= i < |ws| ==> JobOf(ws[i]) == multiset{}
    ensures InProcess(ws) == multiset{}
  {
    if ws != [] {
      assert forall i :: 0 <= i < |ws[1..]| ==> ws[1..][i] == ws[i + 1];
      NothingInProcess(ws[1..]);
    }
  }

  /** Submit calls = rejected + queued + in process + processed + abandoned, for this job. */
  ghost predicate Accounted(s: State, job: Job) {
    multiset(s.past.submitted)[job]
    == s.past.rejected[job] + multiset(s.queue)[job] + Sum(s.workers, Carries(job)) + s.past.processed[job]
       + s.past.abandoned[job]
  }

  ghost predicate JobsConserved(s: State) {
    forall job :: Accounted(s, job)
  }

  lemma ConservedAsMultisets(s: State)
    requires JobsConserved(s)
    ensures multiset(s.past.submitted)
            == s.past.rejected + multiset(s.queue) + InProcess(s.workers) + s.past.processed + s.past.abandoned
  {
    var rest := s.past.rejected + multiset(s.queue) + InProcess(s.workers) + s.past.processed + s.past.abandoned;
    forall job ensures multiset(s.past.submitted)[job] == rest[job] {
      assert Accounted(s, job);
      InProcessCount(s.workers, job);
    }
  }

  lemma SubmitAccounts(s: State, job: Job, accept: bool, j: Job)
    requires Accounted(s, j) && Enabled(s, Submit(job, accept))
    ensures Accounted(Next(s, Submit(job, accept)), j)
  {}

  function Taken(p: Pc, queue: seq<Job>): multiset<Job> {
    if p.Receiving? && queue != [] then multiset{queue[0]} else multiset{}
  }

  lemma QueueLosesTaken(p: Pc, queue: seq<Job>)
    ensures multiset(QueueAfter(p, queue)) + Taken(p, queue) == multiset(queue)
  {
    if p.Receiving? && queue != [] {
      assert queue == [queue[0]] + queue[1..];
    }
  }

  /** What a worker held or took it still holds, has finished or has dropped. */
  lemma SectionMovesJob(p: Pc, queue: seq<Job>, cancelled: bool, attempts: nat, out: Warmed)
    ensures var q := PcAfter(p, queue, cancelled, attempts, out);
            JobOf(q) + Finished(p) + Dropped(p, q) == JobOf(p) + Taken(p, queue)
  {}

  /** The same, read off the histories: a job leaves one place as it enters the next. */
  lemma PlacesBalance(p: Pc, queue: seq<Job>, cancelled: bool, attempts: nat, out: Warmed, h: History, job: Job)
    ensures var q := PcAfter(p, queue, cancelled, attempts, out); var g := PastAfter(h, p, q);
      && g.submitted == h.submitted && g.rejected == h.rejected
      && JobOf(q)[job] + g.processed[job] + g.abandoned[job]
         == JobOf(p)[job] + h.processed[job] + h.abandoned[job] + Taken(p, queue)[job]
  {
    var q := PcAfter(p, queue, cancelled, attempts, out);
    SectionMovesJob(p, queue, cancelled, attempts, out);
    assert (JobOf(q) + Finished(p) + Dropped(p, q))[job] == (JobOf(p) + Taken(p, queue))[job];
  }

  lemma AdvanceAccounts(s: State, i: nat, out: Warmed, job: Job)
    requires Accounted(s, job) && Enabled(s, Advance(i, out))
    ensures Accounted(Advanced(s, i, out), job)
  {
    var p, t := s.workers[i], Advanced(s, i, out);
    PlacesBalance(p, s.queue, s.cancelled, s.attempts, out, s.past, job);
    assert multiset(t.queue)[job] + Taken(p, s.queue)[job] == multiset(s.queue)[job] by {
      QueueLosesTaken(p, s.queue);
    }
    SumUpdate(s.workers, i, Section(s, i, out), Carries(job));
  }

  // ---------------------------------------------------------------------
  // Counters
  // ---------------------------------------------------------------------

  /** Counted in Total, outcome not yet classified. */
  predicate Unclassified(p: Pc) {
    p.Checking? || p.Calling? || p.Tallying? || p.TallyingCached? || p.Classifying?
  }

  predicate AtTally(p: Pc) {
    p.Tallying?
  }

  predicate AtCached(p: Pc) {
    p.TallyingCached?
  }

  /** Counted in Failed, not yet in the failure list. */
  predicate FailureUnreported(p: Pc) {
    p.Reporting? && Failure(p.out)
  }

  predicate InReport(p: Pc) {
    p.Reporting?
  }

  predicate GaveUp(p: Pc) {
    p.Exited? && p.abandoned
  }

  predicate Proper(p: Pc) {
    && (p.Checking? || p.Calling? ==> p.left >= 1)
    && (p.Tallying? || p.TallyingCached? ==> p.out.res.Some?)
    && (p.TallyingCached? ==> p.out.res.value.cache == Hit)
    && (p.Tallying? || p.TallyingCached? || p.Classifying? || p.Reporting? ==> Ends(p.out))
  }

  ghost predicate Ledger(s: State) {
    var st := s.stats;
    && st.total == st.success + st.failed + s.past.ctxEndings + Count(s.workers, Unclassified)
    && st.total == |s.past.processed| + Count(s.workers, Unclassified) + Count(s.workers, InReport)
    && CacheLedger(s)
    && (if s.captureFail then st.failed == |s.failures| + Count(s.workers, FailureUnreported) else s.failures == [])
    && |s.past.abandoned| == Count(s.workers, GaveUp)
  }

  ghost predicate CacheLedger(s: State) {
    var st := s.stats;
    && st.hits + st.misses + st.bypass + st.unknown + Count(s.workers, AtTally) == s.past.results
    && st.hits == st.cached + Count(s.workers, AtCached)
  }

  ghost predicate Shape(s: State) {
    && s.size >= 1 && s.attempts >= 1 && |s.workers| == s.size && |s.queue| <= 4 * s.size
    && (forall i :: 0 <= i < |s.workers| ==> Proper(s.workers[i]))
    && (forall i :: 0 <= i < |s.workers| && s.workers[i] == Exited(false) ==> s.closed && s.queue == [])
    && (!s.cancelled ==> s.past.rejected == multiset{} && s.past.abandoned == multiset{})
  }

  ghost predicate Inv(s: State) {
    JobsConserved(s) && Ledger(s) && Shape(s)
  }

  lemma WorkerTally(s: State, i: nat, out: Warmed, p: Pc -> bool)
    requires Enabled(s, Advance(i, out))
    ensures var q := Section(s, i, out);
            Count(Advanced(s, i, out).workers, p)
            == Count(s.workers, p) - (if p(s.workers[i]) then 1 else 0) + (if p(q) then 1 else 0)
  {
    CountUpdate(s.workers, i, Section(s, i, out), p);
  }

  lemma CacheLedgerStep(s: State, i: nat, out: Warmed)
    requires CacheLedger(s) && Enabled(s, Advance(i, out)) && Proper(s.workers[i])
    ensures CacheLedger(Advanced(s, i, out))
  {
    WorkerTally(s, i, out, AtTally);
    WorkerTally(s, i, out, AtCached);
  }

  lemma LedgerStep(s: State, i: nat, out: Warmed)
    requires Ledger(s) && Enabled(s, Advance(i, out)) && Proper(s.workers[i])
    ensures Ledger(Advanced(s, i, out))
  {
    CacheLedgerStep(s, i, out);
    WorkerTally(s, i, out, Unclassified);
    WorkerTally(s, i, out, InReport);
    WorkerTally(s, i, out, FailureUnreported);
    WorkerTally(s, i, out, GaveUp);
  }

  lemma PcStaysProper(p: Pc, queue: seq<Job>, cancelled: bool, attempts: nat, out: Warmed)
    requires Proper(p) && attempts >= 1 && (p.Calling? ==> WarmReturns(out))
    ensures Proper(PcAfter(p, queue, cancelled, attempts, out))
  {}

  lemma ShapeAdvance(s: State, i: nat, out: Warmed)
    requires Shape(s) && Enabled(s, Advance(i, out))
    ensures Shape(Advanced(s, i, out))
  {
    var t := Advanced(s, i, out);
    PcStaysProper(s.workers[i], s.queue, s.cancelled, s.attempts, out);
    assert forall k :: 0 <= k < |s.workers| && k != i ==> t.workers[k] == s.workers[k];
    if !s.cancelled {
      assert Dropped(s.workers[i], t.workers[i]) == multiset{};
    }
  }

  lemma InvAdvance(s: State, i: nat, out: Warmed)
    requires Inv(s) && Enabled(s, Advance(i, out))
    ensures Inv(Advanced(s, i, out))
  {
    ShapeAdvance(s, i, out);
    LedgerStep(s, i, out);
    forall job ensures Accounted(Advanced(s, i, out), job) {
      AdvanceAccounts(s, i, out, job);
    }
  }

  lemma InvStep(s: State, a: Action)
    requires Inv(s) && Enabled(s, a)
    ensures Inv(Next(s, a))
  {
    match a
    case Submit(job, accept) =>
      forall j ensures Accounted(Next(s, a), j) {
        SubmitAccounts(s, job, accept, j);
      }
    case Advance(i, out) => InvAdvance(s, i, out);
    case _ =>
      forall j ensures Accounted(Next(s, a), j) {
        assert Accounted(s, j);
      }
  }

  lemma {:induction false} InvRun(s: State, acts: seq<Action>)
    requires Inv(s) && CanRun(s, acts)
    ensures Inv(Run(s, acts))
    ensures Run(s, acts).size == s.size && Run(s, acts).captureFail == s.captureFail
    decreases |acts|
  {
    if acts != [] {
      InvStep(s, acts[0]);
      InvRun(Next(s, acts[0]), acts[1..]);
    }
  }

  lemma InitInv(s: State)
    requires Init(s)
    ensures Inv(s)
  {
    forall job ensures Accounted(s, job) {
      NothingInProcess(s.workers);
      InProcessCount(s.workers, job);
    }
    CountNone(s.workers, Unclassified);
    CountNone(s.workers, InReport);
    CountNone(s.workers, AtTally);
    CountNone(s.workers, AtCached);
    CountNone(s.workers, FailureUnreported);
    CountNone(s.workers, GaveUp);
  }

  // ---------------------------------------------------------------------
  // Main results
  // ---------------------------------------------------------------------

  /** In every run, cancelled or not, no job is lost or duplicated, the queue stays within
      its bound and each worker abandons at most one job. */
  lemma Conservation(init: State, acts: seq<Action>)
    requires Init(init) && CanRun(init, acts)
    ensures var s := Run(init, acts);
      && multiset(s.past.submitted)
         == s.past.rejected + multiset(s.queue) + InProcess(s.workers) + s.past.processed + s.past.abandoned
      && |s.past.submitted|
         == |s.past.rejected| + |s.queue| + |InProcess(s.workers)| + |s.past.processed| + |s.past.abandoned|
      && |s.queue| <= 4 * init.size
      && |s.past.abandoned| == Count(s.workers, GaveUp) <= init.size
  {
    InitInv(init);
    InvRun(init, acts);
    var s := Run(init, acts);
    ConservedAsMultisets(s);
    assert |multiset(s.past.submitted)| == |s.past.submitted|;
    CountWithin(s.workers, GaveUp);
  }

  lemma {:induction false} CountWithin<T>(s: seq<T>, p: T -> bool)
    ensures Count(s, p) <= |s|
  {
    if s != [] {
      CountWithin(s[1..], p);
    }
  }

  /** The counter ledger at every interleaving. */
  lemma CounterLedger(init: State, acts: seq<Action>)
    requires Init(init) && CanRun(init, acts)
    ensures var s := Run(init, acts); var st := s.stats;
      && st.total == st.success + st.failed + s.past.ctxEndings + Count(s.workers, Unclassified)
      && st.hits + st.misses + st.bypass + st.unknown + Count(s.workers, AtTally) == s.past.results
      && st.cached + Count(s.workers, AtCached) == st.hits
      && (init.captureFail ==> |s.failures| + Count(s.workers, FailureUnreported) == st.failed)
      && (!init.captureFail ==> s.failures == [])
  {
    InitInv(init);
    InvRun(init, acts);
  }

  predicate AllExited(s: State) {
    forall i :: 0 <= i < |s.workers| ==> s.workers[i].Exited?
  }

  /** When all workers have exited, cancelled or not, every counter is final: each counted
      job is classified, Cached equals CacheHits, the failure list has Failed entries. */
  lemma FinalCounters(init: State, acts: seq<Action>)
    requires Init(init) && CanRun(init, acts) && AllExited(Run(init, acts))
    ensures var s := Run(init, acts); var st := s.stats;
      && st.total == st.success + st.failed + s.past.ctxEndings == |s.past.processed|
      && st.hits + st.misses + st.bypass + st.unknown == s.past.results
      && st.cached == st.hits
      && (init.captureFail ==> |s.failures| == st.failed)
      && multiset(s.past.submitted) == s.past.rejected + multiset(s.queue) + s.past.processed + s.past.abandoned
  {
    InitInv(init);
    InvRun(init, acts);
    var s := Run(init, acts);
    ConservedAsMultisets(s);
    NothingInProcess(s.workers);
    CountNone(s.workers, Unclassified);
    CountNone(s.workers, InReport);
    CountNone(s.workers, AtTally);
    CountNone(s.workers, AtCached);
    CountNone(s.workers, FailureUnreported);
  }

  /** If the context never fires and all workers have exited, every submitted job has been
      processed exactly once and nothing else has. */
  lemma DrainedCompletely(init: State, acts: seq<Action>)
    requires Init(init) && CanRun(init, acts) && AllExited(Run(init, acts)) && !Run(init, acts).cancelled
    ensures var s := Run(init, acts);
      && s.queue == [] && s.closed
      && s.past.processed == multiset(s.past.submitted)
      && s.stats.total == |s.past.submitted|
  {
    FinalCounters(init, acts);
    InitInv(init);
    InvRun(init, acts);
    var s := Run(init, acts);
    assert |multiset(s.past.submitted)| == |s.past.submitted|;
    if s.workers[0] == Exited(true) {
      CountPositive(s.workers, 0, GaveUp);
    }
  }

  // ---------------------------------------------------------------------
  // The producer
  // ---------------------------------------------------------------------

  /** The producer submits `jobs` in order, and stops after the last one or a cancel. */
  predicate Produces(s: State, acts: seq<Action>, jobs: seq<Job>)
    requires CanRun(s, acts)
    decreases |acts|
  {
    acts == [] || (
      && (match acts[0]
          case Submit(job, _) => |s.past.submitted| < |jobs| && job == jobs[|s.past.submitted|]
          case Stop => s.closed || s.cancelled || |s.past.submitted| == |jobs|
          case _ => true)
      && Produces(Next(s, acts[0]), acts[1..], jobs))
  }

  lemma {:induction false} ProducedPrefix(s: State, acts: seq<Action>, jobs: seq<Job>)
    requires CanRun(s, acts) && Produces(s, acts, jobs)
    requires s.past.submitted <= jobs && (s.closed ==> s.cancelled || s.past.submitted == jobs)
    ensures var t := Run(s, acts);
      t.past.submitted <= jobs && (t.closed ==> t.cancelled || t.past.submitted == jobs)
    decreases |acts|
  {
    if acts != [] {
      ProducedPrefix(Next(s, acts[0]), acts[1..], jobs);
    }
  }

  // ---------------------------------------------------------------------
  // Execute in the worker's sections
  // ---------------------------------------------------------------------

  /** A worker's sections from its `k`-th look at the context to the end of Execute. */
  function Pursued(p: Pc, warm: nat -> Warmed, w: World, k: nat): Pc
    requires p.Checking?
    decreases p.left
  {
    var q := PcAfter(p, [], w.fired(k), 0, warm(k));
    if !q.Calling? then q
    else
      var r := PcAfter(q, [], false, 0, warm(k));
      if !r.Checking? then r
      else if w.cut(k) then PcAfter(r, [], true, 0, warm(k + 1))
      else Pursued(r, warm, w, k + 1)
  }

  /** They are the retrier's attempt loop: same calls, same end, same captured result. */
  lemma {:induction false} SectionsAreExecute(job: Job, max: nat, k: nat, warm: nat -> Warmed, w: World)
    requires k < max && w.ctxErr == Canceled && forall j :: w.op(j) == warm(j).err
    ensures var r := Attempts(w, max, k);
      Pursued(Checking(job, max - k, LastResult(warm, k)), warm, w, k)
      == Ended(job, Warmed(LastResult(warm, r.calls), r.err))
    decreases max - k
  {
    if !w.fired(k) && Retryable(w, k) && k != max - 1 && !w.cut(k) {
      SectionsAreExecute(job, max, k + 1, warm, w);
    }
  }

  /** The whole of `process` up to the end of Execute, from the state in which the worker is
      about to start the job: it is given all attempts of the policy and no result yet, and
      ends as Execute does. */
  lemma ProcessIsExecute(s: State, i: nat, out: Warmed, warm: nat -> Warmed, w: World)
    requires i < |s.workers| && s.workers[i].Starting? && s.attempts >= 1
    requires w.ctxErr == Canceled && forall j :: w.op(j) == warm(j).err
    ensures var q := Section(s, i, out); var r := Attempts(w, s.attempts, 0);
      && q == Checking(s.workers[i].job, s.attempts, None)
      && Pursued(q, warm, w, 0) == Ended(s.workers[i].job, Warmed(LastResult(warm, r.calls), r.err))
  {
    SectionsAreExecute(s.workers[i].job, s.attempts, 0, warm, w);
  }

  /** So, whatever the attempts were, a job that ends without error ends with the result of
      its last attempt, which had a good status; and one that finds the context fired before
      its first attempt ends with the context's error and no result. */
  lemma ExecutionEnds(warm: nat -> Warmed, w: World, p: Policy)
    requires forall k :: WarmReturns(warm(k)) && w.op(k) == warm(k).err
    ensures var r := Execution(w, p); Ends(Warmed(LastResult(warm, r.calls), r.err))
    ensures w.fired(0) ==> var r := Execution(w, p); r.calls == 0 && r.err == Some(w.ctxErr)
  {
    JobOutcome(warm, w, p);
  }

  // ---------------------------------------------------------------------
  // Draining
  // ---------------------------------------------------------------------

  function Rank(attempts: nat): Pc -> nat {
    (p: Pc) => match p
      case Receiving => 1
      case Received(_) => 9 + 2 * attempts
      case Starting(_) => 8 + 2 * attempts
      case Checking(_, left, _) => 7 + 2 * left
      case Calling(_, left, _) => 6 + 2 * left
      case Tallying(_, _) => 5
      case TallyingCached(_, _) => 4
      case Classifying(_, _) => 3
      case Reporting(_, _) => 2
      case Exited(_) => 0
  }

  /** The sections `n` queued jobs still need. */
  function Backlog(n: nat, attempts: nat): nat {
    n * (10 + 2 * attempts)
  }

  lemma BacklogShrinks(n: nat, attempts: nat)
    requires n > 0
    ensures Backlog(n, attempts) == Backlog(n - 1, attempts) + 10 + 2 * attempts
  {}

  /** Bound on the sections the workers can still run once the queue is closed. */
  function Remaining(s: State): nat {
    Backlog(|s.queue|, s.attempts) + Sum(s.workers, Rank(s.attempts))
  }

  lemma RankStep(p: Pc, queue: seq<Job>, cancelled: bool, attempts: nat, out: Warmed)
    requires !p.Exited?
    ensures Rank(attempts)(PcAfter(p, queue, cancelled, attempts, out)) + Backlog(|QueueAfter(p, queue)|, attempts)
            < Rank(attempts)(p) + Backlog(|queue|, attempts)
  {
    if p.Receiving? && queue != [] {
      BacklogShrinks(|queue|, attempts);
    }
  }

  lemma AdvanceShrinks(s: State, i: nat, out: Warmed)
    requires Enabled(s, Advance(i, out))
    ensures Remaining(Advanced(s, i, out)) < Remaining(s)
  {
    RankStep(s.workers[i], s.queue, s.cancelled, s.attempts, out);
    SumUpdate(s.workers, i, Section(s, i, out), Rank(s.attempts));
  }

  function Advances(acts: seq<Action>): nat {
    if acts == [] then 0 else (if acts[0].Advance? then 1 else 0) + Advances(acts[1..])
  }

  /** After Stop the workers run boundedly many more sections, however they interleave. */
  lemma {:induction false} DrainIsBounded(s: State, acts: seq<Action>)
    requires s.closed && CanRun(s, acts)
    ensures Advances(acts) + Remaining(Run(s, acts)) <= Remaining(s)
    decreases |acts|
  {
    if acts != [] {
      var a := acts[0];
      if a.Advance? {
        AdvanceShrinks(s, a.i, a.out);
      }
      DrainIsBounded(Next(s, a), acts[1..]);
    }
  }

  /** And they get stuck nowhere: where none can run a section any more, all have exited. */
  lemma WorkersNeverStuck(s: State)
    requires s.closed && forall i: nat, out :: !Enabled(s, Advance(i, out))
    ensures AllExited(s)
  {
    forall i | 0 <= i < |s.workers| ensures s.workers[i].Exited? {
      assert !Enabled(s, Advance(i, Warmed(None, Some(Canceled))));
    }
  }

  // ---------------------------------------------------------------------
  // The pool itself
  // ---------------------------------------------------------------------

  /** The channel, the workers, the counters and the reporter's list, updated in place. */
  class Pool {
    const size: nat
    const attempts: nat
    const captureFail: bool
    var jobs: seq<Job>
    var closed: bool
    var cancelled: bool
    var workers: seq<Pc>
    var stats: Stats
    var failures: seq<Job>
    ghost var past: History

    ghost function Abstract(): State
      reads this
    {
      State(size, attempts, captureFail, jobs, closed, cancelled, workers, stats, failures, past)
    }

    constructor (workerCount: int, maxAttempts: int, captureFail: bool)
      ensures Init(Abstract())
      ensures size == (if workerCount <= 0 then 1 else workerCount) && this.captureFail == captureFail
      ensures attempts == if maxAttempts < 1 then 1 else maxAttempts
    {
      var n := if workerCount <= 0 then 1 else workerCount;
      size, attempts, this.captureFail := n, if maxAttempts < 1 then 1 else maxAttempts, captureFail;
      jobs, closed, cancelled, failures := [], false, false, [];
      workers := seq(n, _ => Receiving);
      stats := Stats(0, 0, 0, 0, 0, 0, 0, 0);
      past := History([], [], [], multiset{}, multiset{}, multiset{}, [], 0, 0);
    }

    /** A Submit whose select has a ready case. */
    method Submit(job: Job, accept: bool)
      requires !closed && if accept then |jobs| < 4 * size else cancelled
      modifies this`jobs, this`past
      ensures Abstract() == Next(old(Abstract()), Action.Submit(job, accept))
      ensures jobs == if accept then old(jobs) + [job] else old(jobs)
    {
      past := past.(submitted := past.submitted + [job]);
      if accept {
        jobs := jobs + [job];
        past := past.(accepted := past.accepted + [job]);
      } else {
        past := past.(rejected := past.rejected + multiset{job});
      }
    }

    method Stop()
      modifies this`closed
      ensures Abstract() == Next(old(Abstract()), Action.Stop) && closed
    {
      closed := true;
    }

    /** The context fires. */
    method Cancel()
      modifies this`cancelled
      ensures Abstract() == Next(old(Abstract()), Action.Cancel) && cancelled
    {
      cancelled := true;
    }

    /** Adds the result to its cache counter; a hit still has to be added to Cached. */
    method CountResult(cache: CacheState)
      modifies this`stats
      ensures stats == match cache
                       case Hit => old(stats).(hits := old(stats).hits + 1)
                       case Miss => old(stats).(misses := old(stats).misses + 1)
                       case Bypass => old(stats).(bypass := old(stats).bypass + 1)
                       case Unknown => old(stats).(unknown := old(stats).unknown + 1)
    {
      match cache
      case Hit => stats := stats.(hits := stats.hits + 1);
      case Miss => stats := stats.(misses := stats.misses + 1);
      case Bypass => stats := stats.(bypass := stats.bypass + 1);
      case Unknown => stats := stats.(unknown := stats.unknown + 1);
    }

    /** The reporter's callback. */
    method Record(job: Job, out: Warmed)
      modifies this`failures
      ensures failures == if captureFail && Failure(out) then old(failures) + [job] else old(failures)
    {
      var isCtx := out.err.Some? && IsCtx(out.err.value);
      if captureFail && out.err.Some? && !isCtx {
        failures := failures + [job];
      }
    }

    /** Worker `i` can run: it has not exited, and while waiting for a job it needs one, or the
        end of the queue. */
    predicate CanAdvance(i: nat, out: Warmed)
      reads this
    {
      && i < |workers| && !workers[i].Exited? && Proper(workers[i])
      && (workers[i].Receiving? ==> jobs != [] || closed)
      && (workers[i].Calling? ==> WarmReturns(out))
    }

    /** The next atomic section of worker `i`. */
    method Advance(i: nat, out: Warmed)
      requires CanAdvance(i, out)
      modifies this
      ensures Enabled(old(Abstract()), Action.Advance(i, out))
      ensures Abstract() == Advanced(old(Abstract()), i, out)
    {
      past := PastAfter(past, workers[i], Section(Abstract(), i, out));
      RunSection(i, out);
    }

    method RunSection(i: nat, out: Warmed)
      requires CanAdvance(i, out)
      modifies this`jobs, this`workers, this`stats, this`failures
      ensures jobs == QueueAfter(old(workers[i]), old(jobs))
      ensures workers == old(workers)[i := PcAfter(old(workers[i]), old(jobs), cancelled, attempts, out)]
      ensures stats == StatsAfter(old(stats), old(workers[i]))
      ensures failures == if old(workers[i]).Reporting? && captureFail && Failure(old(workers[i]).out)
                          then old(failures) + [old(workers[i]).job] else old(failures)
    {
      match workers[i]
      case Receiving =>
        if jobs == [] {
          workers := workers[i := Exited(false)];
        } else {
          workers := workers[i := Received(jobs[0])];
          jobs := jobs[1..];
        }
      case Received(job) =>
        workers := workers[i := if cancelled then Exited(true) else Starting(job)];
      case Starting(job) =>
        stats := stats.(total := stats.total + 1);
        workers := workers[i := Checking(job, attempts, None)];
      case Checking(job, left, last) =>
        if cancelled {
          workers := workers[i := Ended(job, Warmed(last, Some(Canceled)))];
        } else {
          workers := workers[i := Calling(job, left, last)];
        }
      case Calling(job, left, last) =>
        var result := if out.res.Some? then out.res else last;
        if out.err.Some? && !IsPermanent(out.err.value) && left > 1 {
          workers := workers[i := Checking(job, left - 1, result)];
        } else {
          workers := workers[i := Ended(job, Warmed(result, out.err))];
        }
      case Tallying(job, o) =>
        CountResult(o.res.value.cache);
        workers := workers[i := if o.res.value.cache == Hit then TallyingCached(job, o) else Classifying(job, o)];
      case TallyingCached(job, o) =>
        stats := stats.(cached := stats.cached + 1);
        workers := workers[i := Classifying(job, o)];
      case Classifying(job, o) =>
        CountOutcome(o.err);
        workers := workers[i := Reporting(job, o)];
      case Reporting(job, o) =>
        Record(job, o);
        workers := workers[i := Receiving];
    }

    /** Success, failure, or neither for an ending the context caused. */
    method CountOutcome(err: Option<Error>)
      modifies this`stats
      ensures stats == if err == None then old(stats).(success := old(stats).success + 1)
                       else if IsCtx(err.value) then old(stats)
                       else old(stats).(failed := old(stats).failed + 1)
    {
      if err == None {
        stats := stats.(success := stats.success + 1);
      } else if !IsCtx(err.value) {
        stats := stats.(failed := stats.failed + 1);
      }
    }
  }
}
