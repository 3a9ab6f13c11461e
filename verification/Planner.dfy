/** The run plan, and the two consumers that must agree on it: the real submitter and the
    dry run. */
module Planner {
  import opened Options
  import opened Sequences
  import opened Combos
  import Sampling
  import Retry
  import WorkerPool

  const MAX_INT: int := Retry.MAX_INT64

  datatype AxisValue = AxisValue(value: string, filters: seq<string>)

  /** What planRun reads of the configuration; substring and regex matching are opaque. */
  datatype Config = Config(
    axes: seq<seq<AxisValue>>,
    applies: (AxisValue, string) -> bool,
    isPriority: string -> bool,
    includeFirst: bool,
    hasPatterns: bool,
    sampling: Sampling.Config,
    maxJobs: int,
    maxCombinationsPerURL: int)

  // ---------------------------------------------------------------------
  // Combination counts
  // ---------------------------------------------------------------------

  /** Position of the first empty axis, or the number of axes. */
  function FirstEmpty(lens: seq<nat>): (e: nat)
    ensures e <= |lens| && (forall j :: 0 <= j < e ==> lens[j] > 0) && (e < |lens| ==> lens[e] == 0)
  {
    if lens == [] || lens[0] == 0 then 0 else 1 + FirstEmpty(lens[1..])
  }

  function Saturated(x: nat): nat {
    if x > MAX_INT then MAX_INT else x
  }

  /** The count planRun works with: the product up to the first empty axis, saturated, and 0
      if that axis is reached before the product is out of range. */
  function CountOf(lens: seq<nat>): nat {
    var e := FirstEmpty(lens);
    if e < |lens| && Product(lens[..e]) <= MAX_INT then 0 else Saturated(Product(lens[..e]))
  }

  lemma {:induction false} ProductSnoc(lens: seq<nat>, n: nat)
    ensures Product(lens + [n]) == Product(lens) * n
  {
    if lens == [] {
      assert [n][1..] == [];
    } else {
      assert (lens + [n])[1..] == lens[1..] + [n];
      ProductSnoc(lens[1..], n);
      assert lens[0] * (Product(lens[1..]) * n) == lens[0] * Product(lens[1..]) * n;
    }
  }

  lemma {:induction false} ProductPositive(lens: seq<nat>)
    requires forall j :: 0 <= j < |lens| ==> lens[j] > 0
    ensures Product(lens) > 0
  {
    if lens != [] {
      ProductPositive(lens[1..]);
    }
  }

  lemma {:induction false} ProductWithZero(lens: seq<nat>, j: nat)
    requires j < |lens| && lens[j] == 0
    ensures Product(lens) == 0
  {
    if j > 0 {
      ProductWithZero(lens[1..], j - 1);
    }
  }

  /** Non-empty axes only make the product grow. */
  lemma {:induction false} ProductGrows(lens: seq<nat>, i: nat, e: nat)
    requires i <= e <= |lens| && forall j :: 0 <= j < e ==> lens[j] > 0
    ensures Product(lens[..i]) <= Product(lens[..e])
    decreases e
  {
    if i < e {
      ProductGrows(lens, i, e - 1);
      assert lens[..e] == lens[..e - 1] + [lens[e - 1]];
      ProductSnoc(lens[..e - 1], lens[e - 1]);
      MulMonotone(1, lens[e - 1], Product(lens[..e - 1]));
    }
  }

  /** With every axis non-empty, the count is the number of combinations, saturated. With an
      empty axis it should be 0, and it is, exactly unless the axes in front of the empty
      one are already out of range. */
  lemma {:induction false} CountIsSaturatedProduct(lens: seq<nat>)
    ensures FirstEmpty(lens) == |lens| ==> CountOf(lens) == Saturated(Product(lens)) >= 1
    ensures var e := FirstEmpty(lens);
            e < |lens| ==> (CountOf(lens) == Product(lens) == 0 <==> Product(lens[..e]) <= MAX_INT)
  {
    var e := FirstEmpty(lens);
    if e == |lens| {
      assert lens[..e] == lens;
      ProductPositive(lens);
    } else {
      ProductWithZero(lens, e);
    }
  }

  /** Four axes of 65536 values in front of an empty one: no combination, counted as MaxInt. The
      plan never gets there, since it skips URLs with an empty axis before it counts. */
  lemma EmptyAxisHidden()
    ensures var lens := [0x1_0000, 0x1_0000, 0x1_0000, 0x1_0000, 0];
            Product(lens) == 0 && CountOf(lens) == MAX_INT
  {
    var lens: seq<nat> := [0x1_0000, 0x1_0000, 0x1_0000, 0x1_0000, 0];
    ProductWithZero(lens, 4);
    HugeProduct();
    assert lens[..4] == [0x1_0000, 0x1_0000, 0x1_0000, 0x1_0000];
    assert FirstEmpty(lens[4..]) == 0;
    assert lens[3..][1..] == lens[4..] && lens[2..][1..] == lens[3..] && lens[1..][1..] == lens[2..];
    assert FirstEmpty(lens[1..]) == 3;
  }

  lemma HugeProduct()
    ensures Product([0x1_0000, 0x1_0000, 0x1_0000, 0x1_0000]) == 0x1_0000_0000_0000_0000
  {
    var n: nat := 0x1_0000;
    ProductSnoc([], n);
    ProductSnoc([n], n);
    ProductSnoc([n, n], n);
    ProductSnoc([n, n, n], n);
    assert [] + [n] == [n] && [n] + [n] == [n, n] && [n, n] + [n] == [n, n, n] && [n, n, n] + [n] == [n, n, n, n];
  }

  /** Only the division test guards the multiplication, and it is enough. */
  method ComboCount(applicable: seq<seq<AxisValue>>) returns (count: nat)
    ensures count == CountOf(Lens(applicable)) <= MAX_INT
  {
    ghost var lens := Lens(applicable);
    count := 1;
    for i := 0 to |applicable|
      invariant i <= FirstEmpty(lens)
      invariant count == Product(lens[..i]) && 1 <= count <= MAX_INT
    {
      var n := |applicable[i]|;
      assert lens[..i + 1] == lens[..i] + [lens[i]];
      ProductSnoc(lens[..i], lens[i]);
      if n == 0 {
        return 0;
      }
      QuotientTest(count, n);
      if count > MAX_INT / n {
        ProductGrows(lens, i + 1, FirstEmpty(lens));
        return MAX_INT;
      }
      count := count * n;
    }
    assert lens[..|lens|] == lens;
  }

  lemma QuotientTest(count: nat, n: nat)
    requires n > 0 && count >= 1
    ensures count > MAX_INT / n <==> count * n > MAX_INT
    ensures count * n >= 1
  {
    DivModBounds(MAX_INT / n + 1, n, MAX_INT);
    if count > MAX_INT / n {
      MulMonotone(MAX_INT / n + 1, count, n);
    } else {
      MulMonotone(count, MAX_INT / n, n);
    }
  }

  // ---------------------------------------------------------------------
  // Applicable values
  // ---------------------------------------------------------------------

  function ValuesFor(cfg: Config, axis: seq<AxisValue>, url: string): seq<AxisValue> {
    Filter(axis, (v: AxisValue) => cfg.applies(v, url))
  }

  function ApplicableTo(cfg: Config, url: string): (out: seq<seq<AxisValue>>)
    ensures |out| == |cfg.axes|
  {
    seq(|cfg.axes|, (i: nat) requires i < |cfg.axes| => ValuesFor(cfg, cfg.axes[i], url))
  }

  predicate SomeAxisEmpty(cfg: Config, url: string) {
    exists i :: 0 <= i < |cfg.axes| && ValuesFor(cfg, cfg.axes[i], url) == []
  }

  predicate HasValue(cfg: Config, axis: seq<AxisValue>, url: string) {
    exists v <- axis :: cfg.applies(v, url)
  }

  /** Some value applies on every axis. */
  predicate Usable(cfg: Config, url: string) {
    forall i :: 0 <= i < |cfg.axes| ==> HasValue(cfg, cfg.axes[i], url)
  }

  lemma SomeValue(cfg: Config, axis: seq<AxisValue>, url: string)
    ensures ValuesFor(cfg, axis, url) != [] <==> HasValue(cfg, axis, url)
  {
    var values := ValuesFor(cfg, axis, url);
    if values != [] {
      assert values[0] in values;
    }
    if v :| v in axis && cfg.applies(v, url) {
      assert v in values;
    }
  }

  lemma EveryAxisHasValue(cfg: Config, url: string)
    ensures Usable(cfg, url) <==> !SomeAxisEmpty(cfg, url)
  {
    forall i | 0 <= i < |cfg.axes|
      ensures ValuesFor(cfg, cfg.axes[i], url) != [] <==> HasValue(cfg, cfg.axes[i], url)
    {
      SomeValue(cfg, cfg.axes[i], url);
    }
  }

  method BuildApplicable(url: string, cfg: Config) returns (out: seq<seq<AxisValue>>, ok: bool)
    ensures ok <==> !SomeAxisEmpty(cfg, url)
    ensures ok ==> out == ApplicableTo(cfg, url)
    ensures ok ==> |out| == |cfg.axes| && forall i :: 0 <= i < |out| ==> out[i] == ValuesFor(cfg, cfg.axes[i], url)
  {
    out := [];
    for i := 0 to |cfg.axes|
      invariant out == ApplicableTo(cfg, url)[..i]
      invariant forall j :: 0 <= j < i ==> ValuesFor(cfg, cfg.axes[j], url) != []
    {
      var values := ApplicableValues(cfg, cfg.axes[i], url);
      out := out + [values];
      if values == [] {
        return [], false;
      }
    }
    ok := true;
  }

  method ApplicableValues(cfg: Config, axis: seq<AxisValue>, url: string) returns (out: seq<AxisValue>)
    ensures out == ValuesFor(cfg, axis, url)
    ensures Subsequence(out, axis)
    ensures forall v :: multiset(out)[v] == if cfg.applies(v, url) then multiset(axis)[v] else 0
  {
    out := [];
    var applies := (v: AxisValue) => cfg.applies(v, url);
    for i := 0 to |axis|
      invariant out == Filter(axis[..i], applies)
    {
      FilterNext(axis, i, applies);
      if cfg.applies(axis[i], url) {
        out := out + [axis[i]];
      }
    }
    assert axis[..|axis|] == axis;
    FilterSelects(axis, applies);
  }

  // ---------------------------------------------------------------------
  // The plan
  // ---------------------------------------------------------------------

  datatype Plan = Plan(
    urls: seq<string>,
    applicable: seq<seq<seq<AxisValue>>>,
    combos: seq<nat>,
    totalJobs: int,
    urlCount: nat,
    skippedNoApplicable: nat,
    skippedComboCap: nat,
    sampledOut: int,
    originalURLCount: nat)

  function CombosOf(cfg: Config, url: string): nat {
    CountOf(Lens(ApplicableTo(cfg, url)))
  }

  function Applicable(cfg: Config): string -> seq<seq<AxisValue>> {
    (url: string) => ApplicableTo(cfg, url)
  }

  function Counted(cfg: Config): string -> nat {
    (url: string) => CombosOf(cfg, url)
  }

  function NotApplicable(cfg: Config): string -> bool {
    (url: string) => SomeAxisEmpty(cfg, url)
  }

  function OverCap(cfg: Config, force: bool): string -> bool {
    (url: string) =>
      && !SomeAxisEmpty(cfg, url)
      && cfg.maxCombinationsPerURL > 0 && CombosOf(cfg, url) > cfg.maxCombinationsPerURL && !force
  }

  function Kept(cfg: Config, force: bool): string -> bool {
    (url: string) => !SomeAxisEmpty(cfg, url) && !OverCap(cfg, force)(url)
  }

  function Total(combos: seq<nat>): nat {
    if combos == [] then 0 else Total(combos[..|combos| - 1]) + combos[|combos| - 1]
  }

  function Prioritised(urls: seq<string>, cfg: Config): seq<string> {
    Sampling.Prioritised(urls, cfg.isPriority, cfg.includeFirst && cfg.hasPatterns)
  }

  /** Which of the URLs done so far the plan lists, and how many it skipped for each reason. */
  ghost predicate Selected(cfg: Config, force: bool, done: seq<string>, plan: Plan) {
    && plan.urls == Filter(done, Kept(cfg, force))
    && plan.skippedNoApplicable == |Filter(done, NotApplicable(cfg))|
    && plan.skippedComboCap == |Filter(done, OverCap(cfg, force))|
  }

  /** The arrays run parallel to the URLs, and the total is their wrapped sum. */
  ghost predicate Parallel(cfg: Config, plan: Plan) {
    && IsImage(Applicable(cfg), plan.urls, plan.applicable)
    && IsImage(Counted(cfg), plan.urls, plan.combos)
    && plan.totalJobs == Retry.Wrap64(Total(plan.combos))
  }

  /** The plan for the URLs left after sampling. */
  ghost predicate PlanFor(cfg: Config, force: bool, urls: seq<string>, sampled: seq<string>, plan: Plan, failed: bool) {
    && Selected(cfg, force, sampled, plan) && Parallel(cfg, plan) && plan.urlCount == |plan.urls|
    && plan.sampledOut == |urls| - |sampled|
    && plan.originalURLCount == |urls|
    && (failed <==> cfg.maxJobs > 0 && plan.totalJobs > cfg.maxJobs && !force)
  }

  /** What may be left after priority ordering and sampling. */
  ghost predicate SampleOf(cfg: Config, urls: seq<string>, draws: seq<nat>, sampled: seq<string>) {
    && |sampled| == Sampling.SampleSize(|urls|, cfg.sampling)
    && (!cfg.sampling.random || Distinct(urls) ==> Subsequence(sampled, Prioritised(urls, cfg)))
    && Sampling.DrawsSuffice(|Prioritised(urls, cfg)|, cfg.sampling, draws)
    && Sampling.IsSample(Prioritised(urls, cfg), cfg.sampling, draws, sampled)
  }

  /** The plan lists those of the sampled URLs that no reason excludes, with arrays running
      parallel to them, and the run is refused exactly if its total exceeds the limit. */
  method PlanRun(urls: seq<string>, cfg: Config, force: bool, draws: seq<nat>)
    returns (plan: Plan, failed: bool)
    requires Sampling.DrawsSuffice(|urls|, cfg.sampling, draws)
    ensures exists sampled ::
      SampleOf(cfg, urls, draws, sampled) && PlanFor(cfg, force, urls, sampled, plan, failed)
    ensures failed <==> cfg.maxJobs > 0 && plan.totalJobs > cfg.maxJobs && !force
    ensures plan.originalURLCount == |urls|
    ensures plan.urlCount == |plan.urls| == |plan.applicable| == |plan.combos|
  {
    var prioritised := Sampling.ApplyPriority(urls, cfg.isPriority, cfg.includeFirst, cfg.hasPatterns);
    if cfg.includeFirst && cfg.hasPatterns {
      Sampling.PrioritisedFacts(urls, cfg.isPriority);
      if Distinct(urls) {
        PermutationKeepsDistinct(urls, prioritised);
      }
    }
    var kept := Sampling.ApplySampling(prioritised, cfg.sampling, draws);
    plan := PlanSampled(cfg, force, kept, |prioritised| - |kept|, |urls|);
    failed := cfg.maxJobs > 0 && plan.totalJobs > cfg.maxJobs && !force;
    assert SampleOf(cfg, urls, draws, kept) && PlanFor(cfg, force, urls, kept, plan, failed);
  }

  /** planRun's loop over the sampled URLs. */
  method PlanSampled(cfg: Config, force: bool, sampled: seq<string>, sampledOut: int, original: nat)
      returns (plan: Plan)
    ensures Selected(cfg, force, sampled, plan) && Parallel(cfg, plan) && plan.urlCount == |plan.urls|
    ensures plan.sampledOut == sampledOut && plan.originalURLCount == original
  {
    plan := Plan([], [], [], 0, 0, 0, 0, sampledOut, original);
    for i := 0 to |sampled|
      invariant Selected(cfg, force, sampled[..i], plan) && Parallel(cfg, plan)
      invariant plan.sampledOut == sampledOut && plan.originalURLCount == original
    {
      assert sampled[..i + 1] == sampled[..i] + [sampled[i]];
      plan := AddUrl(cfg, force, sampled[..i], sampled[i], plan);
    }
    assert sampled[..|sampled|] == sampled;
    plan := plan.(urlCount := |plan.urls|);
  }

  /** One round of planRun's loop. */
  method AddUrl(cfg: Config, force: bool, ghost done: seq<string>, url: string, plan: Plan) returns (next: Plan)
    requires Selected(cfg, force, done, plan) && Parallel(cfg, plan)
    ensures Selected(cfg, force, done + [url], next) && Parallel(cfg, next)
    ensures next.sampledOut == plan.sampledOut && next.originalURLCount == plan.originalURLCount
  {
    SelectedStep(cfg, force, done, url);
    var applicable, ok := BuildApplicable(url, cfg);
    if !ok {
      return plan.(skippedNoApplicable := plan.skippedNoApplicable + 1);
    }
    var count := ComboCount(applicable);
    if cfg.maxCombinationsPerURL > 0 && count > cfg.maxCombinationsPerURL && !force {
      return plan.(skippedComboCap := plan.skippedComboCap + 1);
    }
    next := plan.(urls := plan.urls + [url],
                  applicable := plan.applicable + [applicable],
                  combos := plan.combos + [count],
                  totalJobs := Retry.Wrap64(plan.totalJobs + count));
    ParallelExtended(cfg, plan, next, url, applicable, count);
  }

  /** What one more URL adds to the list and to the two counts. */
  lemma SelectedStep(cfg: Config, force: bool, done: seq<string>, url: string)
    ensures Filter(done + [url], Kept(cfg, force))
            == Filter(done, Kept(cfg, force)) + if Kept(cfg, force)(url) then [url] else []
    ensures |Filter(done + [url], NotApplicable(cfg))|
            == |Filter(done, NotApplicable(cfg))| + if SomeAxisEmpty(cfg, url) then 1 else 0
    ensures |Filter(done + [url], OverCap(cfg, force))|
            == |Filter(done, OverCap(cfg, force))| + if OverCap(cfg, force)(url) then 1 else 0
  {
    FilterSnoc(done, url, Kept(cfg, force));
    FilterSnoc(done, url, NotApplicable(cfg));
    FilterSnoc(done, url, OverCap(cfg, force));
  }

  lemma ParallelExtended(cfg: Config, plan: Plan, next: Plan, url: string, applicable: seq<seq<AxisValue>>, count: nat)
    requires Parallel(cfg, plan) && applicable == ApplicableTo(cfg, url) && count == CombosOf(cfg, url)
    requires next.urls == plan.urls + [url] && next.applicable == plan.applicable + [applicable]
    requires next.combos == plan.combos + [count] && next.totalJobs == Retry.Wrap64(plan.totalJobs + count)
    ensures Parallel(cfg, next)
  {
    ImageSnoc(Applicable(cfg), plan.urls, plan.applicable, url);
    ImageSnoc(Counted(cfg), plan.urls, plan.combos, url);
    assert Applicable(cfg)(url) == applicable && Counted(cfg)(url) == count;
    TotalSnoc(plan.combos, count, plan.totalJobs);
  }

  lemma TotalSnoc(combos: seq<nat>, count: nat, total: int)
    requires total == Retry.Wrap64(Total(combos))
    ensures Total(combos + [count]) == Total(combos) + count
    ensures Retry.Wrap64(total + count) == Retry.Wrap64(Total(combos + [count]))
  {
    assert (combos + [count])[..|combos|] == combos;
    WrapAdds(Total(combos), count);
  }

  lemma WrapAdds(a: int, b: int)
    ensures Retry.Wrap64(Retry.Wrap64(a) + b) == Retry.Wrap64(a + b)
  {
    var w := 0x1_0000_0000_0000_0000;
    var q := (a + 0x8000_0000_0000_0000) / w;
    assert Retry.Wrap64(a) == a - q * w;
    assert (a + b + 0x8000_0000_0000_0000 - q * w) % w == (a + b + 0x8000_0000_0000_0000) % w;
  }

  // ---------------------------------------------------------------------
  // What a plan promises
  // ---------------------------------------------------------------------

  /** Every collected URL is warmed, skipped for one reason, or sampled out. */
  lemma {:induction false} PlanAccounting(
      cfg: Config, force: bool, urls: seq<string>, sampled: seq<string>, plan: Plan, failed: bool)
    requires PlanFor(cfg, force, urls, sampled, plan, failed)
    ensures plan.originalURLCount
            == plan.urlCount + plan.skippedNoApplicable + plan.skippedComboCap + plan.sampledOut
  {
    FiltersSplit(sampled, Kept(cfg, force), NotApplicable(cfg), OverCap(cfg, force));
  }

  /** Exactly the sampled URLs are planned that have an applicable value on every axis and,
      unless forced, no more combinations than the limit, if there is one; a limit of MaxInt
      limits nothing, since counts saturate there. A URL without a value on some axis shows
      among those skipped for it. */
  lemma PlannedUrls(
      cfg: Config, force: bool, urls: seq<string>, sampled: seq<string>, plan: Plan, failed: bool, u: string)
    requires PlanFor(cfg, force, urls, sampled, plan, failed)
    ensures
      && (u in plan.urls <==>
            && u in sampled && Usable(cfg, u)
            && (|| force || !(0 < cfg.maxCombinationsPerURL < MAX_INT)
                || Size(ApplicableTo(cfg, u)) <= cfg.maxCombinationsPerURL))
      && (u in sampled && !Usable(cfg, u) ==> plan.skippedNoApplicable > 0)
    ensures Subsequence(plan.urls, sampled)
  {
    FilterIsSubsequence(sampled, Kept(cfg, force));
    EveryAxisHasValue(cfg, u);
    if !SomeAxisEmpty(cfg, u) {
      CombosOfUsable(cfg, u);
    } else if u in sampled {
      assert u in Filter(sampled, NotApplicable(cfg));
    }
  }

  lemma CombosOfUsable(cfg: Config, url: string)
    requires !SomeAxisEmpty(cfg, url)
    ensures CombosOf(cfg, url) == Saturated(Size(ApplicableTo(cfg, url))) >= 1
  {
    var lens := Lens(ApplicableTo(cfg, url));
    forall j | 0 <= j < |lens| ensures lens[j] > 0 {
      assert ValuesFor(cfg, cfg.axes[j], url) != [];
    }
    CountIsSaturatedProduct(lens);
  }

  /** For each planned URL and axis the plan lists the applicable values, in their order. */
  lemma PlannedValues(cfg: Config, force: bool, urls: seq<string>, sampled: seq<string>, plan: Plan, failed: bool,
                      i: nat, j: nat)
    requires PlanFor(cfg, force, urls, sampled, plan, failed) && i < |plan.urls| && j < |cfg.axes|
    ensures |plan.applicable[i]| == |cfg.axes|
    ensures Selects(plan.applicable[i][j], cfg.axes[j], v => cfg.applies(v, plan.urls[i]))
  {
    var url := plan.urls[i];
    assert plan.applicable[i] == Applicable(cfg)(url);
    var applies := (v: AxisValue) => cfg.applies(v, url);
    FilterSelects(cfg.axes[j], applies);
    assert plan.applicable[i][j] == ValuesFor(cfg, cfg.axes[j], url);
  }

  /** For distinct URLs the plan follows the stable priority partition, whatever the sampling. */
  lemma PlanKeepsOrder(cfg: Config, force: bool, urls: seq<string>, draws: seq<nat>, sampled: seq<string>,
                       plan: Plan, failed: bool)
    requires PlanFor(cfg, force, urls, sampled, plan, failed) && SampleOf(cfg, urls, draws, sampled)
    requires !cfg.sampling.random || Distinct(urls)
    ensures Subsequence(plan.urls, Prioritised(urls, cfg))
  {
    FilterIsSubsequence(sampled, Kept(cfg, force));
    SubsequenceTransitive(plan.urls, sampled, Prioritised(urls, cfg));
  }

  /** A planned URL has a value on every axis, so its count is the number of its combinations,
      saturated, and within the per-URL limit unless forced. */
  lemma PlannedCounts(
      cfg: Config, force: bool, urls: seq<string>, sampled: seq<string>, plan: Plan, failed: bool, i: nat)
    requires PlanFor(cfg, force, urls, sampled, plan, failed) && i < |plan.urls|
    ensures plan.combos[i] == Saturated(Size(plan.applicable[i])) >= 1
    ensures !force && cfg.maxCombinationsPerURL > 0 ==> plan.combos[i] <= cfg.maxCombinationsPerURL
  {
    var url := plan.urls[i];
    assert url in plan.urls;
    assert Kept(cfg, force)(url);
    CombosOfUsable(cfg, url);
  }

  lemma {:induction false} FilterAll<T(!new)>(s: seq<T>, p: T -> bool)
    requires forall i :: 0 <= i < |s| ==> p(s[i])
    ensures Filter(s, p) == s
  {
    if s != [] {
      var front := s[..|s| - 1];
      assert s == front + [s[|s| - 1]];
      FilterAll(front, p);
      FilterSnoc(front, s[|s| - 1], p);
    }
  }

  /** Four axes of 65536 values that apply everywhere: two URLs already wrap the total to -2,
      which passes every limit. */
  function HugeConfig(maxJobs: int): Config {
    var axis := seq(0x1_0000, _ => AxisValue("v", []));
    Config([axis, axis, axis, axis], (v, url) => true, url => false, false, false,
           Sampling.Config(0.0, 0, false), maxJobs, 0)
  }

  lemma WrapDefeatsMaxJobs(maxJobs: int, plan: Plan, failed: bool)
    requires 0 < maxJobs <= MAX_INT
    requires PlanFor(HugeConfig(maxJobs), false, ["a", "b"], ["a", "b"], plan, failed)
    ensures plan.urlCount == 2 && Total(plan.combos) == 2 * MAX_INT && plan.totalJobs == -2 && !failed
  {
    var cfg := HugeConfig(maxJobs);
    HugeCounts(cfg, maxJobs, "a");
    HugeCounts(cfg, maxJobs, "b");
    FilterAll(["a", "b"], Kept(cfg, false));
    assert plan.combos == [Counted(cfg)("a"), Counted(cfg)("b")] == [MAX_INT, MAX_INT];
    TwoHuge();
  }

  lemma TwoHuge()
    ensures Total([MAX_INT, MAX_INT]) == 2 * MAX_INT && Retry.Wrap64(2 * MAX_INT) == -2
  {
    assert [MAX_INT, MAX_INT][..1] == [MAX_INT] && [MAX_INT][..0] == [];
    assert Total([MAX_INT]) == MAX_INT;
  }

  lemma HugeCounts(cfg: Config, maxJobs: int, url: string)
    requires cfg == HugeConfig(maxJobs)
    ensures Kept(cfg, false)(url) && CombosOf(cfg, url) == MAX_INT
  {
    var lens := Lens(ApplicableTo(cfg, url));
    forall i | 0 <= i < 4 ensures ValuesFor(cfg, cfg.axes[i], url) == cfg.axes[i] && |cfg.axes[i]| == 0x1_0000 {
      FilterAll(cfg.axes[i], (v: AxisValue) => cfg.applies(v, url));
    }
    assert forall i :: 0 <= i < 4 ==> |ValuesFor(cfg, cfg.axes[i], url)| == 0x1_0000;
    assert !SomeAxisEmpty(cfg, url);
    assert lens == [0x1_0000, 0x1_0000, 0x1_0000, 0x1_0000];
    HugeProduct();
    CountIsSaturatedProduct(lens);
    assert FirstEmpty(lens) == 4;
    assert CombosOf(cfg, url) == MAX_INT;
    assert cfg.maxCombinationsPerURL == 0 && !OverCap(cfg, false)(url);
  }

  // ---------------------------------------------------------------------
  // Submitter and dry run
  // ---------------------------------------------------------------------

  datatype Item = Item(url: string, combo: seq<AxisValue>)

  function UrlItems(url: string, combos: seq<seq<AxisValue>>): (items: seq<Item>)
    ensures |items| == |combos|
  {
    seq(|combos|, (k: nat) requires k < |combos| => Item(url, combos[k]))
  }

  /** The jobs of the first `n` planned URLs: each URL's combinations in lexicographic order. */
  function ItemsUpTo(plan: Plan, n: nat): seq<Item>
    requires n <= |plan.urls| == |plan.applicable|
  {
    if n == 0 then [] else ItemsUpTo(plan, n - 1) + UrlItems(plan.urls[n - 1], AllCombos(plan.applicable[n - 1]))
  }

  function Items(plan: Plan): seq<Item>
    requires |plan.urls| == |plan.applicable|
  {
    ItemsUpTo(plan, |plan.urls|)
  }

  /** The job in a URL's k-th slot is that URL with its k-th combination. */
  lemma SlotItem(plan: Plan, i: nat, k: nat)
    requires i < |plan.urls| == |plan.applicable| && k < Size(plan.applicable[i])
    ensures Slot(plan, i, k) < |Items(plan)|
    ensures Items(plan)[Slot(plan, i, k)] == Item(plan.urls[i], AllCombos(plan.applicable[i])[k])
  {
    ItemsGrow(plan, i + 1, |plan.urls|);
  }

  /** And every job is in such a slot. */
  lemma {:induction false} ItemSlot(plan: Plan, n: nat, item: Item)
    requires n <= |plan.urls| == |plan.applicable| && item in ItemsUpTo(plan, n)
    ensures exists i :: 0 <= i < n && item.url == plan.urls[i] && item.combo in AllCombos(plan.applicable[i])
    decreases n
  {
    var last := UrlItems(plan.urls[n - 1], AllCombos(plan.applicable[n - 1]));
    if item in last {
      assert item.combo in AllCombos(plan.applicable[n - 1]);
    } else {
      ItemSlot(plan, n - 1, item);
    }
  }

  /** The plan's jobs are, for each planned URL, one for each choice of an applicable value on
      every axis, and no others. */
  lemma JobsAreTheProduct(cfg: Config, plan: Plan, item: Item)
    requires Parallel(cfg, plan)
    ensures item in Items(plan) <==> item.url in plan.urls && Chosen(cfg, item.url, item.combo)
  {
    if item in Items(plan) {
      ItemSlot(plan, |plan.urls|, item);
      var i :| 0 <= i < |plan.urls| && item.url == plan.urls[i] && item.combo in AllCombos(plan.applicable[i]);
      ChosenIsCombo(cfg, plan, i, item.combo);
    }
    if item.url in plan.urls && Chosen(cfg, item.url, item.combo) {
      var i :| 0 <= i < |plan.urls| && plan.urls[i] == item.url;
      ChosenIsCombo(cfg, plan, i, item.combo);
      var k :| 0 <= k < Size(plan.applicable[i]) && AllCombos(plan.applicable[i])[k] == item.combo;
      SlotItem(plan, i, k);
    }
  }

  /** One value for each axis, from that axis and applicable to the URL. */
  predicate Chosen(cfg: Config, url: string, combo: seq<AxisValue>) {
    |combo| == |cfg.axes| && forall j :: 0 <= j < |combo| ==> combo[j] in cfg.axes[j] && cfg.applies(combo[j], url)
  }

  lemma ChosenIsCombo(cfg: Config, plan: Plan, i: nat, combo: seq<AxisValue>)
    requires Parallel(cfg, plan) && i < |plan.urls|
    ensures combo in AllCombos(plan.applicable[i]) <==> Chosen(cfg, plan.urls[i], combo)
  {
    assert plan.applicable[i] == Applicable(cfg)(plan.urls[i]);
    CombosAreTheProduct(plan.applicable[i], combo);
    assert forall j :: 0 <= j < |cfg.axes| ==> plan.applicable[i][j] == ValuesFor(cfg, cfg.axes[j], plan.urls[i]);
  }

  lemma {:induction false} ItemsGrow(plan: Plan, n: nat, m: nat)
    requires n <= m <= |plan.urls| == |plan.applicable|
    ensures ItemsUpTo(plan, n) <= ItemsUpTo(plan, m)
    decreases m
  {
    if n < m {
      ItemsGrow(plan, n, m - 1);
    }
  }

  /** Whether the context has fired by its `check`-th inspection. */
  predicate Fired(cancelAt: Option<nat>, check: nat) {
    cancelAt.Some? && cancelAt.value <= check
  }

  /** The position of a URL's k-th combination among all jobs of the plan. */
  function Slot(plan: Plan, i: nat, k: nat): nat
    requires i <= |plan.urls| == |plan.applicable|
  {
    |ItemsUpTo(plan, i)| + k
  }

  /** Of the first `n` URLs' jobs, exactly those are submitted in front of which the context
      had not fired: the job in slot g of URL i is preceded by g + i + 1 earlier inspections. */
  ghost predicate SubmittedUntilFired(plan: Plan, cancelAt: Option<nat>, jobs: nat, n: nat)
    requires n <= |plan.urls| == |plan.applicable|
  {
    forall i, k :: 0 <= i < n && 0 <= k < Size(plan.applicable[i]) ==>
      (Slot(plan, i, k) < jobs <==> cancelAt.None? || Slot(plan, i, k) + i + 1 < cancelAt.value)
  }

  /** One URL's submissions: a callback that finds the context fired submits nothing and is
      the last. */
  method SubmitUrl(url: string, applicable: seq<seq<AxisValue>>, cancelAt: Option<nat>, checks: nat)
    returns (items: seq<Item>, checked: nat)
    ensures items <= UrlItems(url, AllCombos(applicable))
    ensures |items| > 0 ==> !Fired(cancelAt, checks + |items| - 1)
    ensures if |items| == Size(applicable) then checked == checks + |items|
            else checked == checks + |items| + 1 && Fired(cancelAt, checks + |items|)
  {
    var accept := (k: nat) => !Fired(cancelAt, checks + k);
    var e := new Enumerator<AxisValue>(applicable, accept);
    e.ForEach();
    CallsMadeMeaning(accept, 0, Size(applicable));
    var n := |e.calls|;
    var submits := if n > 0 && !accept(n - 1) then n - 1 else n;
    if AllAccepted(accept, 0, Size(applicable)) {
      assert n > 0 ==> accept(n - 1);
    } else {
      assert !accept(n - 1) && (n > 1 ==> accept(n - 2));
    }
    items := UrlItems(url, e.calls[..submits]);
    checked := checks + n;
  }

  lemma {:induction false} SubmittedNext(plan: Plan, cancelAt: Option<nat>, jobs: nat, n: nat, added: nat)
    requires n < |plan.urls| == |plan.applicable| && SubmittedUntilFired(plan, cancelAt, jobs, n)
    requires jobs == |ItemsUpTo(plan, n)| && added <= Size(plan.applicable[n])
    requires added > 0 ==> !Fired(cancelAt, jobs + n + added)
    requires added < Size(plan.applicable[n]) ==> Fired(cancelAt, jobs + n + 1 + added)
    ensures SubmittedUntilFired(plan, cancelAt, jobs + added, n + 1)
  {
    forall i, k | 0 <= i <= n && 0 <= k < Size(plan.applicable[i])
      ensures Slot(plan, i, k) < jobs + added <==> cancelAt.None? || Slot(plan, i, k) + i + 1 < cancelAt.value
    {
      if i < n {
        SlotBelow(plan, i, k, n);
        assert Slot(plan, i, k) < jobs;
      }
    }
  }

  lemma SlotBelow(plan: Plan, i: nat, k: nat, n: nat)
    requires i < n <= |plan.urls| == |plan.applicable| && k < Size(plan.applicable[i])
    ensures Slot(plan, i, k) < |ItemsUpTo(plan, n)|
  {
    ItemsGrow(plan, i + 1, n);
  }

  /** Once the context has fired, no later slot is submitted either. */
  lemma NothingSubmittedAfter(plan: Plan, cancelAt: Option<nat>, jobs: nat, n: nat)
    requires n <= |plan.urls| == |plan.applicable| && SubmittedUntilFired(plan, cancelAt, jobs, n)
    requires jobs <= |ItemsUpTo(plan, n)| && Fired(cancelAt, jobs + n)
    ensures SubmittedUntilFired(plan, cancelAt, jobs, |plan.urls|)
  {
    forall i, k | 0 <= i < |plan.urls| && 0 <= k < Size(plan.applicable[i])
      ensures Slot(plan, i, k) < jobs <==> cancelAt.None? || Slot(plan, i, k) + i + 1 < cancelAt.value
    {
      if i >= n {
        ItemsGrow(plan, n, i);
      }
    }
  }

  /** Submits the plan's jobs in order until the context fires, and counts exactly what it
      submitted. */
  method SubmitPlanJobs(plan: Plan, cancelAt: Option<nat>) returns (jobs: nat, submitted: seq<Item>)
    requires |plan.urls| == |plan.applicable|
    ensures submitted <= Items(plan) && jobs == |submitted|
    ensures SubmittedUntilFired(plan, cancelAt, jobs, |plan.urls|)
    ensures cancelAt.None? ==> submitted == Items(plan)
  {
    jobs, submitted := 0, [];
    var checks := 0;
    for i := 0 to |plan.urls|
      invariant jobs == |submitted| && submitted <= ItemsUpTo(plan, i)
      invariant SubmittedUntilFired(plan, cancelAt, jobs, i)
      invariant if submitted == ItemsUpTo(plan, i) then checks == jobs + i
                else Fired(cancelAt, jobs + i) && Fired(cancelAt, checks)
    {
      ItemsGrow(plan, i, |plan.urls|);
      if Fired(cancelAt, checks) {
        NothingSubmittedAfter(plan, cancelAt, jobs, i);
        return;
      }
      var items;
      items, checks := SubmitUrl(plan.urls[i], plan.applicable[i], cancelAt, checks + 1);
      SubmittedNext(plan, cancelAt, jobs, i, |items|);
      submitted := submitted + items;
      jobs := jobs + |items|;
    }
  }

  /** Lists every job of the plan, in the order in which the submitter would submit it. */
  method PrintDryRun(plan: Plan) returns (lines: seq<Item>)
    requires |plan.urls| == |plan.applicable|
    ensures lines == Items(plan)
  {
    lines := [];
    for i := 0 to |plan.urls|
      invariant lines == ItemsUpTo(plan, i)
    {
      var accept := (k: nat) => true;
      var e := new Enumerator<AxisValue>(plan.applicable[i], accept);
      e.ForEach();
      CallsMadeMeaning(accept, 0, Size(plan.applicable[i]));
      lines := lines + UrlItems(plan.urls[i], e.calls);
    }
  }

  /** While the total stays below MaxInt no count is saturated, and TotalJobs is the number of
      jobs that both of them go through. */
  lemma {:induction false} TotalJobsIsJobCount(
      cfg: Config, force: bool, urls: seq<string>, sampled: seq<string>, plan: Plan, failed: bool)
    requires PlanFor(cfg, force, urls, sampled, plan, failed) && Total(plan.combos) < MAX_INT
    ensures plan.totalJobs == |Items(plan)|
  {
    TotalAgainstJobs(cfg, force, urls, sampled, plan, failed);
    assert Retry.Wrap64(Total(plan.combos)) == Total(plan.combos);
  }

  /** Every count is the saturated number of its URL's combinations. */
  ghost predicate CountsSaturated(plan: Plan) {
    && |plan.urls| == |plan.applicable| == |plan.combos|
    && forall i :: 0 <= i < |plan.urls| ==> plan.combos[i] == Saturated(Size(plan.applicable[i]))
  }

  lemma {:induction false} CountsAddUp(plan: Plan, n: nat)
    requires CountsSaturated(plan) && n <= |plan.urls|
    ensures Total(plan.combos[..n]) <= |ItemsUpTo(plan, n)|
    ensures Total(plan.combos[..n]) < MAX_INT ==> Total(plan.combos[..n]) == |ItemsUpTo(plan, n)|
    decreases n
  {
    if n > 0 {
      assert plan.combos[..n][..n - 1] == plan.combos[..n - 1];
      CountsAddUp(plan, n - 1);
    }
  }

  /** Saturation hides jobs only from MaxInt on. */
  lemma TotalAgainstJobs(
      cfg: Config, force: bool, urls: seq<string>, sampled: seq<string>, plan: Plan, failed: bool)
    requires PlanFor(cfg, force, urls, sampled, plan, failed)
    ensures Total(plan.combos) <= |Items(plan)|
    ensures Total(plan.combos) < MAX_INT ==> Total(plan.combos) == |Items(plan)|
  {
    forall i | 0 <= i < |plan.urls| ensures plan.combos[i] == Saturated(Size(plan.applicable[i])) {
      PlannedCounts(cfg, force, urls, sampled, plan, failed, i);
    }
    assert plan.combos[..|plan.urls|] == plan.combos;
    CountsAddUp(plan, |plan.urls|);
  }

  /** How often the running total wraps around. */
  function Wraps(total: nat): nat {
    (total + 0x8000_0000_0000_0000) / 0x1_0000_0000_0000_0000
  }

  lemma WrapIs(total: nat)
    ensures Retry.Wrap64(total) == total - Wraps(total) * 0x1_0000_0000_0000_0000
    ensures total <= MAX_INT <==> Wraps(total) == 0
  {}

  /** Exactly when the run-wide limit is enforced: the run is refused if and only if it has
      more jobs than the limit, as long as the sum of the saturated counts is in range or
      exceeds the limit by enough to show after the wrap-around. A limit of MaxInt refuses
      nothing and is right only for plans that stay within it. */
  lemma {:induction false} MaxJobsGuard(
      cfg: Config, urls: seq<string>, sampled: seq<string>, plan: Plan, failed: bool)
    requires PlanFor(cfg, false, urls, sampled, plan, failed) && 0 < cfg.maxJobs <= MAX_INT
    ensures var total, jobs := Total(plan.combos), |Items(plan)|;
      (failed <==> jobs > cfg.maxJobs)
      <==> if cfg.maxJobs == MAX_INT then jobs <= MAX_INT
           else total <= MAX_INT || total > cfg.maxJobs + Wraps(total) * 0x1_0000_0000_0000_0000
  {
    WrapIs(Total(plan.combos));
    TotalAgainstJobs(cfg, false, urls, sampled, plan, failed);
  }

  // ---------------------------------------------------------------------
  // From plan to counters
  // ---------------------------------------------------------------------

  function JobOf(item: Item): WorkerPool.Job {
    WorkerPool.Job(item.url, seq(|item.combo|, (j: nat) requires j < |item.combo| => item.combo[j].value))
  }

  function Jobs(items: seq<Item>): (jobs: seq<WorkerPool.Job>)
    ensures |jobs| == |items|
  {
    seq(|items|, (k: nat) requires k < |items| => JobOf(items[k]))
  }

  /** Jobs carry their item's URL and, axis by axis, the values of its combination. */
  lemma JobsCarry(items: seq<Item>, k: nat)
    requires k < |items|
    ensures Jobs(items)[k].url == items[k].url && |Jobs(items)[k].values| == |items[k].combo|
    ensures forall j :: 0 <= j < |items[k].combo| ==> Jobs(items)[k].values[j] == items[k].combo[j].value
  {}

  /** The job requests a planned URL with one applicable value per axis. */
  ghost predicate Planned(cfg: Config, plan: Plan, job: WorkerPool.Job) {
    job.url in plan.urls && exists combo: seq<AxisValue> ::
      Chosen(cfg, job.url, combo) && |combo| == |job.values|
      && forall j :: 0 <= j < |combo| ==> job.values[j] == combo[j].value
  }

  lemma JobsArePlanned(cfg: Config, plan: Plan, job: WorkerPool.Job)
    requires Parallel(cfg, plan)
    ensures job in Jobs(Items(plan)) <==> Planned(cfg, plan, job)
  {
    if job in Jobs(Items(plan)) {
      var k :| 0 <= k < |Items(plan)| && Jobs(Items(plan))[k] == job;
      JobsCarry(Items(plan), k);
      assert Items(plan)[k] in Items(plan);
      JobsAreTheProduct(cfg, plan, Items(plan)[k]);
    } else if Planned(cfg, plan, job) {
      PlannedIsJob(cfg, plan, job);
    }
  }

  lemma PlannedIsJob(cfg: Config, plan: Plan, job: WorkerPool.Job)
    requires Parallel(cfg, plan) && Planned(cfg, plan, job)
    ensures job in Jobs(Items(plan))
  {
    var items := Items(plan);
    var combo: seq<AxisValue> :| Chosen(cfg, job.url, combo) && |combo| == |job.values|
      && forall j :: 0 <= j < |combo| ==> job.values[j] == combo[j].value;
    JobsAreTheProduct(cfg, plan, Item(job.url, combo));
    var k :| 0 <= k < |items| && items[k] == Item(job.url, combo);
    SameJob(items, k, job);
  }

  lemma SameJob(items: seq<Item>, k: nat, job: WorkerPool.Job)
    requires k < |items| && job.url == items[k].url && |job.values| == |items[k].combo|
    requires forall j :: 0 <= j < |job.values| ==> job.values[j] == items[k].combo[j].value
    ensures job in Jobs(items)
  {
    assert job.values == JobOf(items[k]).values;
    assert Jobs(items)[k] == job;
  }

  /** End to end: when the producer submits the plan's jobs and all workers have exited, only
      jobs of the dry run have been submitted, in its order. Unless the context has fired,
      exactly those have been processed, TotalJobs of them, and every one has ended as a
      success, a failure or a context ending. */
  lemma {:induction false} RunMatchesPlan(
      cfg: Config, force: bool, urls: seq<string>, sampled: seq<string>, plan: Plan, failed: bool,
      init: WorkerPool.State, acts: seq<WorkerPool.Action>)
    requires PlanFor(cfg, force, urls, sampled, plan, failed) && Total(plan.combos) < MAX_INT
    requires WorkerPool.Init(init) && WorkerPool.CanRun(init, acts)
    requires WorkerPool.Produces(init, acts, Jobs(Items(plan))) && WorkerPool.AllExited(WorkerPool.Run(init, acts))
    ensures var s := WorkerPool.Run(init, acts);
      && s.past.submitted <= Jobs(Items(plan))
      && (!s.cancelled ==>
            && s.past.processed == multiset(Jobs(Items(plan)))
            && (forall job :: job in s.past.processed <==> Planned(cfg, plan, job))
            && s.stats.total == plan.totalJobs == s.stats.success + s.stats.failed + s.past.ctxEndings)
  {
    WorkerPool.ProducedPrefix(init, acts, Jobs(Items(plan)));
    if !WorkerPool.Run(init, acts).cancelled {
      WorkerPool.DrainedCompletely(init, acts);
      WorkerPool.FinalCounters(init, acts);
      TotalJobsIsJobCount(cfg, force, urls, sampled, plan, failed);
      forall job ensures job in multiset(Jobs(Items(plan))) <==> Planned(cfg, plan, job) {
        JobsArePlanned(cfg, plan, job);
      }
    }
  }
}
