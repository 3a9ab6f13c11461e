/** Priority ordering and sampling of the collected URLs. */
module Sampling {
  import opened Sequences

  datatype Config = Config(percent: real, firstN: int, random: bool)

  // ---------------------------------------------------------------------
  // Stride arithmetic
  // ---------------------------------------------------------------------

  function Times(a: nat, b: nat): nat {
    a * b
  }

  lemma TimesAdd(a: nat, b: nat, c: nat)
    ensures Times(a + b, c) == Times(a, c) + Times(b, c)
    ensures Times(c, a + b) == Times(c, a) + Times(c, b)
    ensures Times(1, c) == c && Times(a, c) == Times(c, a)
  {}

  lemma TimesMonotone(a: nat, b: nat, c: nat)
    requires a <= b
    ensures Times(a, c) <= Times(b, c)
  {}

  /** Which of `n` URLs the i-th of `keep` strides lands on. */
  function StrideIndex(i: nat, n: nat, keep: nat): nat
    requires keep > 0
  {
    Times(i, n) / keep
  }

  function CeilDiv(a: nat, b: nat): nat
    requires b > 0
  {
    (a + b - 1) / b
  }

  lemma DivBounds(a: nat, b: nat)
    requires b > 0
    ensures Times(a / b, b) <= a < Times(a / b, b) + b
  {}

  lemma QuotientAtLeast(a: nat, b: nat, q: nat)
    requires b > 0
    ensures Times(q, b) <= a <==> q <= a / b
  {
    DivBounds(a, b);
    TimesAdd(a / b, 1, b);
    if q <= a / b {
      TimesMonotone(q, a / b, b);
    } else {
      TimesMonotone(a / b + 1, q, b);
    }
  }

  lemma CeilAtMost(a: nat, b: nat, q: nat)
    requires b > 0
    ensures a <= Times(q, b) <==> CeilDiv(a, b) <= q
  {
    QuotientAtLeast(a + b - 1, b, q + 1);
    TimesAdd(q, 1, b);
  }

  function RealTimes(a: real, b: real): real {
    a * b
  }

  lemma Scaled(i: real, n: real, k: real)
    requires k > 0.0
    ensures RealTimes(i * (n / k), k) == RealTimes(i, n)
  {
    var r := n / k;
    assert r * k == n;
    assert i * r * k == i * (r * k);
  }

  lemma Embedded(q: nat, k: nat)
    ensures Times(q, k) as real == RealTimes(q as real, k as real)
  {}

  lemma Cancel(a: real, b: real, k: real)
    requires k > 0.0
    ensures RealTimes(a, k) <= RealTimes(b, k) ==> a <= b
    ensures RealTimes(a, k) < RealTimes(b, k) ==> a < b
  {
    assert a > b ==> (a - b) * k > 0.0;
    assert a == b ==> a * k == b * k;
  }

  lemma FloorIs(x: real, k: nat, a: nat, q: nat)
    requires k > 0 && RealTimes(x, k as real) == a as real
    requires Times(q, k) <= a < Times(q, k) + k
    ensures x.Floor == q
  {
    Embedded(q, k);
    Embedded(q + 1, k);
    TimesAdd(q, 1, k);
    Cancel(q as real, x, k as real);
    Cancel(x, (q + 1) as real, k as real);
  }

  /** The float computation, in exact arithmetic, is the integer quotient. */
  lemma StrideIsExact(i: nat, n: nat, keep: nat)
    requires keep > 0
    ensures (i as real * (n as real / keep as real)).Floor == StrideIndex(i, n, keep)
  {
    Scaled(i as real, n as real, keep as real);
    Embedded(i, n);
    DivBounds(Times(i, n), keep);
    FloorIs(i as real * (n as real / keep as real), keep, Times(i, n), StrideIndex(i, n, keep));
  }

  lemma StrideWithin(i: nat, n: nat, keep: nat)
    requires 1 <= keep < n && i < keep
    ensures StrideIndex(i, n, keep) < n - 1
  {
    TimesMonotone(i, keep - 1, n);
    TimesAdd(keep - 1, 1, n);
    TimesAdd(n - 1, 1, keep);
    TimesAdd(keep, 0, n);
    QuotientAtLeast(Times(i, n), keep, n - 1);
  }

  lemma StrideAtLeast(i: nat, n: nat, keep: nat)
    requires keep > 0
    ensures StrideIndex(i, n, keep) + n / keep <= StrideIndex(i + 1, n, keep)
  {
    var a := StrideIndex(i, n, keep);
    DivBounds(Times(i, n), keep);
    DivBounds(n, keep);
    TimesAdd(i, 1, n);
    TimesAdd(a, n / keep, keep);
    QuotientAtLeast(Times(i + 1, n), keep, a + n / keep);
  }

  lemma StrideAtMost(i: nat, n: nat, keep: nat)
    requires keep > 0
    ensures StrideIndex(i + 1, n, keep) <= StrideIndex(i, n, keep) + CeilDiv(n, keep)
  {
    var a, up := StrideIndex(i, n, keep), CeilDiv(n, keep);
    DivBounds(Times(i, n), keep);
    TimesAdd(i, 1, n);
    CeilAtMost(n, keep, up);
    TimesAdd(a, up, keep);
    TimesAdd(a + up, 1, keep);
    QuotientAtLeast(Times(i + 1, n), keep, a + up + 1);
  }

  /** Strides move strictly forward, never reach the last URL (so the clamp is dead) and
      advance by floor(n / keep) or ceil(n / keep). */
  lemma {:induction false} StridesAdvance(i: nat, n: nat, keep: nat)
    requires 1 <= keep < n && i < keep
    ensures StrideIndex(i, n, keep) < n - 1
    ensures var gap := StrideIndex(i + 1, n, keep) - StrideIndex(i, n, keep);
            1 <= n / keep <= gap <= CeilDiv(n, keep) <= n / keep + 1
  {
    StrideWithin(i, n, keep);
    StrideAtLeast(i, n, keep);
    StrideAtMost(i, n, keep);
    QuotientAtLeast(n, keep, 1);
    TimesAdd(1, 0, keep);
    DivBounds(n, keep);
    TimesAdd(n / keep, 1, keep);
    CeilAtMost(n, keep, n / keep + 1);
  }

  /** So the sampled positions are strictly increasing. */
  lemma {:induction false} StridesIncrease(i: nat, j: nat, n: nat, keep: nat)
    requires 1 <= keep < n && i < j <= keep
    ensures StrideIndex(i, n, keep) < StrideIndex(j, n, keep)
  {
    StridesAdvance(j - 1, n, keep);
    if i < j - 1 {
      StridesIncrease(i, j - 1, n, keep);
    }
  }

  /** Of the first `p` URLs exactly those hit by the first ceil(p * keep / n) strides stay. */
  lemma {:induction false} StridesBelow(i: nat, p: nat, n: nat, keep: nat)
    requires 1 <= keep < n && p <= n
    ensures StrideIndex(i, n, keep) < p <==> i < CeilDiv(Times(p, keep), n)
    ensures CeilDiv(Times(p, keep), n) <= keep
  {
    QuotientAtLeast(Times(i, n), keep, p);
    CeilAtMost(Times(p, keep), n, i);
    CeilAtMost(Times(p, keep), n, keep);
    TimesMonotone(p, n, keep);
    TimesAdd(keep, 0, n);
  }

  /** When the first `p` of `n` URLs all survive a stride sample of size `keep`. */
  lemma {:induction false} PrioritySurvivesIff(p: nat, n: nat, keep: nat)
    requires 1 <= keep < n && p <= n
    ensures CeilDiv(Times(p, keep), n) == p <==> Times(p, n - keep) < n
  {
    TimesAdd(keep, n - keep, p);
    CeilAtMost(Times(p, keep), n, p);
    if p > 0 {
      CeilAtMost(Times(p, keep), n, p - 1);
      TimesAdd(p - 1, 1, n);
    }
  }

  // ---------------------------------------------------------------------
  // Priority
  // ---------------------------------------------------------------------

  function Prioritised(urls: seq<string>, isPriority: string -> bool, active: bool): seq<string> {
    if active then Filter(urls, isPriority) + Filter(urls, u => !isPriority(u)) else urls
  }

  /** The reordering is a permutation; and which URLs are priority is decided by position. */
  lemma PrioritisedFacts(urls: seq<string>, isPriority: string -> bool)
    ensures var out := Prioritised(urls, isPriority, true); var p := |Filter(urls, isPriority)|;
      && multiset(out) == multiset(urls) && |out| == |urls| && p <= |out|
      && (forall k :: 0 <= k < |out| ==> (isPriority(out[k]) <==> k < p))
      && Subsequence(out[..p], urls) && Subsequence(out[p..], urls)
  {
    var hot, cold := Filter(urls, isPriority), Filter(urls, u => !isPriority(u));
    var out := hot + cold;
    FilterPartition(urls, isPriority);
    assert |out| == |multiset(out)| == |multiset(urls)| == |urls|;
    forall k | 0 <= k < |out| ensures isPriority(out[k]) <==> k < |hot| {
      if k < |hot| {
        assert out[k] in hot;
      } else {
        assert out[k] == cold[k - |hot|] && out[k] in cold;
      }
    }
    FilterIsSubsequence(urls, isPriority);
    FilterIsSubsequence(urls, u => !isPriority(u));
    assert out[..|hot|] == hot && out[|hot|..] == cold;
  }

  lemma {:induction false} FilterPartition(urls: seq<string>, p: string -> bool)
    ensures multiset(Filter(urls, p)) + multiset(Filter(urls, u => !p(u))) == multiset(urls)
  {
    if urls != [] {
      var front := urls[..|urls| - 1];
      assert urls == front + [urls[|urls| - 1]];
      FilterPartition(front, p);
    }
  }

  method ApplyPriority(urls: seq<string>, isPriority: string -> bool, includeFirst: bool, hasPatterns: bool)
    returns (out: seq<string>)
    ensures out == Prioritised(urls, isPriority, includeFirst && hasPatterns)
    ensures !includeFirst || !hasPatterns ==> out == urls
    ensures includeFirst && hasPatterns ==>
      exists p: nat :: p <= |out| && Selects(out[..p], urls, isPriority) && Selects(out[p..], urls, u => !isPriority(u))
  {
    if !includeFirst {
      return urls;
    }
    if !hasPatterns {
      return urls;
    }
    var priority, rest := [], [];
    for i := 0 to |urls|
      invariant priority == Filter(urls[..i], isPriority)
      invariant rest == Filter(urls[..i], u => !isPriority(u))
    {
      FilterNext(urls, i, isPriority);
      FilterNext(urls, i, u => !isPriority(u));
      if isPriority(urls[i]) {
        priority := priority + [urls[i]];
      } else {
        rest := rest + [urls[i]];
      }
    }
    assert urls[..|urls|] == urls;
    out := priority + rest;
    FilterSelects(urls, isPriority);
    FilterSelects(urls, u => !isPriority(u));
    assert out[..|priority|] == priority && out[|priority|..] == rest;
  }

  // ---------------------------------------------------------------------
  // Sampling
  // ---------------------------------------------------------------------

  /** How many of `n` URLs a percentage keeps. */
  function KeepCount(n: nat, percent: real): (k: nat)
    requires 0.0 < percent < 100.0
    ensures k >= 1 && (k > 1 ==> k as real <= n as real * percent / 100.0)
    ensures n as real * percent / 100.0 < (k + 1) as real
  {
    var k := (n as real * percent / 100.0).Floor;
    if k <= 0 then 1 else k
  }

  /** The different positions drawn, in the order in which they came up. */
  function Drawn(draws: seq<nat>): seq<nat> {
    FirstOccurrences(draws)
  }

  /** The random generator's draws are in range and hit enough different URLs. */
  predicate EnoughDraws(draws: seq<nat>, n: nat, keep: nat) {
    (forall d <- draws :: d < n) && |Drawn(draws)| >= keep
  }

  /** How many URLs are left after sampling. */
  function SampleSize(n: nat, cfg: Config): nat {
    if 0.0 < cfg.percent < 100.0 then (if KeepCount(n, cfg.percent) >= n then n else KeepCount(n, cfg.percent))
    else if 0 < cfg.firstN < n then cfg.firstN
    else n
  }

  function Strided(urls: seq<string>, keep: nat): (out: seq<string>)
    requires 1 <= keep < |urls|
  {
    seq(keep, (i: nat) requires i < keep =>
      StridesAdvance(i, |urls|, keep);
      urls[StrideIndex(i, |urls|, keep)])
  }

  /** What stride sampling does to a list with `p` priority URLs in front: it keeps a
      subsequence of exactly `keep` URLs, led by exactly ceil(p * keep / n) priority ones. */
  lemma StridedSample(urls: seq<string>, keep: nat, isPriority: string -> bool, p: nat)
    requires 1 <= keep < |urls| && p <= |urls|
    requires forall k :: 0 <= k < |urls| ==> (isPriority(urls[k]) <==> k < p)
    ensures var out := Strided(urls, keep);
      && |out| == keep && Subsequence(out, urls)
      && (forall i :: 0 <= i < keep ==> (isPriority(out[i]) <==> i < CeilDiv(Times(p, keep), |urls|)))
      && CeilDiv(Times(p, keep), |urls|) <= keep
  {
    StridedIsSubsequence(urls, keep);
    forall i | 0 <= i < keep
      ensures isPriority(Strided(urls, keep)[i]) <==> i < CeilDiv(Times(p, keep), |urls|)
    {
      StridesAdvance(i, |urls|, keep);
      StridesBelow(i, p, |urls|, keep);
    }
    StridesBelow(0, p, |urls|, keep);
  }

  /** What is left after sampling that is not random. */
  function Sample(urls: seq<string>, cfg: Config): seq<string> {
    var size := SampleSize(|urls|, cfg);
    if 0.0 < cfg.percent < 100.0 && size < |urls| then Strided(urls, size) else urls[..size]
  }

  lemma {:induction false} LeadingCount(urls: seq<string>, isPriority: string -> bool, p: nat)
    requires p <= |urls| && forall k :: 0 <= k < |urls| ==> (isPriority(urls[k]) <==> k < p)
    ensures |Filter(urls, isPriority)| == p
  {
    if urls != [] {
      var front := urls[..|urls| - 1];
      LeadingCount(front, isPriority, if p <= |front| then p else |front|);
    }
  }

  /** How many priority URLs survive priority ordering plus sampling, and exactly when all do,
      as the planner's comment promises for every setting: with a percentage if and only if
      p * (n - keep) < n, with first_n if and only if there are at most N of them. */
  lemma {:induction false} PriorityKeptIff(urls: seq<string>, isPriority: string -> bool, cfg: Config)
    ensures KeptOf(|urls|, |Filter(urls, isPriority)|, cfg,
                   |Filter(Sample(Prioritised(urls, isPriority, true), cfg), isPriority)|)
  {
    var all := Prioritised(urls, isPriority, true);
    PrioritisedFacts(urls, isPriority);
    SampleKeeps(all, isPriority, |Filter(urls, isPriority)|, cfg);
  }

  /** `kept` of `p` priority URLs among `n` are left. */
  predicate KeptOf(n: nat, p: nat, cfg: Config, kept: nat) {
    var keep := SampleSize(n, cfg);
    if 0.0 < cfg.percent < 100.0 && 0 < keep < n
    then kept == CeilDiv(Times(p, keep), n) && (kept == p <==> Times(p, n - keep) < n)
    else kept == (if p <= keep then p else keep) && (kept == p <==> p <= keep)
  }

  lemma {:induction false} SampleKeeps(urls: seq<string>, isPriority: string -> bool, p: nat, cfg: Config)
    requires p <= |urls| && forall k :: 0 <= k < |urls| ==> (isPriority(urls[k]) <==> k < p)
    ensures KeptOf(|urls|, p, cfg, |Filter(Sample(urls, cfg), isPriority)|)
  {
    var keep := SampleSize(|urls|, cfg);
    if 0.0 < cfg.percent < 100.0 && keep < |urls| {
      StridedKeeps(urls, keep, isPriority, p);
    } else {
      PrefixKeeps(urls, keep, isPriority, p);
    }
  }

  lemma {:induction false} StridedKeeps(urls: seq<string>, keep: nat, isPriority: string -> bool, p: nat)
    requires 1 <= keep < |urls| && p <= |urls|
    requires forall k :: 0 <= k < |urls| ==> (isPriority(urls[k]) <==> k < p)
    ensures var kept := |Filter(Strided(urls, keep), isPriority)|;
      kept == CeilDiv(Times(p, keep), |urls|) && (kept == p <==> Times(p, |urls| - keep) < |urls|)
  {
    StridedSample(urls, keep, isPriority, p);
    LeadingCount(Strided(urls, keep), isPriority, CeilDiv(Times(p, keep), |urls|));
    PrioritySurvivesIff(p, |urls|, keep);
  }

  lemma PrefixKeeps(urls: seq<string>, keep: nat, isPriority: string -> bool, p: nat)
    requires keep <= |urls| && p <= |urls|
    requires forall k :: 0 <= k < |urls| ==> (isPriority(urls[k]) <==> k < p)
    ensures |Filter(urls[..keep], isPriority)| == if p <= keep then p else keep
  {
    LeadingCount(urls[..keep], isPriority, if p <= keep then p else keep);
  }

  predicate IsHot(url: string) {
    url == "/hot/a" || url == "/hot/b"
  }

  /** Half of four URLs: one of the two priority URLs is dropped for an ordinary one. */
  lemma PriorityUrlDropped()
    ensures var urls := ["/hot/a", "/hot/b", "/c", "/d"];
      && |Filter(urls, IsHot)| == 2
      && |Filter(Sample(Prioritised(urls, IsHot, true), Config(50.0, 0, false)), IsHot)| == 1
  {
    var urls := ["/hot/a", "/hot/b", "/c", "/d"];
    LeadingCount(urls, IsHot, 2);
    PriorityKeptIff(urls, IsHot, Config(50.0, 0, false));
    HalfOfFour();
  }

  lemma HalfOfFour()
    ensures KeepCount(4, 50.0) == 2 && CeilDiv(Times(2, 2), 4) == 1
  {}

  lemma StridedIsSubsequence(urls: seq<string>, keep: nat)
    requires 1 <= keep < |urls|
    ensures Subsequence(Strided(urls, keep), urls)
  {
    var idx: seq<nat> := seq(keep, (i: nat) requires i < keep => StrideIndex(i, |urls|, keep));
    forall i, j | 0 <= i < j < keep ensures idx[i] < idx[j] {
      StridesIncrease(i, j, |urls|, keep);
    }
    forall i | 0 <= i < keep ensures idx[i] < |urls| {
      StridesAdvance(i, |urls|, keep);
    }
    assert Increasing(idx) && PickedAt(Strided(urls, keep), urls, idx);
  }

  /** The i-th URL of the sample is the one at i strides of n / keep, rounded down. */
  lemma StridedAt(urls: seq<string>, keep: nat, i: nat)
    requires 1 <= keep < |urls| && i < keep
    ensures StrideIndex(i, |urls|, keep) < |urls| && Strided(urls, keep)[i] == urls[StrideIndex(i, |urls|, keep)]
  {
    StridesAdvance(i, |urls|, keep);
  }

  method SampleStride(urls: seq<string>, keep: nat) returns (out: seq<string>)
    requires 1 <= keep < |urls|
    ensures out == Strided(urls, keep)
  {
    out := [];
    var stride := |urls| as real / keep as real;
    for i := 0 to keep
      invariant out == Strided(urls, keep)[..i]
    {
      StrideIsExact(i, |urls|, keep);
      StridesAdvance(i, |urls|, keep);
      var idx := (i as real * stride).Floor;
      assert idx == StrideIndex(i, |urls|, keep);
      if idx >= |urls| {
        idx := |urls| - 1;
      }
      out := out + [urls[idx]];
    }
  }

  /** Draws until `keep` different positions have come up. */
  method DrawDistinct(n: nat, keep: nat, draws: seq<nat>) returns (order: seq<nat>)
    requires EnoughDraws(draws, n, keep)
    ensures order == Drawn(draws)[..keep]
  {
    var picked: set<nat> := {};
    order := [];
    var next := 0;
    while |order| < keep
      invariant next <= |draws| && |order| <= keep && order == Drawn(draws[..next])
      invariant forall d :: d in picked <==> d in draws[..next]
      decreases |draws| - next
    {
      assert draws[..|draws|] == draws;
      var idx := draws[next];
      FirstOccurrencesNext(draws, next);
      assert draws[..next + 1] == draws[..next] + [idx];
      next := next + 1;
      if idx in picked {
        continue;
      }
      picked := picked + {idx};
      order := order + [idx];
    }
    FirstOccurrencesPrefix(draws, next);
  }

  /** Position of each URL's first occurrence. */
  method FirstPositions(urls: seq<string>) returns (pos: map<string, nat>)
    ensures forall u :: u in pos <==> u in urls
    ensures forall u <- urls :: pos[u] == FirstIndex(urls, u)
  {
    pos := map[];
    for i := 0 to |urls|
      invariant forall u :: u in pos <==> u in urls[..i]
      invariant forall u :: u in pos ==> pos[u] == FirstIndex(urls, u)
    {
      assert urls[..i + 1] == urls[..i] + [urls[i]];
      if urls[i] !in pos {
        FirstIndexLeast(urls, i);
        pos := pos[urls[i] := i];
      }
    }
    assert urls[..|urls|] == urls;
  }

  /** Back to the order of the original list; a repeated URL sorts at its first position. */
  method SortByPosition(picked: seq<string>, urls: seq<string>) returns (out: seq<string>)
    requires forall k :: 0 <= k < |picked| ==> picked[k] in urls
    ensures |out| == |picked| && multiset(out) == multiset(picked)
    ensures forall k :: 0 <= k < |out| ==> out[k] in urls
    ensures forall i, j :: 0 <= i < j < |out| ==> FirstIndex(urls, out[i]) <= FirstIndex(urls, out[j])
  {
    var pos := FirstPositions(urls);
    var key := (u: string) => if u in pos then pos[u] as int else 0;
    out := SortBy(picked, key);
    forall k | 0 <= k < |out| ensures out[k] in urls && key(out[k]) == FirstIndex(urls, out[k]) {
      assert out[k] in multiset(out);
    }
  }

  lemma PicksAreDistinct(picked: seq<string>, urls: seq<string>, order: seq<nat>)
    requires Distinct(urls) && Distinct(order) && PickedAt(picked, urls, order)
    ensures Distinct(picked)
  {}

  /** The URLs at the first `keep` different positions drawn, ... */
  function Picked(urls: seq<string>, keep: nat, draws: seq<nat>): seq<string>
    requires EnoughDraws(draws, |urls|, keep)
  {
    DrawsInRange(urls, draws);
    seq(keep, (i: nat) requires i < keep => urls[Drawn(draws)[i]])
  }

  lemma DrawsInRange(urls: seq<string>, draws: seq<nat>)
    requires forall d <- draws :: d < |urls|
    ensures forall i :: 0 <= i < |Drawn(draws)| ==> Drawn(draws)[i] < |urls|
  {
    FirstOccurrencesFacts(draws);
    assert forall i :: 0 <= i < |Drawn(draws)| ==> Drawn(draws)[i] in Drawn(draws);
  }

  /** ... put back into the order in which they first appear in the list. */
  ghost predicate IsRandomSample(urls: seq<string>, keep: nat, draws: seq<nat>, out: seq<string>)
    requires EnoughDraws(draws, |urls|, keep)
  {
    && multiset(out) == multiset(Picked(urls, keep, draws))
    && (forall u <- out :: u in urls)
    && (forall i, j :: 0 <= i < j < |out| ==> FirstIndex(urls, out[i]) <= FirstIndex(urls, out[j]))
  }

  method SampleRandom(urls: seq<string>, keep: nat, draws: seq<nat>) returns (out: seq<string>)
    requires EnoughDraws(draws, |urls|, keep)
    ensures |out| == keep && IsRandomSample(urls, keep, draws, out)
    ensures Distinct(urls) ==> Subsequence(out, urls)
  {
    FirstOccurrencesFacts(draws);
    DrawsInRange(urls, draws);
    var order := DrawDistinct(|urls|, keep, draws);
    var picked := [];
    for i := 0 to keep
      invariant PickedAt(picked, urls, order[..i]) && picked == Picked(urls, keep, draws)[..i]
    {
      picked := picked + [urls[order[i]]];
    }
    assert order[..keep] == order && picked == Picked(urls, keep, draws);
    out := SortByPosition(picked, urls);
    if Distinct(urls) {
      PicksAreDistinct(picked, urls, order);
      PermutationKeepsDistinct(picked, out);
      SortedIsSubsequence(out, urls);
    }
  }

  /** Exactly when all priority URLs survive a random sample, whatever is drawn: if there are
      none. Otherwise the generator can miss the first. */
  lemma {:induction false} RandomKeepsPriorityIff(urls: seq<string>, isPriority: string -> bool, keep: nat)
    requires 1 <= keep < |urls|
    ensures var p := |Filter(urls, isPriority)|;
      (forall draws, out :: KeepsRandomly(Prioritised(urls, isPriority, true), keep, draws, out, isPriority, p))
      <==> p == 0
  {
    PrioritisedFacts(urls, isPriority);
    RandomLossIff(Prioritised(urls, isPriority, true), isPriority, keep, |Filter(urls, isPriority)|);
  }

  lemma {:induction false} RandomLossIff(urls: seq<string>, isPriority: string -> bool, keep: nat, p: nat)
    requires 1 <= keep < |urls| && p <= |urls|
    requires forall k :: 0 <= k < |urls| ==> (isPriority(urls[k]) <==> k < p)
    ensures (forall draws, out :: KeepsRandomly(urls, keep, draws, out, isPriority, p)) <==> p == 0
  {
    if p == 0 {
      forall draws, out ensures KeepsRandomly(urls, keep, draws, out, isPriority, 0) {
        NoneToLose(urls, keep, draws, out, isPriority);
      }
    } else {
      var draws, out := FirstMissed(urls, keep, isPriority, p);
    }
  }

  lemma NoneToLose(urls: seq<string>, keep: nat, draws: seq<nat>, out: seq<string>, isPriority: string -> bool)
    requires forall k :: 0 <= k < |urls| ==> !isPriority(urls[k])
    ensures KeepsRandomly(urls, keep, draws, out, isPriority, 0)
  {
    if EnoughDraws(draws, |urls|, keep) && IsRandomSample(urls, keep, draws, out) {
      assert forall k :: 0 <= k < |out| ==> out[k] in urls;
      LeadingCount(out, isPriority, 0);
    }
  }

  /** If `out` is what these draws leave of the URLs, then `p` of it are priority URLs. */
  ghost predicate KeepsRandomly(urls: seq<string>, keep: nat, draws: seq<nat>, out: seq<string>,
                                isPriority: string -> bool, p: nat)
  {
    EnoughDraws(draws, |urls|, keep) && IsRandomSample(urls, keep, draws, out) ==> |Filter(out, isPriority)| == p
  }

  /** The draws 1, 2, 3, ... never pick the first URL. */
  lemma FirstMissed(urls: seq<string>, keep: nat, isPriority: string -> bool, p: nat)
      returns (draws: seq<nat>, out: seq<string>)
    requires 1 <= keep < |urls| && 0 < p <= |urls|
    requires forall k :: 0 <= k < |urls| ==> (isPriority(urls[k]) <==> k < p)
    ensures !KeepsRandomly(urls, keep, draws, out, isPriority, p)
  {
    draws := AllButFirst(|urls|);
    var picked := Picked(urls, keep, draws);
    LeadingCount(picked, isPriority, if p - 1 <= keep then p - 1 else keep);
    out := Resorted(picked, urls);
    FilterPermutation(out, picked, isPriority);
  }

  lemma AllButFirst(n: nat) returns (draws: seq<nat>)
    requires n > 0
    ensures Drawn(draws) == draws && EnoughDraws(draws, n, n - 1)
    ensures |draws| == n - 1 && forall i :: 0 <= i < |draws| ==> draws[i] == i + 1
  {
    draws := seq(n - 1, (i: nat) => i + 1);
    DistinctIsFirstOccurrences(draws);
  }

  lemma Resorted(picked: seq<string>, urls: seq<string>) returns (out: seq<string>)
    requires forall u <- picked :: u in urls
    ensures multiset(out) == multiset(picked) && forall u <- out :: u in urls
    ensures forall i, j :: 0 <= i < j < |out| ==> FirstIndex(urls, out[i]) <= FirstIndex(urls, out[j])
  {
    var key := (u: string) => if u in urls then FirstIndex(urls, u) as int else 0;
    out := SortBy(picked, key);
    forall k | 0 <= k < |out| ensures out[k] in urls && key(out[k]) == FirstIndex(urls, out[k]) {
      assert out[k] in multiset(out);
    }
  }

  lemma SortedIsSubsequence(out: seq<string>, urls: seq<string>)
    requires Distinct(out) && forall k :: 0 <= k < |out| ==> out[k] in urls
    requires forall i, j :: 0 <= i < j < |out| ==> FirstIndex(urls, out[i]) <= FirstIndex(urls, out[j])
    ensures Subsequence(out, urls)
  {
    var idx: seq<nat> := seq(|out|, (k: nat) requires k < |out| => FirstIndex(urls, out[k]));
    forall i, j | 0 <= i < j < |out| ensures idx[i] < idx[j] {
      assert out[i] == urls[idx[i]] && out[j] == urls[idx[j]];
    }
    assert Increasing(idx) && PickedAt(out, urls, idx);
  }

  method SamplePercent(urls: seq<string>, percent: real, random: bool, draws: seq<nat>) returns (out: seq<string>)
    requires 0.0 < percent < 100.0
    requires random && KeepCount(|urls|, percent) < |urls| ==> EnoughDraws(draws, |urls|, KeepCount(|urls|, percent))
    ensures var keep := KeepCount(|urls|, percent);
      if keep >= |urls| then out == urls
      else |out| == keep && (if random then IsRandomSample(urls, keep, draws, out) else out == Strided(urls, keep))
           && (!random || Distinct(urls) ==> Subsequence(out, urls))
  {
    var keep := (|urls| as real * percent / 100.0).Floor;
    if keep <= 0 {
      keep := 1;
    }
    if keep >= |urls| {
      return urls;
    }
    if !random {
      out := SampleStride(urls, keep);
      StridedIsSubsequence(urls, keep);
    } else {
      out := SampleRandom(urls, keep, draws);
    }
  }

  /** Sampling leaves a random sample of the URLs. */
  predicate Random(n: nat, cfg: Config) {
    cfg.random && 0.0 < cfg.percent < 100.0 && SampleSize(n, cfg) < n
  }

  predicate DrawsSuffice(n: nat, cfg: Config, draws: seq<nat>) {
    Random(n, cfg) ==> EnoughDraws(draws, n, SampleSize(n, cfg))
  }

  /** What sampling may leave of the URLs, given the draws. */
  ghost predicate IsSample(urls: seq<string>, cfg: Config, draws: seq<nat>, out: seq<string>)
    requires DrawsSuffice(|urls|, cfg, draws)
  {
    if Random(|urls|, cfg) then IsRandomSample(urls, SampleSize(|urls|, cfg), draws, out) else out == Sample(urls, cfg)
  }

  /** Percent wins over first_n; whatever the mode, the result has the advertised size and,
      for distinct URLs, keeps their order. */
  method ApplySampling(urls: seq<string>, cfg: Config, draws: seq<nat>) returns (out: seq<string>)
    requires DrawsSuffice(|urls|, cfg, draws)
    ensures |out| == SampleSize(|urls|, cfg)
    ensures !cfg.random || Distinct(urls) ==> Subsequence(out, urls)
    ensures IsSample(urls, cfg, draws, out)
    ensures !(0.0 < cfg.percent < 100.0) ==> out == if 0 < cfg.firstN < |urls| then urls[..cfg.firstN] else urls
    ensures 0.0 < cfg.percent < 100.0 ==>
      var keep := KeepCount(|urls|, cfg.percent);
      if keep >= |urls| then out == urls else |out| == keep && (!cfg.random ==> out == Strided(urls, keep))
  {
    if cfg.percent > 0.0 && cfg.percent < 100.0 {
      out := SamplePercent(urls, cfg.percent, cfg.random, draws);
      WholeIsSubsequence(urls);
      return;
    }
    if cfg.firstN > 0 && cfg.firstN < |urls| {
      PrefixIsSubsequence(urls, cfg.firstN);
      return urls[..cfg.firstN];
    }
    WholeIsSubsequence(urls);
    return urls;
  }
}
