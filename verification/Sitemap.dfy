/** Collecting page URLs from a possibly cyclic graph of sitemaps. */
module Sitemap {
  import opened Sequences

  /** A parsed sitemap: a urlset has pages only, an index nested sitemaps only. */
  datatype Fragment = Fragment(urls: seq<string>, indexes: seq<string>)

  /** What fetching answers; a URL that is not in the map fails. */
  type Web = map<string, Fragment>

  datatype Result<T> = Ok(value: T) | FetchError(url: string)

  /** The nested sitemaps that a fetched sitemap leads to. */
  function Children(web: Web, follow: bool, u: string): seq<string> {
    if follow && u in web then web[u].indexes else []
  }

  /** `u` can be reached from the root by following exactly `n` index entries. */
  ghost predicate ReachableIn(web: Web, follow: bool, root: string, u: string, n: nat)
    decreases n
  {
    if n == 0 then u == root
    else exists p :: ReachableIn(web, follow, root, p, n - 1) && u in Children(web, follow, p)
  }

  ghost predicate Reachable(web: Web, follow: bool, root: string, u: string) {
    exists n: nat :: ReachableIn(web, follow, root, u, n)
  }

  /** The length of a shortest path from the root. */
  ghost predicate IsDistance(web: Web, follow: bool, root: string, u: string, d: nat) {
    ReachableIn(web, follow, root, u, d) && forall n: nat :: n < d ==> !ReachableIn(web, follow, root, u, n)
  }

  // ---------------------------------------------------------------------
  // Deduplication
  // ---------------------------------------------------------------------

  method Dedup(s: seq<string>) returns (out: seq<string>)
    ensures out == FirstOccurrences(s)
  {
    var seen: set<string> := {};
    out := [];
    for i := 0 to |s|
      invariant out == FirstOccurrences(s[..i])
      invariant forall x :: x in seen <==> x in s[..i]
    {
      FirstOccurrencesNext(s, i);
      assert s[..i + 1] == s[..i] + [s[i]];
      if s[i] !in seen {
        seen := seen + {s[i]};
        out := out + [s[i]];
      }
    }
    assert s[..|s|] == s;
  }

  // ---------------------------------------------------------------------
  // The worklist
  // ---------------------------------------------------------------------

  /** The allowed pages of the sitemaps fetched so far, in fetch order. */
  function Pages(web: Web, allow: string -> bool, fetched: seq<string>): seq<string> {
    if fetched == [] then []
    else
      var last := fetched[|fetched| - 1];
      Pages(web, allow, fetched[..|fetched| - 1]) + if last in web then Filter(web[last].urls, allow) else []
  }

  /** The loop's state: `level` gives every fetched sitemap, and `depth` every queue entry,
      the length of the path by which it was found. */
  datatype Progress = Progress(fetched: seq<string>, level: map<string, nat>, queue: seq<string>, depth: seq<nat>)

  ghost predicate Shape(p: Progress) {
    && Distinct(p.fetched) && (forall u :: u in p.level <==> u in p.fetched) && |p.depth| == |p.queue|
  }

  /** Everything fetched or queued can be reached in that many steps. */
  ghost predicate Sound(web: Web, follow: bool, root: string, p: Progress)
    requires Shape(p)
  {
    && (forall u <- p.fetched :: u in web && ReachableIn(web, follow, root, u, p.level[u]))
    && (forall k :: 0 <= k < |p.queue| ==> ReachableIn(web, follow, root, p.queue[k], p.depth[k]))
  }

  /** Fetch order and queue go by non-decreasing depth, spanning one level at most. */
  ghost predicate Ordered(p: Progress)
    requires Shape(p)
  {
    && (forall i, j :: 0 <= i < j < |p.fetched| ==> p.level[p.fetched[i]] <= p.level[p.fetched[j]])
    && (forall i, j :: 0 <= i < j < |p.depth| ==> p.depth[i] <= p.depth[j] <= p.depth[0] + 1)
    && (forall i, k :: 0 <= i < |p.fetched| && 0 <= k < |p.depth| ==> p.level[p.fetched[i]] <= p.depth[k])
  }

  /** `v` has been found on a path of at most `d` steps. */
  ghost predicate Found(p: Progress, v: string, d: nat)
    requires Shape(p)
  {
    (v in p.level && p.level[v] <= d) || exists k :: 0 <= k < |p.queue| && p.queue[k] == v && p.depth[k] <= d
  }

  /** The root and whatever a fetched sitemap leads to have been found. */
  ghost predicate Covered(web: Web, follow: bool, root: string, p: Progress)
    requires Shape(p)
  {
    && Found(p, root, 0)
    && (forall u, v :: u in p.fetched && v in Children(web, follow, u) ==> Found(p, v, p.level[u] + 1))
  }

  ghost predicate Worklist(web: Web, follow: bool, root: string, p: Progress) {
    Shape(p) && Sound(web, follow, root, p) && Ordered(p) && Covered(web, follow, root, p)
  }

  /** Taking a sitemap off the queue that was fetched before. */
  ghost function Skip(p: Progress): Progress
    requires |p.queue| == |p.depth| > 0
  {
    p.(queue := p.queue[1..], depth := p.depth[1..])
  }

  /** Taking a new one off, fetching it and queueing its children one level further. */
  ghost function Fetch(web: Web, follow: bool, p: Progress): Progress
    requires |p.queue| == |p.depth| > 0
  {
    var children := Children(web, follow, p.queue[0]);
    Progress(p.fetched + [p.queue[0]], p.level[p.queue[0] := p.depth[0]],
             p.queue[1..] + children, p.depth[1..] + seq(|children|, _ => p.depth[0] + 1))
  }

  lemma StillFound(p: Progress, q: Progress, v: string, d: nat)
    requires Shape(p) && Shape(q) && |p.queue| > 0 && Found(p, v, d)
    requires forall u :: u in p.level ==> u in q.level && q.level[u] == p.level[u]
    requires p.queue[0] in q.level && q.level[p.queue[0]] <= p.depth[0]
    requires p.queue[1..] <= q.queue && p.depth[1..] <= q.depth
    ensures Found(q, v, d)
  {
    if !(v in p.level && p.level[v] <= d) {
      var k :| 0 <= k < |p.queue| && p.queue[k] == v && p.depth[k] <= d;
      if k > 0 {
        assert q.queue[k - 1] == p.queue[1..][k - 1] && q.depth[k - 1] == p.depth[1..][k - 1];
      }
    }
  }

  lemma {:induction false} SkipKeepsWorklist(web: Web, follow: bool, root: string, p: Progress)
    requires Worklist(web, follow, root, p) && |p.queue| > 0 && p.queue[0] in p.fetched
    ensures Worklist(web, follow, root, Skip(p))
  {
    var q := Skip(p);
    var i :| 0 <= i < |p.fetched| && p.fetched[i] == p.queue[0];
    assert p.level[p.fetched[i]] <= p.depth[0];
    StillFound(p, q, root, 0);
    forall u, v | u in q.fetched && v in Children(web, follow, u) ensures Found(q, v, q.level[u] + 1) {
      StillFound(p, q, v, p.level[u] + 1);
    }
  }

  lemma FetchShape(web: Web, follow: bool, p: Progress)
    requires Shape(p) && |p.queue| > 0 && p.queue[0] !in p.fetched
    ensures Shape(Fetch(web, follow, p))
  {}

  lemma FetchSound(web: Web, follow: bool, root: string, p: Progress)
    requires Shape(p) && Sound(web, follow, root, p) && |p.queue| > 0 && p.queue[0] !in p.fetched && p.queue[0] in web
    ensures Shape(Fetch(web, follow, p)) && Sound(web, follow, root, Fetch(web, follow, p))
  {
    FetchShape(web, follow, p);
    var q := Fetch(web, follow, p);
    forall k | 0 <= k < |q.queue| ensures ReachableIn(web, follow, root, q.queue[k], q.depth[k]) {
      if k < |p.queue| - 1 {
        assert q.queue[k] == p.queue[k + 1] && q.depth[k] == p.depth[k + 1];
      } else {
        assert q.queue[k] in Children(web, follow, p.queue[0]) && q.depth[k] == p.depth[0] + 1;
        assert ReachableIn(web, follow, root, p.queue[0], p.depth[0]);
      }
    }
  }

  lemma FetchOrdered(web: Web, follow: bool, p: Progress)
    requires Shape(p) && Ordered(p) && |p.queue| > 0 && p.queue[0] !in p.fetched
    ensures Shape(Fetch(web, follow, p)) && Ordered(Fetch(web, follow, p))
  {
    FetchShape(web, follow, p);
    var q := Fetch(web, follow, p);
    var d := p.depth[0];
    forall k | 0 <= k < |q.depth| ensures d <= q.depth[k] <= d + 1 {
      if k < |p.depth| - 1 {
        assert q.depth[k] == p.depth[k + 1];
      }
    }
    forall i | 0 <= i < |q.fetched| ensures q.level[q.fetched[i]] <= d {
      if i < |p.fetched| {
        assert q.fetched[i] == p.fetched[i];
      }
    }
  }

  lemma FetchCovered(web: Web, follow: bool, root: string, p: Progress)
    requires Shape(p) && Covered(web, follow, root, p) && |p.queue| > 0 && p.queue[0] !in p.fetched
    ensures Shape(Fetch(web, follow, p)) && Covered(web, follow, root, Fetch(web, follow, p))
  {
    FetchShape(web, follow, p);
    var q := Fetch(web, follow, p);
    var children := Children(web, follow, p.queue[0]);
    StillFound(p, q, root, 0);
    forall u, v | u in q.fetched && v in Children(web, follow, u) ensures Found(q, v, q.level[u] + 1) {
      if u == p.queue[0] {
        var c :| 0 <= c < |children| && children[c] == v;
        var k := |p.queue| - 1 + c;
        assert q.queue[k] == v && q.depth[k] == p.depth[0] + 1;
      } else {
        StillFound(p, q, v, p.level[u] + 1);
      }
    }
  }

  lemma FetchKeepsWorklist(web: Web, follow: bool, root: string, p: Progress)
    requires Worklist(web, follow, root, p) && |p.queue| > 0 && p.queue[0] !in p.fetched && p.queue[0] in web
    ensures Worklist(web, follow, root, Fetch(web, follow, p))
  {
    FetchSound(web, follow, root, p);
    FetchOrdered(web, follow, p);
    FetchCovered(web, follow, root, p);
  }

  // ---------------------------------------------------------------------
  // The end of the search
  // ---------------------------------------------------------------------

  /** With an empty queue, every path is covered, by a level no longer than it is. */
  lemma {:induction false} PathsCovered(web: Web, follow: bool, root: string, p: Progress, u: string, n: nat)
    requires Worklist(web, follow, root, p) && p.queue == [] && ReachableIn(web, follow, root, u, n)
    ensures u in p.fetched && p.level[u] <= n
    decreases n
  {
    if n == 0 {
      assert Found(p, root, 0);
    } else {
      var parent :| ReachableIn(web, follow, root, parent, n - 1) && u in Children(web, follow, parent);
      PathsCovered(web, follow, root, p, parent, n - 1);
      assert Found(p, u, p.level[parent] + 1);
    }
  }

  lemma LevelIsDistance(web: Web, follow: bool, root: string, p: Progress, u: string)
    requires Worklist(web, follow, root, p) && p.queue == [] && u in p.fetched
    ensures IsDistance(web, follow, root, u, p.level[u])
  {
    forall n: nat | n < p.level[u] ensures !ReachableIn(web, follow, root, u, n) {
      if ReachableIn(web, follow, root, u, n) {
        PathsCovered(web, follow, root, p, u, n);
      }
    }
  }

  /** Sitemaps further along were not closer to the root. */
  ghost predicate ByDistance(web: Web, follow: bool, root: string, fetched: seq<string>) {
    forall i, j, d, e ::
      (&& 0 <= i < j < |fetched|
       && IsDistance(web, follow, root, fetched[i], d) && IsDistance(web, follow, root, fetched[j], e))
      ==> d <= e
  }

  lemma {:induction false} SearchComplete(web: Web, follow: bool, root: string, p: Progress)
    requires Worklist(web, follow, root, p) && p.queue == []
    ensures forall u :: u in p.fetched <==> Reachable(web, follow, root, u)
    ensures ByDistance(web, follow, root, p.fetched)
  {
    forall u | Reachable(web, follow, root, u) ensures u in p.fetched {
      var n: nat :| ReachableIn(web, follow, root, u, n);
      PathsCovered(web, follow, root, p, u, n);
    }
    forall i, j, d, e | 0 <= i < j < |p.fetched| && IsDistance(web, follow, root, p.fetched[i], d)
                        && IsDistance(web, follow, root, p.fetched[j], e)
      ensures d <= e
    {
      LevelIsDistance(web, follow, root, p, p.fetched[i]);
      LevelIsDistance(web, follow, root, p, p.fetched[j]);
      assert d == p.level[p.fetched[i]] && e == p.level[p.fetched[j]];
    }
  }

  // ---------------------------------------------------------------------
  // The order of the search
  // ---------------------------------------------------------------------

  /** The root and the index entries of the sitemaps fetched so far, in fetch and document order. */
  function Entries(web: Web, follow: bool, root: string, fetched: seq<string>): seq<string> {
    if fetched == [] then [root]
    else
      var last := fetched[|fetched| - 1];
      Entries(web, follow, root, fetched[..|fetched| - 1]) + if follow && last in web then web[last].indexes else []
  }

  lemma EntriesNext(web: Web, follow: bool, root: string, fetched: seq<string>, u: string)
    ensures Entries(web, follow, root, fetched + [u]) == Entries(web, follow, root, fetched) + Children(web, follow, u)
  {
    assert (fetched + [u])[..|fetched|] == fetched;
  }

  /** What was queued so far splits into what was taken off and the queue; the sitemaps
      fetched are those taken off, without the repetitions. */
  ghost predicate Queued(web: Web, follow: bool, root: string, fetched: seq<string>, taken: seq<string>,
                         queue: seq<string>)
  {
    Entries(web, follow, root, fetched) == taken + queue && fetched == FirstOccurrences(taken)
  }

  lemma TakenOff(web: Web, follow: bool, root: string, fetched: seq<string>, taken: seq<string>, queue: seq<string>)
    requires Queued(web, follow, root, fetched, taken, queue) && queue != []
    ensures queue[0] in fetched ==> Queued(web, follow, root, fetched, taken + [queue[0]], queue[1..])
    ensures queue[0] !in fetched ==>
      Queued(web, follow, root, fetched + [queue[0]], taken + [queue[0]], queue[1..] + Children(web, follow, queue[0]))
  {
    var u := queue[0];
    HeadShifts(taken, queue);
    SeenBefore(taken, u);
    if u !in fetched {
      EntriesNext(web, follow, root, fetched, u);
      TailGrows(taken + [u], queue[1..], Children(web, follow, u));
    }
  }

  lemma HeadShifts(taken: seq<string>, queue: seq<string>)
    requires queue != []
    ensures taken + queue == (taken + [queue[0]]) + queue[1..]
  {}

  lemma TailGrows(a: seq<string>, b: seq<string>, c: seq<string>)
    ensures (a + b) + c == a + (b + c)
  {}

  lemma SeenBefore(taken: seq<string>, u: string)
    ensures FirstOccurrences(taken + [u]) == FirstOccurrences(taken) + if u in FirstOccurrences(taken) then [] else [u]
  {
    assert (taken + [u])[..|taken|] == taken;
    FirstOccurrencesFacts(taken);
  }

  /** The pages are those of one fetched sitemap after the other. */
  lemma {:induction false} PagesConcatenate(web: Web, allow: string -> bool, a: seq<string>, b: seq<string>)
    ensures Pages(web, allow, a + b) == Pages(web, allow, a) + Pages(web, allow, b)
    decreases b
  {
    if b == [] {
      assert a + b == a;
    } else {
      var front, last := b[..|b| - 1], b[|b| - 1];
      assert (a + b)[..|a + b| - 1] == a + front;
      PagesConcatenate(web, allow, a, front);
      TailGrows(Pages(web, allow, a), Pages(web, allow, front),
                if last in web then Filter(web[last].urls, allow) else []);
    }
  }

  lemma PagesOfOne(web: Web, allow: string -> bool, u: string)
    requires u in web
    ensures Selects(Pages(web, allow, [u]), web[u].urls, allow)
  {
    assert [u][..0] == [];
    FilterSelects(web[u].urls, allow);
    assert Pages(web, allow, [u]) == Filter(web[u].urls, allow);
  }

  /** Some fetched sitemap lists this page. */
  predicate Listed(web: Web, fetched: seq<string>, u: string) {
    exists f <- fetched :: f in web && u in web[f].urls
  }

  lemma CollectedPages(web: Web, allow: string -> bool, fetched: seq<string>)
    ensures var out := FirstOccurrences(Pages(web, allow, fetched));
      Distinct(out) && forall u :: u in out <==> allow(u) && Listed(web, fetched, u)
  {
    var all := Pages(web, allow, fetched);
    FirstOccurrencesFacts(all);
    forall u ensures u in FirstOccurrences(all) <==> allow(u) && Listed(web, fetched, u) {
      PagesMembers(web, allow, fetched, u);
    }
  }

  lemma {:induction false} PagesMembers(web: Web, allow: string -> bool, fetched: seq<string>, u: string)
    ensures u in Pages(web, allow, fetched) <==> allow(u) && Listed(web, fetched, u)
  {
    if fetched != [] {
      var front := fetched[..|fetched| - 1];
      assert fetched == front + [fetched[|fetched| - 1]];
      PagesMembers(web, allow, front, u);
    }
  }

  /** Breadth-first over the sitemap graph, cyclic or not. It succeeds exactly if every
      reachable sitemap can be fetched; then it has fetched each of them once, by
      non-decreasing distance from the root, and returns the allowed pages in that order
      without repetitions. Among sitemaps at the same distance the index entries decide: the
      fetch order is the root and the entries of the sitemaps fetched, one after the other,
      without the repetitions. A failure names a reachable sitemap that cannot be
      fetched. */
  method CollectURLs(web: Web, root: string, follow: bool, allow: string -> bool)
    returns (r: Result<seq<string>>, fetched: seq<string>)
    ensures r.Ok? <==> forall u :: Reachable(web, follow, root, u) ==> u in web
    ensures r.FetchError? ==> r.url !in web && Reachable(web, follow, root, r.url)
    ensures Distinct(fetched) && forall u <- fetched :: Reachable(web, follow, root, u) && u in web
    ensures r.Ok? ==> forall u :: u in fetched <==> Reachable(web, follow, root, u)
    ensures r.Ok? ==> ByDistance(web, follow, root, fetched)
    ensures r.Ok? ==> fetched == FirstOccurrences(Entries(web, follow, root, fetched))
    ensures r.Ok? ==> r.value == FirstOccurrences(Pages(web, allow, fetched))
    ensures r.Ok? ==> Distinct(r.value) && forall u :: u in r.value <==> allow(u) && Listed(web, fetched, u)
  {
    var visited: set<string> := {};
    var queue := [root];
    var allURLs: seq<string> := [];
    fetched := [];
    ghost var p := Progress([], map[], [root], [0]);
    ghost var taken: seq<string> := [];
    InitialWorklist(web, follow, root);
    while |queue| > 0
      invariant Worklist(web, follow, root, p) && p.queue == queue && p.fetched == fetched
      invariant forall u :: u in visited <==> u in fetched
      invariant Queued(web, follow, root, fetched, taken, queue)
      invariant allURLs == Pages(web, allow, fetched)
      decreases |web.Keys - visited|, |queue|
    {
      TakenOff(web, follow, root, fetched, taken, queue);
      var next := queue[0];
      taken := taken + [next];
      queue := queue[1..];
      if next in visited {
        SkipKeepsWorklist(web, follow, root, p);
        p := Skip(p);
        continue;
      }
      ghost var before := visited;
      visited := visited + {next};
      if next !in web {
        assert ReachableIn(web, follow, root, next, p.depth[0]);
        FetchedReachable(web, follow, root, p);
        return FetchError(next), fetched;
      }
      FewerUnvisited(web.Keys, before, next);
      FetchKeepsWorklist(web, follow, root, p);
      p := Fetch(web, follow, p);
      PagesNext(web, allow, fetched, next);
      fetched := fetched + [next];
      allURLs := AppendAllowed(allURLs, web[next].urls, allow);
      if follow {
        queue := queue + web[next].indexes;
      }
    }
    SearchComplete(web, follow, root, p);
    var urls := Dedup(allURLs);
    r := Ok(urls);
    CollectedPages(web, allow, fetched);
    assert taken + [] == taken;
  }

  lemma PagesNext(web: Web, allow: string -> bool, fetched: seq<string>, u: string)
    requires u in web
    ensures Pages(web, allow, fetched + [u]) == Pages(web, allow, fetched) + Filter(web[u].urls, allow)
  {
    assert (fetched + [u])[..|fetched|] == fetched;
  }

  lemma FewerUnvisited(all: set<string>, visited: set<string>, u: string)
    requires u in all && u !in visited
    ensures |all - (visited + {u})| < |all - visited|
  {
    assert all - visited == (all - (visited + {u})) + {u};
  }

  lemma InitialWorklist(web: Web, follow: bool, root: string)
    ensures Worklist(web, follow, root, Progress([], map[], [root], [0]))
  {
    var p := Progress([], map[], [root], [0]);
    assert p.queue[0] == root && p.depth[0] == 0;
    assert ReachableIn(web, follow, root, root, 0);
  }

  lemma FetchedReachable(web: Web, follow: bool, root: string, p: Progress)
    requires Shape(p) && Sound(web, follow, root, p)
    ensures forall u <- p.fetched :: Reachable(web, follow, root, u) && u in web
  {
    forall u <- p.fetched ensures Reachable(web, follow, root, u) {
      assert ReachableIn(web, follow, root, u, p.level[u]);
    }
  }

  /** Appends the pages that pass the URL filter. */
  method AppendAllowed(all: seq<string>, urls: seq<string>, allow: string -> bool) returns (out: seq<string>)
    ensures out == all + Filter(urls, allow)
    ensures all <= out && Selects(out[|all|..], urls, allow)
  {
    out := all;
    for i := 0 to |urls|
      invariant out == all + Filter(urls[..i], allow)
    {
      FilterNext(urls, i, allow);
      if allow(urls[i]) {
        out := out + [urls[i]];
      }
    }
    assert urls[..|urls|] == urls;
    FilterSelects(urls, allow);
    assert out[|all|..] == Filter(urls, allow);
  }

  /** Without follow_index only the root is ever fetched. */
  lemma OnlyRootWithoutFollow(web: Web, root: string, u: string)
    ensures Reachable(web, false, root, u) <==> u == root
  {
    assert ReachableIn(web, false, root, root, 0);
    assert forall parent :: u !in Children(web, false, parent);
    assert forall n: nat :: ReachableIn(web, false, root, u, n) ==> n == 0;
  }
}
