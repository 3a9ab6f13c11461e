/** Filters and subsequences. */
module Sequences {

  function Filter<T(!new)>(s: seq<T>, p: T -> bool): (r: seq<T>)
    ensures forall x :: x in r <==> x in s && p(x)
  {
    if s == [] then []
    else
      var last := s[|s| - 1];
      assert s == s[..|s| - 1] + [last];
      Filter(s[..|s| - 1], p) + if p(last) then [last] else []
  }

  /** What one more element adds to a filtered prefix. */
  lemma FilterNext<T(!new)>(s: seq<T>, i: nat, p: T -> bool)
    requires i < |s|
    ensures Filter(s[..i + 1], p) == Filter(s[..i], p) + if p(s[i]) then [s[i]] else []
  {
    assert s[..i + 1][..i] == s[..i];
  }

  lemma FilterSnoc<T(!new)>(s: seq<T>, x: T, p: T -> bool)
    ensures Filter(s + [x], p) == Filter(s, p) + if p(x) then [x] else []
  {
    assert (s + [x])[..|s|] == s;
  }

  /** `ys` is `xs` with `f` applied to every element. */
  predicate IsImage<A, B(==)>(f: A -> B, xs: seq<A>, ys: seq<B>) {
    |xs| == |ys| && forall i :: 0 <= i < |xs| ==> ys[i] == f(xs[i])
  }

  lemma ImageSnoc<A, B>(f: A -> B, xs: seq<A>, ys: seq<B>, x: A)
    requires IsImage(f, xs, ys)
    ensures IsImage(f, xs + [x], ys + [f(x)])
  {}

  predicate Distinct<T(==)>(s: seq<T>) {
    forall i, j :: 0 <= i < j < |s| ==> s[i] != s[j]
  }

  predicate Increasing(idx: seq<nat>) {
    forall i, j :: 0 <= i < j < |idx| ==> idx[i] < idx[j]
  }

  /** `a` consists of the elements of `b` at the positions `idx`. */
  predicate PickedAt<T(==)>(a: seq<T>, b: seq<T>, idx: seq<nat>) {
    |idx| == |a| && forall k :: 0 <= k < |a| ==> idx[k] < |b| && a[k] == b[idx[k]]
  }

  ghost predicate Subsequence<T>(a: seq<T>, b: seq<T>) {
    exists idx :: Increasing(idx) && PickedAt(a, b, idx)
  }

  lemma WholeIsSubsequence<T>(a: seq<T>)
    ensures Subsequence(a, a)
  {
    var idx: seq<nat> := seq(|a|, k => k);
    assert Increasing(idx) && PickedAt(a, a, idx);
  }

  lemma PrefixIsSubsequence<T>(a: seq<T>, n: nat)
    requires n <= |a|
    ensures Subsequence(a[..n], a)
  {
    var idx: seq<nat> := seq(n, k => k);
    assert Increasing(idx) && PickedAt(a[..n], a, idx);
  }

  lemma SubsequenceTransitive<T>(a: seq<T>, b: seq<T>, c: seq<T>)
    requires Subsequence(a, b) && Subsequence(b, c)
    ensures Subsequence(a, c)
  {
    var ab: seq<nat> :| Increasing(ab) && PickedAt(a, b, ab);
    var bc: seq<nat> :| Increasing(bc) && PickedAt(b, c, bc);
    var ac: seq<nat> := seq(|a|, k requires 0 <= k < |a| => bc[ab[k]]);
    assert Increasing(ac) && PickedAt(a, c, ac);
  }

  lemma SubsequenceExtends<T>(a: seq<T>, b: seq<T>, x: T)
    requires Subsequence(a, b)
    ensures Subsequence(a, b + [x]) && Subsequence(a + [x], b + [x])
  {
    var idx: seq<nat> :| Increasing(idx) && PickedAt(a, b, idx);
    assert PickedAt(a, b + [x], idx);
    var more := idx + [|b|];
    assert Increasing(more) && PickedAt(a + [x], b + [x], more);
  }

  lemma {:induction false} FilterIsSubsequence<T(!new)>(s: seq<T>, p: T -> bool)
    ensures Subsequence(Filter(s, p), s)
  {
    if s == [] {
      WholeIsSubsequence(s);
    } else {
      var front, last := s[..|s| - 1], s[|s| - 1];
      assert s == front + [last];
      FilterIsSubsequence(front, p);
      SubsequenceExtends(Filter(front, p), front, last);
    }
  }

  /** `out` consists of those elements of `s` that pass, in their order. */
  ghost predicate Selects<T(!new)>(out: seq<T>, s: seq<T>, p: T -> bool) {
    Subsequence(out, s) && forall x :: multiset(out)[x] == if p(x) then multiset(s)[x] else 0
  }

  lemma FilterSelects<T(!new)>(s: seq<T>, p: T -> bool)
    ensures Selects(Filter(s, p), s, p)
  {
    FilterIsSubsequence(s, p);
    forall x ensures multiset(Filter(s, p))[x] == if p(x) then multiset(s)[x] else 0 {
      FilterMultiplicity(s, p, x);
    }
  }

  lemma {:induction false} FilterMultiplicity<T(!new)>(s: seq<T>, p: T -> bool, x: T)
    ensures multiset(Filter(s, p))[x] == if p(x) then multiset(s)[x] else 0
  {
    if s != [] {
      var front := s[..|s| - 1];
      assert s == front + [s[|s| - 1]];
      FilterMultiplicity(front, p, x);
    }
  }

  /** How many elements pass a filter does not depend on their order. */
  lemma FilterPermutation<T(!new)>(a: seq<T>, b: seq<T>, p: T -> bool)
    requires multiset(a) == multiset(b)
    ensures |Filter(a, p)| == |Filter(b, p)|
  {
    forall x ensures multiset(Filter(a, p))[x] == multiset(Filter(b, p))[x] {
      FilterMultiplicity(a, p, x);
      FilterMultiplicity(b, p, x);
    }
    assert multiset(Filter(a, p)) == multiset(Filter(b, p));
    assert |multiset(Filter(a, p))| == |Filter(a, p)| && |multiset(Filter(b, p))| == |Filter(b, p)|;
  }

  /** Filters by three mutually exclusive, exhaustive predicates split the length. */
  lemma {:induction false} FiltersSplit<T(!new)>(s: seq<T>, p: T -> bool, q: T -> bool, r: T -> bool)
    requires forall x <- s :: (if p(x) then 1 else 0) + (if q(x) then 1 else 0) + (if r(x) then 1 else 0) == 1
    ensures |Filter(s, p)| + |Filter(s, q)| + |Filter(s, r)| == |s|
  {
    if s != [] {
      assert s[|s| - 1] in s;
      assert forall x <- s[..|s| - 1] :: x in s;
      FiltersSplit(s[..|s| - 1], p, q, r);
    }
  }

  // ---------------------------------------------------------------------
  // Stable insertion sort by a key
  // ---------------------------------------------------------------------

  predicate SortedBy<T>(s: seq<T>, key: T -> int) {
    forall i, j :: 0 <= i < j < |s| ==> key(s[i]) <= key(s[j])
  }

  /** Puts `x` right behind the last element that is not larger. */
  function InsertSorted<T>(s: seq<T>, x: T, key: T -> int): (r: seq<T>)
    ensures multiset(r) == multiset(s) + multiset{x} && |r| == |s| + 1
  {
    if s == [] || key(s[|s| - 1]) <= key(x) then s + [x]
    else
      assert s == s[..|s| - 1] + [s[|s| - 1]];
      InsertSorted(s[..|s| - 1], x, key) + [s[|s| - 1]]
  }

  lemma {:induction false} InsertKeepsSorted<T>(s: seq<T>, x: T, key: T -> int)
    requires SortedBy(s, key)
    ensures SortedBy(InsertSorted(s, x, key), key)
  {
    var r := InsertSorted(s, x, key);
    if s != [] && key(s[|s| - 1]) > key(x) {
      InsertKeepsSorted(s[..|s| - 1], x, key);
      forall i | 0 <= i < |r| - 1 ensures key(r[i]) <= key(r[|r| - 1]) {
        assert r[i] in multiset(r[..|r| - 1]);
        assert r[..|r| - 1] == InsertSorted(s[..|s| - 1], x, key);
      }
    }
  }

  function SortBy<T>(s: seq<T>, key: T -> int): (r: seq<T>)
    ensures SortedBy(r, key) && multiset(r) == multiset(s) && |r| == |s|
  {
    if s == [] then []
    else
      assert s == s[..|s| - 1] + [s[|s| - 1]];
      InsertKeepsSorted(SortBy(s[..|s| - 1], key), s[|s| - 1], key);
      InsertSorted(SortBy(s[..|s| - 1], key), s[|s| - 1], key)
  }

  // ---------------------------------------------------------------------
  // Distinct elements
  // ---------------------------------------------------------------------

  lemma {:induction false} DistinctMultiplicity<T>(s: seq<T>, x: T)
    requires Distinct(s)
    ensures multiset(s)[x] <= 1
  {
    if s != [] {
      var front, last := s[..|s| - 1], s[|s| - 1];
      assert s == front + [last];
      DistinctMultiplicity(front, x);
      if last == x {
        assert x !in front;
      }
    }
  }

  lemma PermutationKeepsDistinct<T>(s: seq<T>, r: seq<T>)
    requires Distinct(s) && multiset(r) == multiset(s)
    ensures Distinct(r)
  {
    forall i, j | 0 <= i < j < |r| ensures r[i] != r[j] {
      assert r == r[..j] + [r[j]] + r[j + 1..];
      assert multiset(r) == multiset(r[..j]) + multiset{r[j]} + multiset(r[j + 1..]);
      DistinctMultiplicity(s, r[j]);
      assert r[..j][i] == r[i];
    }
  }

  function FirstIndex<T(==)>(s: seq<T>, x: T): (i: nat)
    requires x in s
    ensures i < |s| && s[i] == x && x !in s[..i]
  {
    if s[0] == x then 0
    else
      var i := FirstIndex(s[1..], x);
      assert forall k :: 0 <= k < i ==> s[1..][..i][k] == s[..i + 1][k + 1];
      i + 1
  }

  lemma {:induction false} FirstIndexLeast<T>(s: seq<T>, i: nat)
    requires i < |s|
    ensures FirstIndex(s, s[i]) <= i
    ensures s[i] !in s[..i] ==> FirstIndex(s, s[i]) == i
  {
    if s[0] != s[i] {
      assert s[1..][i - 1] == s[i];
      FirstIndexLeast(s[1..], i - 1);
    }
    var k := FirstIndex(s, s[i]);
    if k < i {
      assert s[..i][k] == s[i];
    }
  }

  /** Keeps the first occurrence of every element. */
  function FirstOccurrences<T(==)>(s: seq<T>): (out: seq<T>)
    ensures |out| <= |s|
  {
    if s == [] then []
    else
      var front, last := s[..|s| - 1], s[|s| - 1];
      FirstOccurrences(front) + if last in front then [] else [last]
  }

  /** The same elements, none twice, in the order in which they first appear. */
  lemma {:induction false} FirstOccurrencesFacts<T(!new)>(s: seq<T>)
    ensures var out := FirstOccurrences(s);
      && Distinct(out) && Subsequence(out, s) && (forall x :: x in out <==> x in s)
      && forall i, j :: 0 <= i < j < |out| ==> FirstIndex(s, out[i]) < FirstIndex(s, out[j])
  {
    if s == [] {
      WholeIsSubsequence(s);
    } else {
      var front, last := s[..|s| - 1], s[|s| - 1];
      var out, fore := FirstOccurrences(s), FirstOccurrences(front);
      assert s == front + [last];
      FirstOccurrencesFacts(front);
      SubsequenceExtends(fore, front, last);
      forall i | 0 <= i < |fore| ensures FirstIndex(s, fore[i]) == FirstIndex(front, fore[i]) < |front| {
        assert fore[i] in front;
        FirstIndexExtends(front, last, fore[i]);
      }
      if last !in front {
        FirstIndexLeast(s, |front|);
      }
    }
  }

  lemma FirstIndexExtends<T>(s: seq<T>, x: T, y: T)
    requires y in s
    ensures FirstIndex(s + [x], y) == FirstIndex(s, y)
  {
    var i := FirstIndex(s, y);
    assert (s + [x])[..i] == s[..i] && (s + [x])[i] == y;
    FirstIndexLeast(s + [x], i);
  }

  /** One more element, new or seen before. */
  lemma FirstOccurrencesNext<T>(s: seq<T>, i: nat)
    requires i < |s|
    ensures FirstOccurrences(s[..i + 1]) == FirstOccurrences(s[..i]) + if s[i] in s[..i] then [] else [s[i]]
  {
    assert s[..i + 1][..i] == s[..i];
  }

  lemma {:induction false} FirstOccurrencesPrefix<T>(s: seq<T>, i: nat)
    requires i <= |s|
    ensures FirstOccurrences(s[..i]) <= FirstOccurrences(s)
    decreases |s| - i
  {
    if i == |s| {
      assert s[..i] == s;
    } else {
      FirstOccurrencesNext(s, i);
      FirstOccurrencesPrefix(s, i + 1);
    }
  }

  lemma {:induction false} DistinctIsFirstOccurrences<T>(s: seq<T>)
    requires Distinct(s)
    ensures FirstOccurrences(s) == s
  {
    if s != [] {
      var front := s[..|s| - 1];
      assert s == front + [s[|s| - 1]];
      DistinctIsFirstOccurrences(front);
    }
  }
}
