/** The cartesian expansion of a URL's applicable axis values. */
module Combos {

  // ---------------------------------------------------------------------
  // Mixed-radix digits
  // ---------------------------------------------------------------------

  function Product(lens: seq<nat>): nat {
    if lens == [] then 1 else lens[0] * Product(lens[1..])
  }

  /** `d` picks one index per axis. */
  predicate IsIndex(lens: seq<nat>, d: seq<nat>) {
    |d| == |lens| && forall j :: 0 <= j < |d| ==> d[j] < lens[j]
  }

  /** The digits of `k`, most significant first, in the radices `lens`. */
  function Digits(lens: seq<nat>, k: nat): (d: seq<nat>)
    requires k < Product(lens)
    ensures |d| == |lens|
  {
    if lens == [] then []
    else
      var rest := Product(lens[1..]);
      DivModBounds(lens[0], rest, k);
      [k / rest] + Digits(lens[1..], k % rest)
  }

  /** The position of an index in lexicographic order. */
  function Rank(lens: seq<nat>, d: seq<nat>): nat
    requires IsIndex(lens, d)
  {
    if lens == [] then 0 else d[0] * Product(lens[1..]) + Rank(lens[1..], d[1..])
  }

  predicate LexLess(a: seq<nat>, b: seq<nat>)
    requires |a| == |b|
  {
    a != [] && (a[0] < b[0] || (a[0] == b[0] && LexLess(a[1..], b[1..])))
  }

  lemma DivModBounds(a: nat, b: nat, k: nat)
    requires k < a * b
    ensures b > 0 && k / b < a && k % b < b && k == (k / b) * b + k % b
  {
    if k / b >= a {
      MulMonotone(a, k / b, b);
    }
  }

  lemma MulMonotone(a: nat, b: nat, c: nat)
    requires a <= b
    ensures a * c <= b * c
  {}

  lemma DivModUnique(q: nat, b: nat, r: nat)
    requires r < b
    ensures (q * b + r) / b == q && (q * b + r) % b == r
  {
    var k := q * b + r;
    assert k == (k / b) * b + k % b;
    if k / b < q {
      MulMonotone(k / b + 1, q, b);
    } else if k / b > q {
      MulMonotone(q + 1, k / b, b);
    }
  }

  lemma DigitFits(q: nat, a: nat, b: nat, r: nat)
    requires q < a && r < b
    ensures q * b + r < a * b
  {
    MulMonotone(q + 1, a, b);
    assert (q + 1) * b == q * b + b;
  }

  lemma {:induction false} DigitsAreIndex(lens: seq<nat>, k: nat)
    requires k < Product(lens)
    ensures IsIndex(lens, Digits(lens, k)) && Rank(lens, Digits(lens, k)) == k
  {
    if lens != [] {
      var rest := Product(lens[1..]);
      DivModBounds(lens[0], rest, k);
      DigitsAreIndex(lens[1..], k % rest);
      assert Digits(lens, k)[1..] == Digits(lens[1..], k % rest);
    }
  }

  lemma {:induction false} RankInRange(lens: seq<nat>, d: seq<nat>)
    requires IsIndex(lens, d)
    ensures Rank(lens, d) < Product(lens) && Digits(lens, Rank(lens, d)) == d
  {
    if lens != [] {
      var rest, low := Product(lens[1..]), Rank(lens[1..], d[1..]);
      RankInRange(lens[1..], d[1..]);
      DigitFits(d[0], lens[0], rest, low);
      assert Rank(lens, d) < Product(lens);
      DivModUnique(d[0], rest, low);
      assert Digits(lens, Rank(lens, d)) == [d[0]] + Digits(lens[1..], low);
    }
  }

  lemma DivMonotone(k: nat, m: nat, b: nat)
    requires k < m && b > 0
    ensures k / b < m / b || (k / b == m / b && k % b < m % b)
  {
    if k / b > m / b {
      MulMonotone(m / b + 1, k / b, b);
    }
  }

  /** Counting up walks through the indices in lexicographic order. */
  lemma {:induction false} DigitsLexicographic(lens: seq<nat>, k: nat, m: nat)
    requires k < m < Product(lens)
    ensures LexLess(Digits(lens, k), Digits(lens, m))
  {
    if lens != [] {
      var rest := Product(lens[1..]);
      DivModBounds(lens[0], rest, k);
      DivModBounds(lens[0], rest, m);
      DivMonotone(k, m, rest);
      assert Digits(lens, k)[1..] == Digits(lens[1..], k % rest);
      assert Digits(lens, m)[1..] == Digits(lens[1..], m % rest);
      if k / rest == m / rest {
        DigitsLexicographic(lens[1..], k % rest, m % rest);
      }
    }
  }

  // ---------------------------------------------------------------------
  // Combinations
  // ---------------------------------------------------------------------

  function Lens<V>(axes: seq<seq<V>>): (lens: seq<nat>)
    ensures |lens| == |axes| && forall j :: 0 <= j < |axes| ==> lens[j] == |axes[j]|
  {
    seq(|axes|, (j: nat) requires j < |axes| => |axes[j]|)
  }

  function Size<V>(axes: seq<seq<V>>): nat {
    Product(Lens(axes))
  }

  /** The k-th combination: the values at the mixed-radix digits of `k`. */
  function Combo<V>(axes: seq<seq<V>>, k: nat): (c: seq<V>)
    requires k < Size(axes)
    ensures |c| == |axes|
  {
    DigitsAreIndex(Lens(axes), k);
    seq(|axes|, (j: nat) requires j < |axes| => axes[j][Digits(Lens(axes), k)[j]])
  }

  /** All combinations, in the order they are visited. */
  function AllCombos<V>(axes: seq<seq<V>>): (all: seq<seq<V>>)
    ensures |all| == Size(axes)
  {
    seq(Size(axes), (k: nat) requires k < Size(axes) => Combo(axes, k))
  }

  /** What the k-th visit sees: on each axis the value at the k-th index in lexicographic order. */
  lemma CombosInOrder<V>(axes: seq<seq<V>>, k: nat, m: nat)
    requires k < m < Size(axes)
    ensures var d, e := Digits(Lens(axes), k), Digits(Lens(axes), m);
      && LexLess(d, e)
      && (forall j :: 0 <= j < |axes| ==> d[j] < |axes[j]| && AllCombos(axes)[k][j] == axes[j][d[j]])
      && (forall j :: 0 <= j < |axes| ==> e[j] < |axes[j]| && AllCombos(axes)[m][j] == axes[j][e[j]])
  {
    DigitsAreIndex(Lens(axes), k);
    DigitsAreIndex(Lens(axes), m);
    DigitsLexicographic(Lens(axes), k, m);
  }

  /** The visited combinations are exactly the choices of one value per axis: every
      visited combination is one, and every one is visited. */
  lemma CombosAreTheProduct<V>(axes: seq<seq<V>>, c: seq<V>)
    ensures c in AllCombos(axes) <==> |c| == |axes| && forall j :: 0 <= j < |axes| ==> c[j] in axes[j]
  {
    if c in AllCombos(axes) {
      var k :| 0 <= k < Size(axes) && AllCombos(axes)[k] == c;
      DigitsAreIndex(Lens(axes), k);
    }
    if |c| == |axes| && forall j :: 0 <= j < |axes| ==> c[j] in axes[j] {
      var d := seq(|axes|, (j: nat) requires j < |axes| => Position(axes[j], c[j]));
      RankInRange(Lens(axes), d);
      var k := Rank(Lens(axes), d);
      assert Combo(axes, k) == c;
      assert AllCombos(axes)[k] == c;
    }
  }

  ghost function Position<V>(s: seq<V>, v: V): (i: nat)
    requires v in s
    ensures i < |s| && s[i] == v
  {
    if s[0] == v then 0 else Position(s[1..], v) + 1
  }

  lemma LensTail<V>(axes: seq<seq<V>>)
    requires axes != []
    ensures Lens(axes)[1..] == Lens(axes[1..])
    ensures Size(axes) == |axes[0]| * Size(axes[1..])
  {
    assert Lens(axes)[1..] == Lens(axes[1..]);
  }

  /** Fixing the first value and counting through the rest. */
  lemma ComboSplit<V>(axes: seq<seq<V>>, i: nat, k: nat)
    requires axes != [] && i < |axes[0]| && k < Size(axes[1..])
    ensures i * Size(axes[1..]) + k < Size(axes)
    ensures Combo(axes, i * Size(axes[1..]) + k) == [axes[0][i]] + Combo(axes[1..], k)
  {
    var rest := Size(axes[1..]);
    LensTail(axes);
    DigitFits(i, |axes[0]|, rest, k);
    DivModUnique(i, rest, k);
    var d := Digits(Lens(axes), i * rest + k);
    assert d == [i] + Digits(Lens(axes[1..]), k);
    var c, t := Combo(axes, i * rest + k), Combo(axes[1..], k);
    forall j | 0 <= j < |axes| ensures c[j] == ([axes[0][i]] + t)[j] {
      DigitsAreIndex(Lens(axes[1..]), k);
      if j > 0 {
        assert axes[j] == axes[1..][j - 1];
      }
    }
  }

  // ---------------------------------------------------------------------
  // Enumeration over one shared buffer
  // ---------------------------------------------------------------------

  /** How many of `n` calls are made from the `base`-th on: all, unless one returns false,
      which is then the last. */
  function CallsMade(accept: nat -> bool, base: nat, n: nat): (m: nat)
    ensures m <= n
    decreases n
  {
    if n == 0 then 0 else if !accept(base) then 1 else 1 + CallsMade(accept, base + 1, n - 1)
  }

  predicate AllAccepted(accept: nat -> bool, base: nat, n: nat) {
    forall k :: base <= k < base + n ==> accept(k)
  }

  /** The visits end right after the first refusal, if there is one. */
  lemma {:induction false} CallsMadeMeaning(accept: nat -> bool, base: nat, n: nat)
    ensures var m := CallsMade(accept, base, n);
      if AllAccepted(accept, base, n) then m == n
      else 0 < m && AllAccepted(accept, base, m - 1) && !accept(base + m - 1)
    decreases n
  {
    if n > 0 && accept(base) {
      CallsMadeMeaning(accept, base + 1, n - 1);
      if AllAccepted(accept, base + 1, n - 1) {
        assert AllAccepted(accept, base, n);
      }
    }
  }

  lemma {:induction false} CallsMadeSplit(accept: nat -> bool, base: nat, n: nat, rest: nat)
    ensures CallsMade(accept, base, n + rest)
            == if AllAccepted(accept, base, n) then n + CallsMade(accept, base + n, rest)
               else CallsMade(accept, base, n)
    decreases n
  {
    if n > 0 && accept(base) {
      CallsMadeSplit(accept, base + 1, n - 1, rest);
      assert AllAccepted(accept, base, n) <==> AllAccepted(accept, base + 1, n - 1);
    } else if n > 0 {
      assert !AllAccepted(accept, base, n);
    }
  }

  /** A block of `n` calls behind `done` accepted ones, out of `total`. */
  lemma BlockOfCalls(accept: nat -> bool, base: nat, done: nat, n: nat, total: nat)
    requires done + n <= total && AllAccepted(accept, base, done)
    ensures if AllAccepted(accept, base + done, n)
            then AllAccepted(accept, base, done + n) && CallsMade(accept, base + done, n) == n
            else && !AllAccepted(accept, base, total)
                 && CallsMade(accept, base, total) == done + CallsMade(accept, base + done, n)
  {
    CallsMadeMeaning(accept, base + done, n);
    if !AllAccepted(accept, base + done, n) {
      CallsMadeSplit(accept, base, done, total - done);
      CallsMadeSplit(accept, base + done, n, total - done - n);
    }
  }

  /** The first `m` combinations of the axes below, each behind the same prefix. */
  function Visits<V>(prefix: seq<V>, axes: seq<seq<V>>, m: nat): seq<seq<V>>
    requires m <= Size(axes)
  {
    seq(m, (k: nat) requires k < m => prefix + Combo(axes, k))
  }

  /** forEachCombo: `accept(k)` is what the callback returns on its k-th call, `calls` what
      it saw. All calls look at the one buffer `combo`, which is overwritten in place. */
  class Enumerator<V(0)> {
    const axes: seq<seq<V>>
    const accept: nat -> bool
    const combo: array<V>
    var calls: seq<seq<V>>

    constructor (axes: seq<seq<V>>, accept: nat -> bool)
      ensures this.axes == axes && this.accept == accept && calls == []
      ensures fresh(combo) && combo.Length == |axes|
    {
      this.axes, this.accept, this.calls := axes, accept, [];
      combo := new V[|axes|];
    }

    method CallBack() returns (more: bool)
      modifies this`calls
      ensures calls == old(calls) + [combo[..]] && more == accept(|old(calls)|)
    {
      more := accept(|calls|);
      calls := calls + [combo[..]];
    }

    /** The inner closure: fills the buffer from axis `i` on; `below` are those axes. */
    method Rec(i: nat, ghost below: seq<seq<V>>) returns (more: bool)
      requires i <= |axes| == combo.Length && below == axes[i..]
      modifies this`calls, combo
      ensures calls == old(calls) + Visits(old(combo[..i]), below, CallsMade(accept, |old(calls)|, Size(below)))
      ensures more == AllAccepted(accept, |old(calls)|, Size(below))
      ensures combo[..i] == old(combo[..i])
      decreases |axes| - i, 1
    {
      ghost var base, before, prefix := |calls|, calls, combo[..i];
      if i == |axes| {
        more := CallBack();
        LastAxis(prefix, below, accept, base);
        assert combo[..] == prefix;
        return;
      }
      ghost var inner, done := Size(below[1..]), 0;
      LensTail(below);
      for j := 0 to |axes[i]|
        invariant done == Offset(j, inner) <= Size(below) && combo[..i] == prefix
        invariant AllAccepted(accept, base, done)
        invariant calls == before + Visits(prefix, below, done)
      {
        BlockOfVisits(prefix, below, accept, base, j);
        ghost var mid, n := calls, CallsMade(accept, base + done, inner);
        more := Branch(i, axes[i][j], below[1..]);
        Joined(before, mid, calls, Visits(prefix, below, done), Visits(prefix + [axes[i][j]], below[1..], n),
               Visits(prefix, below, done + n));
        if !more {
          return;
        }
        done := done + inner;
      }
      BlockOfCalls(accept, base, 0, Size(below), Size(below));
      more := true;
    }

    /** One round of the closure's loop: the value of axis `i` is overwritten, the rest
        filled behind it. */
    method Branch(i: nat, v: V, ghost below: seq<seq<V>>) returns (more: bool)
      requires i < |axes| == combo.Length && below == axes[i + 1..]
      modifies this`calls, combo
      ensures calls == old(calls) + Visits(old(combo[..i]) + [v], below, CallsMade(accept, |old(calls)|, Size(below)))
      ensures more == AllAccepted(accept, |old(calls)|, Size(below))
      ensures combo[..i] == old(combo[..i])
      decreases |axes| - i, 0
    {
      combo[i] := v;
      assert combo[..i + 1] == old(combo[..i]) + [v];
      more := Rec(i + 1, below);
      assert combo[..i] == combo[..i + 1][..i];
    }

    /** Calls back on exactly the cartesian product in lexicographic order, cut off right
        after the first refusal. */
    method ForEach()
      requires combo.Length == |axes| && calls == []
      modifies this`calls, combo
      ensures calls == AllCombos(axes)[..CallsMade(accept, 0, Size(axes))]
    {
      assert combo[..0] == [] && axes[0..] == axes;
      var _ := Rec(0, axes);
      NoPrefix(axes, CallsMade(accept, 0, Size(axes)));
    }
  }

  lemma Joined<T>(before: seq<T>, mid: seq<T>, after: seq<T>, v: seq<T>, w: seq<T>, both: seq<T>)
    requires mid == before + v && after == mid + w && both == v + w
    ensures after == before + both
  {}

  lemma NoPrefix<V>(axes: seq<seq<V>>, m: nat)
    requires m <= Size(axes)
    ensures Visits([], axes, m) == AllCombos(axes)[..m]
  {
    forall k | 0 <= k < m ensures Visits([], axes, m)[k] == AllCombos(axes)[k] {
      assert [] + Combo(axes, k) == Combo(axes, k);
    }
  }

  lemma LastAxis<V>(prefix: seq<V>, axes: seq<seq<V>>, accept: nat -> bool, base: nat)
    requires axes == []
    ensures Size(axes) == 1 && CallsMade(accept, base, 1) == 1 && Visits(prefix, axes, 1) == [prefix]
  {
    assert CallsMade(accept, base + 1, 0) == 0;
    assert prefix + Combo(axes, 0) == prefix;
  }

  function Offset(block: nat, size: nat): nat {
    block * size
  }

  lemma DigitRoom(j: nat, len: nat, inner: nat)
    requires j < len
    ensures Offset(j, inner) + inner == Offset(j + 1, inner) <= Offset(len, inner) == len * inner
  {
    MulMonotone(j + 1, len, inner);
  }

  /** What the j-th value of the first axis adds to the visits. */
  lemma BlockOfVisits<V>(prefix: seq<V>, axes: seq<seq<V>>, accept: nat -> bool, base: nat, j: nat)
    requires axes != [] && j < |axes[0]| && AllAccepted(accept, base, Offset(j, Size(axes[1..])))
    ensures var inner := Size(axes[1..]); var done := Offset(j, inner); var n := CallsMade(accept, base + done, inner);
      && done + n <= Size(axes)
      && Visits(prefix, axes, done + n) == Visits(prefix, axes, done) + Visits(prefix + [axes[0][j]], axes[1..], n)
      && if AllAccepted(accept, base + done, inner)
         then done + n == done + inner == Offset(j + 1, inner) <= Size(axes) && AllAccepted(accept, base, done + inner)
         else !AllAccepted(accept, base, Size(axes)) && CallsMade(accept, base, Size(axes)) == done + n
  {
    var inner := Size(axes[1..]);
    var done := Offset(j, inner);
    LensTail(axes);
    DigitRoom(j, |axes[0]|, inner);
    BlockOfCalls(accept, base, done, inner, Size(axes));
    VisitsExtend(prefix, axes, j, CallsMade(accept, base + done, inner));
  }

  lemma VisitsExtend<V>(prefix: seq<V>, axes: seq<seq<V>>, j: nat, n: nat)
    requires axes != [] && j < |axes[0]| && n <= Size(axes[1..])
    ensures var done := Offset(j, Size(axes[1..]));
      done + n <= Size(axes)
      && Visits(prefix, axes, done + n) == Visits(prefix, axes, done) + Visits(prefix + [axes[0][j]], axes[1..], n)
  {
    var done := Offset(j, Size(axes[1..]));
    LensTail(axes);
    DigitRoom(j, |axes[0]|, Size(axes[1..]));
    var all := Visits(prefix, axes, done + n);
    var tail := Visits(prefix + [axes[0][j]], axes[1..], n);
    forall k | 0 <= k < n ensures all[done + k] == tail[k] {
      ComboSplit(axes, j, k);
      assert prefix + ([axes[0][j]] + Combo(axes[1..], k)) == prefix + [axes[0][j]] + Combo(axes[1..], k);
    }
  }
}
