/** Order-preserving selection from a sequence: the shape of every
    `for x in xs: if p(x): out.append(x)` loop and list comprehension with
    a condition in the modelled code. */
module Sequences {

  /** `xs` is `ys` with some elements deleted, order kept. */
  predicate IsSubsequence<T(==)>(xs: seq<T>, ys: seq<T>)
    decreases |ys|
  {
    if |xs| == 0 then true
    else if |ys| == 0 then false
    else if xs[|xs| - 1] == ys[|ys| - 1] then IsSubsequence(xs[..|xs| - 1], ys[..|ys| - 1])
    else IsSubsequence(xs, ys[..|ys| - 1])
  }

  /** Dropping the last element keeps a subsequence a subsequence. */
  lemma {:induction false} SubsequenceDropLast<T>(xs: seq<T>, ys: seq<T>)
    requires |xs| > 0 && IsSubsequence(xs, ys)
    ensures IsSubsequence(xs[..|xs| - 1], ys)
    decreases |ys|, 0
  {
    var init := xs[..|xs| - 1];
    if |init| > 0 && |ys| > 0 {
      if xs[|xs| - 1] == ys[|ys| - 1] {
        SubsequenceExtend(init, ys[..|ys| - 1], ys[|ys| - 1]);
        assert ys[..|ys| - 1] + [ys[|ys| - 1]] == ys;
      } else {
        SubsequenceDropLast(xs, ys[..|ys| - 1]);
        SubsequenceExtend(init, ys[..|ys| - 1], ys[|ys| - 1]);
        assert ys[..|ys| - 1] + [ys[|ys| - 1]] == ys;
      }
    }
  }

  /** A subsequence of `ys` is a subsequence of `ys` with one more element. */
  lemma {:induction false} SubsequenceExtend<T>(xs: seq<T>, ys: seq<T>, y: T)
    requires IsSubsequence(xs, ys)
    ensures IsSubsequence(xs, ys + [y])
    decreases |ys|, 1
  {
    var longer := ys + [y];
    assert longer[..|longer| - 1] == ys;
    if |xs| > 0 && xs[|xs| - 1] == y {
      SubsequenceDropLast(xs, ys);
    }
  }

  /** Every sequence is a subsequence of itself. */
  lemma {:induction false} SubsequenceReflexive<T>(xs: seq<T>)
    ensures IsSubsequence(xs, xs)
    decreases |xs|
  {
    if |xs| > 0 {
      SubsequenceReflexive(xs[..|xs| - 1]);
    }
  }

  /** The elements satisfying `p`, in their original order. */
  function Filter<T(==)>(xs: seq<T>, p: T -> bool): (r: seq<T>)
    ensures |r| <= |xs|
    ensures forall i :: 0 <= i < |r| ==> r[i] in xs && p(r[i])
    ensures forall i :: 0 <= i < |xs| && p(xs[i]) ==> xs[i] in r
  {
    if |xs| == 0 then []
    else
      var init := Filter(xs[..|xs| - 1], p);
      assert forall i :: 0 <= i < |xs| - 1 ==> xs[..|xs| - 1][i] == xs[i];
      if p(xs[|xs| - 1]) then init + [xs[|xs| - 1]] else init
  }

  /** A filter is a subsequence of what it filters. */
  lemma {:induction false} FilterIsSubsequence<T>(xs: seq<T>, p: T -> bool)
    ensures IsSubsequence(Filter(xs, p), xs)
    decreases |xs|
  {
    if |xs| > 0 {
      var init := xs[..|xs| - 1];
      FilterIsSubsequence(init, p);
      assert init + [xs[|xs| - 1]] == xs;
      if p(xs[|xs| - 1]) {
        var f := Filter(init, p) + [xs[|xs| - 1]];
        assert f[..|f| - 1] == Filter(init, p);
      } else {
        SubsequenceExtend(Filter(init, p), init, xs[|xs| - 1]);
      }
    }
  }

  /** A filter keeps every copy of each element satisfying `p` and no copy of
      any other. */
  lemma {:induction false} FilterCounts<T>(xs: seq<T>, p: T -> bool)
    ensures forall x :: multiset(Filter(xs, p))[x] == if p(x) then multiset(xs)[x] else 0
    decreases |xs|
  {
    if |xs| > 0 {
      var init := xs[..|xs| - 1];
      var last := xs[|xs| - 1];
      FilterCounts(init, p);
      assert init + [last] == xs;
      assert multiset(xs) == multiset(init) + multiset{last};
      if p(last) {
        assert multiset(Filter(xs, p)) == multiset(Filter(init, p)) + multiset{last};
      }
    }
  }

  /** Extending the input by one element extends the filter by it or not at all. */
  lemma FilterSnoc<T>(xs: seq<T>, x: T, p: T -> bool)
    ensures Filter(xs + [x], p) == if p(x) then Filter(xs, p) + [x] else Filter(xs, p)
  {
    var longer := xs + [x];
    assert longer[..|longer| - 1] == xs;
  }

  /** Filtering a sequence with a new head: the head, if it passes, then the
      filtered rest. */
  lemma {:induction false} FilterCons<T>(x: T, xs: seq<T>, p: T -> bool)
    ensures Filter([x] + xs, p) == (if p(x) then [x] else []) + Filter(xs, p)
    decreases |xs|
  {
    if |xs| == 0 {
      assert ([x] + xs)[..0] == [];
    } else {
      var init := xs[..|xs| - 1];
      var last := xs[|xs| - 1];
      FilterCons(x, init, p);
      assert [x] + xs == ([x] + init) + [last];
      assert xs == init + [last];
      FilterSnoc([x] + init, last, p);
      FilterSnoc(init, last, p);
    }
  }

  /** Extending a prefix by one element extends its filtered form by that
      element exactly when it passes. */
  lemma FilterPrefixStep<T>(xs: seq<T>, i: nat, p: T -> bool)
    requires i < |xs|
    ensures Filter(xs[..i + 1], p) == if p(xs[i]) then Filter(xs[..i], p) + [xs[i]] else Filter(xs[..i], p)
  {
    assert xs[..i + 1] == xs[..i] + [xs[i]];
    FilterSnoc(xs[..i], xs[i], p);
  }

  /** A weaker condition keeps everything a stronger one keeps, in order. */
  lemma {:induction false} FilterMonotone<T>(xs: seq<T>, p: T -> bool, q: T -> bool)
    requires forall x :: p(x) ==> q(x)
    ensures IsSubsequence(Filter(xs, p), Filter(xs, q))
    decreases |xs|
  {
    if |xs| > 0 {
      var init := xs[..|xs| - 1];
      var a := xs[|xs| - 1];
      FilterMonotone(init, p, q);
      var f1 := Filter(init, p);
      var f2 := Filter(init, q);
      if p(a) {
        var g1 := f1 + [a];
        var g2 := f2 + [a];
        assert g1[..|g1| - 1] == f1 && g2[..|g2| - 1] == f2;
      } else if q(a) {
        SubsequenceExtend(f1, f2, a);
      }
    }
  }

  /** Filtering twice with the same condition changes nothing. */
  lemma {:induction false} FilterIdempotent<T>(xs: seq<T>, p: T -> bool)
    ensures Filter(Filter(xs, p), p) == Filter(xs, p)
    decreases |xs|
  {
    if |xs| > 0 {
      var init := xs[..|xs| - 1];
      var x := xs[|xs| - 1];
      FilterIdempotent(init, p);
      assert init + [x] == xs;
      if p(x) {
        FilterSnoc(Filter(init, p), x, p);
      }
    }
  }

  /** `[y for x in xs for y in f(x)]`. */
  function FlatMap<T, U>(xs: seq<T>, f: T -> seq<U>): (r: seq<U>)
    ensures |xs| == 0 ==> r == []
  {
    if |xs| == 0 then [] else FlatMap(xs[..|xs| - 1], f) + f(xs[|xs| - 1])
  }

  lemma FlatMapSnoc<T, U>(xs: seq<T>, x: T, f: T -> seq<U>)
    ensures FlatMap(xs + [x], f) == FlatMap(xs, f) + f(x)
  {
    var longer := xs + [x];
    assert longer[..|longer| - 1] == xs;
  }

  /** The flattening is empty exactly when every part is. */
  lemma {:induction false} FlatMapEmptyIff<T, U>(xs: seq<T>, f: T -> seq<U>)
    ensures |FlatMap(xs, f)| == 0 <==> forall i :: 0 <= i < |xs| ==> |f(xs[i])| == 0
    decreases |xs|
  {
    if |xs| > 0 {
      var init := xs[..|xs| - 1];
      FlatMapEmptyIff(init, f);
      assert forall i :: 0 <= i < |init| ==> init[i] == xs[i];
    }
  }
}
