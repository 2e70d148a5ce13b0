/** Sequence vocabulary shared by the lease and the exporter models. */
module Sequences {

  datatype Option<+T> = None | Some(value: T)

  /** The elements of `xs` that satisfy `p`, in order. */
  function Keep<T>(xs: seq<T>, p: T -> bool): (r: seq<T>)
    ensures |r| <= |xs|
  {
    if xs == [] then []
    else
      var n := |xs| - 1;
      Keep(xs[..n], p) + if p(xs[n]) then [xs[n]] else []
  }

  lemma KeepSnoc<T>(xs: seq<T>, x: T, p: T -> bool)
    ensures Keep(xs + [x], p) == Keep(xs, p) + if p(x) then [x] else []
  {
    assert (xs + [x])[..|xs|] == xs;
  }

  lemma {:induction false} KeepConcat<T>(xs: seq<T>, ys: seq<T>, p: T -> bool)
    ensures Keep(xs + ys, p) == Keep(xs, p) + Keep(ys, p)
  {
    if ys == [] {
      assert xs + ys == xs;
    } else {
      var n := |ys| - 1;
      assert (xs + ys)[..|xs + ys| - 1] == xs + ys[..n];
      KeepConcat(xs, ys[..n], p);
    }
  }

  lemma {:induction false} KeepCount<T>(xs: seq<T>, p: T -> bool, x: T)
    ensures multiset(Keep(xs, p))[x] == if p(x) then multiset(xs)[x] else 0
  {
    if xs != [] {
      var n := |xs| - 1;
      KeepCount(xs[..n], p, x);
      assert xs == xs[..n] + [xs[n]];
    }
  }

  lemma KeepMember<T>(xs: seq<T>, p: T -> bool, x: T)
    ensures x in Keep(xs, p) <==> x in xs && p(x)
  {
    KeepCount(xs, p, x);
    assert x in Keep(xs, p) <==> x in multiset(Keep(xs, p));
    assert x in xs <==> x in multiset(xs);
  }

  lemma KeepPermutation<T>(xs: seq<T>, ys: seq<T>, p: T -> bool)
    requires multiset(xs) == multiset(ys)
    ensures multiset(Keep(xs, p)) == multiset(Keep(ys, p))
    ensures |Keep(xs, p)| == |Keep(ys, p)|
  {
    var kx, ky := Keep(xs, p), Keep(ys, p);
    forall x ensures multiset(kx)[x] == multiset(ky)[x] {
      KeepCount(xs, p, x);
      KeepCount(ys, p, x);
    }
    SameElements(kx, ky);
  }

  lemma SameElements<T>(xs: seq<T>, ys: seq<T>)
    requires forall x :: multiset(xs)[x] == multiset(ys)[x]
    ensures multiset(xs) == multiset(ys) && |xs| == |ys|
  {
    assert multiset(xs) == multiset(ys);
    assert |xs| == |multiset(xs)|;
    assert |ys| == |multiset(ys)|;
  }

  ghost predicate Distinct<T>(xs: seq<T>) {
    forall i, j :: 0 <= i < j < |xs| ==> xs[i] != xs[j]
  }

  lemma {:induction false} DistinctCount<T>(xs: seq<T>, x: T)
    requires Distinct(xs)
    ensures multiset(xs)[x] == if x in xs then 1 else 0
  {
    if xs != [] {
      var n := |xs| - 1;
      assert xs == xs[..n] + [xs[n]];
      DistinctCount(xs[..n], x);
    }
  }

  lemma {:induction false} SingleCountDistinct<T>(xs: seq<T>)
    requires forall x :: multiset(xs)[x] <= 1
    ensures Distinct(xs)
  {
    if xs != [] {
      var n := |xs| - 1;
      assert xs == xs[..n] + [xs[n]];
      forall x ensures multiset(xs[..n])[x] <= 1 {
        assert multiset(xs)[x] <= 1;
      }
      SingleCountDistinct(xs[..n]);
      forall i | 0 <= i < n ensures xs[i] != xs[n] {
        assert xs[i] in multiset(xs[..n]);
        assert multiset(xs)[xs[n]] == multiset(xs[..n])[xs[n]] + 1;
      }
    }
  }

  /** The image of `xs` under `f`. */
  function Map<S, T>(xs: seq<S>, f: S -> T): (r: seq<T>)
    ensures |r| == |xs|
    ensures forall i :: 0 <= i < |xs| ==> r[i] == f(xs[i])
  {
    seq(|xs|, i requires 0 <= i < |xs| => f(xs[i]))
  }

  lemma ConcatAssociates<T>(xs: seq<T>, ys: seq<T>, zs: seq<T>)
    ensures (xs + ys) + zs == xs + (ys + zs)
  {
  }

  lemma LastOfConcat<T>(xs: seq<T>, ys: seq<T>, front: seq<T>, last: T)
    requires ys != [] && front == ys[..|ys| - 1] && last == ys[|ys| - 1]
    ensures xs + ys == (xs + front) + [last] && ys == front + [last]
  {
  }
}
