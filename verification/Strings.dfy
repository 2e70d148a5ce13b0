/** The byte order on strings that sort.Strings uses, and sorting by it. */
module Strings {
  import opened Sequences

  predicate Before(a: string, b: string) {
    if b == [] then false
    else if a == [] then true
    else a[0] < b[0] || (a[0] == b[0] && Before(a[1..], b[1..]))
  }

  predicate AtMost(a: string, b: string) {
    !Before(b, a)
  }

  lemma {:induction false} BeforeTransitive(a: string, b: string, c: string)
    requires Before(a, b) && Before(b, c)
    ensures Before(a, c)
    decreases |a|
  {
    if a != [] && a[0] == b[0] == c[0] {
      BeforeTransitive(a[1..], b[1..], c[1..]);
    }
  }

  /** Exactly one of a < b, a = b and b < a holds. */
  lemma {:induction false} BeforeTotal(a: string, b: string)
    ensures Before(a, b) || a == b || Before(b, a)
    ensures !(Before(a, b) && Before(b, a))
    ensures a == b ==> !Before(a, b)
    decreases |a|
  {
    if a != [] && b != [] && a[0] == b[0] {
      BeforeTotal(a[1..], b[1..]);
      if a[1..] == b[1..] {
        assert a == [a[0]] + a[1..] && b == [b[0]] + b[1..];
      }
    }
  }

  lemma AtMostTransitive(a: string, b: string, c: string)
    requires AtMost(a, b) && AtMost(b, c)
    ensures AtMost(a, c)
  {
    BeforeTotal(a, b);
    BeforeTotal(b, c);
    BeforeTotal(a, c);
    if Before(a, b) && Before(b, c) {
      BeforeTransitive(a, b, c);
    }
  }

  ghost predicate Sorted(xs: seq<string>) {
    forall i, j :: 0 <= i < j < |xs| ==> AtMost(xs[i], xs[j])
  }

  function Insert(xs: seq<string>, x: string): (r: seq<string>)
    ensures multiset(r) == multiset(xs + [x])
    ensures |r| == |xs| + 1
  {
    if xs == [] || AtMost(xs[|xs| - 1], x) then xs + [x]
    else
      assert xs == xs[..|xs| - 1] + [xs[|xs| - 1]];
      Insert(xs[..|xs| - 1], x) + [xs[|xs| - 1]]
  }

  lemma {:induction false} InsertSorted(xs: seq<string>, x: string)
    requires Sorted(xs)
    ensures Sorted(Insert(xs, x))
  {
    if xs == [] {
    } else if AtMost(xs[|xs| - 1], x) {
      forall i | 0 <= i < |xs| ensures AtMost(xs[i], x) {
        if i < |xs| - 1 {
          AtMostTransitive(xs[i], xs[|xs| - 1], x);
        }
      }
    } else {
      var n := |xs| - 1;
      var r := Insert(xs[..n], x);
      InsertSorted(xs[..n], x);
      forall i | 0 <= i < |r| ensures AtMost(r[i], xs[n]) {
        assert r[i] in multiset(r);
        assert r[i] in xs[..n] + [x];
        BeforeTotal(x, xs[n]);
      }
    }
  }

  /** sort.Strings as a function: insertion sort on the byte order. */
  function Sort(xs: seq<string>): (r: seq<string>)
    ensures multiset(r) == multiset(xs)
    ensures |r| == |xs|
  {
    if xs == [] then []
    else
      assert xs == xs[..|xs| - 1] + [xs[|xs| - 1]];
      Insert(Sort(xs[..|xs| - 1]), xs[|xs| - 1])
  }

  lemma {:induction false} SortSorted(xs: seq<string>)
    ensures Sorted(Sort(xs))
  {
    if xs != [] {
      SortSorted(xs[..|xs| - 1]);
      InsertSorted(Sort(xs[..|xs| - 1]), xs[|xs| - 1]);
    }
  }

  lemma SortMember(xs: seq<string>, x: string)
    ensures x in Sort(xs) <==> x in xs
  {
    assert x in Sort(xs) <==> x in multiset(Sort(xs));
  }

  /** A sorted sequence is determined by its elements. */
  lemma {:induction false} SortedUnique(xs: seq<string>, ys: seq<string>)
    requires Sorted(xs) && Sorted(ys) && multiset(xs) == multiset(ys)
    ensures xs == ys
  {
    assert |xs| == |multiset(xs)| == |multiset(ys)| == |ys|;
    if xs != [] {
      var n := |xs| - 1;
      assert xs == xs[..n] + [xs[n]] && ys == ys[..n] + [ys[n]];
      LastIsAbove(xs, ys);
      LastIsAbove(ys, xs);
      BeforeTotal(xs[n], ys[n]);
      SameInit(xs, ys);
      SortedUnique(xs[..n], ys[..n]);
    }
  }

  lemma LastIsAbove(xs: seq<string>, ys: seq<string>)
    requires xs != [] && |xs| == |ys| && Sorted(ys) && multiset(xs) == multiset(ys)
    ensures AtMost(xs[|xs| - 1], ys[|xs| - 1])
  {
    var n := |xs| - 1;
    assert xs[n] in multiset(ys);
    var i :| 0 <= i <= n && ys[i] == xs[n];
    BeforeTotal(xs[n], ys[n]);
  }

  lemma SameInit(xs: seq<string>, ys: seq<string>)
    requires xs != [] && |xs| == |ys| && multiset(xs) == multiset(ys)
    requires xs[|xs| - 1] == ys[|xs| - 1]
    ensures multiset(xs[..|xs| - 1]) == multiset(ys[..|xs| - 1])
  {
    var n := |xs| - 1;
    assert xs == xs[..n] + [xs[n]] && ys == ys[..n] + [ys[n]];
    assert multiset(xs[..n]) == multiset(xs) - multiset{xs[n]};
    assert multiset(ys[..n]) == multiset(ys) - multiset{xs[n]};
  }

  lemma SortPermutation(xs: seq<string>, ys: seq<string>)
    requires multiset(xs) == multiset(ys)
    ensures Sort(xs) == Sort(ys)
  {
    SortSorted(xs);
    SortSorted(ys);
    SortedUnique(Sort(xs), Sort(ys));
  }
}
