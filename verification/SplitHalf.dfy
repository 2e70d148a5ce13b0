/** The split_half policy's cut of one batch in two: splitTracesHalf, splitLogsHalf and
    splitMetricsHalf (signal_traces.go, signal_logs.go, signal_metrics.go). */
module SplitHalf {
  import opened Sequences
  import opened Signals

  function Clamp(x: int, top: nat): (r: nat)
    ensures r <= top
  {
    if x < 0 then 0 else if x > top then top else x
  }

  /** The scopes restricted to their children number `lo` up to `hi`, in order; a scope that
      keeps no child goes away. */
  function Clip<T>(ss: seq<Scope<T>>, lo: nat, hi: nat): seq<Scope<T>>
    requires lo <= hi
  {
    if ss == [] then []
    else
      var n := |ss| - 1;
      var before := Count(ss[..n]);
      var kids := ss[n].children;
      var piece := kids[Clamp(lo - before, |kids|)..Clamp(hi - before, |kids|)];
      Clip(ss[..n], lo, hi) + if piece == [] then [] else [Scope(ss[n].info, piece)]
  }

  lemma ScopeItemsSlice<T>(r: ResourceInfo, s: Scope<T>, lo: nat, hi: nat)
    requires lo <= hi <= |s.children|
    ensures ScopeItems(r, Scope(s.info, s.children[lo..hi])) == ScopeItems(r, s)[lo..hi]
  {
  }

  lemma SliceOfConcat<T>(xs: seq<T>, ys: seq<T>, lo: nat, hi: nat)
    requires lo <= hi
    ensures (xs + ys)[Clamp(lo, |xs + ys|)..Clamp(hi, |xs + ys|)]
      == xs[Clamp(lo, |xs|)..Clamp(hi, |xs|)] + ys[Clamp(lo - |xs|, |ys|)..Clamp(hi - |xs|, |ys|)]
  {
  }

  /** Clipping the scopes is slicing the flattened children. */
  lemma {:induction false} ClipFlat<T>(r: ResourceInfo, ss: seq<Scope<T>>, lo: nat, hi: nat)
    requires lo <= hi
    ensures var all := ScopesItems(r, ss);
      ScopesItems(r, Clip(ss, lo, hi)) == all[Clamp(lo, |all|)..Clamp(hi, |all|)]
  {
    if ss != [] {
      var n := |ss| - 1;
      var kids := ss[n].children;
      CountIsLength(r, ss[..n]);
      var before := Count(ss[..n]);
      var from, to := Clamp(lo - before, |kids|), Clamp(hi - before, |kids|);
      ClipFlat(r, ss[..n], lo, hi);
      SliceOfConcat(ScopesItems(r, ss[..n]), ScopeItems(r, ss[n]), lo, hi);
      ScopeItemsSlice(r, ss[n], from, to);
      if kids[from..to] != [] {
        ScopesSnoc(r, Clip(ss[..n], lo, hi), Scope(ss[n].info, kids[from..to]));
      } else {
        assert ScopeItems(r, ss[n])[from..to] == [];
        assert Clip(ss, lo, hi) == Clip(ss[..n], lo, hi);
      }
    }
  }

  // ------------------------------------------------------------ the cut

  /** What a split has to produce: several resources are dealt in half; one resource with several
      children has its children cut in half; anything else cannot be split. */
  function Halves<T>(tree: Tree<T>): Option<(Tree<T>, Tree<T>)> {
    if |tree| > 1 then Some((tree[..|tree| / 2], tree[|tree| / 2..]))
    else if tree == [] || Count(tree[0].scopes) <= 1 then None
    else
      var total := Count(tree[0].scopes);
      var info := tree[0].info;
      Some(([Resource(info, Clip(tree[0].scopes, 0, total / 2))],
            [Resource(info, Clip(tree[0].scopes, total / 2, total))]))
  }

  function AppendChild<T>(ss: seq<Scope<T>>, child: T): seq<Scope<T>>
    requires ss != []
  {
    var last := |ss| - 1;
    ss[last := ss[last].(children := ss[last].children + [child])]
  }

  function Piece<T>(info: ScopeInfo, kids: seq<T>): seq<Scope<T>> {
    if kids == [] then [] else [Scope(info, kids)]
  }

  /** Adding a child to the scope under construction, opening it on the first one. */
  lemma PieceGrows<T>(ss: seq<Scope<T>>, info: ScopeInfo, kids: seq<T>, child: T)
    ensures kids == [] ==> AppendChild(ss + [Scope(info, [])], child) == ss + Piece(info, kids + [child])
    ensures kids != [] ==> AppendChild(ss + Piece(info, kids), child) == ss + Piece(info, kids + [child])
  {
  }

  /** One scope's children dealt to both sides; `seen` children came before this scope. */
  method DealScope<T>(s: Scope<T>, seen: nat, mid: nat, left0: seq<Scope<T>>, right0: seq<Scope<T>>)
    returns (left: seq<Scope<T>>, right: seq<Scope<T>>)
    ensures left == left0 + Piece(s.info, s.children[..Clamp(mid - seen, |s.children|)])
    ensures right == right0 + Piece(s.info, s.children[Clamp(mid - seen, |s.children|)..])
  {
    left, right := left0, right0;
    var inLeft, inRight := false, false;
    ghost var cut := Clamp(mid - seen, |s.children|);
    for j := 0 to |s.children|
      invariant inLeft <==> cut > 0 && j > 0
      invariant inRight <==> j > cut
      invariant left == left0 + Piece(s.info, s.children[..if j < cut then j else cut])
      invariant right == right0 + if j > cut then Piece(s.info, s.children[cut..j]) else []
    {
      var child := s.children[j];
      if seen + j < mid {
        PieceGrows(left0, s.info, s.children[..j], child);
        assert s.children[..j] + [child] == s.children[..j + 1];
        if !inLeft {
          left := left + [Scope(s.info, [])];
          inLeft := true;
        }
        left := AppendChild(left, child);
      } else {
        PieceGrows(right0, s.info, s.children[cut..j], child);
        assert s.children[cut..j] + [child] == s.children[cut..j + 1];
        if !inRight {
          right := right + [Scope(s.info, [])];
          inRight := true;
        }
        right := AppendChild(right, child);
      }
    }
    assert s.children[cut..|s.children|] == s.children[cut..];
  }

  lemma ClipSnoc<T>(ss: seq<Scope<T>>, s: Scope<T>, lo: nat, hi: nat)
    requires lo <= hi
    ensures var before := Count(ss); var top := |s.children|;
      Clip(ss + [s], lo, hi)
      == Clip(ss, lo, hi) + Piece(s.info, s.children[Clamp(lo - before, top)..Clamp(hi - before, top)])
  {
    assert (ss + [s])[..|ss|] == ss;
  }

  lemma CountStep<T>(ss: seq<Scope<T>>, i: nat)
    requires i < |ss|
    ensures Count(ss[..i + 1]) == Count(ss[..i]) + |ss[i].children| <= Count(ss)
  {
    CountMonotone(ss, i + 1);
    assert ss[..i + 1][..i] == ss[..i];
  }

  lemma ClipStep<T>(ss: seq<Scope<T>>, i: nat, lo: nat, hi: nat)
    requires i < |ss| && lo <= hi
    ensures var before := Count(ss[..i]); var kids := ss[i].children;
      Clip(ss[..i + 1], lo, hi)
      == Clip(ss[..i], lo, hi) + Piece(ss[i].info, kids[Clamp(lo - before, |kids|)..Clamp(hi - before, |kids|)])
  {
    ClipSnoc(ss[..i], ss[i], lo, hi);
    assert ss[..i + 1] == ss[..i] + [ss[i]];
  }

  lemma LeftStep<T>(ss: seq<Scope<T>>, i: nat, mid: nat)
    requires i < |ss| && mid <= Count(ss)
    ensures var kids := ss[i].children; var cut := Clamp(mid - Count(ss[..i]), |kids|);
      Clip(ss[..i + 1], 0, mid) == Clip(ss[..i], 0, mid) + Piece(ss[i].info, kids[..cut])
  {
    ClipStep(ss, i, 0, mid);
  }

  lemma RightStep<T>(ss: seq<Scope<T>>, i: nat, mid: nat)
    requires i < |ss| && mid <= Count(ss)
    ensures var kids := ss[i].children; var cut := Clamp(mid - Count(ss[..i]), |kids|);
      Clip(ss[..i + 1], mid, Count(ss)) == Clip(ss[..i], mid, Count(ss)) + Piece(ss[i].info, kids[cut..])
  {
    ClipStep(ss, i, mid, Count(ss));
    CountStep(ss, i);
    var kids := ss[i].children;
    var cut := Clamp(mid - Count(ss[..i]), |kids|);
    assert kids[cut..|kids|] == kids[cut..];
  }

  /** The children of `ss` dealt to two sides, the first `mid` to the left. */
  method SplitChildren<T>(ss: seq<Scope<T>>, mid: nat) returns (left: seq<Scope<T>>, right: seq<Scope<T>>)
    requires mid <= Count(ss)
    ensures left == Clip(ss, 0, mid)
    ensures right == Clip(ss, mid, Count(ss))
  {
    left, right := [], [];
    var seen := 0;
    for i := 0 to |ss|
      invariant seen == Count(ss[..i])
      invariant left == Clip(ss[..i], 0, mid) && right == Clip(ss[..i], mid, Count(ss))
    {
      CountStep(ss, i);
      LeftStep(ss, i, mid);
      RightStep(ss, i, mid);
      left, right := DealScope(ss[i], seen, mid, left, right);
      seen := seen + |ss[i].children|;
    }
    assert ss[..|ss|] == ss;
  }

  method SplitTree<T>(tree: Tree<T>) returns (r: Option<(Tree<T>, Tree<T>)>)
    ensures r == Halves(tree)
  {
    if |tree| > 1 {
      var mid := |tree| / 2;
      var a, b := [], [];
      for i := 0 to |tree|
        invariant a == tree[..if i < mid then i else mid]
        invariant b == if i < mid then [] else tree[mid..i]
      {
        if i < mid {
          a := a + [tree[i]];
        } else {
          b := b + [tree[i]];
        }
      }
      assert a == tree[..mid] && b == tree[mid..];
      return Some((a, b));
    }
    if |tree| == 0 || Count(tree[0].scopes) <= 1 {
      return None;
    }
    var mid := Count(tree[0].scopes) / 2;
    var left, right := SplitChildren(tree[0].scopes, mid);
    return Some(([Resource(tree[0].info, left)], [Resource(tree[0].info, right)]));
  }

  lemma ClipOne<T>(r: Resource<T>, lo: nat, hi: nat)
    requires lo <= hi <= Count(r.scopes)
    ensures |Flat([r])| == Count(r.scopes)
    ensures Flat([Resource(r.info, Clip(r.scopes, lo, hi))]) == Flat([r])[lo..hi]
  {
    FlatOne(r);
    FlatOne(Resource(r.info, Clip(r.scopes, lo, hi)));
    CountIsLength(r.info, r.scopes);
    ClipFlat(r.info, r.scopes, lo, hi);
  }

  /** One resource, cut at `mid`: what the two sides flatten to. */
  lemma CutFlat<T>(r: Resource<T>, mid: nat)
    requires mid <= Count(r.scopes)
    ensures var all := Flat([r]); var total := Count(r.scopes);
      && |all| == total
      && Flat([Resource(r.info, Clip(r.scopes, 0, mid))]) == all[..mid]
      && Flat([Resource(r.info, Clip(r.scopes, mid, total))]) == all[mid..]
  {
    ClipOne(r, 0, mid);
    ClipOne(r, mid, Count(r.scopes));
  }

  lemma ManyConserve<T>(tree: Tree<T>, mid: nat)
    requires mid <= |tree|
    ensures Flat(tree[..mid]) + Flat(tree[mid..]) == Flat(tree)
  {
    assert tree[..mid] + tree[mid..] == tree;
    FlatConcat(tree[..mid], tree[mid..]);
  }

  lemma OneConserves<T>(r: Resource<T>, mid: nat)
    requires mid <= Count(r.scopes)
    ensures Flat([Resource(r.info, Clip(r.scopes, 0, mid))])
      + Flat([Resource(r.info, Clip(r.scopes, mid, Count(r.scopes)))]) == Flat([r])
  {
    CutFlat(r, mid);
    var all := Flat([r]);
    assert all[..mid] + all[mid..] == all;
  }

  /** A split loses, repeats, reorders and relabels nothing. */
  lemma HalvesConserve<T>(tree: Tree<T>)
    requires Halves(tree).Some?
    ensures var (a, b) := Halves(tree).value; Flat(a) + Flat(b) == Flat(tree)
  {
    if |tree| > 1 {
      ManyConserve(tree, |tree| / 2);
    } else {
      assert tree == [tree[0]];
      OneConserves(tree[0], Count(tree[0].scopes) / 2);
    }
  }

  /** The two sides are halves, rounded down and up: of the resources, or of the one resource's
      children. */
  lemma HalvesAreHalves<T>(tree: Tree<T>)
    requires Halves(tree).Some?
    ensures var (a, b) := Halves(tree).value;
      && (|tree| > 1 ==> |a| == |tree| / 2 && |b| == |tree| - |tree| / 2)
      && (|tree| == 1 ==> |a| == |b| == 1 && |Flat(tree)| > 1)
      && (|tree| == 1 ==> |Flat(a)| == |Flat(tree)| / 2 && |Flat(b)| == |Flat(tree)| - |Flat(tree)| / 2)
  {
    if |tree| == 1 {
      assert tree == [tree[0]];
      CutFlat(tree[0], Count(tree[0].scopes) / 2);
    }
  }

  /** The split gives up exactly on a batch of at most one resource holding at most one child. */
  lemma IndivisibleIff<T>(tree: Tree<T>)
    ensures Halves(tree).None? <==> |tree| <= 1 && |Flat(tree)| <= 1
  {
    if |tree| == 1 {
      assert tree == [tree[0]];
      FlatOne(tree[0]);
      CountIsLength(tree[0].info, tree[0].scopes);
    }
  }

  // ------------------------------------------------------------ metrics

  /** The one-metric batch that holds `points` of `m`. */
  function OneMetric(r: ResourceInfo, s: ScopeInfo, m: Metric, points: seq<Point>): Tree<Metric>
    requires !m.data.NoData?
  {
    [Resource(r, [Scope(s, [WithPoints(m, points)])])]
  }

  /** The single child under `r` with its scope. */
  function Only<T>(r: Resource<T>): Item<T>
    requires Count(r.scopes) == 1
  {
    CountIsLength(r.info, r.scopes);
    ScopesItems(r.info, r.scopes)[0]
  }

  /** A single metric is cut along its datapoints, everything else as any other batch. */
  function MetricHalves(tree: Tree<Metric>): Option<(Tree<Metric>, Tree<Metric>)> {
    if |tree| != 1 || Count(tree[0].scopes) != 1 then Halves(tree)
    else
      var only := Only(tree[0]);
      var points := Points(only.child);
      if |points| <= 1 then None
      else
        Some((OneMetric(only.resource, only.scope, only.child, points[..|points| / 2]),
              OneMetric(only.resource, only.scope, only.child, points[|points| / 2..])))
  }

  lemma {:induction false} FirstChild<T>(r: ResourceInfo, ss: seq<Scope<T>>, i: nat)
    requires i < |ss| && ss[i].children != [] && forall j :: 0 <= j < i ==> ss[j].children == []
    ensures ScopesItems(r, ss) != [] && ScopesItems(r, ss)[0] == Item(r, ss[i].info, ss[i].children[0])
  {
    var n := |ss| - 1;
    if i < n {
      FirstChild(r, ss[..n], i);
    } else {
      NoChildren(r, ss[..n]);
    }
  }

  lemma {:induction false} NoChildren<T>(r: ResourceInfo, ss: seq<Scope<T>>)
    requires forall j :: 0 <= j < |ss| ==> ss[j].children == []
    ensures ScopesItems(r, ss) == [] && Count(ss) == 0
  {
    if ss != [] {
      NoChildren(r, ss[..|ss| - 1]);
    }
  }

  /** The datapoints of `m` dealt into two copies of its shell. */
  method DealPoints(m: Metric, mid: nat) returns (ma: Metric, mb: Metric)
    requires !m.data.NoData? && mid <= |Points(m)|
    ensures ma == WithPoints(m, Points(m)[..mid]) && mb == WithPoints(m, Points(m)[mid..])
  {
    var points := Points(m);
    ma, mb := Shell(m), Shell(m);
    for seen := 0 to |points|
      invariant ma == WithPoints(m, points[..if seen < mid then seen else mid])
      invariant mb == WithPoints(m, if seen < mid then [] else points[mid..seen])
    {
      if seen < mid {
        ma := WithPoints(ma, Points(ma) + [points[seen]]);
        assert points[..seen] + [points[seen]] == points[..seen + 1];
      } else {
        mb := WithPoints(mb, Points(mb) + [points[seen]]);
        assert points[mid..seen] + [points[seen]] == points[mid..seen + 1];
      }
    }
    assert points[mid..|points|] == points[mid..];
  }

  method SplitSingleMetricDatapoints(r: Resource<Metric>) returns (out: Option<(Tree<Metric>, Tree<Metric>)>)
    requires Count(r.scopes) == 1
    ensures out == MetricHalves([r])
  {
    var i := 0;
    while i < |r.scopes| && |r.scopes[i].children| == 0
      invariant i <= |r.scopes|
      invariant forall j :: 0 <= j < i ==> r.scopes[j].children == []
    {
      i := i + 1;
    }
    if i == |r.scopes| {
      NoChildren(r.info, r.scopes);
      assert false;
    }
    FirstChild(r.info, r.scopes, i);
    var m := r.scopes[i].children[0];
    var points := Points(m);
    if |points| <= 1 {
      return None;
    }
    var ma, mb := DealPoints(m, |points| / 2);
    return Some(([Resource(r.info, [Scope(r.scopes[i].info, [ma])])], [Resource(r.info, [Scope(r.scopes[i].info, [mb])])]));
  }

  method SplitMetrics(tree: Tree<Metric>) returns (out: Option<(Tree<Metric>, Tree<Metric>)>)
    ensures out == MetricHalves(tree)
  {
    if |tree| == 1 && Count(tree[0].scopes) == 1 {
      assert tree == [tree[0]];
      out := SplitSingleMetricDatapoints(tree[0]);
    } else {
      out := SplitTree(tree);
    }
  }

  lemma FlatSingle<T>(r: ResourceInfo, s: ScopeInfo, child: T)
    ensures Flat([Resource(r, [Scope(s, [child])])]) == [Item(r, s, child)]
  {
    FlatOne(Resource(r, [Scope(s, [child])]));
    ScopesSnoc(r, [], Scope(s, [child]));
    assert [] + [Scope(s, [child])] == [Scope(s, [child])];
  }

  lemma OneMetricFlat(item: Item<Metric>, points: seq<Point>)
    requires !item.child.data.NoData?
    ensures var shell := Shell(item.child);
      FlatPoints(OneMetric(item.resource, item.scope, item.child, points))
      == PointItems(item.resource, item.scope, shell, points)
  {
    var child := WithPoints(item.child, points);
    FlatSingle(item.resource, item.scope, child);
    ExpandOne(Item(item.resource, item.scope, child));
  }

  lemma OnlyFlat<T>(r: Resource<T>)
    requires Count(r.scopes) == 1
    ensures Flat([r]) == [Only(r)] && Only(r).resource == r.info
  {
    FlatOne(r);
    CountIsLength(r.info, r.scopes);
    ItemsResource(r.info, r.scopes);
  }

  lemma {:induction false} ItemsResource<T>(r: ResourceInfo, ss: seq<Scope<T>>)
    ensures forall k :: 0 <= k < |ScopesItems(r, ss)| ==> ScopesItems(r, ss)[k].resource == r
  {
    if ss != [] {
      ItemsResource(r, ss[..|ss| - 1]);
    }
  }

  lemma SinglePointsConserve(item: Item<Metric>, mid: nat)
    requires !item.child.data.NoData? && mid <= |Points(item.child)|
    ensures var points := Points(item.child);
      FlatPoints(OneMetric(item.resource, item.scope, item.child, points[..mid]))
      + FlatPoints(OneMetric(item.resource, item.scope, item.child, points[mid..])) == MetricItems(item)
  {
    var points := Points(item.child);
    OneMetricFlat(item, points[..mid]);
    OneMetricFlat(item, points[mid..]);
    PointItemsJoin(item.resource, item.scope, Shell(item.child), points, mid);
  }

  lemma PointItemsJoin(r: ResourceInfo, s: ScopeInfo, shell: Metric, points: seq<Point>, mid: nat)
    requires mid <= |points|
    ensures PointItems(r, s, shell, points[..mid]) + PointItems(r, s, shell, points[mid..])
      == PointItems(r, s, shell, points)
  {
  }

  /** A metrics split keeps every datapoint once, in order, under its resource, scope and metric. */
  lemma MetricHalvesConserve(tree: Tree<Metric>)
    requires MetricHalves(tree).Some?
    ensures var (a, b) := MetricHalves(tree).value; FlatPoints(a) + FlatPoints(b) == FlatPoints(tree)
  {
    if |tree| == 1 && Count(tree[0].scopes) == 1 {
      assert tree == [tree[0]];
      OnlyFlat(tree[0]);
      var only := Only(tree[0]);
      ExpandOne(only);
      SinglePointsConserve(only, |Points(only.child)| / 2);
    } else {
      HalvesConserve(tree);
      var (a, b) := Halves(tree).value;
      ExpandConcat(Flat(a), Flat(b));
    }
  }

  /** Metrics cannot be split exactly when at most one resource holds at most one metric of at
      most one datapoint; one step deeper than the other signals. */
  lemma MetricIndivisibleIff(tree: Tree<Metric>)
    ensures MetricHalves(tree).None? <==>
      |tree| <= 1 && |Flat(tree)| <= 1 && |FlatPoints(tree)| <= 1
  {
    if |tree| == 1 && Count(tree[0].scopes) == 1 {
      assert tree == [tree[0]];
      OnlyFlat(tree[0]);
      ExpandOne(Only(tree[0]));
    } else {
      IndivisibleIff(tree);
      if Halves(tree).None? {
        assert Flat(tree) == [] by {
          if |tree| == 1 {
            assert tree == [tree[0]];
            FlatOne(tree[0]);
            CountIsLength(tree[0].info, tree[0].scopes);
          }
        }
      }
    }
  }

  // ------------------------------------------------------------ depth

  function CeilLog2(n: nat): nat {
    if n <= 1 then 0 else 1 + CeilLog2((n + 1) / 2)
  }

  lemma {:induction false} CeilLog2Monotone(m: nat, n: nat)
    requires m <= n
    ensures CeilLog2(m) <= CeilLog2(n)
  {
    if m > 1 {
      CeilLog2Monotone((m + 1) / 2, (n + 1) / 2);
    }
  }

  function Largest(xs: seq<nat>): nat {
    if xs == [] then 0
    else
      var rest := Largest(xs[..|xs| - 1]);
      if xs[|xs| - 1] > rest then xs[|xs| - 1] else rest
  }

  lemma {:induction false} LargestAbove(xs: seq<nat>, i: nat)
    requires i < |xs|
    ensures xs[i] <= Largest(xs)
  {
    if i < |xs| - 1 {
      LargestAbove(xs[..|xs| - 1], i);
    }
  }

  lemma {:induction false} LargestLeast(xs: seq<nat>, bound: nat)
    requires forall i :: 0 <= i < |xs| ==> xs[i] <= bound
    ensures Largest(xs) <= bound
  {
    if xs != [] {
      LargestLeast(xs[..|xs| - 1], bound);
    }
  }

  /** The most children under any one resource. */
  function Widest<T>(tree: Tree<T>): nat {
    Largest(Map(tree, (r: Resource<T>) => Count(r.scopes)))
  }

  /** How many times a batch can be halved before nothing is left to halve. */
  function Depth<T>(tree: Tree<T>): nat {
    CeilLog2(|tree|) + CeilLog2(Widest(tree))
  }

  lemma WidestAbove<T>(tree: Tree<T>, i: nat)
    requires i < |tree|
    ensures Count(tree[i].scopes) <= Widest(tree)
  {
    LargestAbove(Map(tree, (r: Resource<T>) => Count(r.scopes)), i);
  }

  lemma WidestPart<T>(part: Tree<T>, tree: Tree<T>)
    requires forall i :: 0 <= i < |part| ==> part[i] in tree
    ensures Widest(part) <= Widest(tree)
  {
    forall i | 0 <= i < |part|
      ensures Count(part[i].scopes) <= Widest(tree)
    {
      var j :| 0 <= j < |tree| && tree[j] == part[i];
      WidestAbove(tree, j);
    }
    LargestLeast(Map(part, (r: Resource<T>) => Count(r.scopes)), Widest(tree));
  }

  lemma WidestOne<T>(r: Resource<T>)
    ensures Widest([r]) == Count(r.scopes)
  {
    var xs := Map([r], (x: Resource<T>) => Count(x.scopes));
    assert xs == [Count(r.scopes)];
    assert xs[..0] == [];
    assert Largest(xs) == xs[0];
  }

  /** A side of a split of at most half the resources or children is one level shallower. */
  lemma PartShallower<T>(part: Tree<T>, tree: Tree<T>)
    requires |tree| > 1 && |part| <= (|tree| + 1) / 2
    requires forall i :: 0 <= i < |part| ==> part[i] in tree
    ensures Depth(part) < Depth(tree)
  {
    WidestPart(part, tree);
    CeilLog2Monotone(Widest(part), Widest(tree));
    CeilLog2Monotone(|part|, (|tree| + 1) / 2);
  }

  lemma ClipShallower<T>(r: Resource<T>, lo: nat, hi: nat)
    requires lo <= hi <= Count(r.scopes) && Count(r.scopes) > 1 && hi - lo <= (Count(r.scopes) + 1) / 2
    ensures Depth([Resource(r.info, Clip(r.scopes, lo, hi))]) < Depth([r])
  {
    var part := Resource(r.info, Clip(r.scopes, lo, hi));
    WidestOne(r);
    WidestOne(part);
    CountIsLength(r.info, r.scopes);
    CountIsLength(r.info, part.scopes);
    ClipFlat(r.info, r.scopes, lo, hi);
    CeilLog2Monotone(Count(part.scopes), (Count(r.scopes) + 1) / 2);
  }

  /** Every split of a traces or logs batch is a level of its depth. */
  lemma HalvesShallower<T>(tree: Tree<T>)
    requires Halves(tree).Some?
    ensures var (a, b) := Halves(tree).value; Depth(a) < Depth(tree) && Depth(b) < Depth(tree)
  {
    if |tree| > 1 {
      PartShallower(tree[..|tree| / 2], tree);
      PartShallower(tree[|tree| / 2..], tree);
    } else {
      assert tree == [tree[0]];
      var total := Count(tree[0].scopes);
      ClipShallower(tree[0], 0, total / 2);
      ClipShallower(tree[0], total / 2, total);
    }
  }

  /** The most datapoints in any one metric. */
  function MostPoints(items: seq<Item<Metric>>): nat {
    Largest(Map(items, (item: Item<Metric>) => |Points(item.child)|))
  }

  /** As Depth, with one more level: the datapoints of a metric. */
  function MetricDepth(tree: Tree<Metric>): nat {
    Depth(tree) + CeilLog2(MostPoints(Flat(tree)))
  }

  lemma MostPointsPart(part: seq<Item<Metric>>, whole: seq<Item<Metric>>)
    requires forall i :: 0 <= i < |part| ==> part[i] in whole
    ensures MostPoints(part) <= MostPoints(whole)
  {
    var sizes := Map(whole, (item: Item<Metric>) => |Points(item.child)|);
    forall i | 0 <= i < |part|
      ensures |Points(part[i].child)| <= Largest(sizes)
    {
      var j :| 0 <= j < |whole| && whole[j] == part[i];
      LargestAbove(sizes, j);
    }
    LargestLeast(Map(part, (item: Item<Metric>) => |Points(item.child)|), Largest(sizes));
  }

  lemma MostPointsOne(item: Item<Metric>)
    ensures MostPoints([item]) == |Points(item.child)|
  {
    var sizes := Map([item], (x: Item<Metric>) => |Points(x.child)|);
    assert sizes == [|Points(item.child)|];
    assert sizes[..0] == [];
    assert Largest(sizes) == sizes[0];
  }

  lemma OneMetricDepth(item: Item<Metric>, points: seq<Point>)
    requires !item.child.data.NoData?
    ensures MetricDepth(OneMetric(item.resource, item.scope, item.child, points)) == CeilLog2(|points|)
  {
    var child := WithPoints(item.child, points);
    var r := Resource(item.resource, [Scope(item.scope, [child])]);
    FlatSingle(item.resource, item.scope, child);
    MostPointsOne(Item(item.resource, item.scope, child));
    WidestOne(r);
    CountIsLength(r.info, r.scopes);
    FlatOne(r);
  }

  lemma OnlyDepth(r: Resource<Metric>)
    requires Count(r.scopes) == 1
    ensures MetricDepth([r]) == CeilLog2(|Points(Only(r).child)|)
  {
    OnlyFlat(r);
    WidestOne(r);
    MostPointsOne(Only(r));
  }

  lemma PieceDepth(item: Item<Metric>, points: seq<Point>)
    requires !item.child.data.NoData? && |Points(item.child)| > 1
    requires |points| <= (|Points(item.child)| + 1) / 2
    ensures MetricDepth(OneMetric(item.resource, item.scope, item.child, points)) < CeilLog2(|Points(item.child)|)
  {
    OneMetricDepth(item, points);
    CeilLog2Monotone(|points|, (|Points(item.child)| + 1) / 2);
  }

  lemma SinglePointsShallower(r: Resource<Metric>)
    requires Count(r.scopes) == 1 && MetricHalves([r]).Some?
    ensures MetricDepth(MetricHalves([r]).value.0) < MetricDepth([r])
    ensures MetricDepth(MetricHalves([r]).value.1) < MetricDepth([r])
  {
    var only := Only(r);
    var n := |Points(only.child)|;
    OnlyDepth(r);
    PieceDepth(only, Points(only.child)[..n / 2]);
    PieceDepth(only, Points(only.child)[n / 2..]);
  }

  lemma MostPointsSides(a: seq<Item<Metric>>, b: seq<Item<Metric>>)
    ensures MostPoints(a) <= MostPoints(a + b) && MostPoints(b) <= MostPoints(a + b)
  {
    MostPointsPart(a, a + b);
    MostPointsPart(b, a + b);
  }

  lemma HalvesMostPoints(tree: Tree<Metric>)
    requires Halves(tree).Some?
    ensures MostPoints(Flat(Halves(tree).value.0)) <= MostPoints(Flat(tree))
    ensures MostPoints(Flat(Halves(tree).value.1)) <= MostPoints(Flat(tree))
  {
    HalvesConserve(tree);
    var (a, b) := Halves(tree).value;
    MostPointsSides(Flat(a), Flat(b));
  }

  /** Every split of a metrics batch is a level of its depth. */
  lemma MetricHalvesShallower(tree: Tree<Metric>)
    requires MetricHalves(tree).Some?
    ensures var (a, b) := MetricHalves(tree).value;
      MetricDepth(a) < MetricDepth(tree) && MetricDepth(b) < MetricDepth(tree)
  {
    if |tree| == 1 && Count(tree[0].scopes) == 1 {
      assert tree == [tree[0]];
      SinglePointsShallower(tree[0]);
    } else {
      var (a, b) := Halves(tree).value;
      HalvesShallower(tree);
      HalvesMostPoints(tree);
      CeilLog2Monotone(MostPoints(Flat(a)), MostPoints(Flat(tree)));
      CeilLog2Monotone(MostPoints(Flat(b)), MostPoints(Flat(tree)));
    }
  }
}
