/** The per-key destination of datapoint grouping: metricBucket and ensureMetric in
    exporter/awskinesisexporter/partition_grouping.go. */
module MetricBuckets {
  import opened Sequences
  import opened Signals
  import opened KeyPlan
  import opened Buckets

  /** `metric` says where in its scope's copy the copy of an origin metric is. */
  datatype MetricBucket = MetricBucket(base: Bucket<Metric>, metric: map<(nat, nat, nat), nat>)

  function EmptyMetrics(): MetricBucket {
    MetricBucket(Empty(), map[])
  }

  // ------------------------------------------------------------ what a copy keeps

  /** `r'` is `r` with at most some absent attributes added. */
  ghost predicate Extends(r: ResourceInfo, r': ResourceInfo) {
    r'.schemaUrl == r.schemaUrl && forall k :: k in r.attrs ==> k in r'.attrs && r'.attrs[k] == r.attrs[k]
  }

  /** The same metric under the same scope and resource, datapoints aside. */
  ghost predicate SameMetric(src: Item<Metric>, dst: Item<Metric>) {
    Extends(src.resource, dst.resource) && dst.scope == src.scope && Shell(dst.child) == Shell(src.child)
  }

  ghost predicate SameMetrics(src: seq<Item<Metric>>, dst: seq<Item<Metric>>) {
    |src| == |dst| && forall n :: 0 <= n < |src| ==> SameMetric(src[n], dst[n])
  }

  lemma PromotedExtends(plan: Plan, r: ResourceInfo)
    ensures Extends(r, PromotedResource(plan, r))
  {
    forall k | k in r.attrs
      ensures k in PromotedResource(plan, r).attrs && PromotedResource(plan, r).attrs[k] == r.attrs[k]
    {
      PromotionOnlyAdds(plan, Parts(plan, r.attrs, "", map[]), true, r.attrs, k);
    }
  }

  lemma SameMetricsTransitive(a: seq<Item<Metric>>, b: seq<Item<Metric>>, c: seq<Item<Metric>>)
    requires SameMetrics(a, b) && SameMetrics(b, c)
    ensures SameMetrics(a, c)
  {
    forall n | 0 <= n < |a|
      ensures SameMetric(a[n], c[n])
    {
      assert SameMetric(a[n], b[n]) && SameMetric(b[n], c[n]);
    }
  }

  function OutPoint(plan: Plan, r: ResourceInfo, s: ScopeInfo, m: Metric, p: Point): PointItem {
    PointItem(PromotedResource(plan, r), s, Shell(m), PromotedLeaf(plan, r.attrs, m.name, p))
  }

  // ------------------------------------------------------------ places

  ghost predicate LastMetricIs(b: MetricBucket, i: nat, j: nat, k: nat, m: Metric)
    requires (i, j, k) in b.metric
  {
    && b.base.out != [] && b.base.out[|b.base.out| - 1].scopes != []
    && var ss := b.base.out[|b.base.out| - 1].scopes; var kids := ss[|ss| - 1].children;
      kids != [] && b.metric[(i, j, k)] == |kids| - 1 && Shell(kids[|kids| - 1]) == Shell(m)
  }

  /** No datapoint has been put under the last resource. */
  ghost predicate NoPointsYet(r: Resource<Metric>) {
    Expand(ScopesItems(r.info, r.scopes)) == []
  }

  /** The copy of the current resource has its promotions once it has a datapoint. */
  ghost predicate MetricInfoOk(plan: Plan, b: MetricBucket, i: nat, r: ResourceInfo) {
    i in b.base.rs ==>
      && b.base.out != []
      && var last := b.base.out[|b.base.out| - 1];
        last.info == PromotedResource(plan, r) || (last.info == r && NoPointsYet(last))
  }

  ghost predicate OnMetric(b: MetricBucket, i: nat, j: nat, k: nat, s: ScopeInfo, m: Metric) {
    && OnScope(b.base, i, j, s)
    && (forall x :: x in b.metric ==> (x.0, x.1) in b.base.ss && (x.0 == i && x.1 == j ==> x.2 <= k))
    && ((i, j, k) in b.metric ==> LastMetricIs(b, i, j, k, m))
  }

  ghost predicate OnMetricScope(b: MetricBucket, i: nat, j: nat, k: nat, s: ScopeInfo) {
    && OnScope(b.base, i, j, s)
    && (forall x :: x in b.metric ==> (x.0, x.1) in b.base.ss && (x.0 == i && x.1 == j ==> x.2 < k))
  }

  ghost predicate OnMetricResource(b: MetricBucket, i: nat, j: nat) {
    && OnResource(b.base, i, j)
    && (forall x :: x in b.metric ==> (x.0, x.1) in b.base.ss)
  }

  ghost predicate BetweenMetrics(b: MetricBucket, i: nat) {
    && Between(b.base, i)
    && (forall x :: x in b.metric ==> (x.0, x.1) in b.base.ss)
  }

  // ------------------------------------------------------------ growing the last metric

  lemma ExpandLast(front: seq<Item<Metric>>, item: Item<Metric>)
    ensures Expand(front + [item]) == Expand(front) + MetricItems(item)
  {
    ExpandSnoc(front, item);
  }

  /** A metric shell without datapoints shows in the metrics and not in the datapoints. */
  lemma ShellAdds(out: Tree<Metric>, m: Metric)
    requires out != [] && out[|out| - 1].scopes != []
    ensures var last := out[|out| - 1]; var s := last.scopes[|last.scopes| - 1].info;
      && Flat(WithChild(out, Shell(m), last.info)) == Flat(out) + [Item(last.info, s, Shell(m))]
      && FlatPoints(WithChild(out, Shell(m), last.info)) == FlatPoints(out)
  {
    var last := out[|out| - 1];
    var s := last.scopes[|last.scopes| - 1].info;
    FlatWithChild(out, Shell(m));
    ExpandLast(Flat(out), Item(last.info, s, Shell(m)));
    assert MetricItems(Item(last.info, s, Shell(m))) == [];
  }

  lemma ShellKeepsNoPoints(r: Resource<Metric>, m: Metric)
    requires r.scopes != [] && NoPointsYet(r)
    ensures var n := |r.scopes| - 1;
      NoPointsYet(r.(scopes := r.scopes[n := r.scopes[n].(children := r.scopes[n].children + [Shell(m)])]))
  {
    var n := |r.scopes| - 1;
    ScopesGrow(r.info, r.scopes, Shell(m));
    ExpandLast(ScopesItems(r.info, r.scopes), Item(r.info, r.scopes[n].info, Shell(m)));
    assert MetricItems(Item(r.info, r.scopes[n].info, Shell(m))) == [];
  }

  /** The tree with its very last child replaced. */
  function WithLast(out: Tree<Metric>, child: Metric): Tree<Metric>
    requires out != [] && out[|out| - 1].scopes != []
    requires out[|out| - 1].scopes[|out[|out| - 1].scopes| - 1].children != []
  {
    var n := |out| - 1;
    var ss := out[n].scopes;
    var kids := ss[|ss| - 1].children;
    out[n := out[n].(scopes := ss[|ss| - 1 := ss[|ss| - 1].(children := kids[|kids| - 1 := child])])]
  }

  /** The tree without its very last child. */
  function WithoutLast(out: Tree<Metric>): Tree<Metric>
    requires out != [] && out[|out| - 1].scopes != []
    requires out[|out| - 1].scopes[|out[|out| - 1].scopes| - 1].children != []
  {
    var n := |out| - 1;
    var ss := out[n].scopes;
    var kids := ss[|ss| - 1].children;
    out[n := out[n].(scopes := ss[|ss| - 1 := ss[|ss| - 1].(children := kids[..|kids| - 1])])]
  }

  lemma FlatWithLast(out: Tree<Metric>, child: Metric)
    requires out != [] && out[|out| - 1].scopes != []
    requires out[|out| - 1].scopes[|out[|out| - 1].scopes| - 1].children != []
    ensures var last := out[|out| - 1]; var s := last.scopes[|last.scopes| - 1].info;
      Flat(WithLast(out, child)) == Flat(WithoutLast(out)) + [Item(last.info, s, child)]
  {
    var base := WithoutLast(out);
    var n := |out| - 1;
    FlatWithChild(base, child);
    var ss := out[n].scopes;
    var m := |ss| - 1;
    var kids := ss[m].children;
    assert kids[|kids| - 1 := child] == kids[..|kids| - 1] + [child];
    var ss' := base[n].scopes;
    var grown := ss[m].(children := kids[|kids| - 1 := child]);
    assert ss'[m].(children := ss'[m].children + [child]) == grown;
    assert ss'[m := grown] == ss[m := grown];
    assert base[n := out[n].(scopes := ss[m := grown])] == out[n := out[n].(scopes := ss[m := grown])];
    assert WithChild(base, child, base[n].info) == WithLast(out, child);
  }

  /** Adding a datapoint to the very last metric. */
  lemma PointAdds(out: Tree<Metric>, m: Metric, p: Point)
    requires out != [] && out[|out| - 1].scopes != []
    requires var ss := out[|out| - 1].scopes; var kids := ss[|ss| - 1].children;
      kids != [] && kids[|kids| - 1] == m && !m.data.NoData?
    ensures var last := out[|out| - 1]; var s := last.scopes[|last.scopes| - 1].info;
      var out' := WithLast(out, WithPoints(m, Points(m) + [p]));
      && FlatPoints(out') == FlatPoints(out) + [PointItem(last.info, s, Shell(m), p)]
      && SameMetrics(Flat(out), Flat(out'))
  {
    var last := out[|out| - 1];
    var s := last.scopes[|last.scopes| - 1].info;
    var m' := WithPoints(m, Points(m) + [p]);
    LastIsItself(out, m);
    FlatWithLast(out, m);
    FlatWithLast(out, m');
    var front := Flat(WithoutLast(out));
    ExpandLast(front, Item(last.info, s, m));
    ExpandLast(front, Item(last.info, s, m'));
    PointsGrow(Item(last.info, s, m), p);
    ConcatAssociates(Expand(front), MetricItems(Item(last.info, s, m)), [PointItem(last.info, s, Shell(m), p)]);
  }

  lemma LastIsItself(out: Tree<Metric>, m: Metric)
    requires out != [] && out[|out| - 1].scopes != []
    requires var ss := out[|out| - 1].scopes; var kids := ss[|ss| - 1].children; kids != [] && kids[|kids| - 1] == m
    ensures WithLast(out, m) == out
  {
    var n := |out| - 1;
    var ss := out[n].scopes;
    var kids := ss[|ss| - 1].children;
    assert kids[|kids| - 1 := m] == kids;
    assert ss[|ss| - 1 := ss[|ss| - 1].(children := kids)] == ss;
  }

  lemma PointsGrow(item: Item<Metric>, p: Point)
    requires !item.child.data.NoData?
    ensures MetricItems(item.(child := WithPoints(item.child, Points(item.child) + [p])))
      == MetricItems(item) + [PointItem(item.resource, item.scope, Shell(item.child), p)]
  {
  }

  // ------------------------------------------------------------ promoting the last resource

  lemma {:induction false} Relabel(r: ResourceInfo, r': ResourceInfo, ss: seq<Scope<Metric>>)
    requires Extends(r, r')
    ensures SameMetrics(ScopesItems(r, ss), ScopesItems(r', ss))
    ensures Expand(ScopesItems(r, ss)) == [] ==> Expand(ScopesItems(r', ss)) == []
  {
    if ss != [] {
      var n := |ss| - 1;
      Relabel(r, r', ss[..n]);
      ExpandConcat(ScopesItems(r, ss[..n]), ScopeItems(r, ss[n]));
      ExpandConcat(ScopesItems(r', ss[..n]), ScopeItems(r', ss[n]));
      RelabelScope(r, r', ss[n]);
    }
  }

  lemma RelabelScope(r: ResourceInfo, r': ResourceInfo, s: Scope<Metric>)
    requires Extends(r, r')
    ensures SameMetrics(ScopeItems(r, s), ScopeItems(r', s))
    ensures Expand(ScopeItems(r, s)) == [] ==> Expand(ScopeItems(r', s)) == []
  {
    if Expand(ScopeItems(r, s)) == [] {
      SamePoints(ScopeItems(r, s), ScopeItems(r', s));
    }
  }

  lemma {:induction false} SamePoints(a: seq<Item<Metric>>, b: seq<Item<Metric>>)
    requires |a| == |b| && forall n :: 0 <= n < |a| ==> Points(a[n].child) == Points(b[n].child)
    ensures |Expand(a)| == |Expand(b)|
  {
    if a != [] {
      SamePoints(a[..|a| - 1], b[..|b| - 1]);
    }
  }

  /** Promoting the last resource, when nothing under it carries datapoints yet or it is promoted
      already, changes no datapoint and keeps every metric. */
  lemma InfoKeeps(out: Tree<Metric>, info: ResourceInfo)
    requires out != [] && Extends(out[|out| - 1].info, info)
    requires out[|out| - 1].info == info || NoPointsYet(out[|out| - 1])
    ensures FlatPoints(WithInfo(out, info)) == FlatPoints(out)
    ensures SameMetrics(Flat(out), Flat(WithInfo(out, info)))
  {
    var n := |out| - 1;
    var r := out[n].(info := info);
    assert out[n := r] == out[..n] + [r];
    FlatSnoc(out[..n], r);
    FlatLast(out);
    Relabel(out[n].info, info, out[n].scopes);
    ExpandConcat(Flat(out[..n]), ScopesItems(out[n].info, out[n].scopes));
    ExpandConcat(Flat(out[..n]), ScopesItems(info, out[n].scopes));
  }
}
