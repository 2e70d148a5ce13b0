/** Grouping datapoints by their own key: groupMetricsByLeaf in
    exporter/awskinesisexporter/partition_grouping.go. */
module MetricGrouping {
  import opened Sequences
  import opened Signals
  import opened KeyPlan
  import opened Buckets
  import opened MetricBuckets
  import LeafGrouping
  import ResourceGrouping

  // ------------------------------------------------------------ one bucket

  lemma EmptyScopeNoPoints(r: ResourceInfo, ss: seq<Scope<Metric>>, s: ScopeInfo)
    ensures ScopesItems(r, ss + [Scope(s, [])]) == ScopesItems(r, ss)
  {
    ScopesSnoc(r, ss, Scope(s, []));
  }

  /** The scope copy in place, before the metric's own. */
  method OpenMetricScope(plan: Plan, b: MetricBucket, i: nat, j: nat, k: nat, r: ResourceInfo, s: ScopeInfo, m: Metric)
    returns (b': MetricBucket)
    requires OnMetric(b, i, j, k, s, m) && MetricInfoOk(plan, b, i, r)
    ensures OnScope(b'.base, i, j, s) && i in b'.base.rs && (i, j) in b'.base.ss && MetricInfoOk(plan, b', i, r)
    ensures b'.metric == b.metric && b'.base.ss.Keys == b.base.ss.Keys + {(i, j)}
    ensures Flat(b'.base.out) == Flat(b.base.out)
    ensures (i, j, k) in b.metric ==> b' == b
  {
    var base := EnsureScope(b.base, i, j, r, s);
    EnsureScopeFlat(b.base, base, i, j, r, s);
    b' := MetricBucket(base, b.metric);
    if i !in b.base.rs {
      var ss: seq<Scope<Metric>> := [Scope(s, [])];
      EmptyScopeNoPoints(r, [], s);
      assert [] + ss == ss;
    } else if (i, j) !in b.base.ss {
      var last := b.base.out[|b.base.out| - 1];
      EmptyScopeNoPoints(last.info, last.scopes, s);
    }
  }

  ghost predicate ScopeOpen(b: MetricBucket, i: nat, j: nat, s: ScopeInfo) {
    OnScope(b.base, i, j, s) && i in b.base.rs && (i, j) in b.base.ss
  }

  function LastResource(b: MetricBucket): Resource<Metric>
    requires b.base.out != []
  {
    b.base.out[|b.base.out| - 1]
  }

  /** The bucket with the shell of `m` put at its end as metric (i, j, k). */
  function WithShell(b: MetricBucket, at: (nat, nat, nat), m: Metric): MetricBucket
    requires b.base.out != [] && LastResource(b).scopes != []
  {
    var ss := LastResource(b).scopes;
    MetricBucket(b.base.(out := WithChild(b.base.out, Shell(m), LastResource(b).info)),
                 b.metric[at := |ss[|ss| - 1].children|])
  }

  lemma ShellKeepsPlace(b: MetricBucket, i: nat, j: nat, k: nat, s: ScopeInfo, m: Metric)
    requires ScopeOpen(b, i, j, s)
    requires forall x :: x in b.metric ==> (x.0, x.1) in b.base.ss && (x.0 == i && x.1 == j ==> x.2 <= k)
    ensures OnMetric(WithShell(b, (i, j, k), m), i, j, k, s, m)
  {
  }

  lemma ShellKeepsInfo(plan: Plan, b: MetricBucket, i: nat, j: nat, k: nat, r: ResourceInfo, s: ScopeInfo, m: Metric)
    requires ScopeOpen(b, i, j, s) && MetricInfoOk(plan, b, i, r)
    ensures MetricInfoOk(plan, WithShell(b, (i, j, k), m), i, r)
  {
    if NoPointsYet(LastResource(b)) {
      ShellKeepsNoPoints(LastResource(b), m);
    }
  }

  lemma ShellPlaced(plan: Plan, b: MetricBucket, i: nat, j: nat, k: nat, r: ResourceInfo, s: ScopeInfo, m: Metric)
    requires ScopeOpen(b, i, j, s) && MetricInfoOk(plan, b, i, r)
    ensures FlatPoints(WithShell(b, (i, j, k), m).base.out) == FlatPoints(b.base.out)
    ensures Flat(WithShell(b, (i, j, k), m).base.out) == Flat(b.base.out) + [Item(LastResource(b).info, s, Shell(m))]
    ensures SameMetric(Item(r, s, m), Item(LastResource(b).info, s, Shell(m)))
  {
    ShellAdds(b.base.out, m);
    CopySame(plan, r, LastResource(b).info, s, m);
  }

  lemma CopySame(plan: Plan, r: ResourceInfo, info: ResourceInfo, s: ScopeInfo, m: Metric)
    requires info == r || info == PromotedResource(plan, r)
    ensures SameMetric(Item(r, s, m), Item(info, s, Shell(m)))
  {
    PromotedExtends(plan, r);
    assert Shell(Shell(m)) == Shell(m);
  }

  /** What one more metric shell, or none, does to a bucket. */
  ghost predicate ShellReady(b: MetricBucket, b': MetricBucket, at: (nat, nat, nat), src: Item<Metric>) {
    && FlatPoints(b'.base.out) == FlatPoints(b.base.out)
    && (at in b.metric ==> b' == b)
    && (at !in b.metric ==>
        |Flat(b'.base.out)| == |Flat(b.base.out)| + 1
        && Flat(b'.base.out)[..|Flat(b.base.out)|] == Flat(b.base.out)
        && SameMetric(src, Flat(b'.base.out)[|Flat(b.base.out)|]))
  }

  lemma ShellIsReady(plan: Plan, b: MetricBucket, b1: MetricBucket, i: nat, j: nat, k: nat, r: ResourceInfo, s: ScopeInfo, m: Metric)
    requires ScopeOpen(b1, i, j, s) && MetricInfoOk(plan, b1, i, r)
    requires Flat(b1.base.out) == Flat(b.base.out) && (i, j, k) !in b.metric
    ensures ShellReady(b, WithShell(b1, (i, j, k), m), (i, j, k), Item(r, s, m))
  {
    ShellPlaced(plan, b1, i, j, k, r, s, m);
  }

  method AddShell(b: MetricBucket, i: nat, j: nat, k: nat, s: ScopeInfo, m: Metric) returns (b': MetricBucket)
    requires ScopeOpen(b, i, j, s)
    ensures b' == WithShell(b, (i, j, k), m)
  {
    var at, sc := b.base.rs[i], b.base.ss[(i, j)];
    var info := b.base.out[at].info;
    var kids := b.base.out[at].scopes[sc].children;
    b' := MetricBucket(b.base.(out := AppendAt(b.base.out, at, sc, Shell(m), info)), b.metric[(i, j, k) := |kids|]);
  }

  lemma AddedShell(plan: Plan, b: MetricBucket, b1: MetricBucket, i: nat, j: nat, k: nat, r: ResourceInfo, s: ScopeInfo, m: Metric)
    requires OnMetric(b, i, j, k, s, m) && (i, j, k) !in b.metric
    requires ScopeOpen(b1, i, j, s) && MetricInfoOk(plan, b1, i, r)
    requires b1.metric == b.metric && b1.base.ss.Keys == b.base.ss.Keys + {(i, j)}
    requires Flat(b1.base.out) == Flat(b.base.out)
    ensures var b' := WithShell(b1, (i, j, k), m);
      && OnMetric(b', i, j, k, s, m) && MetricInfoOk(plan, b', i, r)
      && ShellReady(b, b', (i, j, k), Item(r, s, m))
  {
    ShellIsReady(plan, b, b1, i, j, k, r, s, m);
    ShellKeepsInfo(plan, b1, i, j, k, r, s, m);
    ShellKeepsPlace(b1, i, j, k, s, m);
  }

  method EnsureMetric(plan: Plan, b: MetricBucket, i: nat, j: nat, k: nat, r: ResourceInfo, s: ScopeInfo, m: Metric)
    returns (b': MetricBucket)
    requires OnMetric(b, i, j, k, s, m) && MetricInfoOk(plan, b, i, r)
    ensures OnMetric(b', i, j, k, s, m) && MetricInfoOk(plan, b', i, r)
    ensures i in b'.base.rs && (i, j) in b'.base.ss && b'.metric.Keys == b.metric.Keys + {(i, j, k)}
    ensures ShellReady(b, b', (i, j, k), Item(r, s, m))
  {
    var opened_ := OpenMetricScope(plan, b, i, j, k, r, s, m);
    b' := opened_;
    if (i, j, k) !in opened_.metric {
      AddedShell(plan, b, opened_, i, j, k, r, s, m);
      b' := AddShell(opened_, i, j, k, s, m);
    }
  }

  /** The promoted attributes of a resource copy and of a new datapoint under it. */
  method PromotePoint(plan: Plan, parts: seq<string>, r: ResourceInfo, info: ResourceInfo, name: string, p: Point)
    returns (info': ResourceInfo, p': Point)
    requires parts == Parts(plan, r.attrs, name, p.attrs)
    requires info == r || info == PromotedResource(plan, r)
    ensures info' == PromotedResource(plan, r) && p' == PromotedLeaf(plan, r.attrs, name, p)
  {
    var res, leaf := info.attrs, p.attrs;
    ResourcePromotion(plan, r, name, p.attrs);
    if HasPromotion(plan) {
      res, leaf := ApplyPromotions(plan, parts, res, leaf);
    } else {
      NoPromotion(plan, parts, true, res);
      NoPromotion(plan, parts, false, leaf);
    }
    info', p' := info.(attrs := res), p.(attrs := leaf);
  }

  /** The tree with a datapoint added to metric `mi` of scope `sc` of resource `at`. */
  function AppendPoint(out: Tree<Metric>, at: nat, sc: nat, mi: nat, p: Point, info: ResourceInfo): Tree<Metric>
    requires at < |out| && sc < |out[at].scopes| && mi < |out[at].scopes[sc].children|
    requires !out[at].scopes[sc].children[mi].data.NoData?
  {
    var ss := out[at].scopes;
    var kids := ss[sc].children;
    var grown := WithPoints(kids[mi], Points(kids[mi]) + [p]);
    out[at := Resource(info, ss[sc := ss[sc].(children := kids[mi := grown])])]
  }

  lemma AppendPointIsLast(out: Tree<Metric>, p: Point, info: ResourceInfo)
    requires out != [] && out[|out| - 1].scopes != []
    requires var ss := out[|out| - 1].scopes; var kids := ss[|ss| - 1].children;
      kids != [] && !kids[|kids| - 1].data.NoData?
    ensures var ss := out[|out| - 1].scopes; var kids := ss[|ss| - 1].children; var m := kids[|kids| - 1];
      AppendPoint(out, |out| - 1, |ss| - 1, |kids| - 1, p, info)
      == WithLast(WithInfo(out, info), WithPoints(m, Points(m) + [p]))
  {
  }

  /** One datapoint put at the end of the bucket, the resource promoted. */
  lemma PointPlaced(out: Tree<Metric>, p: Point, info: ResourceInfo)
    requires out != [] && out[|out| - 1].scopes != []
    requires var ss := out[|out| - 1].scopes; var kids := ss[|ss| - 1].children;
      kids != [] && !kids[|kids| - 1].data.NoData?
    requires Extends(out[|out| - 1].info, info)
    requires out[|out| - 1].info == info || NoPointsYet(out[|out| - 1])
    ensures var ss := out[|out| - 1].scopes; var kids := ss[|ss| - 1].children; var m := kids[|kids| - 1];
      var out' := AppendPoint(out, |out| - 1, |ss| - 1, |kids| - 1, p, info);
      && FlatPoints(out') == FlatPoints(out) + [PointItem(info, ss[|ss| - 1].info, Shell(m), p)]
      && SameMetrics(Flat(out), Flat(out'))
  {
    var ss := out[|out| - 1].scopes;
    var kids := ss[|ss| - 1].children;
    var m := kids[|kids| - 1];
    AppendPointIsLast(out, p, info);
    InfoKeeps(out, info);
    var relabelled := WithInfo(out, info);
    PointAdds(relabelled, m, p);
    SameMetricsTransitive(Flat(out), Flat(relabelled), Flat(WithLast(relabelled, WithPoints(m, Points(m) + [p]))));
  }

  lemma PointKeepsPlace(plan: Plan, b: MetricBucket, i: nat, j: nat, k: nat, r: ResourceInfo, s: ScopeInfo, m: Metric, p: Point)
    requires OnMetric(b, i, j, k, s, m) && !m.data.NoData?
    requires i in b.base.rs && (i, j) in b.base.ss && (i, j, k) in b.metric
    ensures var out' := AppendPoint(b.base.out, b.base.rs[i], b.base.ss[(i, j)], b.metric[(i, j, k)], p, PromotedResource(plan, r));
      var b' := b.(base := b.base.(out := out'));
      OnMetric(b', i, j, k, s, m) && MetricInfoOk(plan, b', i, r)
  {
  }

  lemma PointAdded(plan: Plan, b: MetricBucket, i: nat, j: nat, k: nat, r: ResourceInfo, s: ScopeInfo, m: Metric, p: Point)
    requires OnMetric(b, i, j, k, s, m) && MetricInfoOk(plan, b, i, r) && !m.data.NoData?
    requires i in b.base.rs && (i, j) in b.base.ss && (i, j, k) in b.metric
    ensures var out' := AppendPoint(b.base.out, b.base.rs[i], b.base.ss[(i, j)], b.metric[(i, j, k)], p, PromotedResource(plan, r));
      && FlatPoints(out') == FlatPoints(b.base.out) + [PointItem(PromotedResource(plan, r), s, Shell(m), p)]
      && SameMetrics(Flat(b.base.out), Flat(out'))
  {
    var out := b.base.out;
    var ss := out[|out| - 1].scopes;
    var kids := ss[|ss| - 1].children;
    assert b.base.rs[i] == |out| - 1 && b.base.ss[(i, j)] == |ss| - 1 && ss[|ss| - 1].info == s;
    assert b.metric[(i, j, k)] == |kids| - 1 && Shell(kids[|kids| - 1]) == Shell(m);
    PromotedExtends(plan, r);
    PointPlaced(out, p, PromotedResource(plan, r));
  }

  method AddDatapoint(plan: Plan, b: MetricBucket, i: nat, j: nat, k: nat, r: ResourceInfo, s: ScopeInfo, m: Metric, p: Point,
                      parts: seq<string>) returns (b': MetricBucket)
    requires OnMetric(b, i, j, k, s, m) && MetricInfoOk(plan, b, i, r)
    requires i in b.base.rs && (i, j) in b.base.ss && (i, j, k) in b.metric
    requires parts == Parts(plan, r.attrs, m.name, p.attrs) && !m.data.NoData?
    ensures OnMetric(b', i, j, k, s, m) && MetricInfoOk(plan, b', i, r) && b'.metric == b.metric
    ensures FlatPoints(b'.base.out) == FlatPoints(b.base.out) + [OutPoint(plan, r, s, m, p)]
    ensures SameMetrics(Flat(b.base.out), Flat(b'.base.out))
  {
    var at, sc, mi := b.base.rs[i], b.base.ss[(i, j)], b.metric[(i, j, k)];
    var info, leaf := PromotePoint(plan, parts, r, b.base.out[at].info, m.name, p);
    PointAdded(plan, b, i, j, k, r, s, m, leaf);
    PointKeepsPlace(plan, b, i, j, k, r, s, m, leaf);
    b' := b.(base := b.base.(out := AppendPoint(b.base.out, at, sc, mi, leaf, info)));
  }

  // ------------------------------------------------------------ what grouping means

  function PointKey(plan: Plan, it: PointItem): string {
    Key(plan, it.resource.attrs, it.shell.name, it.point.attrs)
  }

  function OutItem(plan: Plan, it: PointItem): PointItem {
    OutPoint(plan, it.resource, it.scope, it.shell, it.point)
  }

  /** The datapoints of one key, in order, as they leave. */
  function ProjectPoints(plan: Plan, pts: seq<PointItem>, key: string): seq<PointItem> {
    if pts == [] then []
    else
      var last := pts[|pts| - 1];
      ProjectPoints(plan, pts[..|pts| - 1], key) + if PointKey(plan, last) == key then [OutItem(plan, last)] else []
  }

  /** The keys a metric is filed under: its datapoints', or for a metric without any, the key with
      empty datapoint segments. */
  function MetricKeys(plan: Plan, item: Item<Metric>): seq<string> {
    if Points(item.child) == [] then [Key(plan, item.resource.attrs, item.child.name, map[])]
    else Map(Points(item.child), (p: Point) => Key(plan, item.resource.attrs, item.child.name, p.attrs))
  }

  function AllKeys(plan: Plan, items: seq<Item<Metric>>): seq<string> {
    if items == [] then [] else AllKeys(plan, items[..|items| - 1]) + MetricKeys(plan, items[|items| - 1])
  }

  function FirstSeen(keys: seq<string>): seq<string> {
    if keys == [] then []
    else
      var before := FirstSeen(keys[..|keys| - 1]);
      if keys[|keys| - 1] in before then before else before + [keys[|keys| - 1]]
  }

  /** The metrics filed under one key, in order. */
  function Landed(plan: Plan, items: seq<Item<Metric>>, key: string): seq<Item<Metric>> {
    if items == [] then []
    else
      var last := items[|items| - 1];
      Landed(plan, items[..|items| - 1], key) + if key in MetricKeys(plan, last) then [last] else []
  }

  lemma LandedSnoc(plan: Plan, items: seq<Item<Metric>>, item: Item<Metric>, key: string)
    ensures Landed(plan, items + [item], key) == Landed(plan, items, key) + if key in MetricKeys(plan, item) then [item] else []
    ensures AllKeys(plan, items + [item]) == AllKeys(plan, items) + MetricKeys(plan, item)
  {
    assert (items + [item])[..|items|] == items;
  }

  lemma ProjectPointsSnoc(plan: Plan, pts: seq<PointItem>, it: PointItem, key: string)
    ensures ProjectPoints(plan, pts + [it], key)
      == ProjectPoints(plan, pts, key) + if PointKey(plan, it) == key then [OutItem(plan, it)] else []
  {
    assert (pts + [it])[..|pts|] == pts;
  }

  lemma FirstSeenSnoc(keys: seq<string>, key: string)
    ensures FirstSeen(keys + [key]) == var before := FirstSeen(keys); if key in before then before else before + [key]
  {
    assert (keys + [key])[..|keys|] == keys;
  }

  lemma {:induction false} FirstSeenMembers(keys: seq<string>)
    ensures forall key :: key in FirstSeen(keys) <==> key in keys
    ensures Distinct(FirstSeen(keys))
  {
    if keys != [] {
      FirstSeenMembers(keys[..|keys| - 1]);
      assert keys == keys[..|keys| - 1] + [keys[|keys| - 1]];
    }
  }

  lemma {:induction false} NotLanded(plan: Plan, items: seq<Item<Metric>>, key: string)
    requires key !in AllKeys(plan, items)
    ensures Landed(plan, items, key) == []
  {
    if items != [] {
      NotLanded(plan, items[..|items| - 1], key);
    }
  }

  lemma {:induction false} NoSuchPoint(plan: Plan, pts: seq<PointItem>, key: string)
    requires forall n :: 0 <= n < |pts| ==> PointKey(plan, pts[n]) != key
    ensures ProjectPoints(plan, pts, key) == []
  {
    if pts != [] {
      NoSuchPoint(plan, pts[..|pts| - 1], key);
    }
  }

  // ------------------------------------------------------------ one visit

  /** A bucket while metric (i, j, k) is being read: it holds the metrics landed before, and this
      one if one of its keys so far was the bucket's. */
  ghost predicate Slot(plan: Plan, b: MetricBucket, i: nat, j: nat, k: nat, r: ResourceInfo, s: ScopeInfo, m: Metric,
                       landed: seq<Item<Metric>>, here: bool) {
    && OnMetric(b, i, j, k, s, m) && MetricInfoOk(plan, b, i, r)
    && ((i, j, k) in b.metric <==> here)
    && SameMetrics(landed + if here then [Item(r, s, m)] else [], Flat(b.base.out))
  }

  lemma SlotShell(b: MetricBucket, b': MetricBucket, at: (nat, nat, nat), landed: seq<Item<Metric>>, cur: Item<Metric>)
    requires ShellReady(b, b', at, cur) && at !in b.metric && SameMetrics(landed, Flat(b.base.out))
    ensures SameMetrics(landed + [cur], Flat(b'.base.out))
  {
    var before, after := Flat(b.base.out), Flat(b'.base.out);
    forall n | 0 <= n < |after|
      ensures SameMetric((landed + [cur])[n], after[n])
    {
      if n < |before| {
        assert after[n] == after[..|before|][n];
        assert SameMetric(landed[n], before[n]);
      }
    }
  }

  method VisitShell(plan: Plan, b: MetricBucket, i: nat, j: nat, k: nat, r: ResourceInfo, s: ScopeInfo, m: Metric,
                    ghost landed: seq<Item<Metric>>, ghost here: bool) returns (b': MetricBucket)
    requires Slot(plan, b, i, j, k, r, s, m, landed, here)
    ensures Slot(plan, b', i, j, k, r, s, m, landed, true)
    ensures i in b'.base.rs && (i, j) in b'.base.ss
    ensures FlatPoints(b'.base.out) == FlatPoints(b.base.out)
  {
    b' := EnsureMetric(plan, b, i, j, k, r, s, m);
    if !here {
      assert landed + [] == landed;
      SlotShell(b, b', (i, j, k), landed, Item(r, s, m));
    }
  }

  method VisitPoint(plan: Plan, b: MetricBucket, i: nat, j: nat, k: nat, r: ResourceInfo, s: ScopeInfo, m: Metric, p: Point,
                    parts: seq<string>, ghost landed: seq<Item<Metric>>, ghost here: bool) returns (b': MetricBucket)
    requires Slot(plan, b, i, j, k, r, s, m, landed, here)
    requires parts == Parts(plan, r.attrs, m.name, p.attrs) && !m.data.NoData?
    ensures Slot(plan, b', i, j, k, r, s, m, landed, true)
    ensures FlatPoints(b'.base.out) == FlatPoints(b.base.out) + [OutPoint(plan, r, s, m, p)]
  {
    var ready := VisitShell(plan, b, i, j, k, r, s, m, landed, here);
    b' := AddDatapoint(plan, ready, i, j, k, r, s, m, p, parts);
    SameMetricsTransitive(landed + [Item(r, s, m)], Flat(ready.base.out), Flat(b'.base.out));
  }

  // ------------------------------------------------------------ the loops

  datatype State = State(byKey: map<string, MetricBucket>, order: seq<string>)

  ghost predicate PointsHold(plan: Plan, byKey: map<string, MetricBucket>, pts: seq<PointItem>) {
    forall key :: key in byKey ==> FlatPoints(byKey[key].base.out) == ProjectPoints(plan, pts, key)
  }

  /** Keys met so far, and every datapoint so far filed. */
  ghost predicate Grouped(plan: Plan, st: State, keys: seq<string>, pts: seq<PointItem>) {
    && st.order == FirstSeen(keys)
    && (forall key :: key in st.byKey <==> key in keys)
    && (forall n :: 0 <= n < |pts| ==> PointKey(plan, pts[n]) in keys)
    && PointsHold(plan, st.byKey, pts)
  }

  ghost predicate Slots(plan: Plan, st: State, i: nat, j: nat, k: nat, r: ResourceInfo, s: ScopeInfo, m: Metric,
                        items: seq<Item<Metric>>, seen: seq<string>) {
    forall key :: key in st.byKey ==> Slot(plan, st.byKey[key], i, j, k, r, s, m, Landed(plan, items, key), key in seen)
  }

  lemma EmptySlot(plan: Plan, i: nat, j: nat, k: nat, r: ResourceInfo, s: ScopeInfo, m: Metric, items: seq<Item<Metric>>, key: string)
    requires key !in AllKeys(plan, items)
    ensures Slot(plan, EmptyMetrics(), i, j, k, r, s, m, Landed(plan, items, key), false)
  {
    NotLanded(plan, items, key);
  }

  lemma OpenedSlots(plan: Plan, st: State, key: string, i: nat, j: nat, k: nat, r: ResourceInfo, s: ScopeInfo, m: Metric,
                    items: seq<Item<Metric>>, seen: seq<string>)
    requires Slots(plan, st, i, j, k, r, s, m, items, seen) && key !in AllKeys(plan, items) && key !in seen
    ensures Slots(plan, State(st.byKey[key := EmptyMetrics()], st.order + [key]), i, j, k, r, s, m, items, seen)
  {
    EmptySlot(plan, i, j, k, r, s, m, items, key);
  }

  lemma OpenedPoints(plan: Plan, st: State, key: string, pts: seq<PointItem>)
    requires PointsHold(plan, st.byKey, pts) && forall n :: 0 <= n < |pts| ==> PointKey(plan, pts[n]) != key
    ensures PointsHold(plan, st.byKey[key := EmptyMetrics()], pts)
  {
    NoSuchPoint(plan, pts, key);
  }

  /** Find or make the bucket of a key. */
  method BucketFor(plan: Plan, st: State, key: string, i: nat, j: nat, k: nat, r: ResourceInfo, s: ScopeInfo, m: Metric,
                   ghost items: seq<Item<Metric>>, ghost seen: seq<string>, ghost pts: seq<PointItem>) returns (st': State)
    requires Grouped(plan, st, AllKeys(plan, items) + seen, pts)
    requires Slots(plan, st, i, j, k, r, s, m, items, seen)
    ensures st'.byKey.Keys == st.byKey.Keys + {key} && st'.order == FirstSeen(AllKeys(plan, items) + seen + [key])
    ensures PointsHold(plan, st'.byKey, pts)
    ensures Slots(plan, st', i, j, k, r, s, m, items, seen)
  {
    ghost var keys := AllKeys(plan, items) + seen;
    FirstSeenSnoc(keys, key);
    FirstSeenMembers(keys);
    st' := st;
    if key !in st'.byKey {
      assert key !in keys && key !in AllKeys(plan, items) && key !in seen;
      OpenedSlots(plan, st, key, i, j, k, r, s, m, items, seen);
      OpenedPoints(plan, st, key, pts);
      st' := State(st'.byKey[key := EmptyMetrics()], st'.order + [key]);
    }
  }

  lemma SlotsUpdate(plan: Plan, st: State, key: string, b: MetricBucket, i: nat, j: nat, k: nat, r: ResourceInfo, s: ScopeInfo,
                    m: Metric, items: seq<Item<Metric>>, seen: seq<string>)
    requires Slots(plan, st, i, j, k, r, s, m, items, seen)
    requires Slot(plan, b, i, j, k, r, s, m, Landed(plan, items, key), true)
    ensures Slots(plan, st.(byKey := st.byKey[key := b]), i, j, k, r, s, m, items, seen + [key])
  {
    var after := st.(byKey := st.byKey[key := b]);
    forall other | other in after.byKey
      ensures Slot(plan, after.byKey[other], i, j, k, r, s, m, Landed(plan, items, other), other in seen + [key])
    {
      assert other in seen + [key] <==> other in seen || other == key;
    }
  }

  lemma PointsUpdate(plan: Plan, byKey: map<string, MetricBucket>, b: MetricBucket, pts: seq<PointItem>, it: PointItem)
    requires PointsHold(plan, byKey, pts) && PointKey(plan, it) in byKey
    requires FlatPoints(b.base.out) == FlatPoints(byKey[PointKey(plan, it)].base.out) + [OutItem(plan, it)]
    ensures PointsHold(plan, byKey[PointKey(plan, it) := b], pts + [it])
  {
    forall other | other in byKey
      ensures other != PointKey(plan, it) ==> ProjectPoints(plan, pts + [it], other) == ProjectPoints(plan, pts, other)
      ensures other == PointKey(plan, it) ==>
        ProjectPoints(plan, pts + [it], other) == ProjectPoints(plan, pts, other) + [OutItem(plan, it)]
    {
      ProjectPointsSnoc(plan, pts, it, other);
    }
  }

  lemma GroupedPoint(plan: Plan, st: State, st1: State, b: MetricBucket, keys: seq<string>, pts: seq<PointItem>, it: PointItem)
    requires Grouped(plan, st, keys, pts) && PointsHold(plan, st1.byKey, pts)
    requires var key := PointKey(plan, it);
      && st1.byKey.Keys == st.byKey.Keys + {key} && st1.order == FirstSeen(keys + [key])
      && FlatPoints(b.base.out) == FlatPoints(st1.byKey[key].base.out) + [OutItem(plan, it)]
    ensures Grouped(plan, st1.(byKey := st1.byKey[PointKey(plan, it) := b]), keys + [PointKey(plan, it)], pts + [it])
  {
    PointsUpdate(plan, st1.byKey, b, pts, it);
    KeysGrow(plan, st, keys, pts, it);
  }

  lemma KeysGrow(plan: Plan, st: State, keys: seq<string>, pts: seq<PointItem>, it: PointItem)
    requires forall key :: key in st.byKey <==> key in keys
    requires forall n :: 0 <= n < |pts| ==> PointKey(plan, pts[n]) in keys
    ensures forall key :: key in st.byKey.Keys + {PointKey(plan, it)} <==> key in keys + [PointKey(plan, it)]
    ensures forall n :: 0 <= n < |pts + [it]| ==> PointKey(plan, (pts + [it])[n]) in keys + [PointKey(plan, it)]
  {
  }

  lemma ShellItem(plan: Plan, r: ResourceInfo, s: ScopeInfo, m: Metric, p: Point)
    ensures var it := PointItem(r, s, Shell(m), p);
      PointKey(plan, it) == Key(plan, r.attrs, m.name, p.attrs) && OutItem(plan, it) == OutPoint(plan, r, s, m, p)
  {
    assert Shell(Shell(m)) == Shell(m);
  }

  method AddPoint(plan: Plan, st: State, i: nat, j: nat, k: nat, r: ResourceInfo, s: ScopeInfo, m: Metric, p: Point,
                  ghost items: seq<Item<Metric>>, ghost seen: seq<string>, ghost pts: seq<PointItem>) returns (st': State)
    requires !m.data.NoData?
    requires Grouped(plan, st, AllKeys(plan, items) + seen, pts) && Slots(plan, st, i, j, k, r, s, m, items, seen)
    ensures var key := Key(plan, r.attrs, m.name, p.attrs);
      && Grouped(plan, st', AllKeys(plan, items) + seen + [key], pts + [PointItem(r, s, Shell(m), p)])
      && Slots(plan, st', i, j, k, r, s, m, items, seen + [key])
  {
    var parts := ResolveParts(plan, r.attrs, m.name, p.attrs);
    var key := Join(parts);
    var st1 := BucketFor(plan, st, key, i, j, k, r, s, m, items, seen, pts);
    assert Slot(plan, st1.byKey[key], i, j, k, r, s, m, Landed(plan, items, key), key in seen);
    var b := VisitPoint(plan, st1.byKey[key], i, j, k, r, s, m, p, parts, Landed(plan, items, key), key in seen);
    ShellItem(plan, r, s, m, p);
    GroupedPoint(plan, st, st1, b, AllKeys(plan, items) + seen, pts, PointItem(r, s, Shell(m), p));
    SlotsUpdate(plan, st1, key, b, i, j, k, r, s, m, items, seen);
    st' := st1.(byKey := st1.byKey[key := b]);
  }

  method AddShellOnly(plan: Plan, st: State, i: nat, j: nat, k: nat, r: ResourceInfo, s: ScopeInfo, m: Metric,
                      ghost items: seq<Item<Metric>>, ghost pts: seq<PointItem>) returns (st': State)
    requires Grouped(plan, st, AllKeys(plan, items) + [], pts) && Slots(plan, st, i, j, k, r, s, m, items, [])
    ensures var key := Key(plan, r.attrs, m.name, map[]);
      && Grouped(plan, st', AllKeys(plan, items) + [] + [key], pts)
      && Slots(plan, st', i, j, k, r, s, m, items, [] + [key])
  {
    var parts := ResolveParts(plan, r.attrs, m.name, map[]);
    var key := Join(parts);
    var st1 := BucketFor(plan, st, key, i, j, k, r, s, m, items, [], pts);
    var b := VisitShell(plan, st1.byKey[key], i, j, k, r, s, m, Landed(plan, items, key), false);
    SlotsUpdate(plan, st1, key, b, i, j, k, r, s, m, items, []);
    st' := st1.(byKey := st1.byKey[key := b]);
  }

  // Between metrics, scopes and resources the buckets only know the metrics landed so far.

  ghost predicate LandedIn(plan: Plan, b: MetricBucket, items: seq<Item<Metric>>, key: string) {
    SameMetrics(Landed(plan, items, key), Flat(b.base.out))
  }

  ghost predicate InScope(plan: Plan, st: State, i: nat, j: nat, k: nat, r: ResourceInfo, s: ScopeInfo, items: seq<Item<Metric>>) {
    forall key :: key in st.byKey ==>
      && OnMetricScope(st.byKey[key], i, j, k, s) && MetricInfoOk(plan, st.byKey[key], i, r)
      && LandedIn(plan, st.byKey[key], items, key)
  }

  ghost predicate InResource(plan: Plan, st: State, i: nat, j: nat, r: ResourceInfo, items: seq<Item<Metric>>) {
    forall key :: key in st.byKey ==>
      && OnMetricResource(st.byKey[key], i, j) && MetricInfoOk(plan, st.byKey[key], i, r)
      && LandedIn(plan, st.byKey[key], items, key)
  }

  ghost predicate AtResource(plan: Plan, st: State, i: nat, items: seq<Item<Metric>>) {
    forall key :: key in st.byKey ==> BetweenMetrics(st.byKey[key], i) && LandedIn(plan, st.byKey[key], items, key)
  }

  lemma ResourceOpens(plan: Plan, st: State, i: nat, r: ResourceInfo, items: seq<Item<Metric>>)
    requires AtResource(plan, st, i, items)
    ensures InResource(plan, st, i, 0, r, items)
  {
    forall key | key in st.byKey
      ensures OnMetricResource(st.byKey[key], i, 0) && MetricInfoOk(plan, st.byKey[key], i, r)
      ensures LandedIn(plan, st.byKey[key], items, key)
    {
      assert BetweenMetrics(st.byKey[key], i) && LandedIn(plan, st.byKey[key], items, key);
    }
  }

  lemma ScopeOpens(plan: Plan, st: State, i: nat, j: nat, r: ResourceInfo, s: ScopeInfo, items: seq<Item<Metric>>)
    requires InResource(plan, st, i, j, r, items)
    ensures InScope(plan, st, i, j, 0, r, s, items)
  {
    forall key | key in st.byKey
      ensures OnMetricScope(st.byKey[key], i, j, 0, s) && MetricInfoOk(plan, st.byKey[key], i, r)
      ensures LandedIn(plan, st.byKey[key], items, key)
    {
      assert OnMetricResource(st.byKey[key], i, j);
    }
  }

  lemma ScopeCloses(plan: Plan, st: State, i: nat, j: nat, k: nat, r: ResourceInfo, s: ScopeInfo, items: seq<Item<Metric>>)
    requires InScope(plan, st, i, j, k, r, s, items)
    ensures InResource(plan, st, i, j + 1, r, items)
  {
    forall key | key in st.byKey
      ensures OnMetricResource(st.byKey[key], i, j + 1) && MetricInfoOk(plan, st.byKey[key], i, r)
      ensures LandedIn(plan, st.byKey[key], items, key)
    {
      assert OnMetricScope(st.byKey[key], i, j, k, s);
    }
  }

  lemma ResourceCloses(plan: Plan, st: State, i: nat, j: nat, r: ResourceInfo, items: seq<Item<Metric>>)
    requires InResource(plan, st, i, j, r, items)
    ensures AtResource(plan, st, i + 1, items)
  {
    forall key | key in st.byKey
      ensures BetweenMetrics(st.byKey[key], i + 1) && LandedIn(plan, st.byKey[key], items, key)
    {
      assert OnMetricResource(st.byKey[key], i, j);
    }
  }

  lemma MetricOpens(plan: Plan, st: State, i: nat, j: nat, k: nat, r: ResourceInfo, s: ScopeInfo, m: Metric, items: seq<Item<Metric>>)
    requires InScope(plan, st, i, j, k, r, s, items)
    ensures Slots(plan, st, i, j, k, r, s, m, items, [])
  {
    forall key | key in st.byKey
      ensures Slot(plan, st.byKey[key], i, j, k, r, s, m, Landed(plan, items, key), key in [])
    {
      assert Landed(plan, items, key) + [] == Landed(plan, items, key);
    }
  }

  lemma MetricCloses(plan: Plan, st: State, i: nat, j: nat, k: nat, r: ResourceInfo, s: ScopeInfo, m: Metric, items: seq<Item<Metric>>)
    requires Slots(plan, st, i, j, k, r, s, m, items, MetricKeys(plan, Item(r, s, m)))
    ensures InScope(plan, st, i, j, k + 1, r, s, items + [Item(r, s, m)])
  {
    forall key | key in st.byKey
      ensures OnMetricScope(st.byKey[key], i, j, k + 1, s) && MetricInfoOk(plan, st.byKey[key], i, r)
      ensures LandedIn(plan, st.byKey[key], items + [Item(r, s, m)], key)
    {
      LandedSnoc(plan, items, Item(r, s, m), key);
    }
  }

  method GroupPoints(plan: Plan, st: State, i: nat, j: nat, k: nat, r: ResourceInfo, s: ScopeInfo, m: Metric,
                     ghost items: seq<Item<Metric>>) returns (st': State)
    requires Points(m) != []
    requires Grouped(plan, st, AllKeys(plan, items), Expand(items)) && Slots(plan, st, i, j, k, r, s, m, items, [])
    ensures var cur := Item(r, s, m); var keys := MetricKeys(plan, cur);
      && Grouped(plan, st', AllKeys(plan, items) + keys, Expand(items) + MetricItems(cur))
      && Slots(plan, st', i, j, k, r, s, m, items, keys)
  {
    st' := st;
    ghost var keys, pts := MetricKeys(plan, Item(r, s, m)), MetricItems(Item(r, s, m));
    ghost var keys0, pts0 := AllKeys(plan, items), Expand(items);
    var points := Points(m);
    assert keys0 + keys[..0] == keys0 && pts0 + pts[..0] == pts0;
    for n := 0 to |points|
      invariant Grouped(plan, st', keys0 + keys[..n], pts0 + pts[..n])
      invariant Slots(plan, st', i, j, k, r, s, m, items, keys[..n])
    {
      st' := AddPoint(plan, st', i, j, k, r, s, m, points[n], items, keys[..n], pts0 + pts[..n]);
      TakeNext(keys0, keys, n);
      TakeNext(pts0, pts, n);
    }
    assert keys[..|points|] == keys && pts[..|points|] == pts;
  }

  lemma TakeNext<T>(before: seq<T>, xs: seq<T>, n: nat)
    requires n < |xs|
    ensures before + xs[..n] + [xs[n]] == before + xs[..n + 1]
    ensures xs[..n] + [xs[n]] == xs[..n + 1]
  {
  }

  method GroupMetric(plan: Plan, st: State, i: nat, j: nat, k: nat, r: ResourceInfo, s: ScopeInfo, m: Metric,
                     ghost items: seq<Item<Metric>>) returns (st': State)
    requires Grouped(plan, st, AllKeys(plan, items), Expand(items)) && InScope(plan, st, i, j, k, r, s, items)
    ensures Grouped(plan, st', AllKeys(plan, items + [Item(r, s, m)]), Expand(items + [Item(r, s, m)]))
    ensures InScope(plan, st', i, j, k + 1, r, s, items + [Item(r, s, m)])
  {
    ghost var cur := Item(r, s, m);
    LandedSnoc(plan, items, cur, "");
    ExpandSnoc(items, cur);
    MetricOpens(plan, st, i, j, k, r, s, m, items);
    if |Points(m)| == 0 {
      assert AllKeys(plan, items) + [] == AllKeys(plan, items);
      st' := AddShellOnly(plan, st, i, j, k, r, s, m, items, Expand(items));
      assert [] + MetricKeys(plan, cur) == MetricKeys(plan, cur);
      assert Expand(items) + MetricItems(cur) == Expand(items);
    } else {
      st' := GroupPoints(plan, st, i, j, k, r, s, m, items);
    }
    MetricCloses(plan, st', i, j, k, r, s, m, items);
  }

  method GroupScope(plan: Plan, st: State, i: nat, j: nat, r: ResourceInfo, s: Scope<Metric>, ghost items: seq<Item<Metric>>)
    returns (st': State)
    requires Grouped(plan, st, AllKeys(plan, items), Expand(items)) && InResource(plan, st, i, j, r, items)
    ensures var items' := items + ScopeItems(r, s);
      Grouped(plan, st', AllKeys(plan, items'), Expand(items')) && InResource(plan, st', i, j + 1, r, items')
  {
    st' := st;
    ghost var here, items' := ScopeItems(r, s), items;
    assert items + here[..0] == items;
    ScopeOpens(plan, st, i, j, r, s.info, items);
    for k := 0 to |s.children|
      invariant items' == items + here[..k]
      invariant Grouped(plan, st', AllKeys(plan, items'), Expand(items'))
      invariant InScope(plan, st', i, j, k, r, s.info, items')
    {
      TakeNext(items, here, k);
      st' := GroupMetric(plan, st', i, j, k, r, s.info, s.children[k], items');
      items' := items' + [Item(r, s.info, s.children[k])];
    }
    assert here[..|s.children|] == here;
    ScopeCloses(plan, st', i, j, |s.children|, r, s.info, items');
  }

  lemma NextScope(before: seq<Item<Metric>>, r: ResourceInfo, ss: seq<Scope<Metric>>, j: nat)
    requires j < |ss|
    ensures before + ScopesItems(r, ss[..j]) + ScopeItems(r, ss[j]) == before + ScopesItems(r, ss[..j + 1])
  {
    ScopesSnoc(r, ss[..j], ss[j]);
    assert ss[..j] + [ss[j]] == ss[..j + 1];
    ConcatAssociates(before, ScopesItems(r, ss[..j]), ScopeItems(r, ss[j]));
  }

  method GroupResource(plan: Plan, st: State, i: nat, r: Resource<Metric>, ghost items: seq<Item<Metric>>)
    returns (st': State)
    requires Grouped(plan, st, AllKeys(plan, items), Expand(items)) && AtResource(plan, st, i, items)
    ensures var items' := items + ScopesItems(r.info, r.scopes);
      Grouped(plan, st', AllKeys(plan, items'), Expand(items')) && AtResource(plan, st', i + 1, items')
  {
    st' := st;
    ghost var items' := items;
    ResourceOpens(plan, st, i, r.info, items);
    assert items + ScopesItems(r.info, r.scopes[..0]) == items;
    for j := 0 to |r.scopes|
      invariant items' == items + ScopesItems(r.info, r.scopes[..j])
      invariant Grouped(plan, st', AllKeys(plan, items'), Expand(items'))
      invariant InResource(plan, st', i, j, r.info, items')
    {
      NextScope(items, r.info, r.scopes, j);
      st' := GroupScope(plan, st', i, j, r.info, r.scopes[j], items');
      items' := items' + ScopeItems(r.info, r.scopes[j]);
    }
    assert r.scopes[..|r.scopes|] == r.scopes;
    ResourceCloses(plan, st', i, |r.scopes|, r.info, items');
  }

  lemma NextResource(md: Tree<Metric>, i: nat)
    requires i < |md|
    ensures Flat(md[..i]) + ScopesItems(md[i].info, md[i].scopes) == Flat(md[..i + 1])
  {
    FlatSnoc(md[..i], md[i]);
    assert md[..i] + [md[i]] == md[..i + 1];
  }

  method GroupAll(md: Tree<Metric>, plan: Plan) returns (st: State)
    ensures Grouped(plan, st, AllKeys(plan, Flat(md)), FlatPoints(md))
    ensures AtResource(plan, st, |md|, Flat(md))
  {
    st := State(map[], []);
    ghost var items: seq<Item<Metric>> := [];
    assert md[..0] == [];
    for i := 0 to |md|
      invariant items == Flat(md[..i])
      invariant Grouped(plan, st, AllKeys(plan, items), Expand(items))
      invariant AtResource(plan, st, i, items)
    {
      NextResource(md, i);
      st := GroupResource(plan, st, i, md[i], items);
      items := items + ScopesItems(md[i].info, md[i].scopes);
    }
    assert md[..|md|] == md;
  }

  /** A stable partition of the datapoints by key, keys in first-seen order, that also keeps the
      metrics: each batch holds exactly the metrics filed under its key, in order, each with its
      shell, its scope and at most promoted additions to its resource, and those without
      datapoints too. */
  method GroupMetricsByLeaf(md: Tree<Metric>, plan: Plan) returns (out: seq<LeafGrouping.Tagged<Metric>>)
    ensures LeafGrouping.KeysIn(out) == FirstSeen(AllKeys(plan, Flat(md)))
    ensures forall n :: 0 <= n < |out| ==> FlatPoints(out[n].batch) == ProjectPoints(plan, FlatPoints(md), out[n].key)
    ensures forall n :: 0 <= n < |out| ==> SameMetrics(Landed(plan, Flat(md), out[n].key), Flat(out[n].batch))
  {
    var st := GroupAll(md, plan);
    FirstSeenMembers(AllKeys(plan, Flat(md)));
    out := Collect(st.byKey, st.order);
    forall n | 0 <= n < |out|
      ensures SameMetrics(Landed(plan, Flat(md), out[n].key), Flat(out[n].batch))
    {
      assert LandedIn(plan, st.byKey[out[n].key], Flat(md), out[n].key);
    }
  }

  method Collect(byKey: map<string, MetricBucket>, order: seq<string>) returns (out: seq<LeafGrouping.Tagged<Metric>>)
    requires forall key :: key in order ==> key in byKey
    ensures LeafGrouping.KeysIn(out) == order
    ensures forall n :: 0 <= n < |out| ==> out[n].key in byKey && out[n].batch == byKey[out[n].key].base.out
  {
    out := [];
    for n := 0 to |order|
      invariant |out| == n
      invariant forall k :: 0 <= k < n ==> out[k].key == order[k] && out[k].batch == byKey[order[k]].base.out
    {
      out := out + [LeafGrouping.Tagged(order[n], byKey[order[n]].base.out)];
    }
  }
}
