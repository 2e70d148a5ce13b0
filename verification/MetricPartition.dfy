/** What datapoint grouping adds up to, and its agreement with the resource fast path
    (exporter/awskinesisexporter/partition_grouping.go, signal_metrics.go). */
module MetricPartition {
  import opened Sequences
  import opened Signals
  import opened KeyPlan
  import opened MetricBuckets
  import opened MetricGrouping
  import opened ResourceGrouping

  // ------------------------------------------------------------ nothing lost between the groups

  lemma {:induction false} PointKeysListed(plan: Plan, items: seq<Item<Metric>>)
    ensures forall n :: 0 <= n < |Expand(items)| ==> PointKey(plan, Expand(items)[n]) in AllKeys(plan, items)
  {
    if items != [] {
      var last := items[|items| - 1];
      var front := items[..|items| - 1];
      PointKeysListed(plan, front);
      forall n | 0 <= n < |Expand(items)|
        ensures PointKey(plan, Expand(items)[n]) in AllKeys(plan, items)
      {
        if n >= |Expand(front)| {
          MetricKeyListed(plan, last, n - |Expand(front)|);
        } else {
          assert Expand(items)[n] == Expand(front)[n];
        }
      }
    }
  }

  lemma MetricKeyListed(plan: Plan, item: Item<Metric>, n: nat)
    requires n < |Points(item.child)|
    ensures PointKey(plan, MetricItems(item)[n]) in MetricKeys(plan, item)
  {
    assert MetricKeys(plan, item)[n] == PointKey(plan, MetricItems(item)[n]);
  }

  function PointSizes(plan: Plan, pts: seq<PointItem>, keys: seq<string>): nat {
    if keys == [] then 0
    else PointSizes(plan, pts, keys[..|keys| - 1]) + |ProjectPoints(plan, pts, keys[|keys| - 1])|
  }

  lemma {:induction false} PointSizesSnoc(plan: Plan, pts: seq<PointItem>, it: PointItem, keys: seq<string>)
    requires Distinct(keys)
    ensures PointSizes(plan, pts + [it], keys) == PointSizes(plan, pts, keys) + if PointKey(plan, it) in keys then 1 else 0
  {
    if keys != [] {
      var n := |keys| - 1;
      PointSizesSnoc(plan, pts, it, keys[..n]);
      ProjectPointsSnoc(plan, pts, it, keys[n]);
      assert PointKey(plan, it) in keys <==> PointKey(plan, it) in keys[..n] || PointKey(plan, it) == keys[n];
    }
  }

  lemma {:induction false} NoPointSizes(plan: Plan, keys: seq<string>)
    ensures PointSizes(plan, [], keys) == 0
  {
    if keys != [] {
      NoPointSizes(plan, keys[..|keys| - 1]);
    }
  }

  lemma {:induction false} PointSizesAddUp(plan: Plan, pts: seq<PointItem>, keys: seq<string>)
    requires Distinct(keys) && forall n :: 0 <= n < |pts| ==> PointKey(plan, pts[n]) in keys
    ensures PointSizes(plan, pts, keys) == |pts|
  {
    if pts == [] {
      NoPointSizes(plan, keys);
    } else {
      var n := |pts| - 1;
      PointSizesAddUp(plan, pts[..n], keys);
      PointSizesSnoc(plan, pts[..n], pts[n], keys);
      assert pts[..n] + [pts[n]] == pts;
    }
  }

  /** Together the groups hold every datapoint, and each once. */
  lemma MetricGroupsAddUp(plan: Plan, md: Tree<Metric>)
    ensures PointSizes(plan, FlatPoints(md), FirstSeen(AllKeys(plan, Flat(md)))) == |FlatPoints(md)|
  {
    var keys := AllKeys(plan, Flat(md));
    FirstSeenMembers(keys);
    PointKeysListed(plan, Flat(md));
    PointSizesAddUp(plan, FlatPoints(md), FirstSeen(keys));
  }

  // ------------------------------------------------------------ the fast path

  lemma {:induction false} ProjectPointsConcat(plan: Plan, a: seq<PointItem>, b: seq<PointItem>, key: string)
    ensures ProjectPoints(plan, a + b, key) == ProjectPoints(plan, a, key) + ProjectPoints(plan, b, key)
  {
    if b == [] {
      assert a + b == a;
    } else {
      var front, last := b[..|b| - 1], b[|b| - 1];
      ProjectPointsConcat(plan, a, front, key);
      LastOfConcat(a, b, front, last);
      ProjectPointsSnoc(plan, a + front, last, key);
      ProjectPointsSnoc(plan, front, last, key);
      ConcatAssociates(ProjectPoints(plan, a, key), ProjectPoints(plan, front, key),
        if PointKey(plan, last) == key then [OutItem(plan, last)] else []);
    }
  }

  /** The datapoints of a promoted resource copy, one by one. */
  lemma {:induction false} ExpandPromoted(plan: Plan, r: ResourceInfo, a: seq<Item<Metric>>, b: seq<Item<Metric>>, key: string)
    requires ResourceOnly(plan) && |a| == |b|
    requires forall n :: 0 <= n < |a| ==> a[n].resource == r && b[n] == a[n].(resource := PromotedResource(plan, r))
    ensures ProjectPoints(plan, Expand(a), key) == if ResourceKey(plan, r) == key then Expand(b) else []
  {
    if a != [] {
      var n := |a| - 1;
      ExpandPromoted(plan, r, a[..n], b[..n], key);
      ProjectPointsConcat(plan, Expand(a[..n]), MetricItems(a[n]), key);
      OneMetricPromoted(plan, a[n], key);
    }
  }

  lemma OneMetricPromoted(plan: Plan, item: Item<Metric>, key: string)
    requires ResourceOnly(plan)
    ensures ProjectPoints(plan, MetricItems(item), key)
      == if ResourceKey(plan, item.resource) == key
         then MetricItems(item.(resource := PromotedResource(plan, item.resource))) else []
  {
    var pts := MetricItems(item);
    var out := MetricItems(item.(resource := PromotedResource(plan, item.resource)));
    forall n | 0 <= n < |pts|
      ensures PointKey(plan, pts[n]) == ResourceKey(plan, item.resource) && OutItem(plan, pts[n]) == out[n]
    {
      ResourceOnlyPlan(plan, item.resource.attrs, Shell(item.child).name, pts[n].point);
      assert Shell(Shell(item.child)) == Shell(item.child);
    }
    ProjectAllPoints(plan, pts, out, key, ResourceKey(plan, item.resource) == key);
  }

  lemma {:induction false} ProjectAllPoints(plan: Plan, pts: seq<PointItem>, out: seq<PointItem>, key: string, whole: bool)
    requires |out| == |pts|
    requires forall n :: 0 <= n < |pts| ==> (PointKey(plan, pts[n]) == key <==> whole) && OutItem(plan, pts[n]) == out[n]
    ensures ProjectPoints(plan, pts, key) == if whole then out else []
  {
    if pts != [] {
      var n := |pts| - 1;
      ProjectAllPoints(plan, pts[..n], out[..n], key, whole);
      LastOfConcat([], pts, pts[..n], pts[n]);
      LastOfConcat([], out, out[..n], out[n]);
      ProjectPointsSnoc(plan, pts[..n], pts[n], key);
    }
  }

  /** For a resource-only plan both paths put the same datapoints, in the same order and with the
      same promotions, under every key. */
  lemma {:induction false} MetricFastPathAgrees(plan: Plan, md: Tree<Metric>, key: string)
    requires ResourceOnly(plan)
    ensures FlatPoints(ResourcesOf(plan, md, key)) == ProjectPoints(plan, FlatPoints(md), key)
  {
    if md != [] {
      var n := |md| - 1;
      MetricFastPathAgrees(plan, md[..n], key);
      MetricFastPathStep(plan, md[..n], md[n], key);
      assert md[..n] + [md[n]] == md;
    }
  }

  lemma MetricFastPathStep(plan: Plan, front: Tree<Metric>, last: Resource<Metric>, key: string)
    requires ResourceOnly(plan)
    requires FlatPoints(ResourcesOf(plan, front, key)) == ProjectPoints(plan, FlatPoints(front), key)
    ensures FlatPoints(ResourcesOf(plan, front + [last], key)) == ProjectPoints(plan, FlatPoints(front + [last]), key)
  {
    var items := ScopesItems(last.info, last.scopes);
    var out := OutResource(plan, last);
    var outItems := ScopesItems(out.info, out.scopes);
    ItemsOfResource(last.info, out.info, last.scopes);
    ExpandPromoted(plan, last.info, items, outItems, key);
    ResourcesSnoc(plan, front, last, key);
    FlatSnoc(front, last);
    ExpandConcat(Flat(front), items);
    ProjectPointsConcat(plan, Expand(Flat(front)), Expand(items), key);
    if ResourceKey(plan, last.info) == key {
      FlatSnoc(ResourcesOf(plan, front, key), out);
      ExpandConcat(Flat(ResourcesOf(plan, front, key)), outItems);
    } else {
      assert ResourcesOf(plan, front + [last], key) == ResourcesOf(plan, front, key);
    }
  }
}
