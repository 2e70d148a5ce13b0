/** Telemetry batches as the exporter sees them: resources, scopes, and under them spans or log
    records (a Point) or metrics holding datapoints. */
module Signals {
  import opened Sequences

  /** An attribute value: a string, or another kind known by its string form. */
  datatype Value = Str(text: string) | Other(text: string)

  type Attrs = map<string, Value>

  /** A span, log record or datapoint; `nested` are the attribute maps it carries inside
      (events, links, exemplars), `body` everything else. */
  datatype Point = Point(attrs: Attrs, nested: seq<Attrs>, body: string)

  datatype ScopeInfo = ScopeInfo(attrs: Attrs, schemaUrl: string)

  datatype ResourceInfo = ResourceInfo(attrs: Attrs, schemaUrl: string)

  datatype Scope<T> = Scope(info: ScopeInfo, children: seq<T>)

  datatype Resource<T> = Resource(info: ResourceInfo, scopes: seq<Scope<T>>)

  type Tree<T> = seq<Resource<T>>

  /** A metric's typed body; a metric of no type has no datapoints. */
  datatype Data =
    | NoData
    | Gauge(points: seq<Point>)
    | Sum(temporality: int, monotonic: bool, points: seq<Point>)
    | Histogram(temporality: int, points: seq<Point>)
    | ExpHistogram(temporality: int, points: seq<Point>)
    | Summary(points: seq<Point>)

  datatype Metric = Metric(name: string, labels: string, data: Data)

  function Points(m: Metric): seq<Point> {
    if m.data.NoData? then [] else m.data.points
  }

  /** The metric without its datapoints. */
  function Shell(m: Metric): Metric {
    if m.data.NoData? then m else m.(data := m.data.(points := []))
  }

  function WithPoints(m: Metric, points: seq<Point>): (r: Metric)
    requires !m.data.NoData?
    ensures !r.data.NoData? && Points(r) == points && Shell(r) == Shell(m)
  {
    m.(data := m.data.(points := points))
  }

  // ------------------------------------------------------------ flattening

  /** A child with the identity it travels under. */
  datatype Item<T> = Item(resource: ResourceInfo, scope: ScopeInfo, child: T)

  datatype PointItem = PointItem(resource: ResourceInfo, scope: ScopeInfo, shell: Metric, point: Point)

  function ScopeItems<T>(r: ResourceInfo, s: Scope<T>): (items: seq<Item<T>>)
    ensures |items| == |s.children|
  {
    Map(s.children, c => Item(r, s.info, c))
  }

  function ScopesItems<T>(r: ResourceInfo, ss: seq<Scope<T>>): seq<Item<T>> {
    if ss == [] then [] else ScopesItems(r, ss[..|ss| - 1]) + ScopeItems(r, ss[|ss| - 1])
  }

  function Flat<T>(tree: Tree<T>): seq<Item<T>> {
    if tree == [] then []
    else Flat(tree[..|tree| - 1]) + ScopesItems(tree[|tree| - 1].info, tree[|tree| - 1].scopes)
  }

  /** The spans, records or metrics under `ss`. */
  function Count<T>(ss: seq<Scope<T>>): nat {
    if ss == [] then 0 else Count(ss[..|ss| - 1]) + |ss[|ss| - 1].children|
  }

  function PointItems(r: ResourceInfo, s: ScopeInfo, shell: Metric, points: seq<Point>): (items: seq<PointItem>)
    ensures |items| == |points|
  {
    Map(points, p => PointItem(r, s, shell, p))
  }

  function MetricItems(item: Item<Metric>): (items: seq<PointItem>)
    ensures |items| == |Points(item.child)|
  {
    PointItems(item.resource, item.scope, Shell(item.child), Points(item.child))
  }

  function Expand(items: seq<Item<Metric>>): seq<PointItem> {
    if items == [] then [] else Expand(items[..|items| - 1]) + MetricItems(items[|items| - 1])
  }

  /** Every datapoint of the batch with its resource, scope and metric. */
  function FlatPoints(tree: Tree<Metric>): seq<PointItem> {
    Expand(Flat(tree))
  }

  lemma {:induction false} FlatConcat<T>(a: Tree<T>, b: Tree<T>)
    ensures Flat(a + b) == Flat(a) + Flat(b)
  {
    if b == [] {
      assert a + b == a;
    } else {
      var front, last := b[..|b| - 1], b[|b| - 1];
      LastOfConcat(a, b, front, last);
      FlatConcat(a, front);
      FlatSnoc(a + front, last);
      FlatSnoc(front, last);
      ConcatAssociates(Flat(a), Flat(front), ScopesItems(last.info, last.scopes));
    }
  }

  lemma FlatOne<T>(r: Resource<T>)
    ensures Flat([r]) == ScopesItems(r.info, r.scopes)
  {
    assert [r][..0] == [];
  }

  lemma FlatSnoc<T>(tree: Tree<T>, r: Resource<T>)
    ensures Flat(tree + [r]) == Flat(tree) + ScopesItems(r.info, r.scopes)
  {
    assert (tree + [r])[..|tree|] == tree;
  }

  lemma ScopesSnoc<T>(r: ResourceInfo, ss: seq<Scope<T>>, s: Scope<T>)
    ensures ScopesItems(r, ss + [s]) == ScopesItems(r, ss) + ScopeItems(r, s)
    ensures Count(ss + [s]) == Count(ss) + |s.children|
  {
    assert (ss + [s])[..|ss|] == ss;
  }

  lemma {:induction false} CountIsLength<T>(r: ResourceInfo, ss: seq<Scope<T>>)
    ensures |ScopesItems(r, ss)| == Count(ss)
  {
    if ss != [] {
      CountIsLength(r, ss[..|ss| - 1]);
    }
  }

  lemma {:induction false} CountMonotone<T>(ss: seq<Scope<T>>, i: nat)
    requires i <= |ss|
    ensures Count(ss[..i]) <= Count(ss)
  {
    if i == |ss| {
      assert ss[..i] == ss;
    } else {
      var n := |ss| - 1;
      assert ss[..n][..i] == ss[..i];
      CountMonotone(ss[..n], i);
    }
  }

  lemma {:induction false} ExpandConcat(a: seq<Item<Metric>>, b: seq<Item<Metric>>)
    ensures Expand(a + b) == Expand(a) + Expand(b)
  {
    if b == [] {
      assert a + b == a;
    } else {
      var front, last := b[..|b| - 1], b[|b| - 1];
      ExpandConcat(a, front);
      LastOfConcat(a, b, front, last);
      ExpandSnoc(front, last);
      ExpandSnoc(a + front, last);
      ConcatAssociates(Expand(a), Expand(front), MetricItems(last));
    }
  }

  lemma ExpandSnoc(a: seq<Item<Metric>>, item: Item<Metric>)
    ensures Expand(a + [item]) == Expand(a) + MetricItems(item)
  {
    assert (a + [item])[..|a|] == a;
  }

  lemma ExpandOne(item: Item<Metric>)
    ensures Expand([item]) == MetricItems(item)
  {
    assert [item][..0] == [];
  }
}
