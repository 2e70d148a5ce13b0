/** The truncate_attribute_values policy: clampStringAttrs and utf8SafeCut
    (exporter/awskinesisexporter/signal.go) applied through a whole batch. */
module Truncate {
  import opened Sequences
  import opened Signals

  /** A byte that does not continue a UTF-8 codepoint. */
  predicate RuneStart(c: char) {
    !('\U{80}' <= c < '\U{c0}')
  }

  /** The cut looked for from `n` down, at most three bytes below `max`. */
  function CutFrom(s: string, n: int, max: int): (cut: int)
    requires 0 <= max < |s| && n <= max
    ensures 0 <= cut <= max
    decreases n
  {
    if n <= max - 4 || n <= 0 then max
    else if RuneStart(s[n]) then n
    else CutFrom(s, n - 1, max)
  }

  /** A string attribute longer than `max` is cut; other values are left alone. */
  function ClampValue(v: Value, max: nat): Value {
    if v.Str? && |v.text| > max then Str(v.text[..CutFrom(v.text, max, max)]) else v
  }

  function ClampAttrs(m: Attrs, max: nat): Attrs {
    map k | k in m :: ClampValue(m[k], max)
  }

  function LongKeys(m: Attrs, max: nat): set<string> {
    set k | k in m && m[k].Str? && |m[k].text| > max
  }

  lemma OneMore(long: set<string>, done: set<string>, k: string)
    requires k !in done
    ensures |long * (done + {k})| == |long * done| + if k in long then 1 else 0
  {
    if k in long {
      assert long * (done + {k}) == long * done + {k};
    } else {
      assert long * (done + {k}) == long * done;
    }
  }

  function Partly(m: Attrs, done: set<string>, max: nat): Attrs {
    map k | k in m :: if k in done then ClampValue(m[k], max) else m[k]
  }

  lemma PartlyStep(m: Attrs, done: set<string>, k: string, max: nat)
    requires k in m && k !in done
    ensures Partly(m, done + {k}, max) == Partly(m, done, max)[k := ClampValue(m[k], max)]
    ensures k !in LongKeys(m, max) ==> Partly(m, done + {k}, max) == Partly(m, done, max)
  {
  }

  lemma AllDone(m: Attrs, done: set<string>, max: nat)
    requires done == m.Keys
    ensures LongKeys(m, max) * done == LongKeys(m, max)
    ensures Partly(m, done, max) == ClampAttrs(m, max)
  {
  }

  method CutOne(m: Attrs, changed: nat, k: string, max: nat) returns (m': Attrs, changed': nat)
    requires k in m
    ensures m' == m[k := ClampValue(m[k], max)]
    ensures changed' == changed + if m[k].Str? && |m[k].text| > max then 1 else 0
  {
    m', changed' := m, changed;
    if m[k].Str? && |m[k].text| > max {
      m' := m[k := Str(m[k].text[..CutFrom(m[k].text, max, max)])];
      changed' := changed + 1;
    }
  }

  /** The loop over one attribute map, and the number of values it cut. */
  method ClampStringAttrs(m: Attrs, max: nat) returns (m': Attrs, changed: nat)
    ensures m' == ClampAttrs(m, max) && changed == |LongKeys(m, max)|
  {
    m', changed := m, 0;
    var done: set<string> := {};
    assert Partly(m, {}, max) == m;
    while exists k :: k in m && k !in done
      invariant done <= m.Keys
      invariant m' == Partly(m, done, max)
      invariant changed == |LongKeys(m, max) * done|
      decreases m.Keys - done
    {
      var k :| k in m && k !in done;
      OneMore(LongKeys(m, max), done, k);
      PartlyStep(m, done, k, max);
      m', changed := CutOne(m', changed, k, max);
      done := done + {k};
    }
    AllDone(m, done, max);
  }

  /** Nothing counted means nothing changed, so a batch the policy did not touch is recognised. */
  lemma CountsCuts(m: Attrs, max: nat)
    ensures |LongKeys(m, max)| == 0 <==> ClampAttrs(m, max) == m
  {
    if LongKeys(m, max) != {} {
      var k :| k in LongKeys(m, max);
      assert ClampAttrs(m, max)[k] != m[k];
    } else {
      assert forall k :: k in m ==> k !in LongKeys(m, max);
      assert ClampAttrs(m, max) == m;
    }
  }

  /** Clamping twice is clamping once. */
  lemma ClampTwice(m: Attrs, max: nat)
    ensures ClampAttrs(ClampAttrs(m, max), max) == ClampAttrs(m, max)
  {
  }

  // ------------------------------------------------------------ whole batches

  function TrimPoint(p: Point, max: nat): Point {
    Point(ClampAttrs(p.attrs, max), Map(p.nested, (m: Attrs) => ClampAttrs(m, max)), p.body)
  }

  function TrimMetric(m: Metric, max: nat): Metric {
    if m.data.NoData? then m else WithPoints(m, Map(Points(m), (p: Point) => TrimPoint(p, max)))
  }

  function TrimResourceInfo(r: ResourceInfo, max: nat): ResourceInfo {
    r.(attrs := ClampAttrs(r.attrs, max))
  }

  function TrimScopeInfo(s: ScopeInfo, max: nat): ScopeInfo {
    s.(attrs := ClampAttrs(s.attrs, max))
  }

  function TrimScope<T>(s: Scope<T>, trim: T -> T, max: nat): Scope<T> {
    Scope(TrimScopeInfo(s.info, max), Map(s.children, trim))
  }

  function TrimScopes<T>(ss: seq<Scope<T>>, trim: T -> T, max: nat): seq<Scope<T>> {
    Map(ss, (s: Scope<T>) => TrimScope(s, trim, max))
  }

  function TrimResource<T>(r: Resource<T>, trim: T -> T, max: nat): Resource<T> {
    Resource(TrimResourceInfo(r.info, max), TrimScopes(r.scopes, trim, max))
  }

  /** The batch with every string attribute of resources, scopes and children clamped. */
  function TrimTree<T>(tree: Tree<T>, trim: T -> T, max: nat): Tree<T> {
    Map(tree, (r: Resource<T>) => TrimResource(r, trim, max))
  }

  function TrimItem<T>(it: Item<T>, trim: T -> T, max: nat): Item<T> {
    Item(TrimResourceInfo(it.resource, max), TrimScopeInfo(it.scope, max), trim(it.child))
  }

  function TrimItems<T>(items: seq<Item<T>>, trim: T -> T, max: nat): (out: seq<Item<T>>)
    ensures |out| == |items|
    ensures forall n :: 0 <= n < |items| ==> out[n] == TrimItem(items[n], trim, max)
  {
    Map(items, (it: Item<T>) => TrimItem(it, trim, max))
  }

  function TrimPointItem(it: PointItem, max: nat): PointItem {
    PointItem(TrimResourceInfo(it.resource, max), TrimScopeInfo(it.scope, max), it.shell, TrimPoint(it.point, max))
  }

  function TrimPointItems(items: seq<PointItem>, max: nat): (out: seq<PointItem>)
    ensures |out| == |items|
    ensures forall n :: 0 <= n < |items| ==> out[n] == TrimPointItem(items[n], max)
  {
    Map(items, (it: PointItem) => TrimPointItem(it, max))
  }

  lemma TrimPointTwice(p: Point, max: nat)
    ensures TrimPoint(TrimPoint(p, max), max) == TrimPoint(p, max)
  {
    ClampTwice(p.attrs, max);
    var once := TrimPoint(p, max).nested;
    var twice := TrimPoint(TrimPoint(p, max), max).nested;
    forall n | 0 <= n < |once|
      ensures twice[n] == once[n]
    {
      ClampTwice(p.nested[n], max);
    }
  }

  lemma TrimScopeItems<T>(r: ResourceInfo, s: Scope<T>, trim: T -> T, max: nat)
    ensures ScopeItems(TrimResourceInfo(r, max), TrimScope(s, trim, max)) == TrimItems(ScopeItems(r, s), trim, max)
  {
  }

  lemma TrimItemsConcat<T>(a: seq<Item<T>>, b: seq<Item<T>>, trim: T -> T, max: nat)
    ensures TrimItems(a + b, trim, max) == TrimItems(a, trim, max) + TrimItems(b, trim, max)
  {
  }

  lemma {:induction false} TrimScopesItems<T>(r: ResourceInfo, ss: seq<Scope<T>>, trim: T -> T, max: nat)
    ensures ScopesItems(TrimResourceInfo(r, max), TrimScopes(ss, trim, max)) == TrimItems(ScopesItems(r, ss), trim, max)
    ensures Count(TrimScopes(ss, trim, max)) == Count(ss)
  {
    if ss != [] {
      var n := |ss| - 1;
      TrimScopesItems(r, ss[..n], trim, max);
      TrimScopeItems(r, ss[n], trim, max);
      TrimItemsConcat(ScopesItems(r, ss[..n]), ScopeItems(r, ss[n]), trim, max);
      assert TrimScopes(ss, trim, max)[..n] == TrimScopes(ss[..n], trim, max);
    }
  }

  /** Truncation works leaf by leaf: it drops, adds and moves nothing. */
  lemma {:induction false} TrimFlat<T>(tree: Tree<T>, trim: T -> T, max: nat)
    ensures Flat(TrimTree(tree, trim, max)) == TrimItems(Flat(tree), trim, max)
  {
    if tree != [] {
      var n := |tree| - 1;
      TrimFlat(tree[..n], trim, max);
      TrimScopesItems(tree[n].info, tree[n].scopes, trim, max);
      TrimItemsConcat(Flat(tree[..n]), ScopesItems(tree[n].info, tree[n].scopes), trim, max);
      assert TrimTree(tree, trim, max)[..n] == TrimTree(tree[..n], trim, max);
    }
  }

  lemma TrimPointItemsConcat(a: seq<PointItem>, b: seq<PointItem>, max: nat)
    ensures TrimPointItems(a + b, max) == TrimPointItems(a, max) + TrimPointItems(b, max)
  {
  }

  lemma TrimMetricItems(it: Item<Metric>, max: nat)
    ensures MetricItems(TrimItem(it, (m: Metric) => TrimMetric(m, max), max)) == TrimPointItems(MetricItems(it), max)
  {
  }

  lemma {:induction false} TrimExpand(items: seq<Item<Metric>>, max: nat)
    ensures Expand(TrimItems(items, (m: Metric) => TrimMetric(m, max), max)) == TrimPointItems(Expand(items), max)
  {
    var trim := (m: Metric) => TrimMetric(m, max);
    if items != [] {
      var n := |items| - 1;
      TrimExpand(items[..n], max);
      TrimMetricItems(items[n], max);
      TrimPointItemsConcat(Expand(items[..n]), MetricItems(items[n]), max);
      assert TrimItems(items, trim, max)[..n] == TrimItems(items[..n], trim, max);
    }
  }

  // ------------------------------------------------------------ how many values were cut

  function SumOf<T>(xs: seq<T>, f: T -> nat): nat {
    if xs == [] then 0 else SumOf(xs[..|xs| - 1], f) + f(xs[|xs| - 1])
  }

  function PointCuts(p: Point, max: nat): nat {
    |LongKeys(p.attrs, max)| + SumOf(p.nested, (m: Attrs) => |LongKeys(m, max)|)
  }

  function MetricCuts(m: Metric, max: nat): nat {
    SumOf(Points(m), (p: Point) => PointCuts(p, max))
  }

  function ScopeCuts<T>(s: Scope<T>, cuts: T -> nat, max: nat): nat {
    |LongKeys(s.info.attrs, max)| + SumOf(s.children, cuts)
  }

  function ResourceCuts<T>(r: Resource<T>, cuts: T -> nat, max: nat): nat {
    |LongKeys(r.info.attrs, max)| + SumOf(r.scopes, (s: Scope<T>) => ScopeCuts(s, cuts, max))
  }

  function TreeCuts<T>(tree: Tree<T>, cuts: T -> nat, max: nat): nat {
    SumOf(tree, (r: Resource<T>) => ResourceCuts(r, cuts, max))
  }

  lemma {:induction false} SumZero<T>(xs: seq<T>, f: T -> nat, i: nat)
    requires SumOf(xs, f) == 0 && i < |xs|
    ensures f(xs[i]) == 0
  {
    if i < |xs| - 1 {
      SumZero(xs[..|xs| - 1], f, i);
    }
  }

  lemma UncutPoint(p: Point, max: nat)
    requires PointCuts(p, max) == 0
    ensures TrimPoint(p, max) == p
  {
    CountsCuts(p.attrs, max);
    var nested := TrimPoint(p, max).nested;
    forall n | 0 <= n < |p.nested|
      ensures nested[n] == p.nested[n]
    {
      SumZero(p.nested, (m: Attrs) => |LongKeys(m, max)|, n);
      CountsCuts(p.nested[n], max);
    }
    assert nested == p.nested;
  }

  lemma UncutMetric(m: Metric, max: nat)
    requires MetricCuts(m, max) == 0
    ensures TrimMetric(m, max) == m
  {
    if !m.data.NoData? {
      var points := Map(Points(m), (p: Point) => TrimPoint(p, max));
      forall n | 0 <= n < |points|
        ensures points[n] == Points(m)[n]
      {
        SumZero(Points(m), (p: Point) => PointCuts(p, max), n);
        UncutPoint(Points(m)[n], max);
      }
      assert points == Points(m);
    }
  }

  lemma UncutScope<T(!new)>(s: Scope<T>, trim: T -> T, cuts: T -> nat, max: nat)
    requires ScopeCuts(s, cuts, max) == 0 && forall c: T :: cuts(c) == 0 ==> trim(c) == c
    ensures TrimScope(s, trim, max) == s
  {
    CountsCuts(s.info.attrs, max);
    var children := TrimScope(s, trim, max).children;
    forall n | 0 <= n < |s.children|
      ensures children[n] == s.children[n]
    {
      SumZero(s.children, cuts, n);
    }
    assert children == s.children;
  }

  lemma UncutResource<T(!new)>(r: Resource<T>, trim: T -> T, cuts: T -> nat, max: nat)
    requires ResourceCuts(r, cuts, max) == 0 && forall c: T :: cuts(c) == 0 ==> trim(c) == c
    ensures TrimResource(r, trim, max) == r
  {
    CountsCuts(r.info.attrs, max);
    var scopes := TrimScopes(r.scopes, trim, max);
    forall n | 0 <= n < |r.scopes|
      ensures scopes[n] == r.scopes[n]
    {
      SumZero(r.scopes, (s: Scope<T>) => ScopeCuts(s, cuts, max), n);
      UncutScope(r.scopes[n], trim, cuts, max);
    }
    assert scopes == r.scopes;
  }

  /** A truncation that reports no cut has handed back the batch it was given. */
  lemma UncutTree<T(!new)>(tree: Tree<T>, trim: T -> T, cuts: T -> nat, max: nat)
    requires TreeCuts(tree, cuts, max) == 0 && forall c: T :: cuts(c) == 0 ==> trim(c) == c
    ensures TrimTree(tree, trim, max) == tree
  {
    var trimmed := TrimTree(tree, trim, max);
    forall n | 0 <= n < |tree|
      ensures trimmed[n] == tree[n]
    {
      SumZero(tree, (r: Resource<T>) => ResourceCuts(r, cuts, max), n);
      UncutResource(tree[n], trim, cuts, max);
    }
    assert trimmed == tree;
  }

  // ------------------------------------------------------------ and a changed batch is counted

  lemma {:induction false} SumAllZero<T>(xs: seq<T>, f: T -> nat)
    requires forall i :: 0 <= i < |xs| ==> f(xs[i]) == 0
    ensures SumOf(xs, f) == 0
  {
    if xs != [] {
      SumAllZero(xs[..|xs| - 1], f);
    }
  }

  lemma SamePointUncut(p: Point, max: nat)
    requires TrimPoint(p, max) == p
    ensures PointCuts(p, max) == 0
  {
    CountsCuts(p.attrs, max);
    forall n | 0 <= n < |p.nested|
      ensures |LongKeys(p.nested[n], max)| == 0
    {
      assert TrimPoint(p, max).nested[n] == p.nested[n];
      CountsCuts(p.nested[n], max);
    }
    SumAllZero(p.nested, (m: Attrs) => |LongKeys(m, max)|);
  }

  lemma SameMetricUncut(m: Metric, max: nat)
    requires TrimMetric(m, max) == m
    ensures MetricCuts(m, max) == 0
  {
    forall n | 0 <= n < |Points(m)|
      ensures PointCuts(Points(m)[n], max) == 0
    {
      assert Points(TrimMetric(m, max))[n] == TrimPoint(Points(m)[n], max);
      SamePointUncut(Points(m)[n], max);
    }
    SumAllZero(Points(m), (p: Point) => PointCuts(p, max));
  }

  lemma SameScopeUncut<T(!new)>(s: Scope<T>, trim: T -> T, cuts: T -> nat, max: nat)
    requires TrimScope(s, trim, max) == s && forall c: T :: trim(c) == c ==> cuts(c) == 0
    ensures ScopeCuts(s, cuts, max) == 0
  {
    CountsCuts(s.info.attrs, max);
    forall n | 0 <= n < |s.children|
      ensures cuts(s.children[n]) == 0
    {
      assert TrimScope(s, trim, max).children[n] == trim(s.children[n]);
    }
    SumAllZero(s.children, cuts);
  }

  lemma SameResourceUncut<T(!new)>(r: Resource<T>, trim: T -> T, cuts: T -> nat, max: nat)
    requires TrimResource(r, trim, max) == r && forall c: T :: trim(c) == c ==> cuts(c) == 0
    ensures ResourceCuts(r, cuts, max) == 0
  {
    CountsCuts(r.info.attrs, max);
    forall n | 0 <= n < |r.scopes|
      ensures ScopeCuts(r.scopes[n], cuts, max) == 0
    {
      assert TrimScopes(r.scopes, trim, max)[n] == TrimScope(r.scopes[n], trim, max);
      SameScopeUncut(r.scopes[n], trim, cuts, max);
    }
    SumAllZero(r.scopes, (s: Scope<T>) => ScopeCuts(s, cuts, max));
  }

  /** A truncation that hands back the batch it was given reports no cut. */
  lemma SameTreeUncut<T(!new)>(tree: Tree<T>, trim: T -> T, cuts: T -> nat, max: nat)
    requires TrimTree(tree, trim, max) == tree && forall c: T :: trim(c) == c ==> cuts(c) == 0
    ensures TreeCuts(tree, cuts, max) == 0
  {
    forall n | 0 <= n < |tree|
      ensures ResourceCuts(tree[n], cuts, max) == 0
    {
      assert TrimTree(tree, trim, max)[n] == TrimResource(tree[n], trim, max);
      SameResourceUncut(tree[n], trim, cuts, max);
    }
    SumAllZero(tree, (r: Resource<T>) => ResourceCuts(r, cuts, max));
  }

  lemma TrimScopeTwice<T(!new)>(s: Scope<T>, trim: T -> T, max: nat)
    requires forall c: T :: trim(trim(c)) == trim(c)
    ensures TrimScope(TrimScope(s, trim, max), trim, max) == TrimScope(s, trim, max)
  {
    ClampTwice(s.info.attrs, max);
    assert Map(Map(s.children, trim), trim) == Map(s.children, trim);
  }

  lemma TrimResourceTwice<T(!new)>(r: Resource<T>, trim: T -> T, max: nat)
    requires forall c: T :: trim(trim(c)) == trim(c)
    ensures TrimResource(TrimResource(r, trim, max), trim, max) == TrimResource(r, trim, max)
  {
    ClampTwice(r.info.attrs, max);
    var once := TrimScopes(r.scopes, trim, max);
    forall n | 0 <= n < |once|
      ensures TrimScopes(once, trim, max)[n] == once[n]
    {
      TrimScopeTwice(r.scopes[n], trim, max);
    }
    assert TrimScopes(once, trim, max) == once;
  }

  /** Truncating a truncated batch changes nothing more. */
  lemma TrimTreeTwice<T(!new)>(tree: Tree<T>, trim: T -> T, max: nat)
    requires forall c: T :: trim(trim(c)) == trim(c)
    ensures TrimTree(TrimTree(tree, trim, max), trim, max) == TrimTree(tree, trim, max)
  {
    var once := TrimTree(tree, trim, max);
    forall n | 0 <= n < |once|
      ensures TrimTree(once, trim, max)[n] == once[n]
    {
      TrimResourceTwice(tree[n], trim, max);
    }
    assert TrimTree(once, trim, max) == once;
  }

  lemma TrimMetricTwice(m: Metric, max: nat)
    ensures TrimMetric(TrimMetric(m, max), max) == TrimMetric(m, max)
  {
    if !m.data.NoData? {
      var once := Map(Points(m), (p: Point) => TrimPoint(p, max));
      forall n | 0 <= n < |once|
        ensures TrimPoint(once[n], max) == once[n]
      {
        TrimPointTwice(Points(m)[n], max);
      }
      assert Map(once, (p: Point) => TrimPoint(p, max)) == once;
    }
  }

  // ------------------------------------------------------------ what is left of a value

  /** No string value is longer than `max` bytes. */
  predicate Short(m: Attrs, max: nat) {
    forall k :: k in m && m[k].Str? ==> |m[k].text| <= max
  }

  predicate ShortPoint(p: Point, max: nat) {
    Short(p.attrs, max) && forall n :: 0 <= n < |p.nested| ==> Short(p.nested[n], max)
  }

  /** `cut` is the last place among the four from `max` down where a codepoint begins, or `max` when
      there is none. */
  ghost predicate SafeCut(s: string, max: int, cut: int)
    requires 0 <= max < |s|
  {
    || (0 < cut <= max < cut + 4 && RuneStart(s[cut]) && forall k :: cut < k <= max ==> !RuneStart(s[k]))
    || (cut == max && forall k :: 0 < k <= max < k + 4 ==> !RuneStart(s[k]))
  }

  lemma {:induction false} CutFromSafe(s: string, n: int, max: int)
    requires 0 <= max < |s| && n <= max
    requires forall k :: n < k <= max && 0 < k && max < k + 4 ==> !RuneStart(s[k])
    ensures SafeCut(s, max, CutFrom(s, n, max))
    decreases n
  {
    if n > max - 4 && n > 0 && !RuneStart(s[n]) {
      CutFromSafe(s, n - 1, max);
    }
  }

  /** The value that truncating `v` leaves: a longer string keeps what is before its safe cut, and
      anything else is as it was. */
  ghost predicate CutSafely(v: Value, w: Value, max: nat) {
    if v.Str? && |v.text| > max
    then w.Str? && |w.text| <= max && w.text <= v.text && SafeCut(v.text, max, |w.text|)
    else w == v
  }

  /** What truncating one attribute map does, value by value. */
  lemma ClampMeans(m: Attrs, max: nat)
    ensures ClampAttrs(m, max).Keys == m.Keys && Short(ClampAttrs(m, max), max)
    ensures forall k :: k in m ==> CutSafely(m[k], ClampAttrs(m, max)[k], max)
  {
    forall k | k in m
      ensures CutSafely(m[k], ClampAttrs(m, max)[k], max)
    {
      if m[k].Str? && |m[k].text| > max {
        CutFromSafe(m[k].text, max, max);
      }
    }
  }

  lemma TrimmedPointShort(p: Point, max: nat)
    ensures ShortPoint(TrimPoint(p, max), max)
  {
    ClampMeans(p.attrs, max);
    forall n | 0 <= n < |p.nested| ensures Short(TrimPoint(p, max).nested[n], max) {
      ClampMeans(p.nested[n], max);
    }
  }

  /** No long string is left anywhere in a truncated batch of spans or records. */
  lemma TrimmedItemsShort(tree: Tree<Point>, max: nat, n: nat)
    requires n < |Flat(TrimTree(tree, (p: Point) => TrimPoint(p, max), max))|
    ensures var it := Flat(TrimTree(tree, (p: Point) => TrimPoint(p, max), max))[n];
      Short(it.resource.attrs, max) && Short(it.scope.attrs, max) && ShortPoint(it.child, max)
  {
    TrimFlat(tree, (p: Point) => TrimPoint(p, max), max);
    ClampMeans(Flat(tree)[n].resource.attrs, max);
    ClampMeans(Flat(tree)[n].scope.attrs, max);
    TrimmedPointShort(Flat(tree)[n].child, max);
  }

  /** Nor in a truncated batch of metrics. */
  lemma TrimmedPointItemsShort(tree: Tree<Metric>, max: nat, n: nat)
    requires n < |FlatPoints(TrimTree(tree, (m: Metric) => TrimMetric(m, max), max))|
    ensures var it := FlatPoints(TrimTree(tree, (m: Metric) => TrimMetric(m, max), max))[n];
      Short(it.resource.attrs, max) && Short(it.scope.attrs, max) && ShortPoint(it.point, max)
  {
    TrimFlat(tree, (m: Metric) => TrimMetric(m, max), max);
    TrimExpand(Flat(tree), max);
    ClampMeans(FlatPoints(tree)[n].resource.attrs, max);
    ClampMeans(FlatPoints(tree)[n].scope.attrs, max);
    TrimmedPointShort(FlatPoints(tree)[n].point, max);
  }
}
