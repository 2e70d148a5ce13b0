/** The fast path for plans that read resource attributes only: groupTracesByResource,
    groupLogsByResource and groupMetricsByResource, one model for the three signals. */
module ResourceGrouping {
  import opened Sequences
  import opened Signals
  import opened KeyPlan
  import opened LeafGrouping

  function ResourceKey(plan: Plan, r: ResourceInfo): string {
    Key(plan, r.attrs, "", map[])
  }

  function OutResource<T>(plan: Plan, r: Resource<T>): Resource<T> {
    r.(info := PromotedResource(plan, r.info))
  }

  function ResourceKeys<T>(plan: Plan, td: Tree<T>): seq<string> {
    if td == [] then []
    else
      var before := ResourceKeys(plan, td[..|td| - 1]);
      var key := ResourceKey(plan, td[|td| - 1].info);
      if key in before then before else before + [key]
  }

  /** The resources of one key, in order. */
  function ResourcesOf<T>(plan: Plan, td: Tree<T>, key: string): Tree<T> {
    if td == [] then []
    else
      var last := td[|td| - 1];
      ResourcesOf(plan, td[..|td| - 1], key) + if ResourceKey(plan, last.info) == key then [OutResource(plan, last)] else []
  }

  lemma ResourcesSnoc<T>(plan: Plan, td: Tree<T>, r: Resource<T>, key: string)
    ensures ResourcesOf(plan, td + [r], key)
      == ResourcesOf(plan, td, key) + if ResourceKey(plan, r.info) == key then [OutResource(plan, r)] else []
  {
    assert (td + [r])[..|td|] == td;
  }

  lemma ResourceKeysSnoc<T>(plan: Plan, td: Tree<T>, r: Resource<T>)
    ensures ResourceKeys(plan, td + [r])
      == var before := ResourceKeys(plan, td); var key := ResourceKey(plan, r.info); if key in before then before else before + [key]
  {
    assert (td + [r])[..|td|] == td;
  }

  lemma {:induction false} NoResources<T>(plan: Plan, td: Tree<T>, key: string)
    requires key !in ResourceKeys(plan, td)
    ensures ResourcesOf(plan, td, key) == []
  {
    if td != [] {
      NoResources(plan, td[..|td| - 1], key);
    }
  }

  ghost predicate Holds<T>(plan: Plan, byKey: map<string, Tree<T>>, td: Tree<T>) {
    forall key :: key in byKey ==> byKey[key] == ResourcesOf(plan, td, key)
  }

  ghost predicate Collected<T>(plan: Plan, byKey: map<string, Tree<T>>, order: seq<string>, td: Tree<T>) {
    && order == ResourceKeys(plan, td)
    && (forall key :: key in byKey <==> key in order)
    && Holds(plan, byKey, td)
  }

  lemma HoldsStep<T>(plan: Plan, byKey: map<string, Tree<T>>, td: Tree<T>, r: Resource<T>)
    requires Holds(plan, byKey, td)
    requires ResourceKey(plan, r.info) !in byKey ==> ResourcesOf(plan, td, ResourceKey(plan, r.info)) == []
    ensures var key := ResourceKey(plan, r.info);
      Holds(plan, byKey[key := (if key in byKey then byKey[key] else []) + [OutResource(plan, r)]], td + [r])
  {
    var key := ResourceKey(plan, r.info);
    forall other | other in byKey || other == key
      ensures other != key ==> ResourcesOf(plan, td + [r], other) == ResourcesOf(plan, td, other)
      ensures other == key ==> ResourcesOf(plan, td + [r], other) == ResourcesOf(plan, td, other) + [OutResource(plan, r)]
    {
      ResourcesSnoc(plan, td, r, other);
    }
  }

  lemma CollectedStep<T>(plan: Plan, byKey: map<string, Tree<T>>, order: seq<string>, td: Tree<T>, r: Resource<T>)
    requires Collected(plan, byKey, order, td)
    ensures var key := ResourceKey(plan, r.info);
      var dst := if key in byKey then byKey[key] else [];
      Collected(plan, byKey[key := dst + [OutResource(plan, r)]], if key in byKey then order else order + [key], td + [r])
  {
    var key := ResourceKey(plan, r.info);
    ResourceKeysSnoc(plan, td, r);
    if key !in byKey {
      NoResources(plan, td, key);
    }
    HoldsStep(plan, byKey, td, r);
  }

  method AddResource<T>(plan: Plan, byKey: map<string, Tree<T>>, order: seq<string>, r: Resource<T>, ghost td: Tree<T>)
    returns (byKey': map<string, Tree<T>>, order': seq<string>)
    requires ResourceOnly(plan) && Collected(plan, byKey, order, td)
    ensures Collected(plan, byKey', order', td + [r])
  {
    var parts := ResolveParts(plan, r.info.attrs, "", map[]);
    var key := Join(parts);
    var dst := [];
    order' := order;
    if key in byKey {
      dst := byKey[key];
    } else {
      order' := order' + [key];
    }
    var info := PromoteResource(plan, r.info, parts);
    CollectedStep(plan, byKey, order, td, r);
    byKey' := byKey[key := dst + [r.(info := info)]];
  }

  method GroupByResource<T>(td: Tree<T>, plan: Plan) returns (out: seq<Tagged<T>>)
    requires ResourceOnly(plan)
    ensures KeysIn(out) == ResourceKeys(plan, td)
    ensures forall n :: 0 <= n < |out| ==> out[n].batch == ResourcesOf(plan, td, out[n].key)
  {
    var byKey: map<string, Tree<T>> := map[];
    var order := [];
    assert td[..0] == [];
    for i := 0 to |td|
      invariant Collected(plan, byKey, order, td[..i])
    {
      assert td[..i] + [td[i]] == td[..i + 1];
      byKey, order := AddResource(plan, byKey, order, td[i], td[..i]);
    }
    assert td[..|td|] == td;
    out := CollectTrees(byKey, order);
  }

  /** The promotions of a resource copy; the shared empty leaf map handed along stays empty. */
  method PromoteResource(plan: Plan, r: ResourceInfo, parts: seq<string>) returns (info: ResourceInfo)
    requires ResourceOnly(plan) && parts == Parts(plan, r.attrs, "", map[])
    ensures info == PromotedResource(plan, r)
  {
    info := r;
    if HasPromotion(plan) {
      var res, shared := ApplyPromotions(plan, parts, info.attrs, map[]);
      NothingToPromote(plan, parts, false, map[]);
      assert shared == map[];
      info := info.(attrs := res);
    } else {
      NoPromotion(plan, parts, true, r.attrs);
    }
  }

  method CollectTrees<T>(byKey: map<string, Tree<T>>, order: seq<string>) returns (out: seq<Tagged<T>>)
    requires forall key :: key in order ==> key in byKey
    ensures KeysIn(out) == order
    ensures forall n :: 0 <= n < |out| ==> out[n].key in byKey && out[n].batch == byKey[out[n].key]
  {
    out := [];
    for n := 0 to |order|
      invariant |out| == n
      invariant forall k :: 0 <= k < n ==> out[k].key == order[k] && out[k].batch == byKey[order[k]]
    {
      out := out + [Tagged(order[n], byKey[order[n]])];
    }
  }

  // ------------------------------------------------------------ agreement with the leaf path

  lemma {:induction false} ProjectAll(plan: Plan, items: seq<Item<Point>>, out: seq<Item<Point>>, key: string, whole: bool)
    requires |out| == |items|
    requires forall n :: 0 <= n < |items| ==> (KeyOf(plan, items[n]) == key <==> whole) && out[n] == LeafGrouping.Out(plan, items[n])
    ensures Project(plan, items, key) == if whole then out else []
  {
    if items != [] {
      var n := |items| - 1;
      ProjectAll(plan, items[..n], out[..n], key, whole);
      LastOfConcat([], items, items[..n], items[n]);
      LastOfConcat([], out, out[..n], out[n]);
      ProjectSnoc(plan, items[..n], items[n], key);
    }
  }

  lemma {:induction false} ProjectConcat(plan: Plan, a: seq<Item<Point>>, b: seq<Item<Point>>, key: string)
    ensures Project(plan, a + b, key) == Project(plan, a, key) + Project(plan, b, key)
  {
    if b == [] {
      assert a + b == a;
    } else {
      var front, last := b[..|b| - 1], b[|b| - 1];
      ProjectConcat(plan, a, front, key);
      LastOfConcat(a, b, front, last);
      ProjectSnoc(plan, a + front, last, key);
      ProjectSnoc(plan, front, last, key);
      ConcatAssociates(Project(plan, a, key), Project(plan, front, key),
        if KeyOf(plan, last) == key then [LeafGrouping.Out(plan, last)] else []);
    }
  }

  lemma {:induction false} ItemsOfResource<T>(r: ResourceInfo, r': ResourceInfo, ss: seq<Scope<T>>)
    ensures |ScopesItems(r, ss)| == |ScopesItems(r', ss)|
    ensures forall n :: 0 <= n < |ScopesItems(r, ss)| ==>
      ScopesItems(r, ss)[n].resource == r && ScopesItems(r', ss)[n] == ScopesItems(r, ss)[n].(resource := r')
  {
    if ss != [] {
      ItemsOfResource(r, r', ss[..|ss| - 1]);
    }
  }

  lemma ResourceProject(plan: Plan, r: Resource<Point>, key: string)
    requires ResourceOnly(plan)
    ensures Project(plan, ScopesItems(r.info, r.scopes), key)
      == if ResourceKey(plan, r.info) == key then ScopesItems(PromotedResource(plan, r.info), r.scopes) else []
  {
    var items := ScopesItems(r.info, r.scopes);
    var r' := PromotedResource(plan, r.info);
    ItemsOfResource(r.info, r', r.scopes);
    forall n | 0 <= n < |items|
      ensures KeyOf(plan, items[n]) == ResourceKey(plan, r.info)
      ensures LeafGrouping.Out(plan, items[n]) == ScopesItems(r', r.scopes)[n]
    {
      ResourceOnlyPlan(plan, r.info.attrs, "", items[n].child);
    }
    ProjectAll(plan, items, ScopesItems(r', r.scopes), key, ResourceKey(plan, r.info) == key);
  }

  lemma FastPathStep(plan: Plan, front: Tree<Point>, last: Resource<Point>, key: string)
    requires ResourceOnly(plan) && Flat(ResourcesOf(plan, front, key)) == Project(plan, Flat(front), key)
    ensures Flat(ResourcesOf(plan, front + [last], key)) == Project(plan, Flat(front + [last]), key)
  {
    ResourceProject(plan, last, key);
    FlatSnoc(front, last);
    ProjectConcat(plan, Flat(front), ScopesItems(last.info, last.scopes), key);
    ResourcesSnoc(plan, front, last, key);
    if ResourceKey(plan, last.info) == key {
      FlatSnoc(ResourcesOf(plan, front, key), OutResource(plan, last));
    } else {
      assert ResourcesOf(plan, front + [last], key) == ResourcesOf(plan, front, key);
    }
  }

  /** For a resource-only plan the fast path and the leaf path put the same items, in the same
      order and with the same promotions, under every key. */
  lemma {:induction false} FastPathAgrees(plan: Plan, td: Tree<Point>, key: string)
    requires ResourceOnly(plan)
    ensures Flat(ResourcesOf(plan, td, key)) == Project(plan, Flat(td), key)
  {
    if td != [] {
      var front, last := td[..|td| - 1], td[|td| - 1];
      FastPathAgrees(plan, front, key);
      assert td == front + [last];
      FastPathStep(plan, front, last, key);
    }
  }
}
