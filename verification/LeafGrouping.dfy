/** Grouping spans and log records by their own key: groupTracesByLeaf and groupLogsByLeaf in
    exporter/awskinesisexporter/partition_grouping.go, one model for both. */
module LeafGrouping {
  import opened Sequences
  import opened Signals
  import opened KeyPlan
  import opened Buckets

  datatype Tagged<T> = Tagged(key: string, batch: Tree<T>)

  function KeysIn<T>(groups: seq<Tagged<T>>): (keys: seq<string>)
    ensures |keys| == |groups| && forall n :: 0 <= n < |groups| ==> keys[n] == groups[n].key
  {
    Map(groups, (g: Tagged<T>) => g.key)
  }

  // ------------------------------------------------------------ what grouping means

  function KeyOf(plan: Plan, item: Item<Point>): string {
    Key(plan, item.resource.attrs, "", item.child.attrs)
  }

  /** An item as it leaves: with the attributes its plan promotes, otherwise untouched. */
  function Out(plan: Plan, item: Item<Point>): Item<Point> {
    Item(PromotedResource(plan, item.resource), item.scope, PromotedLeaf(plan, item.resource.attrs, "", item.child))
  }

  /** The keys of the items in the order they are first met. */
  function KeysOf(plan: Plan, items: seq<Item<Point>>): seq<string> {
    if items == [] then []
    else
      var before := KeysOf(plan, items[..|items| - 1]);
      var key := KeyOf(plan, items[|items| - 1]);
      if key in before then before else before + [key]
  }

  /** The items of one key, in order. */
  function Project(plan: Plan, items: seq<Item<Point>>, key: string): seq<Item<Point>> {
    if items == [] then []
    else
      var last := items[|items| - 1];
      Project(plan, items[..|items| - 1], key) + if KeyOf(plan, last) == key then [Out(plan, last)] else []
  }

  lemma ProjectSnoc(plan: Plan, items: seq<Item<Point>>, item: Item<Point>, key: string)
    ensures Project(plan, items + [item], key)
      == Project(plan, items, key) + if KeyOf(plan, item) == key then [Out(plan, item)] else []
  {
    assert (items + [item])[..|items|] == items;
  }

  lemma KeysSnoc(plan: Plan, items: seq<Item<Point>>, item: Item<Point>)
    ensures KeysOf(plan, items + [item])
      == var before := KeysOf(plan, items); var key := KeyOf(plan, item); if key in before then before else before + [key]
  {
    assert (items + [item])[..|items|] == items;
  }

  lemma {:induction false} UnseenKey(plan: Plan, items: seq<Item<Point>>, key: string)
    requires key !in KeysOf(plan, items)
    ensures Project(plan, items, key) == []
  {
    if items != [] {
      UnseenKey(plan, items[..|items| - 1], key);
    }
  }

  // ------------------------------------------------------------ the loops

  datatype State = State(byKey: map<string, Bucket<Point>>, order: seq<string>)

  ghost predicate Grouped(plan: Plan, st: State, items: seq<Item<Point>>) {
    && st.order == KeysOf(plan, items)
    && (forall key :: key in st.byKey <==> key in st.order)
    && Holds(plan, st.byKey, items)
  }

  ghost predicate Holds(plan: Plan, byKey: map<string, Bucket<Point>>, items: seq<Item<Point>>) {
    forall key :: key in byKey ==> Flat(byKey[key].out) == Project(plan, items, key)
  }

  /** The copy of the current resource carries its promotions. */
  ghost predicate InfoOk(plan: Plan, b: Bucket<Point>, i: nat, r: ResourceInfo) {
    i in b.rs ==> b.out != [] && b.out[|b.out| - 1].info == PromotedResource(plan, r)
  }

  ghost predicate InScope(plan: Plan, st: State, i: nat, j: nat, r: ResourceInfo, s: ScopeInfo) {
    forall key :: key in st.byKey ==> OnScope(st.byKey[key], i, j, s) && InfoOk(plan, st.byKey[key], i, r)
  }

  ghost predicate InResource(plan: Plan, st: State, i: nat, j: nat, r: ResourceInfo) {
    forall key :: key in st.byKey ==> OnResource(st.byKey[key], i, j) && InfoOk(plan, st.byKey[key], i, r)
  }

  ghost predicate AtResource(st: State, i: nat) {
    forall key :: key in st.byKey ==> Between(st.byKey[key], i)
  }

  /** The copies of resource `i` and scope `j` are in place at the end of the bucket, the resource
      promoted already or still empty. */
  ghost predicate Open(plan: Plan, b: Bucket<Point>, i: nat, j: nat, r: ResourceInfo, s: ScopeInfo) {
    && OnScope(b, i, j, s) && i in b.rs && (i, j) in b.ss
    && var last := b.out[|b.out| - 1];
      last.info == PromotedResource(plan, r) || (last.info == r && Count(last.scopes) == 0)
  }

  method OpenScope(plan: Plan, b: Bucket<Point>, i: nat, j: nat, r: ResourceInfo, s: ScopeInfo) returns (b': Bucket<Point>)
    requires OnScope(b, i, j, s) && InfoOk(plan, b, i, r)
    ensures Open(plan, b', i, j, r, s) && Flat(b'.out) == Flat(b.out)
  {
    b' := EnsureScope(b, i, j, r, s);
    EnsureScopeFlat(b, b', i, j, r, s);
    if i !in b.rs {
      var ss: seq<Scope<Point>> := [Scope(s, [])];
      assert ss[..0] == [];
    }
  }

  /** The promoted attributes of a resource copy and of a new leaf under it. */
  method Promote(plan: Plan, parts: seq<string>, r: ResourceInfo, info: ResourceInfo, p: Point)
    returns (info': ResourceInfo, p': Point)
    requires parts == Parts(plan, r.attrs, "", p.attrs)
    requires info == r || info == PromotedResource(plan, r)
    ensures info' == PromotedResource(plan, r) && p' == PromotedLeaf(plan, r.attrs, "", p)
  {
    var res, leaf := info.attrs, p.attrs;
    ResourcePromotion(plan, r, "", p.attrs);
    if HasPromotion(plan) {
      res, leaf := ApplyPromotions(plan, parts, res, leaf);
    } else {
      NoPromotion(plan, parts, true, res);
      NoPromotion(plan, parts, false, leaf);
    }
    info', p' := info.(attrs := res), p.(attrs := leaf);
  }

  lemma ChildKeepsPlace(plan: Plan, b: Bucket<Point>, i: nat, j: nat, r: ResourceInfo, s: ScopeInfo, child: Point)
    requires Open(plan, b, i, j, r, s)
    ensures var b' := b.(out := WithChild(b.out, child, PromotedResource(plan, r)));
      && OnScope(b', i, j, s) && InfoOk(plan, b', i, r)
      && Flat(b'.out) == Flat(b.out) + [Item(PromotedResource(plan, r), s, child)]
  {
    ChildUnderInfo(b.out, child, PromotedResource(plan, r));
  }

  method AddPoint(plan: Plan, b: Bucket<Point>, i: nat, j: nat, r: ResourceInfo, s: ScopeInfo, p: Point, parts: seq<string>)
    returns (b': Bucket<Point>)
    requires OnScope(b, i, j, s) && InfoOk(plan, b, i, r)
    requires parts == Parts(plan, r.attrs, "", p.attrs)
    ensures OnScope(b', i, j, s) && InfoOk(plan, b', i, r)
    ensures Flat(b'.out) == Flat(b.out) + [Out(plan, Item(r, s, p))]
  {
    b' := OpenScope(plan, b, i, j, r, s);
    var at, sc := b'.rs[i], b'.ss[(i, j)];
    var info, leaf := Promote(plan, parts, r, b'.out[at].info, p);
    ChildKeepsPlace(plan, b', i, j, r, s, leaf);
    b' := b'.(out := AppendAt(b'.out, at, sc, leaf, info));
  }

  /** Find or make the bucket of a key, keeping the order keys were first seen in. */
  method BucketFor(st: State, key: string) returns (st': State)
    ensures key in st'.byKey
    ensures key in st.byKey ==> st' == st
    ensures key !in st.byKey ==> st' == State(st.byKey[key := Empty()], st.order + [key])
  {
    st' := st;
    if key !in st'.byKey {
      st' := State(st'.byKey[key := Empty()], st'.order + [key]);
    }
  }

  lemma OpenHolds(plan: Plan, st: State, items: seq<Item<Point>>, key: string)
    requires Grouped(plan, st, items) && key !in st.byKey
    ensures Holds(plan, st.byKey[key := Empty()], items)
  {
    UnseenKey(plan, items, key);
  }

  lemma StepHolds(plan: Plan, byKey: map<string, Bucket<Point>>, b: Bucket<Point>, items: seq<Item<Point>>, item: Item<Point>)
    requires Holds(plan, byKey, items) && KeyOf(plan, item) in byKey
    requires Flat(b.out) == Flat(byKey[KeyOf(plan, item)].out) + [Out(plan, item)]
    ensures Holds(plan, byKey[KeyOf(plan, item) := b], items + [item])
  {
    forall other | other in byKey
      ensures other != KeyOf(plan, item) ==> Project(plan, items + [item], other) == Project(plan, items, other)
      ensures other == KeyOf(plan, item) ==> Project(plan, items + [item], other) == Project(plan, items, other) + [Out(plan, item)]
    {
      ProjectSnoc(plan, items, item, other);
    }
  }

  lemma OpensInScope(plan: Plan, st: State, key: string, i: nat, j: nat, r: ResourceInfo, s: ScopeInfo)
    requires InScope(plan, st, i, j, r, s)
    ensures InScope(plan, State(st.byKey[key := Empty()], st.order + [key]), i, j, r, s)
  {
  }

  lemma KeepsInScope(plan: Plan, st: State, key: string, b: Bucket<Point>, i: nat, j: nat, r: ResourceInfo, s: ScopeInfo)
    requires InScope(plan, st, i, j, r, s) && OnScope(b, i, j, s) && InfoOk(plan, b, i, r)
    ensures InScope(plan, st.(byKey := st.byKey[key := b]), i, j, r, s)
  {
  }

  method AddItem(plan: Plan, st: State, i: nat, j: nat, r: ResourceInfo, s: ScopeInfo, p: Point, ghost items: seq<Item<Point>>)
    returns (st': State)
    requires Grouped(plan, st, items) && InScope(plan, st, i, j, r, s)
    ensures Grouped(plan, st', items + [Item(r, s, p)]) && InScope(plan, st', i, j, r, s)
  {
    var parts := ResolveParts(plan, r.attrs, "", p.attrs);
    var key := Join(parts);
    var st1 := BucketFor(st, key);
    OpensInScope(plan, st, key, i, j, r, s);
    var b := AddPoint(plan, st1.byKey[key], i, j, r, s, p, parts);
    if key !in st.byKey {
      OpenHolds(plan, st, items, key);
    }
    StepHolds(plan, st1.byKey, b, items, Item(r, s, p));
    KeysSnoc(plan, items, Item(r, s, p));
    KeepsInScope(plan, st1, key, b, i, j, r, s);
    st' := st1.(byKey := st1.byKey[key := b]);
  }

  lemma ScopeOpens(plan: Plan, st: State, i: nat, j: nat, r: ResourceInfo, s: ScopeInfo)
    requires InResource(plan, st, i, j, r)
    ensures InScope(plan, st, i, j, r, s)
  {
    forall key | key in st.byKey
      ensures OnScope(st.byKey[key], i, j, s) && InfoOk(plan, st.byKey[key], i, r)
    {
      Moves(st.byKey[key], i, j, s);
    }
  }

  lemma ScopeCloses(plan: Plan, st: State, i: nat, j: nat, r: ResourceInfo, s: ScopeInfo)
    requires InScope(plan, st, i, j, r, s)
    ensures InResource(plan, st, i, j + 1, r)
  {
    forall key | key in st.byKey
      ensures OnResource(st.byKey[key], i, j + 1) && InfoOk(plan, st.byKey[key], i, r)
    {
      Moves(st.byKey[key], i, j, s);
    }
  }

  lemma NextItem(items: seq<Item<Point>>, r: ResourceInfo, s: Scope<Point>, k: nat)
    requires k < |s.children|
    ensures items + ScopeItems(r, s)[..k] + [Item(r, s.info, s.children[k])] == items + ScopeItems(r, s)[..k + 1]
  {
    var all := ScopeItems(r, s);
    assert all[..k] + [all[k]] == all[..k + 1];
    ConcatAssociates(items, all[..k], [all[k]]);
  }

  method GroupScope(plan: Plan, st: State, i: nat, j: nat, r: ResourceInfo, s: Scope<Point>, ghost items: seq<Item<Point>>)
    returns (st': State)
    requires Grouped(plan, st, items) && InResource(plan, st, i, j, r)
    ensures Grouped(plan, st', items + ScopeItems(r, s)) && InResource(plan, st', i, j + 1, r)
  {
    st' := st;
    ghost var items' := items;
    ScopeOpens(plan, st, i, j, r, s.info);
    assert items + ScopeItems(r, s)[..0] == items;
    for k := 0 to |s.children|
      invariant items' == items + ScopeItems(r, s)[..k]
      invariant Grouped(plan, st', items') && InScope(plan, st', i, j, r, s.info)
    {
      NextItem(items, r, s, k);
      st' := AddItem(plan, st', i, j, r, s.info, s.children[k], items');
      items' := items' + [Item(r, s.info, s.children[k])];
    }
    ScopeCloses(plan, st', i, j, r, s.info);
    assert ScopeItems(r, s)[..|s.children|] == ScopeItems(r, s);
  }

  lemma NextScope(before: seq<Item<Point>>, r: ResourceInfo, ss: seq<Scope<Point>>, j: nat)
    requires j < |ss|
    ensures before + ScopesItems(r, ss[..j]) + ScopeItems(r, ss[j]) == before + ScopesItems(r, ss[..j + 1])
  {
    ScopesSnoc(r, ss[..j], ss[j]);
    assert ss[..j] + [ss[j]] == ss[..j + 1];
    ConcatAssociates(before, ScopesItems(r, ss[..j]), ScopeItems(r, ss[j]));
  }

  method GroupResource(plan: Plan, st: State, i: nat, r: Resource<Point>, ghost items: seq<Item<Point>>)
    returns (st': State)
    requires Grouped(plan, st, items) && AtResource(st, i)
    ensures Grouped(plan, st', items + ScopesItems(r.info, r.scopes)) && AtResource(st', i + 1)
  {
    st' := st;
    ghost var items' := items;
    assert items + ScopesItems(r.info, r.scopes[..0]) == items;
    for j := 0 to |r.scopes|
      invariant items' == items + ScopesItems(r.info, r.scopes[..j])
      invariant Grouped(plan, st', items') && InResource(plan, st', i, j, r.info)
    {
      NextScope(items, r.info, r.scopes, j);
      st' := GroupScope(plan, st', i, j, r.info, r.scopes[j], items');
      items' := items' + ScopeItems(r.info, r.scopes[j]);
    }
    assert r.scopes[..|r.scopes|] == r.scopes;
  }

  lemma NextResource(td: Tree<Point>, i: nat)
    requires i < |td|
    ensures Flat(td[..i]) + ScopesItems(td[i].info, td[i].scopes) == Flat(td[..i + 1])
  {
    FlatSnoc(td[..i], td[i]);
    assert td[..i] + [td[i]] == td[..i + 1];
  }

  method GroupAll(td: Tree<Point>, plan: Plan) returns (st: State)
    ensures Grouped(plan, st, Flat(td))
  {
    st := State(map[], []);
    ghost var items: seq<Item<Point>> := [];
    assert td[..0] == [];
    for i := 0 to |td|
      invariant items == Flat(td[..i])
      invariant Grouped(plan, st, items) && AtResource(st, i)
    {
      NextResource(td, i);
      st := GroupResource(plan, st, i, td[i], items);
      items := items + ScopesItems(td[i].info, td[i].scopes);
    }
    assert td[..|td|] == td;
  }

  /** A stable partition: one batch a key, keys in first-seen order, and each batch flattens to
      exactly the items of its key, in order, under their own resource and scope. */
  method GroupByLeaf(td: Tree<Point>, plan: Plan) returns (out: seq<Tagged<Point>>)
    ensures KeysIn(out) == KeysOf(plan, Flat(td))
    ensures forall n :: 0 <= n < |out| ==> Flat(out[n].batch) == Project(plan, Flat(td), out[n].key)
  {
    var st := GroupAll(td, plan);
    out := Collect(st.byKey, st.order);
  }

  /** The batches of the buckets, in key order. */
  method Collect<T>(byKey: map<string, Bucket<T>>, order: seq<string>) returns (out: seq<Tagged<T>>)
    requires forall key :: key in order ==> key in byKey
    ensures KeysIn(out) == order
    ensures forall n :: 0 <= n < |out| ==> out[n].key in byKey && out[n].batch == byKey[out[n].key].out
  {
    out := [];
    for n := 0 to |order|
      invariant |out| == n
      invariant forall k :: 0 <= k < n ==> out[k].key == order[k] && out[k].batch == byKey[order[k]].out
    {
      out := out + [Tagged(order[n], byKey[order[n]].out)];
    }
  }

  // ------------------------------------------------------------ nothing lost between the groups

  lemma {:induction false} KeysAreDistinct(plan: Plan, items: seq<Item<Point>>)
    ensures Distinct(KeysOf(plan, items))
    ensures forall n :: 0 <= n < |items| ==> KeyOf(plan, items[n]) in KeysOf(plan, items)
  {
    if items != [] {
      KeysAreDistinct(plan, items[..|items| - 1]);
      forall n | 0 <= n < |items|
        ensures KeyOf(plan, items[n]) in KeysOf(plan, items)
      {
        if n < |items| - 1 {
          assert items[..|items| - 1][n] == items[n];
        }
      }
    }
  }

  /** The sizes of the groups of `keys`, added up. */
  function GroupSizes(plan: Plan, items: seq<Item<Point>>, keys: seq<string>): nat {
    if keys == [] then 0
    else GroupSizes(plan, items, keys[..|keys| - 1]) + |Project(plan, items, keys[|keys| - 1])|
  }

  lemma {:induction false} SizesSnoc(plan: Plan, items: seq<Item<Point>>, item: Item<Point>, keys: seq<string>)
    requires Distinct(keys)
    ensures GroupSizes(plan, items + [item], keys)
      == GroupSizes(plan, items, keys) + if KeyOf(plan, item) in keys then 1 else 0
  {
    if keys != [] {
      var n := |keys| - 1;
      SizesSnoc(plan, items, item, keys[..n]);
      ProjectSnoc(plan, items, item, keys[n]);
      assert KeyOf(plan, item) in keys <==> KeyOf(plan, item) in keys[..n] || KeyOf(plan, item) == keys[n];
    }
  }

  lemma {:induction false} SizesOfNothing(plan: Plan, keys: seq<string>)
    ensures GroupSizes(plan, [], keys) == 0
  {
    if keys != [] {
      SizesOfNothing(plan, keys[..|keys| - 1]);
    }
  }

  lemma {:induction false} SizesAddUp(plan: Plan, items: seq<Item<Point>>, keys: seq<string>)
    requires Distinct(keys) && forall n :: 0 <= n < |items| ==> KeyOf(plan, items[n]) in keys
    ensures GroupSizes(plan, items, keys) == |items|
  {
    if items == [] {
      SizesOfNothing(plan, keys);
    } else {
      var n := |items| - 1;
      SizesAddUp(plan, items[..n], keys);
      SizesSnoc(plan, items[..n], items[n], keys);
      assert items[..n] + [items[n]] == items;
    }
  }

  /** Together the groups hold every item, and each once. */
  lemma GroupsAddUp(plan: Plan, items: seq<Item<Point>>)
    ensures GroupSizes(plan, items, KeysOf(plan, items)) == |items|
  {
    KeysAreDistinct(plan, items);
    SizesAddUp(plan, items, KeysOf(plan, items));
  }
}
