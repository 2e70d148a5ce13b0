/** The per-key destination of leaf grouping (ensureScope in
    exporter/awskinesisexporter/partition_grouping.go): children keep the resource and scope they
    came from, found again by their origin's position. */
module Buckets {
  import opened Sequences
  import opened Signals

  /** `rs` and `ss` say where the copy of an origin resource, or of an origin scope inside it, is. */
  datatype Bucket<T> = Bucket(out: Tree<T>, rs: map<nat, nat>, ss: map<(nat, nat), nat>)

  function Empty<T>(): Bucket<T> {
    Bucket([], map[], map[])
  }

  /** Nothing of resource `i` or later is in the bucket. */
  ghost predicate Between<T>(b: Bucket<T>, i: nat) {
    && (forall a :: a in b.rs ==> a < i)
    && (forall k :: k in b.ss ==> k.0 in b.rs)
  }

  /** Of resource `i` only scopes before `j` are in the bucket; its copy is the last one. */
  ghost predicate OnResource<T>(b: Bucket<T>, i: nat, j: nat) {
    && (forall a :: a in b.rs ==> a <= i)
    && (forall k :: k in b.ss ==> k.0 in b.rs && (k.0 == i ==> k.1 < j))
    && (i in b.rs ==> b.out != [] && b.rs[i] == |b.out| - 1)
  }

  /** As above, and the copy of scope `j`, if there is one, is the last of its resource. */
  ghost predicate OnScope<T>(b: Bucket<T>, i: nat, j: nat, s: ScopeInfo) {
    && (forall a :: a in b.rs ==> a <= i)
    && (forall k :: k in b.ss ==> k.0 in b.rs && (k.0 == i ==> k.1 <= j))
    && (i in b.rs ==> b.out != [] && b.rs[i] == |b.out| - 1)
    && ((i, j) in b.ss ==> LastScopeIs(b, i, j, s))
  }

  ghost predicate LastScopeIs<T>(b: Bucket<T>, i: nat, j: nat, s: ScopeInfo)
    requires (i, j) in b.ss
  {
    && b.out != []
    && var ss := b.out[|b.out| - 1].scopes;
      ss != [] && b.ss[(i, j)] == |ss| - 1 && ss[|ss| - 1].info == s
  }

  lemma Moves<T>(b: Bucket<T>, i: nat, j: nat, s: ScopeInfo)
    ensures Between(b, i) ==> OnResource(b, i, 0)
    ensures OnResource(b, i, j) ==> OnScope(b, i, j, s)
    ensures OnScope(b, i, j, s) ==> OnResource(b, i, j + 1)
    ensures OnResource(b, i, j) ==> Between(b, i + 1)
  {
  }

  /** The copies of resource `i` and its scope `j`, made if they are not there yet. */
  method EnsureScope<T>(b: Bucket<T>, i: nat, j: nat, r: ResourceInfo, s: ScopeInfo) returns (b': Bucket<T>)
    requires OnScope(b, i, j, s)
    ensures OnScope(b', i, j, s) && i in b'.rs && (i, j) in b'.ss
    ensures i !in b.rs ==> b'.out == b.out + [Resource(r, [Scope(s, [])])]
    ensures i in b.rs && (i, j) !in b.ss ==> b'.out == WithScope(b.out, s)
    ensures (i, j) in b.ss ==> b' == b
    ensures b'.ss.Keys == b.ss.Keys + {(i, j)}
  {
    b' := b;
    if i !in b'.rs {
      b' := b'.(out := b'.out + [Resource(r, [])], rs := b'.rs[i := |b'.out|]);
    }
    if (i, j) !in b'.ss {
      var at := b'.rs[i];
      var scopes := b'.out[at].scopes;
      b' := b'.(out := b'.out[at := b'.out[at].(scopes := scopes + [Scope(s, [])])], ss := b'.ss[(i, j) := |scopes|]);
      if i !in b.rs {
        assert scopes + [Scope(s, [])] == [Scope(s, [])];
        assert b'.out == b.out + [Resource(r, [Scope(s, [])])];
      }
    }
  }

  // ------------------------------------------------------------ growing the last branch

  function WithScope<T>(out: Tree<T>, s: ScopeInfo): Tree<T>
    requires out != []
  {
    var n := |out| - 1;
    out[n := out[n].(scopes := out[n].scopes + [Scope(s, [])])]
  }

  /** The tree with `child` added to scope `sc` of resource `at`, and that resource's info replaced. */
  function AppendAt<T>(out: Tree<T>, at: nat, sc: nat, child: T, info: ResourceInfo): Tree<T>
    requires at < |out| && sc < |out[at].scopes|
  {
    var ss := out[at].scopes;
    out[at := Resource(info, ss[sc := ss[sc].(children := ss[sc].children + [child])])]
  }

  /** The same, at the very last scope of the last resource. */
  function WithChild<T>(out: Tree<T>, child: T, info: ResourceInfo): Tree<T>
    requires out != [] && out[|out| - 1].scopes != []
  {
    AppendAt(out, |out| - 1, |out[|out| - 1].scopes| - 1, child, info)
  }

  lemma FlatLast<T>(out: Tree<T>)
    requires out != []
    ensures var n := |out| - 1; Flat(out) == Flat(out[..n]) + ScopesItems(out[n].info, out[n].scopes)
  {
  }

  lemma ScopesLast<T>(info: ResourceInfo, ss: seq<Scope<T>>)
    requires ss != []
    ensures var m := |ss| - 1; ScopesItems(info, ss) == ScopesItems(info, ss[..m]) + ScopeItems(info, ss[m])
  {
  }

  lemma ScopeItemsGrow<T>(info: ResourceInfo, s: Scope<T>, child: T)
    ensures ScopeItems(info, s.(children := s.children + [child])) == ScopeItems(info, s) + [Item(info, s.info, child)]
  {
  }

  lemma ScopesGrow<T>(info: ResourceInfo, ss: seq<Scope<T>>, child: T)
    requires ss != []
    ensures var m := |ss| - 1; var grown := ss[m := ss[m].(children := ss[m].children + [child])];
      ScopesItems(info, grown) == ScopesItems(info, ss) + [Item(info, ss[m].info, child)]
  {
    var m := |ss| - 1;
    var last := ss[m].(children := ss[m].children + [child]);
    assert ss[m := last] == ss[..m] + [last];
    ScopesSnoc(info, ss[..m], last);
    ScopeItemsGrow(info, ss[m], child);
    ScopesLast(info, ss);
    ConcatAssociates(ScopesItems(info, ss[..m]), ScopeItems(info, ss[m]), [Item(info, ss[m].info, child)]);
  }

  /** An empty scope or resource adds nothing to the flattened batch. */
  lemma FlatWithScope<T>(out: Tree<T>, s: ScopeInfo)
    requires out != []
    ensures Flat(WithScope(out, s)) == Flat(out)
  {
    var n := |out| - 1;
    var r := out[n].(scopes := out[n].scopes + [Scope(s, [])]);
    assert out[n := r] == out[..n] + [r];
    FlatSnoc(out[..n], r);
    ScopesSnoc(out[n].info, out[n].scopes, Scope(s, []));
    assert ScopesItems(r.info, r.scopes) == ScopesItems(out[n].info, out[n].scopes);
  }

  lemma FlatNewResource<T>(out: Tree<T>, r: ResourceInfo, s: ScopeInfo)
    ensures Flat(out + [Resource(r, [Scope(s, [])])]) == Flat(out)
  {
    var copy: Resource<T> := Resource(r, [Scope(s, [])]);
    FlatSnoc(out, copy);
    ScopesLast(r, copy.scopes);
    assert copy.scopes[..0] == [];
  }

  /** A child added under an unchanged resource info goes to the end of the flattened batch. */
  lemma FlatWithChild<T>(out: Tree<T>, child: T)
    requires out != [] && out[|out| - 1].scopes != []
    ensures var last := out[|out| - 1]; var s := last.scopes[|last.scopes| - 1].info;
      Flat(WithChild(out, child, last.info)) == Flat(out) + [Item(last.info, s, child)]
  {
    var n := |out| - 1;
    var r := WithChild(out, child, out[n].info)[n];
    assert WithChild(out, child, out[n].info) == out[..n] + [r];
    FlatSnoc(out[..n], r);
    FlatLast(out);
    ScopesGrow(out[n].info, out[n].scopes, child);
    var ss := out[n].scopes;
    ConcatAssociates(Flat(out[..n]), ScopesItems(out[n].info, ss), [Item(out[n].info, ss[|ss| - 1].info, child)]);
  }

  function WithInfo<T>(out: Tree<T>, info: ResourceInfo): Tree<T>
    requires out != []
  {
    var n := |out| - 1;
    out[n := out[n].(info := info)]
  }

  /** Nothing travels under an empty resource, so its attributes may change unnoticed. */
  lemma FlatWithInfo<T>(out: Tree<T>, info: ResourceInfo)
    requires out != [] && (out[|out| - 1].info == info || Count(out[|out| - 1].scopes) == 0)
    ensures Flat(WithInfo(out, info)) == Flat(out)
  {
    var n := |out| - 1;
    var r := out[n].(info := info);
    assert out[n := r] == out[..n] + [r];
    FlatSnoc(out[..n], r);
    FlatLast(out);
    CountIsLength(out[n].info, out[n].scopes);
    CountIsLength(info, out[n].scopes);
  }

  lemma ChildUnderInfo<T>(out: Tree<T>, child: T, info: ResourceInfo)
    requires out != [] && out[|out| - 1].scopes != []
    requires out[|out| - 1].info == info || Count(out[|out| - 1].scopes) == 0
    ensures var last := out[|out| - 1]; var s := last.scopes[|last.scopes| - 1].info;
      Flat(WithChild(out, child, info)) == Flat(out) + [Item(info, s, child)]
  {
    FlatWithInfo(out, info);
    FlatWithChild(WithInfo(out, info), child);
    assert WithChild(WithInfo(out, info), child, info) == WithChild(out, child, info);
  }

  lemma EnsureScopeFlat<T>(b: Bucket<T>, b': Bucket<T>, i: nat, j: nat, r: ResourceInfo, s: ScopeInfo)
    requires OnScope(b, i, j, s)
    requires i !in b.rs ==> b'.out == b.out + [Resource(r, [Scope(s, [])])]
    requires i in b.rs && (i, j) !in b.ss ==> b'.out == WithScope(b.out, s)
    requires (i, j) in b.ss ==> b' == b
    ensures Flat(b'.out) == Flat(b.out)
  {
    if i !in b.rs {
      FlatNewResource(b.out, r, s);
    } else if (i, j) !in b.ss {
      FlatWithScope(b.out, s);
    }
  }
}
