/** One export call end to end: emit and partitionKey in exporter/awskinesisexporter/record.go, over
    the groupings and pipelines of each signal. */
module Export {
  import opened Sequences
  import opened Signals
  import opened KeyPlan
  import opened Config
  import opened Oversize
  import opened Record
  import opened Chunking
  import opened Pipelines
  import opened LeafGrouping
  import RG = ResourceGrouping
  import MG = MetricGrouping
  import MP = MetricPartition

  /** The key functions: xxhash printed as 16 hex digits, and a fresh UUID per record. */
  datatype Keys = Keys(hash: string -> string, uuid: nat -> string)

  ghost predicate KeyLengths(keys: Keys) {
    (forall s :: |keys.hash(s)| == 16) && forall n :: |keys.uuid(n)| == 36
  }

  function PartitionKey(cfg: Config, keys: Keys, tag: string, n: nat): string {
    if cfg.TagHash() then keys.hash(tag) else keys.uuid(n)
  }

  // ------------------------------------------------------------ packing the groups

  /** The pieces of all groups, group after group. */
  function AllPieces<T, K>(x: Pipeline<Tree<T>, K>, groups: seq<Tagged<T>>): seq<Piece<Tree<T>>> {
    if groups == [] then []
    else AllPieces(x, groups[..|groups| - 1]) + Chain(x, groups[|groups| - 1].batch)
  }

  function Copies(n: nat, tag: string): seq<string> {
    seq(n, _ => tag)
  }

  /** The tag under which each payload goes out. */
  function TagsOf<T, K>(x: Pipeline<Tree<T>, K>, groups: seq<Tagged<T>>): seq<string> {
    if groups == [] then []
    else
      var last := groups[|groups| - 1];
      TagsOf(x, groups[..|groups| - 1]) + Copies(|Payloads(Chain(x, last.batch))|, last.key)
  }

  /** The entries carry these payloads in order, each under the key of its tag. */
  ghost predicate Carries(cfg: Config, keys: Keys, entries: seq<Entry>, payloads: seq<Bytes>, tags: seq<string>) {
    && |entries| == |payloads| == |tags|
    && forall n :: 0 <= n < |entries| ==> entries[n] == Entry(payloads[n], PartitionKey(cfg, keys, tags[n], n))
  }

  /** Under tag_hash the record key is the hash of the tag, so that equal tags share a key; under every
      other strategy each record has the next fresh UUID. */
  lemma KeyByStrategy(cfg: Config, keys: Keys, entries: seq<Entry>, payloads: seq<Bytes>, tags: seq<string>, n: nat, m: nat)
    requires Carries(cfg, keys, entries, payloads, tags) && n < |entries| && m < |entries|
    ensures entries[n].data == payloads[n]
    ensures entries[n].key == if cfg.strategy == "tag_hash" then keys.hash(tags[n]) else keys.uuid(n)
    ensures cfg.strategy == "tag_hash" && tags[n] == tags[m] ==> entries[n].key == entries[m].key
  {
  }

  /** Each payload goes out under the tag of a group whose batch it was packed from. */
  lemma {:induction false} TagIsGroups<T, K>(x: Pipeline<Tree<T>, K>, groups: seq<Tagged<T>>, n: nat) returns (g: nat)
    requires n < |Payloads(AllPieces(x, groups))|
    ensures |TagsOf(x, groups)| == |Payloads(AllPieces(x, groups))| && g < |groups|
    ensures TagsOf(x, groups)[n] == groups[g].key
    ensures Payloads(AllPieces(x, groups))[n] in Payloads(Chain(x, groups[g].batch))
  {
    var init, last := groups[..|groups| - 1], groups[|groups| - 1];
    TagsMatch(x, groups);
    TagsMatch(x, init);
    LastGroup(x, groups, init, last);
    var before, more := Payloads(AllPieces(x, init)), Payloads(Chain(x, last.batch));
    Appended(before, more, TagsOf(x, init), last.key, n);
    if n < |before| {
      g := TagIsGroups(x, init, n);
    } else {
      g := |groups| - 1;
    }
  }

  lemma Appended(before: seq<Bytes>, more: seq<Bytes>, tags: seq<string>, tag: string, n: nat)
    requires |tags| == |before| && n < |before + more|
    ensures var payloads, allTags := before + more, tags + Copies(|more|, tag);
      if n < |before| then payloads[n] == before[n] && allTags[n] == tags[n] else payloads[n] in more && allTags[n] == tag
  {
  }

  lemma LastGroup<T, K>(x: Pipeline<Tree<T>, K>, groups: seq<Tagged<T>>, init: seq<Tagged<T>>, g: Tagged<T>)
    requires groups == init + [g]
    ensures Payloads(AllPieces(x, groups)) == Payloads(AllPieces(x, init)) + Payloads(Chain(x, g.batch))
    ensures TagsOf(x, groups) == TagsOf(x, init) + Copies(|Payloads(Chain(x, g.batch))|, g.key)
  {
    PiecesSnoc(x, init, g, "");
  }

  lemma {:induction false} TagsMatch<T, K>(x: Pipeline<Tree<T>, K>, groups: seq<Tagged<T>>)
    ensures |TagsOf(x, groups)| == |Payloads(AllPieces(x, groups))|
  {
    if groups != [] {
      var init, g := groups[..|groups| - 1], groups[|groups| - 1];
      assert groups == init + [g];
      LastGroup(x, groups, init, g);
      TagsMatch(x, init);
    }
  }

  lemma PiecesSnoc<T, K>(x: Pipeline<Tree<T>, K>, groups: seq<Tagged<T>>, g: Tagged<T>, reason: string)
    ensures AllPieces(x, groups + [g]) == AllPieces(x, groups) + Chain(x, g.batch)
    ensures TagsOf(x, groups + [g]) == TagsOf(x, groups) + Copies(|Payloads(Chain(x, g.batch))|, g.key)
    ensures Payloads(AllPieces(x, groups + [g])) == Payloads(AllPieces(x, groups)) + Payloads(Chain(x, g.batch))
    ensures DroppedFor(x, AllPieces(x, groups + [g]), reason)
      == DroppedFor(x, AllPieces(x, groups), reason) + DroppedFor(x, Chain(x, g.batch), reason)
  {
    assert (groups + [g])[..|groups|] == groups;
    PiecesConcat(x, AllPieces(x, groups), Chain(x, g.batch), reason);
  }

  method AddEntries(cfg: Config, keys: Keys, entries: seq<Entry>, tag: string, payloads: seq<Bytes>,
                    ghost before: seq<Bytes>, ghost tags: seq<string>) returns (out: seq<Entry>)
    requires Carries(cfg, keys, entries, before, tags)
    ensures Carries(cfg, keys, out, before + payloads, tags + Copies(|payloads|, tag))
  {
    out := entries;
    for k := 0 to |payloads|
      invariant |out| == |entries| + k
      invariant forall n :: 0 <= n < |entries| ==> out[n] == entries[n]
      invariant forall n :: |entries| <= n < |out| ==>
        out[n] == Entry(payloads[n - |entries|], PartitionKey(cfg, keys, tag, n))
    {
      out := out + [Entry(payloads[k], PartitionKey(cfg, keys, tag, |out|))];
    }
  }

  /** The drop counters of the call, one addition a reported drop. */
  method RecordDrops(counters: map<string, nat>, drops: seq<Drop>) returns (out: map<string, nat>)
    ensures forall r :: Counter(out, r) == Counter(counters, r) + CountFor(drops, r)
  {
    out := counters;
    for k := 0 to |drops|
      invariant forall r :: Counter(out, r) == Counter(counters, r) + CountFor(drops[..k], r)
    {
      forall r {
        DropsSnoc(drops[..k], drops[k], r);
      }
      assert drops[..k + 1] == drops[..k] + [drops[k]];
      out := out[drops[k].reason := Counter(out, drops[k].reason) + drops[k].count];
    }
    assert drops[..|drops|] == drops;
  }

  function Counter(counters: map<string, nat>, reason: string): nat {
    if reason in counters then counters[reason] else 0
  }

  method Emit<T, K>(client: Client, x: Pipeline<Tree<T>, K>, keys: Keys, groups: seq<Tagged<T>>)
    returns (ok: bool, entries: seq<Entry>, dropped: map<string, nat>, ghost chunks: seq<Chunk>)
    requires Shaped(client.oracle) && x.cfg.maxRecords >= 1
    modifies client
    ensures Carries(x.cfg, keys, entries, Payloads(AllPieces(x, groups)), TagsOf(x, groups))
    ensures forall r :: Counter(dropped, r) == DroppedFor(x, AllPieces(x, groups), r)
    ensures Flushed(client, x.cfg, entries, chunks, |old(client.calls)|)
    ensures ok <==> EndOf(chunks) == |entries| && LastSettled(chunks)
    ensures !ok ==> StoppedFor(client, old(client.checks), entries, chunks)
  {
    entries, dropped := [], map[];
    for g := 0 to |groups|
      invariant Carries(x.cfg, keys, entries, Payloads(AllPieces(x, groups[..g])), TagsOf(x, groups[..g]))
      invariant forall r :: Counter(dropped, r) == DroppedFor(x, AllPieces(x, groups[..g]), r)
      invariant client.calls == old(client.calls) && client.checks == old(client.checks)
    {
      assert groups[..g + 1] == groups[..g] + [groups[g]];
      forall r {
        PiecesSnoc(x, groups[..g], groups[g], r);
      }
      PiecesSnoc(x, groups[..g], groups[g], "");
      var payloads, drops := PackChain(x, groups[g].batch);
      dropped := RecordDrops(dropped, drops);
      entries := AddEntries(x.cfg, keys, entries, groups[g].key, payloads,
        Payloads(AllPieces(x, groups[..g])), TagsOf(x, groups[..g]));
    }
    assert groups[..|groups|] == groups;
    ok, chunks := Flush(client, x.cfg, entries);
  }

  // ------------------------------------------------------------ accounting

  function GroupLeaves<T, K>(x: Pipeline<Tree<T>, K>, groups: seq<Tagged<T>>): nat {
    if groups == [] then 0 else GroupLeaves(x, groups[..|groups| - 1]) + x.Items(groups[|groups| - 1].batch)
  }

  lemma {:induction false} GroupsConserve<T(!new), K>(x: Pipeline<Tree<T>, K>, groups: seq<Tagged<T>>)
    requires Lawful(x)
    ensures |PieceLeaves(x, AllPieces(x, groups))| == GroupLeaves(x, groups)
  {
    if groups != [] {
      var n := |groups| - 1;
      GroupsConserve(x, groups[..n]);
      ChainConserves(x, groups[n].batch);
      PiecesConcat(x, AllPieces(x, groups[..n]), Chain(x, groups[n].batch), "");
    }
  }

  /** Every leaf of every group was either put in a record or counted as dropped. */
  lemma EmitAccounts<T(!new), K>(x: Pipeline<Tree<T>, K>, groups: seq<Tagged<T>>)
    requires Lawful(x)
    ensures ShippedItems(x, AllPieces(x, groups)) + DroppedItems(x, AllPieces(x, groups)) == GroupLeaves(x, groups)
  {
    GroupsConserve(x, groups);
    ItemsAddUp(x, AllPieces(x, groups));
  }

  lemma {:induction false} AllPiecesHonest<T, K>(x: Pipeline<Tree<T>, K>, groups: seq<Tagged<T>>)
    ensures AllHonest(x, AllPieces(x, groups))
  {
    if groups != [] {
      AllPiecesHonest(x, groups[..|groups| - 1]);
      ChainHonest(x, groups[|groups| - 1].batch);
    }
  }

  function SixReasons<T, K>(x: Pipeline<T, K>, pieces: seq<Piece<T>>): nat {
    DroppedFor(x, pieces, MARSHAL_ERROR) + DroppedFor(x, pieces, COMPRESS_ERROR) + DroppedFor(x, pieces, MAX_ATTEMPTS)
    + DroppedFor(x, pieces, IRREDUCIBLE) + DroppedFor(x, pieces, REJECTED) + DroppedFor(x, pieces, EXHAUSTED)
  }

  /** The six counters together are all that was dropped: nothing hides under another label. */
  lemma {:induction false} SixReasonsAreAll<T, K>(x: Pipeline<T, K>, pieces: seq<Piece<T>>)
    requires AllHonest(x, pieces)
    ensures SixReasons(x, pieces) == DroppedItems(x, pieces)
  {
    if pieces != [] {
      SixReasonsAreAll(x, pieces[..|pieces| - 1]);
      assert Honest(x, pieces[|pieces| - 1]);
    }
  }

  /** Every record, key included, is within the record limit. */
  lemma EntriesFit<T, K>(x: Pipeline<Tree<T>, K>, keys: Keys, groups: seq<Tagged<T>>, entries: seq<Entry>)
    requires KeyLengths(keys) && Carries(x.cfg, keys, entries, Payloads(AllPieces(x, groups)), TagsOf(x, groups))
    ensures forall n :: 0 <= n < |entries| ==> entries[n].Size() <= x.cfg.maxRecordSize
  {
    AllPiecesHonest(x, groups);
    PayloadsFit(x, AllPieces(x, groups));
  }

  // ------------------------------------------------------------ grouping, whatever the plan

  lemma {:induction false} NoPlan(items: seq<Item<Point>>)
    ensures Project([], items, "") == items
    ensures forall n :: 0 <= n < |items| ==> KeyOf([], items[n]) == ""
  {
    if items != [] {
      NoPlan(items[..|items| - 1]);
    }
  }

  lemma {:induction false} ResourceKeysCover(plan: Plan, td: Tree<Point>)
    requires ResourceOnly(plan)
    ensures Distinct(RG.ResourceKeys(plan, td))
    ensures forall n :: 0 <= n < |Flat(td)| ==> KeyOf(plan, Flat(td)[n]) in RG.ResourceKeys(plan, td)
  {
    if td != [] {
      var front, last := td[..|td| - 1], td[|td| - 1];
      ResourceKeysCover(plan, front);
      RG.ItemsOfResource(last.info, last.info, last.scopes);
      forall n | 0 <= n < |Flat(td)|
        ensures KeyOf(plan, Flat(td)[n]) in RG.ResourceKeys(plan, td)
      {
        if n < |Flat(front)| {
          assert Flat(td)[n] == Flat(front)[n];
        } else {
          var item := ScopesItems(last.info, last.scopes)[n - |Flat(front)|];
          assert Flat(td)[n] == item;
          ResourceOnlyPlan(plan, last.info.attrs, "", item.child);
        }
      }
    }
  }

  /** One batch a key, each holding exactly the items of its key in order, and every item's key
      among them. */
  ghost predicate Partition(plan: Plan, groups: seq<Tagged<Point>>, items: seq<Item<Point>>) {
    && Distinct(KeysIn(groups))
    && (forall n :: 0 <= n < |items| ==> KeyOf(plan, items[n]) in KeysIn(groups))
    && (forall n :: 0 <= n < |groups| ==> Flat(groups[n].batch) == Project(plan, items, groups[n].key))
  }

  /** The three ways of groupTracesByTags and groupLogsByTags come to the same partition. */
  method GroupByTags(td: Tree<Point>, plan: Plan) returns (groups: seq<Tagged<Point>>)
    ensures Partition(plan, groups, Flat(td))
  {
    if |plan| == 0 {
      NoPlan(Flat(td));
      groups := [Tagged("", td)];
      assert KeysIn(groups)[0] == "";
    } else if !ResourceOnly(plan) {
      groups := GroupByLeaf(td, plan);
      KeysAreDistinct(plan, Flat(td));
    } else {
      groups := RG.GroupByResource(td, plan);
      ResourceKeysCover(plan, td);
      forall n | 0 <= n < |groups|
        ensures Flat(groups[n].batch) == Project(plan, Flat(td), groups[n].key)
      {
        RG.FastPathAgrees(plan, td, groups[n].key);
      }
    }
  }

  lemma {:induction false} LeavesAreSizes(x: Pipeline<Tree<Point>, Item<Point>>, plan: Plan, groups: seq<Tagged<Point>>, items: seq<Item<Point>>)
    requires forall b: Tree<Point> :: x.Items(b) == |Flat(b)|
    requires forall n :: 0 <= n < |groups| ==> Flat(groups[n].batch) == Project(plan, items, groups[n].key)
    ensures GroupLeaves(x, groups) == GroupSizes(plan, items, KeysIn(groups))
  {
    if groups != [] {
      var n := |groups| - 1;
      LeavesAreSizes(x, plan, groups[..n], items);
      assert KeysIn(groups)[..n] == KeysIn(groups[..n]);
      assert x.Items(groups[n].batch) == |Flat(groups[n].batch)|;
    }
  }

  // ------------------------------------------------------------ one export, end to end

  /** What an export of `leaves` leaves has to show: records within the limit, every leaf either in
      a record or in one of the six drop counters, and on success every record acknowledged once. */
  ghost predicate Exported<T(!new), K>(client: Client, x: Pipeline<Tree<T>, K>, groups: seq<Tagged<T>>, leaves: nat,
                                       ok: bool, entries: seq<Entry>, dropped: map<string, nat>, chunks: seq<Chunk>) {
    && (forall n :: 0 <= n < |entries| ==> entries[n].Size() <= x.cfg.maxRecordSize)
    && ShippedItems(x, AllPieces(x, groups)) + DropTotal(dropped) == leaves
    && (ok && TruthfulService(client.oracle) ==> forall e :: 0 <= e < |entries| ==> DeliveredOnce(chunks, e))
  }

  function DropTotal(dropped: map<string, nat>): nat {
    Counter(dropped, MARSHAL_ERROR) + Counter(dropped, COMPRESS_ERROR) + Counter(dropped, MAX_ATTEMPTS)
    + Counter(dropped, IRREDUCIBLE) + Counter(dropped, REJECTED) + Counter(dropped, EXHAUSTED)
  }

  lemma ExportedHolds<T(!new), K>(client: Client, x: Pipeline<Tree<T>, K>, keys: Keys, groups: seq<Tagged<T>>, at: nat,
                                  ok: bool, entries: seq<Entry>, dropped: map<string, nat>, chunks: seq<Chunk>)
    requires Lawful(x) && KeyLengths(keys)
    requires Carries(x.cfg, keys, entries, Payloads(AllPieces(x, groups)), TagsOf(x, groups))
    requires forall r :: Counter(dropped, r) == DroppedFor(x, AllPieces(x, groups), r)
    requires Flushed(client, x.cfg, entries, chunks, at)
    requires ok <==> EndOf(chunks) == |entries| && LastSettled(chunks)
    ensures Exported(client, x, groups, GroupLeaves(x, groups), ok, entries, dropped, chunks)
  {
    EntriesFit(x, keys, groups, entries);
    EmitAccounts(x, groups);
    AllPiecesHonest(x, groups);
    SixReasonsAreAll(x, AllPieces(x, groups));
    if ok && TruthfulService(client.oracle) {
      forall e | 0 <= e < |entries|
        ensures DeliveredOnce(chunks, e)
      {
        FlushDelivers(client.oracle, client.calls, x.cfg, entries, chunks, at, e);
      }
    }
  }

  method ExportPoints(client: Client, cfg: Config, keys: Keys, plan: Plan, marshal: Tree<Point> -> Option<Bytes>,
                      compress: Bytes -> Option<Bytes>, td: Tree<Point>)
    returns (ok: bool, entries: seq<Entry>, dropped: map<string, nat>, groups: seq<Tagged<Point>>, ghost chunks: seq<Chunk>)
    requires Shaped(client.oracle) && KeyLengths(keys) && cfg.maxRecords >= 1
    modifies client
    ensures Partition(plan, groups, Flat(td))
    ensures Exported(client, PointPipeline(cfg, marshal, compress), groups, |Flat(td)|, ok, entries, dropped, chunks)
    ensures !ok ==> StoppedFor(client, old(client.checks), entries, chunks)
    ensures var x := PointPipeline(cfg, marshal, compress);
      Carries(cfg, keys, entries, Payloads(AllPieces(x, groups)), TagsOf(x, groups))
  {
    var x := PointPipeline(cfg, marshal, compress);
    groups := GroupByTags(td, plan);
    ghost var at := |client.calls|;
    ok, entries, dropped, chunks := Emit(client, x, keys, groups);
    PointPipelineLawful(cfg, marshal, compress);
    ExportedHolds(client, x, keys, groups, at, ok, entries, dropped, chunks);
    LeavesAreSizes(x, plan, groups, Flat(td));
    SizesAddUp(plan, Flat(td), KeysIn(groups));
  }

  // ------------------------------------------------------------ metrics

  ghost predicate Keyed(plan: Plan, pts: seq<PointItem>, keys: seq<string>) {
    forall n :: 0 <= n < |pts| ==> MG.PointKey(plan, pts[n]) in keys
  }

  ghost predicate MetricPartition(plan: Plan, groups: seq<Tagged<Metric>>, pts: seq<PointItem>) {
    && Distinct(KeysIn(groups))
    && Keyed(plan, pts, KeysIn(groups))
    && (forall n :: 0 <= n < |groups| ==> FlatPoints(groups[n].batch) == MG.ProjectPoints(plan, pts, groups[n].key))
  }

  lemma {:induction false} NoMetricPlan(pts: seq<PointItem>)
    requires forall n :: 0 <= n < |pts| ==> Shell(pts[n].shell) == pts[n].shell
    ensures MG.ProjectPoints([], pts, "") == pts
    ensures forall n :: 0 <= n < |pts| ==> MG.PointKey([], pts[n]) == ""
  {
    if pts != [] {
      NoMetricPlan(pts[..|pts| - 1]);
    }
  }

  lemma {:induction false} ShellsAreShells(items: seq<Item<Metric>>)
    ensures forall n :: 0 <= n < |Expand(items)| ==> Shell(Expand(items)[n].shell) == Expand(items)[n].shell
  {
    if items != [] {
      ShellsAreShells(items[..|items| - 1]);
    }
  }

  /** The resource of every datapoint is one of the batch's. */
  lemma {:induction false} ExpandFrom(r: ResourceInfo, items: seq<Item<Metric>>)
    requires forall n :: 0 <= n < |items| ==> items[n].resource == r
    ensures forall n :: 0 <= n < |Expand(items)| ==> Expand(items)[n].resource == r
  {
    if items != [] {
      ExpandFrom(r, items[..|items| - 1]);
    }
  }

  lemma PointsOfResource(plan: Plan, r: Resource<Metric>, n: nat)
    requires ResourceOnly(plan) && n < |Expand(ScopesItems(r.info, r.scopes))|
    ensures MG.PointKey(plan, Expand(ScopesItems(r.info, r.scopes))[n]) == RG.ResourceKey(plan, r.info)
  {
    var items := ScopesItems(r.info, r.scopes);
    RG.ItemsOfResource(r.info, r.info, r.scopes);
    ExpandFrom(r.info, items);
    ResourceOnlyPlan(plan, r.info.attrs, Expand(items)[n].shell.name, Expand(items)[n].point);
  }

  lemma FlatPointsLast(md: Tree<Metric>)
    requires md != []
    ensures var front, last := md[..|md| - 1], md[|md| - 1];
      FlatPoints(md) == FlatPoints(front) + Expand(ScopesItems(last.info, last.scopes))
  {
    var front, last := md[..|md| - 1], md[|md| - 1];
    ExpandConcat(Flat(front), ScopesItems(last.info, last.scopes));
  }

  lemma KeyedConcat(plan: Plan, a: seq<PointItem>, b: seq<PointItem>, before: seq<string>, keys: seq<string>)
    requires Keyed(plan, a, before) && Keyed(plan, b, keys) && forall key :: key in before ==> key in keys
    ensures Keyed(plan, a + b, keys)
  {
  }

  lemma LastResourceKeyed(plan: Plan, md: Tree<Metric>)
    requires ResourceOnly(plan) && md != []
    ensures var last := md[|md| - 1]; Keyed(plan, Expand(ScopesItems(last.info, last.scopes)), RG.ResourceKeys(plan, md))
  {
    var last := md[|md| - 1];
    var pts := Expand(ScopesItems(last.info, last.scopes));
    forall n | 0 <= n < |pts|
      ensures MG.PointKey(plan, pts[n]) in RG.ResourceKeys(plan, md)
    {
      PointsOfResource(plan, last, n);
    }
  }

  lemma {:induction false} MetricResourceKeysCover(plan: Plan, md: Tree<Metric>)
    requires ResourceOnly(plan)
    ensures Distinct(RG.ResourceKeys(plan, md)) && Keyed(plan, FlatPoints(md), RG.ResourceKeys(plan, md))
  {
    if md != [] {
      var front, last := md[..|md| - 1], md[|md| - 1];
      MetricResourceKeysCover(plan, front);
      FlatPointsLast(md);
      LastResourceKeyed(plan, md);
      KeyedConcat(plan, FlatPoints(front), Expand(ScopesItems(last.info, last.scopes)),
        RG.ResourceKeys(plan, front), RG.ResourceKeys(plan, md));
    }
  }

  method GroupMetricsByTags(md: Tree<Metric>, plan: Plan) returns (groups: seq<Tagged<Metric>>)
    ensures MetricPartition(plan, groups, FlatPoints(md))
  {
    if |plan| == 0 {
      ShellsAreShells(Flat(md));
      NoMetricPlan(FlatPoints(md));
      groups := [Tagged("", md)];
      assert KeysIn(groups)[0] == "";
    } else if !ResourceOnly(plan) {
      groups := MG.GroupMetricsByLeaf(md, plan);
      MG.FirstSeenMembers(MG.AllKeys(plan, Flat(md)));
      MP.PointKeysListed(plan, Flat(md));
    } else {
      groups := RG.GroupByResource(md, plan);
      MetricResourceKeysCover(plan, md);
      forall n | 0 <= n < |groups|
        ensures FlatPoints(groups[n].batch) == MG.ProjectPoints(plan, FlatPoints(md), groups[n].key)
      {
        MP.MetricFastPathAgrees(plan, md, groups[n].key);
      }
    }
  }

  lemma {:induction false} MetricLeavesAreSizes(x: Pipeline<Tree<Metric>, PointItem>, plan: Plan, groups: seq<Tagged<Metric>>,
                                                pts: seq<PointItem>)
    requires forall b: Tree<Metric> :: x.Items(b) == |FlatPoints(b)|
    requires forall n :: 0 <= n < |groups| ==> FlatPoints(groups[n].batch) == MG.ProjectPoints(plan, pts, groups[n].key)
    ensures GroupLeaves(x, groups) == MP.PointSizes(plan, pts, KeysIn(groups))
  {
    if groups != [] {
      var n := |groups| - 1;
      MetricLeavesAreSizes(x, plan, groups[..n], pts);
      assert KeysIn(groups)[..n] == KeysIn(groups[..n]);
      assert x.Items(groups[n].batch) == |FlatPoints(groups[n].batch)|;
    }
  }

  method ExportMetrics(client: Client, cfg: Config, keys: Keys, plan: Plan, marshal: Tree<Metric> -> Option<Bytes>,
                       compress: Bytes -> Option<Bytes>, md: Tree<Metric>)
    returns (ok: bool, entries: seq<Entry>, dropped: map<string, nat>, groups: seq<Tagged<Metric>>, ghost chunks: seq<Chunk>)
    requires Shaped(client.oracle) && KeyLengths(keys) && cfg.maxRecords >= 1
    modifies client
    ensures MetricPartition(plan, groups, FlatPoints(md))
    ensures Exported(client, MetricPipeline(cfg, marshal, compress), groups, |FlatPoints(md)|, ok, entries, dropped, chunks)
    ensures !ok ==> StoppedFor(client, old(client.checks), entries, chunks)
    ensures var x := MetricPipeline(cfg, marshal, compress);
      Carries(cfg, keys, entries, Payloads(AllPieces(x, groups)), TagsOf(x, groups))
  {
    var x := MetricPipeline(cfg, marshal, compress);
    groups := GroupMetricsByTags(md, plan);
    ghost var at := |client.calls|;
    ok, entries, dropped, chunks := Emit(client, x, keys, groups);
    MetricPipelineLawful(cfg, marshal, compress);
    ExportedHolds(client, x, keys, groups, at, ok, entries, dropped, chunks);
    MetricLeavesAreSizes(x, plan, groups, FlatPoints(md));
    MP.PointSizesAddUp(plan, FlatPoints(md), KeysIn(groups));
  }
}
