/** The signal adapters behind the shared pipeline: tracesCodec, logsCodec and metricsCodec
    (exporter/awskinesisexporter/signal_traces.go, signal_logs.go, signal_metrics.go). */
module Pipelines {
  import opened Sequences
  import opened Signals
  import opened SplitHalf
  import opened Truncate
  import opened Oversize
  import opened Repacking
  import opened Config

  function Ceiling(cfg: Config): nat {
    if cfg.maxAttributeValueBytes < 0 then 0 else cfg.maxAttributeValueBytes
  }

  /** Spans or log records: a leaf is told apart as it would be after truncation, so that a
      truncated copy is still the same leaf. */
  function PointPipeline(cfg: Config, marshal: Tree<Point> -> Option<Bytes>, compress: Bytes -> Option<Bytes>)
    : Pipeline<Tree<Point>, Item<Point>> {
    var max := Ceiling(cfg);
    Pipeline(cfg, marshal, compress,
      (t: Tree<Point>) => Halves(t),
      Some((t: Tree<Point>, limit: int) =>
        (TrimTree(t, (p: Point) => TrimPoint(p, max), max), TreeCuts(t, (p: Point) => PointCuts(p, max), max))),
      (t: Tree<Point>) => PointLeaves(t, max))
  }

  function PointLeaves(t: Tree<Point>, max: nat): (leaves: seq<Item<Point>>)
    ensures |leaves| == |Flat(t)|
  {
    TrimItems(Flat(t), (p: Point) => TrimPoint(p, max), max)
  }

  function MetricLeaves(t: Tree<Metric>, max: nat): (leaves: seq<PointItem>)
    ensures |leaves| == |FlatPoints(t)|
  {
    TrimPointItems(FlatPoints(t), max)
  }

  function MetricPipeline(cfg: Config, marshal: Tree<Metric> -> Option<Bytes>, compress: Bytes -> Option<Bytes>)
    : Pipeline<Tree<Metric>, PointItem> {
    var max := Ceiling(cfg);
    Pipeline(cfg, marshal, compress,
      (t: Tree<Metric>) => MetricHalves(t),
      Some((t: Tree<Metric>, limit: int) =>
        (TrimTree(t, (m: Metric) => TrimMetric(m, max), max), TreeCuts(t, (m: Metric) => MetricCuts(m, max), max))),
      (t: Tree<Metric>) => MetricLeaves(t, max))
  }

  // ------------------------------------------------------------ traces and logs

  lemma PointLeavesSplit(t: Tree<Point>, max: nat)
    requires Halves(t).Some?
    ensures PointLeaves(Halves(t).value.0, max) + PointLeaves(Halves(t).value.1, max) == PointLeaves(t, max)
  {
    HalvesConserve(t);
    var (a, b) := Halves(t).value;
    TrimItemsConcat(Flat(a), Flat(b), (p: Point) => TrimPoint(p, max), max);
  }

  lemma PointLeavesTrim(t: Tree<Point>, max: nat)
    ensures PointLeaves(TrimTree(t, (p: Point) => TrimPoint(p, max), max), max) == PointLeaves(t, max)
  {
    var trim := (p: Point) => TrimPoint(p, max);
    TrimFlat(t, trim, max);
    var once := TrimItems(Flat(t), trim, max);
    forall n | 0 <= n < |once|
      ensures TrimItem(once[n], trim, max) == once[n]
    {
      ClampTwice(Flat(t)[n].resource.attrs, max);
      ClampTwice(Flat(t)[n].scope.attrs, max);
      TrimPointTwice(Flat(t)[n].child, max);
    }
  }

  lemma DepthOfTrim<T>(t: Tree<T>, trim: T -> T, max: nat)
    ensures Depth(TrimTree(t, trim, max)) == Depth(t)
  {
    var t' := TrimTree(t, trim, max);
    forall i | 0 <= i < |t|
      ensures Count(t'[i].scopes) == Count(t[i].scopes)
    {
      TrimScopesItems(t[i].info, t[i].scopes, trim, max);
    }
    assert Map(t', (r: Resource<T>) => Count(r.scopes)) == Map(t, (r: Resource<T>) => Count(r.scopes));
  }

  lemma PointPipelineLawful(cfg: Config, marshal: Tree<Point> -> Option<Bytes>, compress: Bytes -> Option<Bytes>)
    ensures Lawful(PointPipeline(cfg, marshal, compress))
    ensures Measures(PointPipeline(cfg, marshal, compress), (t: Tree<Point>) => Depth(t))
  {
    var x := PointPipeline(cfg, marshal, compress);
    var max := Ceiling(cfg);
    forall t: Tree<Point> | x.split(t).Some?
      ensures x.leaves(x.split(t).value.0) + x.leaves(x.split(t).value.1) == x.leaves(t)
      ensures Depth(x.split(t).value.0) < Depth(t) && Depth(x.split(t).value.1) < Depth(t)
    {
      PointLeavesSplit(t, max);
      HalvesShallower(t);
    }
    forall t: Tree<Point>
      ensures x.leaves(Truncated(x, t)) == x.leaves(t) && Depth(Truncated(x, t)) == Depth(t)
    {
      PointLeavesTrim(t, max);
      DepthOfTrim(t, (p: Point) => TrimPoint(p, max), max);
    }
  }

  // ------------------------------------------------------------ metrics

  lemma MetricLeavesSplit(t: Tree<Metric>, max: nat)
    requires MetricHalves(t).Some?
    ensures MetricLeaves(MetricHalves(t).value.0, max) + MetricLeaves(MetricHalves(t).value.1, max) == MetricLeaves(t, max)
  {
    MetricHalvesConserve(t);
    var (a, b) := MetricHalves(t).value;
    TrimPointItemsConcat(FlatPoints(a), FlatPoints(b), max);
  }

  lemma MetricLeavesTrim(t: Tree<Metric>, max: nat)
    ensures MetricLeaves(TrimTree(t, (m: Metric) => TrimMetric(m, max), max), max) == MetricLeaves(t, max)
  {
    TrimFlat(t, (m: Metric) => TrimMetric(m, max), max);
    TrimExpand(Flat(t), max);
    var once := TrimPointItems(FlatPoints(t), max);
    forall n | 0 <= n < |once|
      ensures TrimPointItem(once[n], max) == once[n]
    {
      ClampTwice(FlatPoints(t)[n].resource.attrs, max);
      ClampTwice(FlatPoints(t)[n].scope.attrs, max);
      TrimPointTwice(FlatPoints(t)[n].point, max);
    }
  }

  lemma MetricDepthOfTrim(t: Tree<Metric>, max: nat)
    ensures MetricDepth(TrimTree(t, (m: Metric) => TrimMetric(m, max), max)) == MetricDepth(t)
  {
    var trim := (m: Metric) => TrimMetric(m, max);
    DepthOfTrim(t, trim, max);
    TrimFlat(t, trim, max);
    var items, trimmed := Flat(t), Flat(TrimTree(t, trim, max));
    assert Map(trimmed, (it: Item<Metric>) => |Points(it.child)|) == Map(items, (it: Item<Metric>) => |Points(it.child)|);
  }

  lemma MetricPipelineLawful(cfg: Config, marshal: Tree<Metric> -> Option<Bytes>, compress: Bytes -> Option<Bytes>)
    ensures Lawful(MetricPipeline(cfg, marshal, compress))
    ensures Measures(MetricPipeline(cfg, marshal, compress), (t: Tree<Metric>) => MetricDepth(t))
  {
    var x := MetricPipeline(cfg, marshal, compress);
    var max := Ceiling(cfg);
    forall t: Tree<Metric> | x.split(t).Some?
      ensures x.leaves(x.split(t).value.0) + x.leaves(x.split(t).value.1) == x.leaves(t)
      ensures MetricDepth(x.split(t).value.0) < MetricDepth(t) && MetricDepth(x.split(t).value.1) < MetricDepth(t)
    {
      MetricLeavesSplit(t, max);
      MetricHalvesShallower(t);
    }
    forall t: Tree<Metric>
      ensures x.leaves(Truncated(x, t)) == x.leaves(t) && MetricDepth(Truncated(x, t)) == MetricDepth(t)
    {
      MetricLeavesTrim(t, max);
      MetricDepthOfTrim(t, max);
    }
  }

  /** A truncation reports no cut exactly when it changed nothing, so passing the batch on as it was,
      as the chain then does, loses no work, and otherwise there is something to carry on. */
  lemma PointsUncut(t: Tree<Point>, max: nat)
    ensures TreeCuts(t, (p: Point) => PointCuts(p, max), max) == 0 <==> TrimTree(t, (p: Point) => TrimPoint(p, max), max) == t
  {
    var trim, cuts := (p: Point) => TrimPoint(p, max), (p: Point) => PointCuts(p, max);
    forall p: Point
      ensures cuts(p) == 0 <==> trim(p) == p
    {
      if PointCuts(p, max) == 0 {
        UncutPoint(p, max);
      }
      if TrimPoint(p, max) == p {
        SamePointUncut(p, max);
      }
    }
    if TreeCuts(t, cuts, max) == 0 {
      UncutTree(t, trim, cuts, max);
    }
    if TrimTree(t, trim, max) == t {
      SameTreeUncut(t, trim, cuts, max);
    }
  }

  lemma MetricsUncut(t: Tree<Metric>, max: nat)
    ensures TreeCuts(t, (m: Metric) => MetricCuts(m, max), max) == 0 <==> TrimTree(t, (m: Metric) => TrimMetric(m, max), max) == t
  {
    var trim, cuts := (m: Metric) => TrimMetric(m, max), (m: Metric) => MetricCuts(m, max);
    forall m: Metric
      ensures cuts(m) == 0 <==> trim(m) == m
    {
      if MetricCuts(m, max) == 0 {
        UncutMetric(m, max);
      }
      if TrimMetric(m, max) == m {
        SameMetricUncut(m, max);
      }
    }
    if TreeCuts(t, cuts, max) == 0 {
      UncutTree(t, trim, cuts, max);
    }
    if TrimTree(t, trim, max) == t {
      SameTreeUncut(t, trim, cuts, max);
    }
  }

  /** A truncated batch has no cut left in it. */
  lemma TrimmedPointsUncut(t: Tree<Point>, max: nat)
    ensures TreeCuts(TrimTree(t, (p: Point) => TrimPoint(p, max), max), (p: Point) => PointCuts(p, max), max) == 0
  {
    var trim := (p: Point) => TrimPoint(p, max);
    forall p: Point ensures trim(trim(p)) == trim(p) {
      TrimPointTwice(p, max);
    }
    TrimTreeTwice(t, trim, max);
    PointsUncut(TrimTree(t, trim, max), max);
  }

  lemma TrimmedMetricsUncut(t: Tree<Metric>, max: nat)
    ensures TreeCuts(TrimTree(t, (m: Metric) => TrimMetric(m, max), max), (m: Metric) => MetricCuts(m, max), max) == 0
  {
    var trim := (m: Metric) => TrimMetric(m, max);
    forall m: Metric ensures trim(trim(m)) == trim(m) {
      TrimMetricTwice(m, max);
    }
    TrimTreeTwice(t, trim, max);
    MetricsUncut(TrimTree(t, trim, max), max);
  }

  // ------------------------------------------------------------ truncation carried on

  /** Spans or records: when truncation comes first, reports a cut and leaves something that encodes,
      the pieces hold exactly the truncated batch, as it is. */
  lemma PointsTruncationCarriedOn(cfg: Config, marshal: Tree<Point> -> Option<Bytes>, compress: Bytes -> Option<Bytes>, t: Tree<Point>)
    requires var x, max := PointPipeline(cfg, marshal, compress), Ceiling(cfg);
      var trimmed := TrimTree(t, (p: Point) => TrimPoint(p, max), max);
      && Oversized(x, Some(t)) && trimmed != t
      && (TryEncode(x, trimmed).Failed? ==> Flat(t) == [])
    requires cfg.policies != [] && cfg.policies[0] == "truncate_attribute_values"
    ensures var x, max := PointPipeline(cfg, marshal, compress), Ceiling(cfg);
      Contents(Chain(x, t), (b: Tree<Point>) => Flat(b)) == Flat(TrimTree(t, (p: Point) => TrimPoint(p, max), max))
  {
    var x, max := PointPipeline(cfg, marshal, compress), Ceiling(cfg);
    var trim, cuts := (p: Point) => TrimPoint(p, max), (p: Point) => PointCuts(p, max);
    forall b: Tree<Point> | x.split(b).Some?
      ensures Flat(x.split(b).value.0) + Flat(x.split(b).value.1) == Flat(b)
    {
      HalvesConserve(b);
    }
    PointsUncut(t, max);
    TrimmedPointsUncut(t, max);
    TrimFlat(t, trim, max);
    TruncationCarriedOn(x, t, (b: Tree<Point>) => Flat(b), TrimTree(t, trim, max), TreeCuts(t, cuts, max));
  }

  /** The same for datapoints. */
  lemma MetricsTruncationCarriedOn(cfg: Config, marshal: Tree<Metric> -> Option<Bytes>, compress: Bytes -> Option<Bytes>, t: Tree<Metric>)
    requires var x, max := MetricPipeline(cfg, marshal, compress), Ceiling(cfg);
      var trimmed := TrimTree(t, (m: Metric) => TrimMetric(m, max), max);
      && Oversized(x, Some(t)) && trimmed != t
      && (TryEncode(x, trimmed).Failed? ==> FlatPoints(t) == [])
    requires cfg.policies != [] && cfg.policies[0] == "truncate_attribute_values"
    ensures var x, max := MetricPipeline(cfg, marshal, compress), Ceiling(cfg);
      Contents(Chain(x, t), (b: Tree<Metric>) => FlatPoints(b)) == FlatPoints(TrimTree(t, (m: Metric) => TrimMetric(m, max), max))
  {
    var x, max := MetricPipeline(cfg, marshal, compress), Ceiling(cfg);
    var trim, cuts := (m: Metric) => TrimMetric(m, max), (m: Metric) => MetricCuts(m, max);
    forall b: Tree<Metric> | x.split(b).Some?
      ensures FlatPoints(x.split(b).value.0) + FlatPoints(x.split(b).value.1) == FlatPoints(b)
    {
      MetricHalvesConserve(b);
    }
    MetricsUncut(t, max);
    TrimmedMetricsUncut(t, max);
    TrimFlat(t, trim, max);
    TrimExpand(Flat(t), max);
    TruncationCarriedOn(x, t, (b: Tree<Metric>) => FlatPoints(b), TrimTree(t, trim, max), TreeCuts(t, cuts, max));
  }

  // ------------------------------------------------------------ what splitting can save

  /** Traces and logs: if encoding never fails, the chain ends in split_half and max_attempts
      exceeds ceil(log2 resources) + ceil(log2 most leaves of a resource), nothing is dropped for
      want of attempts, and every dropped piece is one leaf at most, too big all by itself. */
  lemma PointsDroppedOnlyIfHopeless(cfg: Config, marshal: Tree<Point> -> Option<Bytes>, compress: Bytes -> Option<Bytes>,
                                    t: Tree<Point>, i: nat)
    requires var x := PointPipeline(cfg, marshal, compress);
      && (forall c: Tree<Point> :: !TryEncode(x, c).Failed?)
      && i < |Chain(x, t)| && Chain(x, t)[i].Dropped?
    requires SPLIT_HALF in cfg.policies && REJECT !in cfg.policies
    requires cfg.maxAttempts > CeilLog2(|t|) + CeilLog2(Widest(t))
    ensures var x := PointPipeline(cfg, marshal, compress); var p := Chain(x, t)[i];
      p.reason == IRREDUCIBLE && |Flat(p.batch)| <= 1 && TryEncode(x, p.batch).TooBig?
  {
    var x := PointPipeline(cfg, marshal, compress);
    PointPipelineLawful(cfg, marshal, compress);
    OnlyHopelessDropped(x, t, (b: Tree<Point>) => Depth(b), i);
    IndivisibleIff(Chain(x, t)[i].batch);
  }

  /** Metrics: the same with a third level, the datapoints of a metric. */
  lemma MetricsDroppedOnlyIfHopeless(cfg: Config, marshal: Tree<Metric> -> Option<Bytes>, compress: Bytes -> Option<Bytes>,
                                     t: Tree<Metric>, i: nat)
    requires var x := MetricPipeline(cfg, marshal, compress);
      && (forall c: Tree<Metric> :: !TryEncode(x, c).Failed?)
      && i < |Chain(x, t)| && Chain(x, t)[i].Dropped?
    requires SPLIT_HALF in cfg.policies && REJECT !in cfg.policies
    requires cfg.maxAttempts > CeilLog2(|t|) + CeilLog2(Widest(t)) + CeilLog2(MostPoints(Flat(t)))
    ensures var x := MetricPipeline(cfg, marshal, compress); var p := Chain(x, t)[i];
      p.reason == IRREDUCIBLE && |FlatPoints(p.batch)| <= 1 && TryEncode(x, p.batch).TooBig?
  {
    var x := MetricPipeline(cfg, marshal, compress);
    MetricPipelineLawful(cfg, marshal, compress);
    OnlyHopelessDropped(x, t, (b: Tree<Metric>) => MetricDepth(b), i);
    MetricIndivisibleIff(Chain(x, t)[i].batch);
  }

  /** Truncation first, then halving, with enough attempts and an encoder that never fails: a leaf that
      is dropped is too big even truncated and alone. */
  lemma PointsDroppedOnlyTrimmed(cfg: Config, marshal: Tree<Point> -> Option<Bytes>, compress: Bytes -> Option<Bytes>,
                                 t: Tree<Point>, i: nat)
    requires var x := PointPipeline(cfg, marshal, compress);
      && (forall c: Tree<Point> :: !TryEncode(x, c).Failed?)
      && i < |Chain(x, t)| && Chain(x, t)[i].Dropped?
    requires cfg.policies == ["truncate_attribute_values", "split_half"]
    requires cfg.maxAttempts > CeilLog2(|t|) + CeilLog2(Widest(t))
    ensures var x, max := PointPipeline(cfg, marshal, compress), Ceiling(cfg); var p := Chain(x, t)[i];
      && p.reason == IRREDUCIBLE && |Flat(p.batch)| <= 1 && TryEncode(x, p.batch).TooBig?
      && forall leaf :: leaf in Flat(p.batch) ==> leaf in Flat(TrimTree(t, (q: Point) => TrimPoint(q, max), max))
  {
    var x, max := PointPipeline(cfg, marshal, compress), Ceiling(cfg);
    var trimmed := TrimTree(t, (q: Point) => TrimPoint(q, max), max);
    PointsDroppedOnlyIfHopeless(cfg, marshal, compress, t, i);
    DroppedIsOversized(x, t, i);
    if trimmed != t {
      PointsTruncationCarriedOn(cfg, marshal, compress, t);
    } else {
      PointsCarriedOn(cfg, marshal, compress, t);
    }
    forall leaf | leaf in Flat(Chain(x, t)[i].batch) ensures leaf in Flat(trimmed) {
      ContentsMember(Chain(x, t), (b: Tree<Point>) => Flat(b), i, leaf);
    }
  }

  lemma DroppedIsOversized<T, K>(x: Pipeline<T, K>, t: T, i: nat)
    requires i < |Chain(x, t)| && Chain(x, t)[i].Dropped? && !TryEncode(x, t).Failed?
    ensures TryEncode(x, t).TooBig?
  {
  }

  /** With nothing to truncate, the pieces hold the batch as it came. */
  lemma PointsCarriedOn(cfg: Config, marshal: Tree<Point> -> Option<Bytes>, compress: Bytes -> Option<Bytes>, t: Tree<Point>)
    requires TrimTree(t, (p: Point) => TrimPoint(p, Ceiling(cfg)), Ceiling(cfg)) == t
    ensures Contents(Chain(PointPipeline(cfg, marshal, compress), t), (b: Tree<Point>) => Flat(b)) == Flat(t)
  {
    var x := PointPipeline(cfg, marshal, compress);
    forall b: Tree<Point> | x.split(b).Some?
      ensures Flat(x.split(b).value.0) + Flat(x.split(b).value.1) == Flat(b)
    {
      HalvesConserve(b);
    }
    PointsUncut(t, Ceiling(cfg));
    PristineCarriedOn(x, t, (b: Tree<Point>) => Flat(b));
  }

  lemma MetricsCarriedOn(cfg: Config, marshal: Tree<Metric> -> Option<Bytes>, compress: Bytes -> Option<Bytes>, t: Tree<Metric>)
    requires TrimTree(t, (m: Metric) => TrimMetric(m, Ceiling(cfg)), Ceiling(cfg)) == t
    ensures Contents(Chain(MetricPipeline(cfg, marshal, compress), t), (b: Tree<Metric>) => FlatPoints(b)) == FlatPoints(t)
  {
    var x := MetricPipeline(cfg, marshal, compress);
    forall b: Tree<Metric> | x.split(b).Some?
      ensures FlatPoints(x.split(b).value.0) + FlatPoints(x.split(b).value.1) == FlatPoints(b)
    {
      MetricHalvesConserve(b);
    }
    MetricsUncut(t, Ceiling(cfg));
    PristineCarriedOn(x, t, (b: Tree<Metric>) => FlatPoints(b));
  }

  /** The same for datapoints. */
  lemma MetricsDroppedOnlyTrimmed(cfg: Config, marshal: Tree<Metric> -> Option<Bytes>, compress: Bytes -> Option<Bytes>,
                                  t: Tree<Metric>, i: nat)
    requires var x := MetricPipeline(cfg, marshal, compress);
      && (forall c: Tree<Metric> :: !TryEncode(x, c).Failed?)
      && i < |Chain(x, t)| && Chain(x, t)[i].Dropped?
    requires cfg.policies == ["truncate_attribute_values", "split_half"]
    requires cfg.maxAttempts > CeilLog2(|t|) + CeilLog2(Widest(t)) + CeilLog2(MostPoints(Flat(t)))
    ensures var x, max := MetricPipeline(cfg, marshal, compress), Ceiling(cfg); var p := Chain(x, t)[i];
      && p.reason == IRREDUCIBLE && |FlatPoints(p.batch)| <= 1 && TryEncode(x, p.batch).TooBig?
      && forall leaf :: leaf in FlatPoints(p.batch) ==> leaf in FlatPoints(TrimTree(t, (m: Metric) => TrimMetric(m, max), max))
  {
    var x, max := MetricPipeline(cfg, marshal, compress), Ceiling(cfg);
    var trimmed := TrimTree(t, (m: Metric) => TrimMetric(m, max), max);
    MetricsDroppedOnlyIfHopeless(cfg, marshal, compress, t, i);
    DroppedIsOversized(x, t, i);
    if trimmed != t {
      MetricsTruncationCarriedOn(cfg, marshal, compress, t);
    } else {
      MetricsCarriedOn(cfg, marshal, compress, t);
    }
    forall leaf | leaf in FlatPoints(Chain(x, t)[i].batch) ensures leaf in FlatPoints(trimmed) {
      ContentsMember(Chain(x, t), (b: Tree<Metric>) => FlatPoints(b), i, leaf);
    }
  }
}
