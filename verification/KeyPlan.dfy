/** Partition-key plans: exporter/awskinesisexporter/partition.go. */
module KeyPlan {
  import opened Sequences
  import opened Signals
  import Config

  /** One component of a key; `capture` is the compiled regex's first capture, when there is one. */
  datatype Component = Component(source: string, name: string, promote: string, capture: Option<string -> string>)

  type Plan = seq<Component>

  const SEPARATOR: char := '\U{1f}'

  predicate ResourceOnly(plan: Plan) {
    forall i :: 0 <= i < |plan| ==> plan[i].source == Config.RESOURCE
  }

  predicate HasPromotion(plan: Plan) {
    exists i :: 0 <= i < |plan| && plan[i].promote != ""
  }

  function Lookup(attrs: Attrs, name: string): string {
    if name in attrs then attrs[name].text else ""
  }

  function Part(c: Component, res: Attrs, metricName: string, leaf: Attrs): string {
    var v :=
      if c.source == Config.RESOURCE then Lookup(res, c.name)
      else if c.source == Config.DATAPOINT then Lookup(leaf, c.name)
      else if c.source == Config.METRIC_NAME then metricName
      else "";
    if c.capture.Some? then c.capture.value(v) else v
  }

  function Parts(plan: Plan, res: Attrs, metricName: string, leaf: Attrs): (parts: seq<string>)
    ensures |parts| == |plan|
    ensures forall i :: 0 <= i < |plan| ==> parts[i] == Part(plan[i], res, metricName, leaf)
  {
    seq(|plan|, i requires 0 <= i < |plan| => Part(plan[i], res, metricName, leaf))
  }

  /** `whole` is the text this component names: an attribute of the resource or of the leaf, the metric's name,
      or nothing. */
  predicate Names(c: Component, whole: string, res: Attrs, metricName: string, leaf: Attrs) {
    && (c.source == "resource" ==> whole == if c.name in res then res[c.name].text else "")
    && (c.source == "datapoint" ==> whole == if c.name in leaf then leaf[c.name].text else "")
    && (c.source == "metric_name" ==> whole == metricName)
    && (c.source !in {"resource", "datapoint", "metric_name"} ==> whole == "")
  }

  /** `part` is that text, cut down by the regular expression if there is one. */
  ghost predicate StandsFor(c: Component, part: string, res: Attrs, metricName: string, leaf: Attrs) {
    exists whole :: Names(c, whole, res, metricName, leaf) && part == if c.capture.Some? then c.capture.value(whole) else whole
  }

  /** The loop that fills the parts slice, one component at a time. */
  method ResolveParts(plan: Plan, res: Attrs, metricName: string, leaf: Attrs) returns (parts: seq<string>)
    ensures parts == Parts(plan, res, metricName, leaf)
    ensures |parts| == |plan| && forall i :: 0 <= i < |plan| ==> StandsFor(plan[i], parts[i], res, metricName, leaf)
  {
    parts := [];
    for i := 0 to |plan|
      invariant |parts| == i
      invariant forall k :: 0 <= k < i ==> parts[k] == Part(plan[k], res, metricName, leaf)
      invariant forall k :: 0 <= k < i ==> StandsFor(plan[k], parts[k], res, metricName, leaf)
    {
      var v := "";
      if plan[i].source == Config.RESOURCE {
        if plan[i].name in res {
          v := res[plan[i].name].text;
        }
      } else if plan[i].source == Config.DATAPOINT {
        if plan[i].name in leaf {
          v := leaf[plan[i].name].text;
        }
      } else if plan[i].source == Config.METRIC_NAME {
        v := metricName;
      }
      assert Names(plan[i], v, res, metricName, leaf);
      if plan[i].capture.Some? {
        v := plan[i].capture.value(v);
      }
      parts := parts + [v];
    }
  }

  function Join(parts: seq<string>): string {
    if parts == [] then ""
    else if |parts| == 1 then parts[0]
    else Join(parts[..|parts| - 1]) + [SEPARATOR] + parts[|parts| - 1]
  }

  /** Values without the separator are told apart: no two lists of as many of them join to one key. */
  lemma {:induction false} JoinTellsApart(p: seq<string>, q: seq<string>)
    requires |p| == |q| && Join(p) == Join(q)
    requires forall i :: 0 <= i < |p| ==> '\U{1f}' !in p[i] && '\U{1f}' !in q[i]
    ensures p == q
  {
    if |p| > 1 {
      var n := |p| - 1;
      LastPart(Join(p[..n]), p[n], Join(q[..n]), q[n]);
      JoinTellsApart(p[..n], q[..n]);
      assert p == p[..n] + [p[n]] && q == q[..n] + [q[n]];
    }
  }

  lemma NoneAfter(a: string, p: string, k: nat)
    requires SEPARATOR !in p
    ensures |a| < k < |a + [SEPARATOR] + p| ==> (a + [SEPARATOR] + p)[k] != SEPARATOR
  {
    if |a| < k < |a + [SEPARATOR] + p| {
      assert (a + [SEPARATOR] + p)[k] == p[k - |a| - 1];
    }
  }

  /** What follows the last separator is determined by the text. */
  lemma LastPart(a: string, p: string, b: string, q: string)
    requires a + [SEPARATOR] + p == b + [SEPARATOR] + q
    requires SEPARATOR !in p && SEPARATOR !in q
    ensures a == b && p == q
  {
    var whole := a + [SEPARATOR] + p;
    assert whole[|a|] == SEPARATOR && whole[|b|] == SEPARATOR;
    NoneAfter(a, p, |b|);
    NoneAfter(b, q, |a|);
    assert whole[..|a|] == a && whole[|a| + 1..] == p;
    assert whole[..|b|] == b && whole[|b| + 1..] == q;
  }

  lemma {:induction false} JoinConcat(a: seq<string>, b: seq<string>)
    requires a != [] && b != []
    ensures Join(a + b) == Join(a) + [SEPARATOR] + Join(b)
  {
    var n := |b| - 1;
    assert (a + b)[..|a + b| - 1] == a + b[..n];
    if n == 0 {
      assert a + b[..0] == a;
    } else {
      JoinConcat(a, b[..n]);
    }
  }

  lemma JoinReplaced(a: seq<string>, m: seq<string>, m': seq<string>, b: seq<string>)
    requires m != [] && m' != [] && Join(m) == Join(m')
    ensures Join(a + m + b) == Join(a + m' + b)
  {
    if a == [] {
      assert a + m == m && a + m' == m';
    } else {
      JoinConcat(a, m);
      JoinConcat(a, m');
    }
    if b == [] {
      assert a + m + b == a + m && a + m' + b == a + m';
    } else {
      JoinConcat(a + m, b);
      JoinConcat(a + m', b);
    }
  }

  /** The separators inside the values. */
  function Inside(parts: seq<string>): nat {
    if parts == [] then 0 else Inside(parts[..|parts| - 1]) + multiset(parts[|parts| - 1])[SEPARATOR]
  }

  lemma {:induction false} JoinCounts(parts: seq<string>)
    requires parts != []
    ensures multiset(Join(parts))[SEPARATOR] == |parts| - 1 + Inside(parts)
  {
    if |parts| > 1 {
      JoinCounts(parts[..|parts| - 1]);
    } else {
      assert parts[..0] == [];
    }
  }

  lemma {:induction false} InsideNone(parts: seq<string>)
    ensures Inside(parts) == 0 <==> forall i :: 0 <= i < |parts| ==> SEPARATOR !in parts[i]
  {
    if parts != [] {
      InsideNone(parts[..|parts| - 1]);
    }
  }

  lemma Cut(v: string) returns (before: string, after: string)
    requires SEPARATOR in v
    ensures v == before + [SEPARATOR] + after
  {
    var k :| 0 <= k < |v| && v[k] == SEPARATOR;
    before, after := v[..k], v[k + 1..];
  }

  /** A value with the separator inside can pass one side of it to its neighbour. */
  lemma Shifted(parts: seq<string>, i: nat) returns (other: seq<string>)
    requires i < |parts| && |parts| >= 2 && SEPARATOR in parts[i]
    ensures |other| == |parts| && other != parts && Join(other) == Join(parts)
  {
    var before, after := Cut(parts[i]);
    var j := if i + 1 < |parts| then i else i - 1;
    var m := parts[j..j + 2];
    var m' := if i == j then [before, after + [SEPARATOR] + m[1]] else [m[0] + [SEPARATOR] + before, after];
    assert m[..1] == [m[0]] && m'[..1] == [m'[0]];
    assert Join(m) == m[0] + [SEPARATOR] + m[1] && Join(m') == m'[0] + [SEPARATOR] + m'[1];
    assert Join(m) == Join(m');
    JoinReplaced(parts[..j], m, m', parts[j + 2..]);
    assert parts == parts[..j] + m + parts[j + 2..];
    other := parts[..j] + m' + parts[j + 2..];
    assert |other[i]| != |parts[i]|;
  }

  /** Two keys of as many values collide exactly when there are at least two and one holds the separator. */
  lemma JoinCollidesIff(parts: seq<string>)
    ensures (exists other :: |other| == |parts| && other != parts && Join(other) == Join(parts)) <==>
      |parts| >= 2 && exists i :: 0 <= i < |parts| && '\U{1f}' in parts[i]
  {
    if |parts| >= 2 {
      if i :| 0 <= i < |parts| && SEPARATOR in parts[i] {
        var other := Shifted(parts, i);
      }
    }
    if other :| |other| == |parts| && other != parts && Join(other) == Join(parts) {
      SameKeySameParts(parts, other);
    }
  }

  lemma ShortLists(p: seq<string>, q: seq<string>)
    requires |p| == |q| <= 1 && Join(p) == Join(q)
    ensures p == q
  {
  }

  lemma SameKeySameParts(p: seq<string>, q: seq<string>)
    requires |p| == |q| && Join(p) == Join(q) && p != q
    ensures |p| >= 2 && exists i :: 0 <= i < |p| && SEPARATOR in p[i]
  {
    if |p| <= 1 {
      ShortLists(p, q);
    } else {
      JoinCounts(p);
      JoinCounts(q);
      InsideNone(p);
      InsideNone(q);
      if Inside(p) == 0 {
        JoinTellsApart(p, q);
      }
    }
  }

  /** The key text of a leaf. */
  function Key(plan: Plan, res: Attrs, metricName: string, leaf: Attrs): string {
    Join(Parts(plan, res, metricName, leaf))
  }

  function PutIfAbsent(m: Attrs, k: string, v: string): Attrs {
    if k in m then m else m[k := Str(v)]
  }

  /** Component `c` with value `part` writes an attribute, on the resource or on the leaf. */
  predicate Promotes(c: Component, part: string, onResource: bool) {
    && c.promote != "" && part != ""
    && if onResource then c.source == Config.RESOURCE else c.source in {Config.DATAPOINT, Config.METRIC_NAME}
  }

  /** The attributes after the promotions of one side, first component first. */
  function Promoted(plan: Plan, parts: seq<string>, onResource: bool, attrs: Attrs): Attrs
    requires |parts| == |plan|
  {
    if plan == [] then attrs
    else
      var n := |plan| - 1;
      var before := Promoted(plan[..n], parts[..n], onResource, attrs);
      if Promotes(plan[n], parts[n], onResource) then PutIfAbsent(before, plan[n].promote, parts[n]) else before
  }

  method ApplyPromotions(plan: Plan, parts: seq<string>, res: Attrs, leaf: Attrs) returns (res': Attrs, leaf': Attrs)
    requires |parts| == |plan|
    ensures res' == Promoted(plan, parts, true, res)
    ensures leaf' == Promoted(plan, parts, false, leaf)
  {
    res', leaf' := res, leaf;
    for i := 0 to |plan|
      invariant res' == Promoted(plan[..i], parts[..i], true, res)
      invariant leaf' == Promoted(plan[..i], parts[..i], false, leaf)
    {
      assert plan[..i + 1][..i] == plan[..i] && parts[..i + 1][..i] == parts[..i];
      if plan[i].promote == "" || parts[i] == "" {
        continue;
      }
      if plan[i].source == Config.RESOURCE {
        res' := PutIfAbsent(res', plan[i].promote, parts[i]);
      } else if plan[i].source == Config.DATAPOINT || plan[i].source == Config.METRIC_NAME {
        leaf' := PutIfAbsent(leaf', plan[i].promote, parts[i]);
      }
    }
    assert plan[..|plan|] == plan && parts[..|plan|] == parts;
  }

  // ------------------------------------------------------------ what promotion does

  /** Promotion only adds: what was there keeps its value, and every added attribute is the value
      of a component that promotes to that name. */
  lemma {:induction false} PromotionOnlyAdds(plan: Plan, parts: seq<string>, onResource: bool, attrs: Attrs, k: string)
    requires |parts| == |plan|
    ensures var after := Promoted(plan, parts, onResource, attrs);
      && (k in attrs ==> k in after && after[k] == attrs[k])
      && (k in after && k !in attrs ==>
          exists i :: 0 <= i < |plan| && Promotes(plan[i], parts[i], onResource) && plan[i].promote == k && after[k] == Str(parts[i]))
  {
    if plan != [] {
      var n := |plan| - 1;
      PromotionOnlyAdds(plan[..n], parts[..n], onResource, attrs, k);
      var before := Promoted(plan[..n], parts[..n], onResource, attrs);
      if k in before && k !in attrs {
        var i :| 0 <= i < n && Promotes(plan[..n][i], parts[..n][i], onResource) && plan[..n][i].promote == k && before[k] == Str(parts[..n][i]);
        assert Promotes(plan[i], parts[i], onResource) && plan[i].promote == k;
      } else if k !in attrs && k in Promoted(plan, parts, onResource, attrs) {
        assert Promotes(plan[n], parts[n], onResource) && plan[n].promote == k;
      }
    }
  }

  /** Component `i` has a value to promote to this side: resource components to the resource, the others to
      the leaf. */
  predicate Offers(c: Component, part: string, onResource: bool) {
    && c.promote != "" && part != ""
    && (if onResource then c.source == "resource" else c.source == "datapoint" || c.source == "metric_name")
  }

  /** Where the name is free, the first component that has a value for it supplies it. */
  lemma {:induction false} FirstPromotionWins(plan: Plan, parts: seq<string>, onResource: bool, attrs: Attrs, i: nat)
    requires |parts| == |plan| && i < |plan| && Offers(plan[i], parts[i], onResource)
    requires forall j :: 0 <= j < i && plan[j].promote == plan[i].promote ==> !Offers(plan[j], parts[j], onResource)
    ensures var k, after := plan[i].promote, Promoted(plan, parts, onResource, attrs);
      k in after && after[k] == if k in attrs then attrs[k] else Str(parts[i])
  {
    var n := |plan| - 1;
    var k := plan[i].promote;
    if i < n {
      FirstPromotionWins(plan[..n], parts[..n], onResource, attrs, i);
    } else {
      PromotionOnlyAdds(plan[..n], parts[..n], onResource, attrs, k);
    }
  }

  lemma {:induction false} TargetsPresent(plan: Plan, parts: seq<string>, onResource: bool, attrs: Attrs, i: nat)
    requires |parts| == |plan| && i < |plan| && Promotes(plan[i], parts[i], onResource)
    ensures plan[i].promote in Promoted(plan, parts, onResource, attrs)
  {
    var n := |plan| - 1;
    if i < n {
      assert Promotes(plan[..n][i], parts[..n][i], onResource);
      TargetsPresent(plan[..n], parts[..n], onResource, attrs, i);
    }
  }

  lemma {:induction false} NothingToPromote(plan: Plan, parts: seq<string>, onResource: bool, attrs: Attrs)
    requires |parts| == |plan|
    requires forall i :: 0 <= i < |plan| && Promotes(plan[i], parts[i], onResource) ==> plan[i].promote in attrs
    ensures Promoted(plan, parts, onResource, attrs) == attrs
  {
    if plan != [] {
      var n := |plan| - 1;
      forall i | 0 <= i < n && Promotes(plan[..n][i], parts[..n][i], onResource)
        ensures plan[..n][i].promote in attrs
      {
        assert Promotes(plan[i], parts[i], onResource);
      }
      NothingToPromote(plan[..n], parts[..n], onResource, attrs);
    }
  }

  /** Promoting again, for another leaf of the same resource, changes nothing. */
  lemma PromotionIdempotent(plan: Plan, parts: seq<string>, onResource: bool, attrs: Attrs)
    requires |parts| == |plan|
    ensures Promoted(plan, parts, onResource, Promoted(plan, parts, onResource, attrs)) == Promoted(plan, parts, onResource, attrs)
  {
    var once := Promoted(plan, parts, onResource, attrs);
    forall i | 0 <= i < |plan| && Promotes(plan[i], parts[i], onResource)
      ensures plan[i].promote in once
    {
      TargetsPresent(plan, parts, onResource, attrs, i);
    }
    NothingToPromote(plan, parts, onResource, once);
  }

  lemma {:induction false} SameResourceParts(plan: Plan, p: seq<string>, q: seq<string>, attrs: Attrs)
    requires |p| == |plan| && |q| == |plan|
    requires forall i :: 0 <= i < |plan| && plan[i].source == Config.RESOURCE ==> p[i] == q[i]
    ensures Promoted(plan, p, true, attrs) == Promoted(plan, q, true, attrs)
  {
    if plan != [] {
      var n := |plan| - 1;
      assert forall i :: 0 <= i < n ==> plan[..n][i] == plan[i] && p[..n][i] == p[i] && q[..n][i] == q[i];
      SameResourceParts(plan[..n], p[..n], q[..n], attrs);
    }
  }

  /** A resource with the attributes its own components promote. */
  function PromotedResource(plan: Plan, r: ResourceInfo): ResourceInfo {
    r.(attrs := Promoted(plan, Parts(plan, r.attrs, "", map[]), true, r.attrs))
  }

  function PromotedLeaf(plan: Plan, res: Attrs, metricName: string, p: Point): Point {
    p.(attrs := Promoted(plan, Parts(plan, res, metricName, p.attrs), false, p.attrs))
  }

  /** Whichever leaf triggers it, and however often, the resource ends up promoted the same way. */
  lemma ResourcePromotion(plan: Plan, r: ResourceInfo, metricName: string, leaf: Attrs)
    ensures var parts := Parts(plan, r.attrs, metricName, leaf); var once := PromotedResource(plan, r).attrs;
      Promoted(plan, parts, true, r.attrs) == once && Promoted(plan, parts, true, once) == once
  {
    var parts := Parts(plan, r.attrs, metricName, leaf);
    SameResourceParts(plan, parts, Parts(plan, r.attrs, "", map[]), r.attrs);
    PromotionIdempotent(plan, parts, true, r.attrs);
  }

  lemma NoPromotion(plan: Plan, parts: seq<string>, onResource: bool, attrs: Attrs)
    requires |parts| == |plan| && !HasPromotion(plan)
    ensures Promoted(plan, parts, onResource, attrs) == attrs
  {
    NothingToPromote(plan, parts, onResource, attrs);
  }

  /** With resource components only, no leaf is changed and the key is the resource's. */
  lemma ResourceOnlyPlan(plan: Plan, res: Attrs, metricName: string, p: Point)
    requires ResourceOnly(plan)
    ensures Key(plan, res, metricName, p.attrs) == Key(plan, res, "", map[])
    ensures PromotedLeaf(plan, res, metricName, p) == p
  {
    assert Parts(plan, res, metricName, p.attrs) == Parts(plan, res, "", map[]);
    NothingToPromote(plan, Parts(plan, res, metricName, p.attrs), false, p.attrs);
  }
}
