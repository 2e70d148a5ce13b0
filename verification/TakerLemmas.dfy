/** What one planner pass guarantees, for every snapshot. */
module TakerLemmas {
  import opened Sequences
  import opened Strings
  import opened LeaseStore
  import opened Taker

  /** Each shard has at most one row in the snapshot. */
  ghost predicate DistinctShards(leases: seq<Lease>) {
    forall i, j :: 0 <= i < j < |leases| ==> leases[i].shardId != leases[j].shardId
  }

  lemma {:induction false} KeepDistinctShards(leases: seq<Lease>, p: Lease -> bool)
    requires DistinctShards(leases)
    ensures DistinctShards(Keep(leases, p))
  {
    if leases != [] {
      var n := |leases| - 1;
      KeepDistinctShards(leases[..n], p);
      forall l | l in Keep(leases[..n], p) ensures l.shardId != leases[n].shardId {
        KeepMember(leases[..n], p, l);
      }
    }
  }

  function HasId(s: string): Lease -> bool {
    (l: Lease) => l.shardId == s
  }

  lemma {:induction false} IdsCount(xs: seq<Lease>, s: string)
    ensures multiset(Ids(xs))[s] == |Keep(xs, HasId(s))|
  {
    if xs != [] {
      var n := |xs| - 1;
      IdsCount(xs[..n], s);
      assert Ids(xs) == Ids(xs[..n]) + [xs[n].shardId];
    }
  }

  lemma IdsPermutation(xs: seq<Lease>, ys: seq<Lease>)
    requires multiset(xs) == multiset(ys)
    ensures multiset(Ids(xs)) == multiset(Ids(ys))
  {
    forall s ensures multiset(Ids(xs))[s] == multiset(Ids(ys))[s] {
      IdsCount(xs, s);
      IdsCount(ys, s);
      KeepPermutation(xs, ys, HasId(s));
    }
  }

  lemma IdsMember(xs: seq<Lease>, s: string)
    ensures s in Sort(Ids(xs)) <==> exists l :: l in xs && l.shardId == s
  {
    SortMember(Ids(xs), s);
    if s in Ids(xs) {
      var i :| 0 <= i < |xs| && Ids(xs)[i] == s;
      assert xs[i] in xs;
    }
    if l :| l in xs && l.shardId == s {
      var i :| 0 <= i < |xs| && xs[i] == l;
      assert Ids(xs)[i] == s;
    }
  }

  lemma SortedIdsDistinct(xs: seq<Lease>)
    requires DistinctShards(xs)
    ensures Distinct(Sort(Ids(xs)))
  {
    assert Distinct(Ids(xs));
    forall s ensures multiset(Sort(Ids(xs)))[s] <= 1 {
      DistinctCount(Ids(xs), s);
    }
    SingleCountDistinct(Sort(Ids(xs)));
  }

  /** `l` is an active row of the snapshot that lets a worker take `s`: drained parents,
      not polled here, and unowned, its own, or of an owner that stopped heartbeating. */
  predicate FreeRow(in_: PlanInput, s: string, l: Lease) {
    && l in in_.leases && l.shardId == s && l.checkpoint != SHARD_END
    && s in in_.drained && s !in in_.owned
    && (l.owner == "" || l.owner == in_.self || s !in in_.freshIds)
  }

  /** `l` is an active, drained row that an overloaded heartbeating peer holds. */
  predicate PeerRow(in_: PlanInput, s: string, l: Lease) {
    && l in in_.leases && l.shardId == s && l.checkpoint != SHARD_END
    && s in in_.drained && s in in_.freshIds
    && l.owner != "" && l.owner != in_.self
    && Load(Active(in_.leases), in_.freshIds, l.owner) > Target(in_)
  }

  lemma TakenFromFree(in_: PlanInput, r: PlanResult)
    requires IsPlan(in_, r)
    ensures exists want: nat :: r.acquire == Sort(Ids(FirstFree(Free(in_), want)))
  {
    if r.acquire == [] {
      assert FirstFree(Free(in_), 0) == [];
      assert Sort(Ids([])) == [];
    } else {
      var want := Target(in_) - |Mine(in_)|;
      assert r.acquire == Sort(Ids(FirstFree(Free(in_), want)));
    }
  }

  lemma FreeGate(in_: PlanInput, want: nat, s: string) returns (l: Lease)
    requires s in Sort(Ids(FirstFree(Free(in_), want)))
    ensures FreeRow(in_, s, l)
  {
    var taken := FirstFree(Free(in_), want);
    IdsMember(taken, s);
    l :| l in taken && l.shardId == s;
    assert l in Free(in_);
    KeepMember(Active(in_.leases), IsFree(in_.self, in_.freshIds, in_.drained, in_.owned), l);
    KeepMember(in_.leases, IsActive, l);
  }

  /** Whatever a plan acquires was free to take. */
  lemma AcquireGate(in_: PlanInput, r: PlanResult, s: string) returns (l: Lease)
    requires IsPlan(in_, r) && s in r.acquire
    ensures FreeRow(in_, s, l)
  {
    TakenFromFree(in_, r);
    var want: nat :| r.acquire == Sort(Ids(FirstFree(Free(in_), want)));
    l := FreeGate(in_, want, s);
  }

  lemma CandidateGate(in_: PlanInput, o: string, s: string) returns (l: Lease)
    requires Overloaded(Active(in_.leases), in_, Target(in_), o)
    requires s == LowestCandidate(Active(in_.leases), in_, o) && s != ""
    ensures PeerRow(in_, s, l) && l.owner == o
  {
    var rows := Keep(Active(in_.leases), IsCandidate(o, in_.freshIds, in_.drained));
    IdsMember(rows, s);
    l :| l in rows && l.shardId == s;
    KeepMember(Active(in_.leases), IsCandidate(o, in_.freshIds, in_.drained), l);
    KeepMember(in_.leases, IsActive, l);
  }

  /** A stolen shard belongs to a heartbeating peer above the target. */
  lemma StealGate(in_: PlanInput, r: PlanResult) returns (l: Lease)
    requires IsPlan(in_, r) && r.steal != ""
    ensures PeerRow(in_, r.steal, l)
  {
    assert IsSteal(Active(in_.leases), in_, Target(in_), r.steal);
    var o :| IsVictim(Active(in_.leases), in_, Target(in_), o)
      && r.steal == LowestCandidate(Active(in_.leases), in_, o);
    l := CandidateGate(in_, o, r.steal);
  }

  function Stolen(r: PlanResult): nat {
    if r.steal != "" then 1 else 0
  }

  /** A pass moves this worker to at most its target: releasing leaves exactly the
      target, and otherwise what it holds, takes and steals stays within it. */
  lemma PlanStaysWithinTarget(in_: PlanInput, r: PlanResult)
    requires IsPlan(in_, r)
    ensures |Mine(in_)| > Target(in_) ==>
      r.acquire == [] && r.steal == "" && |Mine(in_)| - |r.release| == Target(in_)
    ensures |Mine(in_)| <= Target(in_) ==>
      r.release == [] && |Mine(in_)| + |r.acquire| + Stolen(r) <= Target(in_)
    ensures forall s :: s in r.release ==> s in Mine(in_)
  {
  }

  lemma SameRow(leases: seq<Lease>, a: Lease, b: Lease)
    requires DistinctShards(leases) && a in leases && b in leases && a.shardId == b.shardId
    ensures a == b
  {
  }

  lemma FreeIdsDistinct(in_: PlanInput, want: nat)
    requires DistinctShards(in_.leases)
    ensures Distinct(Sort(Ids(FirstFree(Free(in_), want))))
  {
    KeepDistinctShards(in_.leases, IsActive);
    KeepDistinctShards(Active(in_.leases), IsFree(in_.self, in_.freshIds, in_.drained, in_.owned));
    SortedIdsDistinct(FirstFree(Free(in_), want));
  }

  lemma StealNotAcquired(in_: PlanInput, r: PlanResult)
    requires IsPlan(in_, r) && DistinctShards(in_.leases)
    requires r.steal != ""
    ensures r.steal !in r.acquire
  {
    if r.steal in r.acquire {
      var a := AcquireGate(in_, r, r.steal);
      var b := StealGate(in_, r);
      SameRow(in_.leases, a, b);
      assert false;
    }
  }

  /** Nothing is claimed twice: acquired shards are distinct, and the stolen shard is
      none of them. */
  lemma PlanClaimsDisjoint(in_: PlanInput, r: PlanResult)
    requires IsPlan(in_, r) && DistinctShards(in_.leases)
    ensures Distinct(r.acquire)
    ensures r.steal != "" ==> r.steal !in r.acquire
  {
    if r.steal != "" {
      StealNotAcquired(in_, r);
    }
    TakenFromFree(in_, r);
    var want: nat :| r.acquire == Sort(Ids(FirstFree(Free(in_), want)));
    FreeIdsDistinct(in_, want);
  }

  lemma SquaresFall(v: int, m: int)
    requires v >= m + 2
    ensures Squares(v - 1, m + 1) < Squares(v, m)
  {
    assert (v - 1) * (v - 1) == v * v - 2 * v + 1;
    assert (m + 1) * (m + 1) == m * m + 2 * m + 1;
  }

  function Squares(v: int, m: int): int {
    v * v + m * m
  }

  lemma StealGap(in_: PlanInput, r: PlanResult, l: Lease)
    requires IsPlan(in_, r) && DistinctShards(in_.leases)
    requires r.steal != "" && l in in_.leases && l.shardId == r.steal
    ensures Load(Active(in_.leases), in_.freshIds, l.owner) - 1 >= Target(in_) >= |Mine(in_)| + |r.acquire| + 1
  {
    var k := StealGate(in_, r);
    SameRow(in_.leases, k, l);
    PlanStaysWithinTarget(in_, r);
  }

  /** A steal takes from a peer that keeps at least the target, and strictly evens the
      load out: the sum of the squared loads of the two workers falls. */
  lemma StealEvensOut(in_: PlanInput, r: PlanResult, l: Lease)
    requires IsPlan(in_, r) && DistinctShards(in_.leases)
    requires r.steal != "" && l in in_.leases && l.shardId == r.steal
    ensures var v, mine := Load(Active(in_.leases), in_.freshIds, l.owner), |Mine(in_)| + |r.acquire|;
      v - 1 >= Target(in_) >= mine + 1 && Squares(v - 1, mine + 1) < Squares(v, mine)
  {
    StealGap(in_, r, l);
    SquaresFall(Load(Active(in_.leases), in_.freshIds, l.owner), |Mine(in_)| + |r.acquire|);
  }

  lemma VictimUnique(active: seq<Lease>, in_: PlanInput, target: nat, o: string, p: string)
    requires IsVictim(active, in_, target, o) && IsVictim(active, in_, target, p)
    ensures o == p
  {
    BeforeTotal(o, p);
  }

  /** Every replica that reads the same rows, in whatever order, decides the same
      releases, the same steal and the same number of acquisitions. */
  lemma PlanIgnoresRowOrder(in_: PlanInput, leases: seq<Lease>, r: PlanResult, r': PlanResult)
    requires multiset(in_.leases) == multiset(leases)
    requires IsPlan(in_, r) && IsPlan(in_.(leases := leases), r')
    ensures r.release == r'.release && r.steal == r'.steal && |r.acquire| == |r'.acquire|
  {
    var in' := in_.(leases := leases);
    var a, a' := Active(in_.leases), Active(leases);
    KeepPermutation(in_.leases, leases, IsActive);
    SameFreshOwners(a, a', in_.freshIds);
    assert Target(in_) == Target(in');
    KeepPermutation(a, a', IsOwned(in_.owned));
    IdsPermutation(Keep(a, IsOwned(in_.owned)), Keep(a', IsOwned(in_.owned)));
    SortPermutation(Ids(Keep(a, IsOwned(in_.owned))), Ids(Keep(a', IsOwned(in_.owned))));
    assert Mine(in_) == Mine(in');
    KeepPermutation(a, a', IsFree(in_.self, in_.freshIds, in_.drained, in_.owned));
    assert |Free(in_)| == |Free(in')|;
    if |Mine(in_)| < Target(in_) && |Free(in_)| < Target(in_) - |Mine(in_)| {
      StealIgnoresRowOrder(a, a', in_, leases, Target(in_), r.steal, r'.steal);
    }
  }

  lemma SameFreshOwners(a: seq<Lease>, b: seq<Lease>, freshIds: set<string>)
    requires multiset(a) == multiset(b)
    ensures FreshOwners(a, freshIds) == FreshOwners(b, freshIds) && |a| == |b|
  {
    forall l ensures l in a <==> l in b {
      assert l in a <==> l in multiset(a);
      assert l in b <==> l in multiset(b);
    }
    assert |multiset(a)| == |a| && |multiset(b)| == |b|;
  }

  lemma StealIgnoresRowOrder(a: seq<Lease>, b: seq<Lease>, in_: PlanInput, leases: seq<Lease>, target: nat, s: string, s': string)
    requires multiset(a) == multiset(b)
    requires IsSteal(a, in_, target, s) && IsSteal(b, in_.(leases := leases), target, s')
    ensures s == s'
  {
    var in' := in_.(leases := leases);
    forall o ensures Load(a, in_.freshIds, o) == Load(b, in_.freshIds, o)
      && LowestCandidate(a, in_, o) == LowestCandidate(b, in', o) {
      KeepPermutation(a, b, IsLoadOf(o, in_.freshIds));
      var p := IsCandidate(o, in_.freshIds, in_.drained);
      KeepPermutation(a, b, p);
      IdsPermutation(Keep(a, p), Keep(b, p));
      SortPermutation(Ids(Keep(a, p)), Ids(Keep(b, p)));
    }
    forall o ensures Overloaded(a, in_, target, o) == Overloaded(b, in', target, o) {
    }
    if exists o :: Overloaded(a, in_, target, o) {
      var o :| Overloaded(a, in_, target, o);
      assert Overloaded(b, in', target, o);
      var v :| IsVictim(a, in_, target, v) && s == LowestCandidate(a, in_, v);
      var v' :| IsVictim(b, in', target, v') && s' == LowestCandidate(b, in', v');
      assert IsVictim(a, in_, target, v');
      VictimUnique(a, in_, target, v, v');
    }
  }
}
