/** What a plan does, told in sets of shard ids read straight off the snapshot (internal/lease/taker.go). */
module PlanMeaning {
  import opened Sequences
  import opened Strings
  import opened LeaseStore
  import opened Taker
  import opened TakerLemmas
  import opened OwnSteal

  /** The shards still to be read. */
  function OpenIds(in_: PlanInput): set<string> {
    set l | l in in_.leases && l.checkpoint != SHARD_END :: l.shardId
  }

  /** Those this worker polls. */
  function PolledIds(in_: PlanInput): set<string> {
    set l | l in in_.leases && l.checkpoint != SHARD_END && l.shardId in in_.owned :: l.shardId
  }

  /** Those free for it to take: parents drained, not polled here, and unowned, listed as its own, or
      listed under a worker that stopped heartbeating. */
  function FreeIds(in_: PlanInput): set<string> {
    set l | l in in_.leases && l.checkpoint != SHARD_END && l.shardId in in_.drained && l.shardId !in in_.owned
      && (l.owner == "" || l.owner == in_.self || l.shardId !in in_.freshIds) :: l.shardId
  }

  /** Those a heartbeating worker `o` holds. */
  function HeldIds(in_: PlanInput, o: string): set<string> {
    set l | l in in_.leases && l.checkpoint != SHARD_END && l.owner == o && l.shardId in in_.freshIds :: l.shardId
  }

  /** This worker and every heartbeating owner of an open shard. */
  function LiveWorkers(in_: PlanInput): set<string> {
    {in_.self} + set l | l in in_.leases && l.checkpoint != SHARD_END && l.owner != "" && l.shardId in in_.freshIds :: l.owner
  }

  // ------------------------------------------------------------ counting rows as ids

  /** The ids of the kept open rows are the ids of the open rows that pass, and there are as many. */
  lemma KeptCount(in_: PlanInput, p: Lease -> bool, ids: set<string>)
    requires DistinctShards(in_.leases)
    requires forall s :: s in ids <==> exists l :: l in in_.leases && IsActive(l) && p(l) && l.shardId == s
    ensures |Keep(Active(in_.leases), p)| == |ids|
    ensures forall s :: s in Sort(Ids(Keep(Active(in_.leases), p))) <==> s in ids
  {
    var kept := Keep(Active(in_.leases), p);
    forall l ensures l in kept <==> l in in_.leases && IsActive(l) && p(l) {
      KeepMember(Active(in_.leases), p, l);
      KeepMember(in_.leases, IsActive, l);
    }
    forall s ensures s in Sort(Ids(kept)) <==> s in ids {
      IdsMember(kept, s);
    }
    KeepDistinctShards(in_.leases, IsActive);
    KeepDistinctShards(Active(in_.leases), p);
    SortedIdsDistinct(kept);
    DistinctSetSize(Sort(Ids(kept)), ids);
  }

  lemma {:induction false} DistinctSetSize(xs: seq<string>, ids: set<string>)
    requires Distinct(xs) && forall s :: s in xs <==> s in ids
    ensures |xs| == |ids|
  {
    if xs == [] {
      assert ids == {};
    } else {
      var n := |xs| - 1;
      forall s ensures s in xs[..n] <==> s in ids - {xs[n]} {
        if s in ids - {xs[n]} {
          var i :| 0 <= i < |xs| && xs[i] == s;
          assert xs[..n][i] == s;
        }
      }
      DistinctSetSize(xs[..n], ids - {xs[n]});
    }
  }

  lemma PolledCount(in_: PlanInput)
    requires DistinctShards(in_.leases)
    ensures |Mine(in_)| == |PolledIds(in_)| && forall s :: s in Mine(in_) <==> s in PolledIds(in_)
    ensures Sorted(Mine(in_)) && Distinct(Mine(in_))
  {
    var p := IsOwned(in_.owned);
    KeptCount(in_, p, PolledIds(in_));
    SortSorted(Ids(Keep(Active(in_.leases), p)));
    KeepDistinctShards(in_.leases, IsActive);
    KeepDistinctShards(Active(in_.leases), p);
    SortedIdsDistinct(Keep(Active(in_.leases), p));
  }

  lemma FreeCount(in_: PlanInput)
    requires DistinctShards(in_.leases)
    ensures |Free(in_)| == |FreeIds(in_)| && forall s :: s in Sort(Ids(Free(in_))) <==> s in FreeIds(in_)
  {
    KeptCount(in_, IsFree(in_.self, in_.freshIds, in_.drained, in_.owned), FreeIds(in_));
  }

  lemma HeldCount(in_: PlanInput, o: string)
    requires DistinctShards(in_.leases)
    ensures Load(Active(in_.leases), in_.freshIds, o) == |HeldIds(in_, o)|
  {
    KeptCount(in_, IsLoadOf(o, in_.freshIds), HeldIds(in_, o));
  }

  lemma OpenCount(in_: PlanInput)
    requires DistinctShards(in_.leases)
    ensures |Active(in_.leases)| == |OpenIds(in_)|
  {
    var all := (l: Lease) => true;
    KeptCount(in_, all, OpenIds(in_));
    KeepAll(Active(in_.leases), all);
  }

  lemma {:induction false} KeepAll(xs: seq<Lease>, p: Lease -> bool)
    requires forall l :: p(l)
    ensures Keep(xs, p) == xs
  {
    if xs != [] {
      KeepAll(xs[..|xs| - 1], p);
    }
  }

  lemma WorkersCount(in_: PlanInput)
    ensures Workers(Active(in_.leases), in_.freshIds, in_.self) == |LiveWorkers(in_)|
  {
    forall l ensures l in Active(in_.leases) <==> l in in_.leases && l.checkpoint != SHARD_END {
      KeepMember(in_.leases, IsActive, l);
    }
    assert FreshOwners(Active(in_.leases), in_.freshIds) + {in_.self} == LiveWorkers(in_);
  }

  // ------------------------------------------------------------ what a plan means

  /** The target is the open shards divided by the live workers, rounded up. */
  lemma TargetMeans(in_: PlanInput)
    requires DistinctShards(in_.leases)
    ensures |LiveWorkers(in_)| >= 1
    ensures |OpenIds(in_)| <= Target(in_) * |LiveWorkers(in_)| < |OpenIds(in_)| + |LiveWorkers(in_)|
  {
    OpenCount(in_);
    WorkersCount(in_);
    assert in_.self in LiveWorkers(in_);
  }

  /** Above the target a worker gives up exactly the shards with the highest ids, down to the target,
      and does nothing else. */
  lemma ReleaseMeans(in_: PlanInput, r: PlanResult)
    requires IsPlan(in_, r) && DistinctShards(in_.leases)
    ensures |PolledIds(in_)| <= Target(in_) ==> r.release == []
    ensures |PolledIds(in_)| > Target(in_) ==>
      && r.acquire == [] && r.steal == ""
      && Distinct(r.release) && |r.release| == |PolledIds(in_)| - Target(in_)
      && (forall s :: s in r.release ==> s in PolledIds(in_))
      && (forall s, k :: s in r.release && k in PolledIds(in_) && k !in r.release ==> AtMost(k, s))
  {
    PolledCount(in_);
    if |PolledIds(in_)| > Target(in_) {
      TailIsHighest(Mine(in_), Target(in_), PolledIds(in_), r.release);
    }
  }

  lemma InTail(xs: seq<string>, from: nat, j: nat)
    requires from <= |xs| && j < |xs|
    ensures from <= j ==> xs[j] in xs[from..]
  {
    if from <= j {
      assert xs[from..][j - from] == xs[j];
    }
  }

  lemma TailIsHighest(mine: seq<string>, target: nat, polled: set<string>, tail: seq<string>)
    requires Sorted(mine) && Distinct(mine) && target <= |mine| && tail == mine[target..]
    requires forall s :: s in mine <==> s in polled
    ensures Distinct(tail) && forall s :: s in tail ==> s in polled
    ensures forall s, k :: s in tail && k in polled && k !in tail ==> AtMost(k, s)
  {
    forall s, k | s in tail && k in polled && k !in tail ensures AtMost(k, s) {
      var i :| 0 <= i < |tail| && tail[i] == s;
      var j :| 0 <= j < |mine| && mine[j] == k;
      InTail(mine, target, j);
      assert mine[target + i] == s;
    }
  }

  /** Everything free is acquired when the seats allow: a free row whose shard was passed over means
      that the plan filled every seat. */
  lemma FreeRowTaken(in_: PlanInput, r: PlanResult, s: string, l: Lease)
    requires IsPlan(in_, r) && FreeRow(in_, s, l)
    requires |Mine(in_)| + |r.acquire| < Target(in_)
    ensures s in r.acquire
  {
    var p := IsFree(in_.self, in_.freshIds, in_.drained, in_.owned);
    KeepMember(in_.leases, IsActive, l);
    KeepMember(Active(in_.leases), p, l);
    var want := Target(in_) - |Mine(in_)|;
    assert r.acquire == Sort(Ids(FirstFree(Free(in_), want)));
    assert FirstFree(Free(in_), want) == Free(in_);
    IdsMember(Free(in_), s);
  }

  /** Below the target a worker acquires as many free shards as it has seats, or all there are, and
      only free ones. */
  lemma AcquireMeans(in_: PlanInput, r: PlanResult)
    requires IsPlan(in_, r) && DistinctShards(in_.leases) && |PolledIds(in_)| <= Target(in_)
    ensures var seats := Target(in_) - |PolledIds(in_)|;
      |r.acquire| == if seats < |FreeIds(in_)| then seats else |FreeIds(in_)|
    ensures Distinct(r.acquire) && Sorted(r.acquire) && forall s :: s in r.acquire ==> s in FreeIds(in_)
  {
    PolledCount(in_);
    FreeCount(in_);
    PlanClaimsDisjoint(in_, r);
    TakenFromFree(in_, r);
    var want: nat :| r.acquire == Sort(Ids(FirstFree(Free(in_), want)));
    SortSorted(Ids(FirstFree(Free(in_), want)));
    forall s | s in r.acquire ensures s in FreeIds(in_) {
      var l := AcquireGate(in_, r, s);
    }
  }

  /** `v` is the peer a short worker turns to: heartbeating, above the target, the heaviest such, and
      of equals the one with the lowest id. */
  ghost predicate Heaviest(in_: PlanInput, v: string) {
    && v != "" && v != in_.self && |HeldIds(in_, v)| > Target(in_)
    && forall o :: o != "" && o != in_.self && |HeldIds(in_, o)| > Target(in_) ==>
      |HeldIds(in_, o)| < |HeldIds(in_, v)| || (|HeldIds(in_, o)| == |HeldIds(in_, v)| && AtMost(v, o))
  }

  lemma HeaviestIsVictim(in_: PlanInput, v: string)
    requires DistinctShards(in_.leases)
    ensures Heaviest(in_, v) <==> IsVictim(Active(in_.leases), in_, Target(in_), v)
  {
    forall o ensures Load(Active(in_.leases), in_.freshIds, o) == |HeldIds(in_, o)| {
      HeldCount(in_, o);
    }
    if Heaviest(in_, v) {
      forall p | Overloaded(Active(in_.leases), in_, Target(in_), p)
        ensures Load(Active(in_.leases), in_.freshIds, p) < Load(Active(in_.leases), in_.freshIds, v)
          || (Load(Active(in_.leases), in_.freshIds, p) == Load(Active(in_.leases), in_.freshIds, v) && AtMost(v, p))
      {
        HeldCount(in_, p);
      }
    }
    if IsVictim(Active(in_.leases), in_, Target(in_), v) {
      forall o | o != "" && o != in_.self && |HeldIds(in_, o)| > Target(in_)
        ensures |HeldIds(in_, o)| < |HeldIds(in_, v)| || (|HeldIds(in_, o)| == |HeldIds(in_, v)| && AtMost(v, o))
      {
        HeldCount(in_, o);
        assert Overloaded(Active(in_.leases), in_, Target(in_), o);
      }
    }
  }

  /** A worker with seats left over steals, when some peer is above the target, the lowest drained
      shard of the heaviest one, if that has any; in every other case it steals nothing. */
  lemma StealMeans(in_: PlanInput, r: PlanResult, s: string)
    requires IsPlan(in_, r) && DistinctShards(in_.leases) && s != ""
    ensures r.steal == s <==>
      && |PolledIds(in_)| + |FreeIds(in_)| < Target(in_)
      && exists v, l :: Heaviest(in_, v) && LowestRow(in_, v, l) && l.shardId == s
  {
    PolledCount(in_);
    FreeCount(in_);
    StealsWhenShort(in_, r);
    if r.steal == s {
      var v :| IsVictim(Active(in_.leases), in_, Target(in_), v) && s == LowestCandidate(Active(in_.leases), in_, v);
      HeaviestIsVictim(in_, v);
      LowestIff(in_, v, s);
    }
    if |PolledIds(in_)| + |FreeIds(in_)| < Target(in_) {
      if v, l :| Heaviest(in_, v) && LowestRow(in_, v, l) && l.shardId == s {
        HeaviestIsVictim(in_, v);
        LowestIff(in_, v, s);
        StealIs(in_, r, v);
      }
    }
  }

  // ------------------------------------------------------------ a crashed worker's shard

  /** A shard whose owner stopped heartbeating counts as free for everybody else: with all seats its
      own, a worker takes it over. */
  lemma StaleShardTaken(in_: PlanInput, r: PlanResult, l: Lease)
    requires IsPlan(in_, r) && l in in_.leases && l.checkpoint != SHARD_END
    requires l.shardId !in in_.freshIds && l.shardId in in_.drained && l.shardId !in in_.owned
    requires |Mine(in_)| + |r.acquire| < Target(in_)
    ensures l.shardId in r.acquire
  {
    FreeRowTaken(in_, r, l.shardId, l);
  }

  // ------------------------------------------------------------ every snapshot has a plan

  ghost predicate Best(active: seq<Lease>, freshIds: set<string>, owners: set<string>, o: string) {
    && o in owners
    && forall p :: p in owners ==>
      Load(active, freshIds, p) < Load(active, freshIds, o) || (Load(active, freshIds, p) == Load(active, freshIds, o) && AtMost(o, p))
  }

  lemma {:induction false} BestExists(active: seq<Lease>, freshIds: set<string>, owners: set<string>) returns (o: string)
    requires owners != {}
    ensures Best(active, freshIds, owners, o)
    decreases owners
  {
    var a :| a in owners;
    if owners == {a} {
      o := a;
      BeforeTotal(a, a);
    } else {
      var b := BestExists(active, freshIds, owners - {a});
      BeforeTotal(a, b);
      var heavier := Load(active, freshIds, a) > Load(active, freshIds, b)
        || (Load(active, freshIds, a) == Load(active, freshIds, b) && AtMost(a, b));
      o := if heavier then a else b;
      forall p | p in owners
        ensures Load(active, freshIds, p) < Load(active, freshIds, o)
          || (Load(active, freshIds, p) == Load(active, freshIds, o) && AtMost(o, p))
      {
        BeforeTotal(a, a);
        if p != a {
          assert p in owners - {a};
          if AtMost(a, b) && AtMost(b, p) {
            AtMostTransitive(a, b, p);
          }
        }
      }
    }
  }

  lemma OverloadedIsListed(in_: PlanInput, o: string)
    requires Overloaded(Active(in_.leases), in_, Target(in_), o)
    ensures o in Owners(in_)
  {
    var held := Keep(Active(in_.leases), IsLoadOf(o, in_.freshIds));
    KeepMember(Active(in_.leases), IsLoadOf(o, in_.freshIds), held[0]);
    KeepMember(in_.leases, IsActive, held[0]);
  }

  function Owners(in_: PlanInput): set<string> {
    set l | l in in_.leases :: l.owner
  }

  /** Every snapshot has a plan, so that nothing said about plans is said about none. */
  lemma PlanExists(in_: PlanInput) returns (r: PlanResult)
    ensures IsPlan(in_, r)
  {
    var mine, target, free := Mine(in_), Target(in_), Free(in_);
    var want := target - |mine|;
    if want < 0 {
      r := NO_ACTION.(release := mine[target..]);
    } else if want == 0 {
      r := NO_ACTION;
    } else {
      var steal := "";
      if |free| < want {
        steal := StealExists(in_);
      }
      r := PlanResult(Sort(Ids(FirstFree(free, want))), [], steal);
    }
  }

  lemma StealExists(in_: PlanInput) returns (steal: string)
    ensures IsSteal(Active(in_.leases), in_, Target(in_), steal)
  {
    var active, target := Active(in_.leases), Target(in_);
    if o :| Overloaded(active, in_, target, o) {
      var heavy := set p | p in Owners(in_) && Overloaded(active, in_, target, p);
      OverloadedIsListed(in_, o);
      assert o in heavy;
      var v := BestExists(active, in_.freshIds, heavy);
      forall p | Overloaded(active, in_, target, p) ensures p in heavy {
        OverloadedIsListed(in_, p);
      }
      assert IsVictim(active, in_, target, v);
      steal := LowestCandidate(active, in_, v);
    } else {
      steal := "";
    }
  }
}
