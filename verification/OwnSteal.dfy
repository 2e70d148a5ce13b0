/** When a planner pass tells a worker to steal a shard it is polling itself (internal/lease/taker.go):
    the steal target is looked up under the listed owner and `Owned` is not consulted. */
module OwnSteal {
  import opened Sequences
  import opened Strings
  import opened LeaseStore
  import opened Taker
  import opened TakerLemmas

  /** `l` is a row that may be stolen from `o`: active, drained and heartbeating. */
  predicate Stealable(in_: PlanInput, o: string, l: Lease) {
    && l in in_.leases && l.checkpoint != SHARD_END && l.owner == o
    && l.shardId in in_.freshIds && l.shardId in in_.drained
  }

  /** Of the rows that may be stolen from `o`, `l` has the lowest shard id. */
  ghost predicate LowestRow(in_: PlanInput, o: string, l: Lease) {
    Stealable(in_, o, l) && forall k :: Stealable(in_, o, k) ==> AtMost(l.shardId, k.shardId)
  }

  /** Below the target, and the free shards do not fill the seats. */
  predicate Short(in_: PlanInput) {
    |Mine(in_)| < Target(in_) && |Free(in_)| < Target(in_) - |Mine(in_)|
  }

  /** The heaviest peer above the target is listed with a row, its lowest, that this worker polls. */
  ghost predicate RobsItself(in_: PlanInput, o: string, l: Lease) {
    && IsVictim(Active(in_.leases), in_, Target(in_), o)
    && LowestRow(in_, o, l) && l.shardId != "" && l.shardId in in_.owned
  }

  function CandidateIds(in_: PlanInput, o: string): seq<string> {
    Sort(Ids(Keep(Active(in_.leases), IsCandidate(o, in_.freshIds, in_.drained))))
  }

  lemma CandidateIff(in_: PlanInput, o: string, s: string)
    ensures s in CandidateIds(in_, o) <==> exists l :: Stealable(in_, o, l) && l.shardId == s
  {
    var p := IsCandidate(o, in_.freshIds, in_.drained);
    var rows := Keep(Active(in_.leases), p);
    IdsMember(rows, s);
    forall l ensures l in rows <==> Stealable(in_, o, l) {
      KeepMember(Active(in_.leases), p, l);
      KeepMember(in_.leases, IsActive, l);
    }
  }

  lemma FirstIsLowest(xs: seq<string>, s: string)
    requires Sorted(xs) && s in xs
    ensures AtMost(xs[0], s)
  {
    BeforeTotal(s, s);
  }

  /** The candidate picked is the id of the lowest row that may be stolen. */
  lemma LowestIff(in_: PlanInput, o: string, s: string)
    requires s != ""
    ensures s == LowestCandidate(Active(in_.leases), in_, o) <==> exists l :: LowestRow(in_, o, l) && l.shardId == s
  {
    var ids := CandidateIds(in_, o);
    SortSorted(Ids(Keep(Active(in_.leases), IsCandidate(o, in_.freshIds, in_.drained))));
    if ids != [] && ids[0] == s {
      CandidateIff(in_, o, s);
      var l :| Stealable(in_, o, l) && l.shardId == s;
      forall k | Stealable(in_, o, k) ensures AtMost(s, k.shardId) {
        CandidateIff(in_, o, k.shardId);
        FirstIsLowest(ids, k.shardId);
      }
      assert LowestRow(in_, o, l);
    }
    if l :| LowestRow(in_, o, l) && l.shardId == s {
      CandidateIff(in_, o, s);
      CandidateIff(in_, o, ids[0]);
      var k :| Stealable(in_, o, k) && k.shardId == ids[0];
      FirstIsLowest(ids, s);
      BeforeTotal(s, ids[0]);
    }
  }

  lemma StealsWhenShort(in_: PlanInput, r: PlanResult)
    requires IsPlan(in_, r)
    ensures Short(in_) ==> IsSteal(Active(in_.leases), in_, Target(in_), r.steal)
    ensures !Short(in_) ==> r.steal == ""
  {
  }

  /** A plan steals a shard its own worker polls exactly when the worker is short of its target,
      the free shards do not make up for it, and the lowest row that may be stolen from the
      heaviest peer above the target is one this worker polls. */
  lemma StealsOwnIff(in_: PlanInput, r: PlanResult)
    requires IsPlan(in_, r)
    ensures r.steal != "" && r.steal in in_.owned <==> Short(in_) && exists o, l :: RobsItself(in_, o, l)
  {
    StealsWhenShort(in_, r);
    if r.steal != "" && r.steal in in_.owned {
      var o :| IsVictim(Active(in_.leases), in_, Target(in_), o) && r.steal == LowestCandidate(Active(in_.leases), in_, o);
      LowestIff(in_, o, r.steal);
      var l :| LowestRow(in_, o, l) && l.shardId == r.steal;
      assert RobsItself(in_, o, l);
    }
    if Short(in_) {
      if o, l :| RobsItself(in_, o, l) {
        LowestIff(in_, o, l.shardId);
        StealIs(in_, r, o);
      }
    }
  }

  lemma StealIs(in_: PlanInput, r: PlanResult, o: string)
    requires IsSteal(Active(in_.leases), in_, Target(in_), r.steal)
    requires IsVictim(Active(in_.leases), in_, Target(in_), o)
    ensures r.steal == LowestCandidate(Active(in_.leases), in_, o)
  {
    var v :| IsVictim(Active(in_.leases), in_, Target(in_), v) && r.steal == LowestCandidate(Active(in_.leases), in_, v);
    VictimUnique(Active(in_.leases), in_, Target(in_), o, v);
  }

  /** It cannot happen while no shard this worker polls is listed under a heartbeating peer. */
  lemma NeverStealsOwn(in_: PlanInput, r: PlanResult)
    requires IsPlan(in_, r)
    requires forall l :: l in in_.leases && l.shardId in in_.owned ==>
      l.owner == "" || l.owner == in_.self || l.shardId !in in_.freshIds
    ensures r.steal != "" ==> r.steal !in in_.owned
  {
    StealsOwnIff(in_, r);
  }

  // ------------------------------------------------------------ a listing that does it

  /** A polls "1", which B has just taken over: the listing shows all three rows under B. */
  const ROBBED := PlanInput(
    [Lease("1", "B", 7, TRIM_HORIZON, []), Lease("2", "B", 4, TRIM_HORIZON, []), Lease("3", "B", 4, TRIM_HORIZON, [])],
    "A", {"1", "2", "3"}, {"1", "2", "3"}, {"1"})

  function KeptOf(a: Lease, b: Lease, c: Lease, p: Lease -> bool): seq<Lease> {
    (if p(a) then [a] else []) + (if p(b) then [b] else []) + (if p(c) then [c] else [])
  }

  lemma KeepThree(a: Lease, b: Lease, c: Lease, p: Lease -> bool)
    ensures Keep([a, b, c], p) == KeptOf(a, b, c, p)
  {
    assert [a, b, c][..2] == [a, b] && [a, b][..1] == [a] && [a][..0] == [];
    assert Keep([a], p) == if p(a) then [a] else [];
    assert Keep([a, b], p) == Keep([a], p) + if p(b) then [b] else [];
  }

  lemma RobbedActive()
    ensures Active(ROBBED.leases) == ROBBED.leases
  {
    KeepThree(ROBBED.leases[0], ROBBED.leases[1], ROBBED.leases[2], IsActive);
  }

  lemma RobbedKeep(p: Lease -> bool)
    ensures Keep(Active(ROBBED.leases), p) == KeptOf(ROBBED.leases[0], ROBBED.leases[1], ROBBED.leases[2], p)
  {
    RobbedActive();
    KeepThree(ROBBED.leases[0], ROBBED.leases[1], ROBBED.leases[2], p);
  }

  lemma RobbedTarget()
    ensures Target(ROBBED) == 2
  {
    RobbedActive();
    assert ROBBED.leases[0] in ROBBED.leases;
    assert FreshOwners(ROBBED.leases, ROBBED.freshIds) == {"B"};
    assert {"B"} + {"A"} == {"A", "B"};
  }

  lemma RobbedShort()
    ensures Short(ROBBED) && |Mine(ROBBED)| == 1 && Free(ROBBED) == []
  {
    RobbedTarget();
    RobbedKeep(IsOwned(ROBBED.owned));
    RobbedKeep(IsFree("A", ROBBED.freshIds, ROBBED.drained, ROBBED.owned));
  }

  lemma RobbedLoads(o: string)
    ensures Load(Active(ROBBED.leases), ROBBED.freshIds, o) == if o == "B" then 3 else 0
  {
    RobbedKeep(IsLoadOf(o, ROBBED.freshIds));
  }

  lemma RobbedVictim()
    ensures IsVictim(Active(ROBBED.leases), ROBBED, Target(ROBBED), "B")
  {
    RobbedTarget();
    forall o ensures Load(Active(ROBBED.leases), ROBBED.freshIds, o) == if o == "B" then 3 else 0 {
      RobbedLoads(o);
    }
    BeforeTotal("B", "B");
  }

  lemma RobbedLowest()
    ensures LowestRow(ROBBED, "B", ROBBED.leases[0])
  {
    var one := ROBBED.leases[0];
    assert one in ROBBED.leases;
    forall k | Stealable(ROBBED, "B", k) ensures AtMost(one.shardId, k.shardId) {
      assert k in ROBBED.leases;
    }
  }

  /** On this listing the planner has A steal "1", the shard A polls. */
  lemma StealsItsOwn()
    ensures IsPlan(ROBBED, PlanResult([], [], "1")) && "1" in ROBBED.owned
  {
    RobbedTarget();
    RobbedShort();
    RobbedVictim();
    RobbedLowest();
    LowestIff(ROBBED, "B", "1");
    assert FirstFree([], 1) == [] && Sort(Ids([])) == [];
    assert IsSteal(Active(ROBBED.leases), ROBBED, 2, "1");
  }
}
