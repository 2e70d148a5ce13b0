/** The fair-share planner: internal/lease/taker.go. */
module Taker {
  import opened Sequences
  import opened Strings
  import opened LeaseStore

  /** The sets hold the ids a Go map[string]bool maps to true. */
  datatype PlanInput = PlanInput(leases: seq<Lease>, self: string, freshIds: set<string>, drained: set<string>, owned: set<string>)

  datatype PlanResult = PlanResult(acquire: seq<string>, release: seq<string>, steal: string)

  const NO_ACTION := PlanResult([], [], "")

  predicate IsActive(l: Lease) {
    l.checkpoint != SHARD_END
  }

  function Active(leases: seq<Lease>): seq<Lease> {
    Keep(leases, IsActive)
  }

  function Ids(leases: seq<Lease>): (r: seq<string>)
    ensures |r| == |leases|
  {
    Map(leases, (l: Lease) => l.shardId)
  }

  function IsOwned(owned: set<string>): Lease -> bool {
    (l: Lease) => l.shardId in owned
  }

  /** A row this worker may claim without stealing. */
  function IsFree(self: string, freshIds: set<string>, drained: set<string>, owned: set<string>): Lease -> bool {
    (l: Lease) =>
      && l.shardId !in owned && l.shardId in drained
      && (l.owner == "" || l.owner == self || l.shardId !in freshIds)
  }

  /** A row that counts towards the load of the fresh peer `owner`. */
  function IsLoadOf(owner: string, freshIds: set<string>): Lease -> bool {
    (l: Lease) => l.owner == owner && l.shardId in freshIds
  }

  function IsCandidate(owner: string, freshIds: set<string>, drained: set<string>): Lease -> bool {
    (l: Lease) => l.owner == owner && l.shardId in freshIds && l.shardId in drained
  }

  function FreshOwners(active: seq<Lease>, freshIds: set<string>): set<string> {
    set l | l in active && l.owner != "" && l.shardId in freshIds :: l.owner
  }

  function Workers(active: seq<Lease>, freshIds: set<string>, self: string): (r: nat)
    ensures r >= 1
  {
    assert {self} <= FreshOwners(active, freshIds) + {self};
    assert self in FreshOwners(active, freshIds) + {self};
    |FreshOwners(active, freshIds) + {self}|
  }

  function FairShareTarget(shards: nat, workers: int): (r: nat)
    ensures shards > 0 ==> r >= 1
    ensures workers >= 1 ==> shards <= r * workers < shards + workers
  {
    if shards == 0 then 0
    else
      var w := if workers < 1 then 1 else workers;
      (shards + w - 1) / w
  }

  function Load(active: seq<Lease>, freshIds: set<string>, owner: string): nat {
    |Keep(active, IsLoadOf(owner, freshIds))|
  }

  /** The peers whose load exceeds `target`. */
  predicate Overloaded(active: seq<Lease>, in_: PlanInput, target: nat, o: string) {
    o != "" && o != in_.self && Load(active, in_.freshIds, o) > target
  }

  /** The steal victim: the heaviest overloaded peer, lowest id on ties. */
  ghost predicate IsVictim(active: seq<Lease>, in_: PlanInput, target: nat, o: string) {
    && Overloaded(active, in_, target, o)
    && (forall p :: Overloaded(active, in_, target, p) ==>
      Load(active, in_.freshIds, p) < Load(active, in_.freshIds, o)
      || (Load(active, in_.freshIds, p) == Load(active, in_.freshIds, o) && AtMost(o, p)))
  }

  /** What pickStealTarget must answer for the peer it picked. */
  function LowestCandidate(active: seq<Lease>, in_: PlanInput, victim: string): string {
    var candidates := Sort(Ids(Keep(active, IsCandidate(victim, in_.freshIds, in_.drained))));
    if candidates == [] then "" else candidates[0]
  }

  ghost predicate IsSteal(active: seq<Lease>, in_: PlanInput, target: nat, steal: string) {
    if exists o :: Overloaded(active, in_, target, o)
    then exists o :: IsVictim(active, in_, target, o) && steal == LowestCandidate(active, in_, o)
    else steal == ""
  }

  function Target(in_: PlanInput): nat {
    var active := Active(in_.leases);
    FairShareTarget(|active|, Workers(active, in_.freshIds, in_.self))
  }

  function Mine(in_: PlanInput): seq<string> {
    Sort(Ids(Keep(Active(in_.leases), IsOwned(in_.owned))))
  }

  function Free(in_: PlanInput): seq<Lease> {
    Keep(Active(in_.leases), IsFree(in_.self, in_.freshIds, in_.drained, in_.owned))
  }

  function FirstFree(free: seq<Lease>, want: nat): seq<Lease> {
    if want <= |free| then free[..want] else free
  }

  /** `r` is the plan of one pass over the snapshot `in_`. */
  ghost predicate IsPlan(in_: PlanInput, r: PlanResult) {
    var mine, target, free := Mine(in_), Target(in_), Free(in_);
    if |mine| > target then r == NO_ACTION.(release := mine[target..])
    else
      var want := target - |mine|;
      if want == 0 then r == NO_ACTION
      else
        && r.release == []
        && r.acquire == Sort(Ids(FirstFree(free, want)))
        && (if |free| >= want then r.steal == "" else IsSteal(Active(in_.leases), in_, target, r.steal))
  }

  // ---------------------------------------------------------------- the code

  method ActiveShards(leases: seq<Lease>) returns (out: seq<Lease>)
    ensures out == Active(leases)
  {
    out := [];
    for i := 0 to |leases|
      invariant out == Active(leases[..i])
    {
      KeepSnoc(leases[..i], leases[i], IsActive);
      assert leases[..i + 1] == leases[..i] + [leases[i]];
      if leases[i].checkpoint != SHARD_END {
        out := out + [leases[i]];
      }
    }
    assert leases[..|leases|] == leases;
  }

  method ActiveWorkers(active: seq<Lease>, freshIds: set<string>, self: string) returns (n: nat)
    ensures n == Workers(active, freshIds, self)
  {
    var owners := {self};
    for i := 0 to |active|
      invariant owners == FreshOwners(active[..i], freshIds) + {self}
    {
      assert active[..i + 1] == active[..i] + [active[i]];
      if active[i].owner != "" && active[i].shardId in freshIds {
        owners := owners + {active[i].owner};
      }
    }
    assert active[..|active|] == active;
    n := |owners|;
  }

  method OwnedActive(active: seq<Lease>, owned: set<string>) returns (out: seq<string>)
    ensures out == Ids(Keep(active, IsOwned(owned)))
  {
    out := [];
    for i := 0 to |active|
      invariant out == Ids(Keep(active[..i], IsOwned(owned)))
    {
      KeepSnoc(active[..i], active[i], IsOwned(owned));
      assert active[..i + 1] == active[..i] + [active[i]];
      if active[i].shardId in owned {
        out := out + [active[i].shardId];
      }
    }
    assert active[..|active|] == active;
  }

  /** The loads of the fresh peers, as the counts map. */
  method CountLoads(active: seq<Lease>, in_: PlanInput) returns (counts: map<string, nat>)
    ensures forall o :: o in counts <==> o != "" && o != in_.self && Load(active, in_.freshIds, o) > 0
    ensures forall o :: o in counts ==> counts[o] == Load(active, in_.freshIds, o)
  {
    counts := map[];
    for i := 0 to |active|
      invariant forall o :: o in counts <==> o != "" && o != in_.self && Load(active[..i], in_.freshIds, o) > 0
      invariant forall o :: o in counts ==> counts[o] == Load(active[..i], in_.freshIds, o)
    {
      assert active[..i + 1] == active[..i] + [active[i]];
      forall o ensures Load(active[..i + 1], in_.freshIds, o)
        == Load(active[..i], in_.freshIds, o) + if active[i].owner == o && active[i].shardId in in_.freshIds then 1 else 0 {
        KeepSnoc(active[..i], active[i], IsLoadOf(o, in_.freshIds));
      }
      var l := active[i];
      if l.owner != "" && l.owner != in_.self && l.shardId in in_.freshIds {
        var previous := if l.owner in counts then counts[l.owner] else 0;
        counts := counts[l.owner := previous + 1];
      }
    }
    assert active[..|active|] == active;
  }

  method SortedKeys(counts: map<string, nat>) returns (owners: seq<string>)
    ensures Sorted(owners) && (forall o :: o in owners <==> o in counts)
  {
    owners := [];
    var pending := counts.Keys;
    while pending != {}
      invariant pending <= counts.Keys
      invariant forall o :: o in owners <==> o in counts && o !in pending
      decreases pending
    {
      var o :| o in pending;
      pending := pending - {o};
      owners := owners + [o];
    }
    SortSorted(owners);
    forall o ensures o in Sort(owners) <==> o in owners {
      SortMember(owners, o);
    }
    owners := Sort(owners);
  }

  /** The scan of pickStealTarget over the sorted owners. */
  method HeaviestPeer(counts: map<string, nat>, target: nat) returns (bestOwner: string)
    requires "" !in counts
    ensures bestOwner == "" ==> forall o :: o in counts ==> counts[o] <= target
    ensures bestOwner != "" ==> bestOwner in counts && counts[bestOwner] > target
    ensures bestOwner != "" ==> forall o :: o in counts ==>
      counts[o] < counts[bestOwner] || (counts[o] == counts[bestOwner] && AtMost(bestOwner, o))
  {
    var owners := SortedKeys(counts);
    var bestCount := target;
    bestOwner := "";
    for i := 0 to |owners|
      invariant bestOwner == "" ==> bestCount == target
      invariant bestOwner != "" ==> bestOwner in owners[..i] && counts[bestOwner] == bestCount > target
      invariant forall k :: 0 <= k < i ==> counts[owners[k]] <= bestCount
      invariant bestOwner != "" ==>
        forall k :: 0 <= k < i && counts[owners[k]] == bestCount ==> AtMost(bestOwner, owners[k])
    {
      if counts[owners[i]] > bestCount {
        BeforeTotal(owners[i], owners[i]);
        bestCount, bestOwner := counts[owners[i]], owners[i];
      }
    }
    forall o | o in counts ensures exists k :: 0 <= k < |owners| && owners[k] == o {
      assert o in owners;
    }
  }

  method Candidates(active: seq<Lease>, in_: PlanInput, owner: string) returns (candidates: seq<string>)
    ensures candidates == Ids(Keep(active, IsCandidate(owner, in_.freshIds, in_.drained)))
  {
    candidates := [];
    for i := 0 to |active|
      invariant candidates == Ids(Keep(active[..i], IsCandidate(owner, in_.freshIds, in_.drained)))
    {
      KeepSnoc(active[..i], active[i], IsCandidate(owner, in_.freshIds, in_.drained));
      assert active[..i + 1] == active[..i] + [active[i]];
      if active[i].owner == owner && active[i].shardId in in_.freshIds && active[i].shardId in in_.drained {
        candidates := candidates + [active[i].shardId];
      }
    }
    assert active[..|active|] == active;
  }

  method PickStealTarget(active: seq<Lease>, in_: PlanInput, target: nat) returns (steal: string)
    ensures IsSteal(active, in_, target, steal)
  {
    var counts := CountLoads(active, in_);
    var bestOwner := HeaviestPeer(counts, target);
    if bestOwner == "" {
      assert forall o :: Overloaded(active, in_, target, o) ==> o in counts;
      return "";
    }
    assert IsVictim(active, in_, target, bestOwner);
    var candidates := Candidates(active, in_, bestOwner);
    if |candidates| == 0 {
      return "";
    }
    candidates := Sort(candidates);
    steal := candidates[0];
  }

  /** Where this worker stands: the active rows, its fair share, and what it holds. */
  method Standing(in_: PlanInput) returns (active: seq<Lease>, target: nat, myShards: seq<string>)
    ensures active == Active(in_.leases) && target == Target(in_) && myShards == Mine(in_)
  {
    active := ActiveShards(in_.leases);
    var workers := ActiveWorkers(active, in_.freshIds, in_.self);
    target := FairShareTarget(|active|, workers);
    myShards := OwnedActive(active, in_.owned);
    myShards := Sort(myShards);
  }

  method Plan(in_: PlanInput) returns (r: PlanResult)
    ensures IsPlan(in_, r)
  {
    var active, target, myShards := Standing(in_);
    if |myShards| > target {
      return PlanResult([], myShards[target..], "");
    }
    var want := target - |myShards|;
    if want <= 0 {
      return PlanResult([], [], "");
    }
    var acquire := AcquirePass(active, in_, want);
    acquire := Sort(acquire);
    if |acquire| >= want {
      return PlanResult(acquire, [], "");
    }
    var steal := PickStealTarget(active, in_, target);
    return PlanResult(acquire, [], steal);
  }

  /** The loop of Plan that collects free shards until it has `want` of them. */
  method AcquirePass(active: seq<Lease>, in_: PlanInput, want: nat) returns (acquire: seq<string>)
    ensures acquire == Ids(FirstFree(Keep(active, IsFree(in_.self, in_.freshIds, in_.drained, in_.owned)), want))
  {
    acquire := [];
    var p := IsFree(in_.self, in_.freshIds, in_.drained, in_.owned);
    var i := 0;
    while i < |active| && |acquire| < want
      invariant 0 <= i <= |active|
      invariant acquire == Ids(Keep(active[..i], p)) && |acquire| <= want
    {
      KeepSnoc(active[..i], active[i], p);
      assert active[..i + 1] == active[..i] + [active[i]];
      var l := active[i];
      i := i + 1;
      if l.shardId in in_.owned || l.shardId !in in_.drained {
        continue;
      }
      if l.owner == "" || l.owner == in_.self || l.shardId !in in_.freshIds {
        acquire := acquire + [l.shardId];
      }
    }
    assert active == active[..i] + active[i..];
    KeepConcat(active[..i], active[i..], p);
    assert Keep(active, p) == Keep(active[..i], p) + Keep(active[i..], p);
    if i == |active| {
      assert active[i..] == [];
    }
  }
}
