/** Which shards a plan acquires can depend on the order the lease rows were listed in
    (internal/lease/taker.go): exactly when there are more free shards than seats to fill. */
module AcquireOrder {
  import opened Sequences
  import opened Strings
  import opened LeaseStore
  import opened Taker
  import opened TakerLemmas

  /** Every listing order of the same rows leads to the same acquisitions. */
  ghost predicate OrderBlind(in_: PlanInput) {
    forall leases, r, r' :: multiset(leases) == multiset(in_.leases) && IsPlan(in_, r) && IsPlan(in_.(leases := leases), r')
      ==> r.acquire == r'.acquire
  }

  lemma SameInputs(in_: PlanInput, leases: seq<Lease>)
    requires multiset(in_.leases) == multiset(leases)
    ensures var in' := in_.(leases := leases);
      Target(in_) == Target(in') && Mine(in_) == Mine(in') && multiset(Free(in_)) == multiset(Free(in'))
  {
    var in' := in_.(leases := leases);
    var a, a' := Active(in_.leases), Active(leases);
    KeepPermutation(in_.leases, leases, IsActive);
    SameFreshOwners(a, a', in_.freshIds);
    KeepPermutation(a, a', IsOwned(in_.owned));
    IdsPermutation(Keep(a, IsOwned(in_.owned)), Keep(a', IsOwned(in_.owned)));
    SortPermutation(Ids(Keep(a, IsOwned(in_.owned))), Ids(Keep(a', IsOwned(in_.owned))));
    KeepPermutation(a, a', IsFree(in_.self, in_.freshIds, in_.drained, in_.owned));
  }

  lemma FirstOfFew(free: seq<Lease>, want: nat)
    requires |free| <= want
    ensures FirstFree(free, want) == free
  {
    assert |free| == want ==> free[..want] == free;
  }

  lemma TakesAll(in_: PlanInput, r: PlanResult)
    requires IsPlan(in_, r)
    requires |Mine(in_)| >= Target(in_) || |Free(in_)| <= Target(in_) - |Mine(in_)|
    ensures r.acquire == if |Mine(in_)| < Target(in_) then Sort(Ids(Free(in_))) else []
  {
    if |Mine(in_)| < Target(in_) {
      FirstOfFew(Free(in_), Target(in_) - |Mine(in_)|);
    }
  }

  lemma SortedIdsSame(a: seq<Lease>, b: seq<Lease>)
    requires multiset(a) == multiset(b)
    ensures |a| == |b| && Sort(Ids(a)) == Sort(Ids(b))
  {
    assert |multiset(a)| == |a| && |multiset(b)| == |b|;
    IdsPermutation(a, b);
    SortPermutation(Ids(a), Ids(b));
  }

  /** All free shards fit: they are all taken, and sorted before anyone sees their order. */
  lemma AllFreeTaken(in_: PlanInput, leases: seq<Lease>, r: PlanResult, r': PlanResult)
    requires multiset(in_.leases) == multiset(leases)
    requires |Mine(in_)| >= Target(in_) || |Free(in_)| <= Target(in_) - |Mine(in_)|
    requires IsPlan(in_, r) && IsPlan(in_.(leases := leases), r')
    ensures r.acquire == r'.acquire
  {
    var in' := in_.(leases := leases);
    SameInputs(in_, leases);
    SortedIdsSame(Free(in_), Free(in'));
    TakesAll(in_, r);
    TakesAll(in', r');
  }

  function Takeable(in_: PlanInput): Lease -> bool {
    (l: Lease) => IsActive(l) && IsFree(in_.self, in_.freshIds, in_.drained, in_.owned)(l)
  }

  lemma {:induction false} KeepTwice(xs: seq<Lease>, p: Lease -> bool, q: Lease -> bool, both: Lease -> bool)
    requires forall x :: both(x) == (p(x) && q(x))
    ensures Keep(Keep(xs, p), q) == Keep(xs, both)
  {
    if xs != [] {
      var n := |xs| - 1;
      KeepTwice(xs[..n], p, q, both);
      KeepConcat(Keep(xs[..n], p), if p(xs[n]) then [xs[n]] else [], q);
      assert [xs[n]][..0] == [];
    }
  }

  lemma FreeIsKeep(in_: PlanInput, leases: seq<Lease>)
    ensures Free(in_.(leases := leases)) == Keep(leases, Takeable(in_))
  {
    KeepTwice(leases, IsActive, IsFree(in_.self, in_.freshIds, in_.drained, in_.owned), Takeable(in_));
  }

  /** Where the `k`-th kept row is. */
  lemma {:induction false} KeepSplit(xs: seq<Lease>, p: Lease -> bool, k: nat) returns (at: nat)
    requires k < |Keep(xs, p)|
    ensures at < |xs| && p(xs[at]) && xs[at] == Keep(xs, p)[k]
    ensures Keep(xs[..at], p) == Keep(xs, p)[..k]
  {
    var n := |xs| - 1;
    if k < |Keep(xs[..n], p)| {
      at := KeepSplit(xs[..n], p, k);
      assert xs[..n][..at] == xs[..at];
    } else {
      at := n;
    }
  }

  lemma KeepOne(x: Lease, p: Lease -> bool)
    requires p(x)
    ensures Keep([x], p) == [x]
  {
    assert [x][..0] == [];
  }

  function ToFront(xs: seq<Lease>, at: nat): seq<Lease>
    requires at < |xs|
  {
    [xs[at]] + (xs[..at] + xs[at + 1..])
  }

  lemma KeepToFront(xs: seq<Lease>, at: nat, p: Lease -> bool)
    requires at < |xs| && p(xs[at])
    ensures multiset(ToFront(xs, at)) == multiset(xs)
    ensures Keep(ToFront(xs, at), p) == [xs[at]] + (Keep(xs[..at], p) + Keep(xs[at + 1..], p))
  {
    assert xs == xs[..at] + [xs[at]] + xs[at + 1..];
    KeepOne(xs[at], p);
    KeepConcat([xs[at]], xs[..at] + xs[at + 1..], p);
    KeepConcat(xs[..at], xs[at + 1..], p);
  }

  /** Some order of `xs` puts the `want`-th kept row before the ones kept so far. */
  lemma MovedUp(xs: seq<Lease>, p: Lease -> bool, want: nat) returns (ys: seq<Lease>)
    requires 1 <= want < |Keep(xs, p)|
    ensures multiset(ys) == multiset(xs) && |Keep(ys, p)| == |Keep(xs, p)|
    ensures Keep(ys, p)[..want] == [Keep(xs, p)[want]] + Keep(xs, p)[..want - 1]
  {
    var at := KeepSplit(xs, p, want);
    ys := ToFront(xs, at);
    KeepToFront(xs, at, p);
    KeepPermutation(xs, ys, p);
    PrefixOf(xs[at], Keep(xs[..at], p), Keep(xs[at + 1..], p));
  }

  lemma PrefixOf(x: Lease, a: seq<Lease>, b: seq<Lease>)
    requires a != []
    ensures ([x] + (a + b))[..|a|] == [x] + a[..|a| - 1]
  {
  }

  /** Listing the row of the first free shard left out before all others gets it taken instead. */
  lemma Displaced(in_: PlanInput) returns (leases: seq<Lease>)
    requires |Mine(in_)| < Target(in_) && |Free(in_)| > Target(in_) - |Mine(in_)|
    ensures var in' := in_.(leases := leases); var want := Target(in_) - |Mine(in_)|;
      && multiset(leases) == multiset(in_.leases)
      && |Free(in')| == |Free(in_)| && Free(in')[..want] == [Free(in_)[want]] + Free(in_)[..want - 1]
  {
    assert in_.(leases := in_.leases) == in_;
    FreeIsKeep(in_, in_.leases);
    leases := MovedUp(in_.leases, Takeable(in_), Target(in_) - |Mine(in_)|);
    FreeIsKeep(in_, leases);
  }

  lemma ForcedPlan(in_: PlanInput) returns (r: PlanResult)
    requires |Mine(in_)| < Target(in_) && |Free(in_)| > Target(in_) - |Mine(in_)|
    ensures IsPlan(in_, r) && r.acquire == Sort(Ids(Free(in_)[..Target(in_) - |Mine(in_)|]))
  {
    r := PlanResult(Sort(Ids(Free(in_)[..Target(in_) - |Mine(in_)|])), [], "");
  }

  lemma OneLeftOut(free: seq<Lease>, want: nat)
    requires DistinctShards(free) && want < |free|
    ensures free[want].shardId !in Sort(Ids(free[..want]))
  {
    IdsMember(free[..want], free[want].shardId);
  }

  lemma OrderMatters(in_: PlanInput)
    requires DistinctShards(in_.leases)
    requires |Mine(in_)| < Target(in_) && |Free(in_)| > Target(in_) - |Mine(in_)|
    ensures !OrderBlind(in_)
  {
    var want := Target(in_) - |Mine(in_)|;
    var leases := Displaced(in_);
    var in' := in_.(leases := leases);
    SameInputs(in_, leases);
    var r := ForcedPlan(in_);
    var r' := ForcedPlan(in');
    KeepDistinctShards(in_.leases, IsActive);
    KeepDistinctShards(Active(in_.leases), IsFree(in_.self, in_.freshIds, in_.drained, in_.owned));
    OneLeftOut(Free(in_), want);
    IdsMember(Free(in')[..want], Free(in_)[want].shardId);
    assert Free(in')[..want][0] == Free(in_)[want];
    assert Free(in_)[want].shardId in r'.acquire && Free(in_)[want].shardId !in r.acquire;
  }

  /** Replicas that list the same rows in different orders plan the same acquisitions, whatever
      the order, exactly when this worker has no seat to fill or seats for every free shard. */
  lemma AcquireIgnoresOrderIff(in_: PlanInput)
    requires DistinctShards(in_.leases)
    ensures OrderBlind(in_) <==> |Mine(in_)| >= Target(in_) || |Free(in_)| <= Target(in_) - |Mine(in_)|
  {
    if |Mine(in_)| >= Target(in_) || |Free(in_)| <= Target(in_) - |Mine(in_)| {
      forall leases, r, r' | multiset(leases) == multiset(in_.leases) && IsPlan(in_, r) && IsPlan(in_.(leases := leases), r')
        ensures r.acquire == r'.acquire
      {
        AllFreeTaken(in_, leases, r, r');
      }
    } else {
      OrderMatters(in_);
    }
  }
}
