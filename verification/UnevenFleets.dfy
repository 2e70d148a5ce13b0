/** How even a settled fleet is (docs/adr/0008-leaderless-fair-share-rebalancing.md). For which
    numbers of shards and live workers every resting point of the planner leaves no two workers,
    idle ones included, more than one shard apart; an uneven resting point for all others. */
module UnevenFleets {
  import opened Sequences
  import opened LeaseStore
  import opened Taker
  import opened Rebalance

  // ------------------------------------------------------------ names to count with

  function Name(n: nat): (s: string)
    ensures |s| == n + 1
  {
    seq(n + 1, _ => 'x')
  }

  function Names(lo: nat, hi: nat): set<string> {
    set n | lo <= n < hi :: Name(n)
  }

  lemma NameOf(n: nat, m: nat)
    requires Name(n) == Name(m)
    ensures n == m
  {
    assert |Name(n)| == n + 1;
  }

  lemma NameIn(n: nat, lo: nat, hi: nat)
    ensures Name(n) in Names(lo, hi) <==> lo <= n < hi
  {
    if Name(n) in Names(lo, hi) {
      var m :| lo <= m < hi && Name(m) == Name(n);
      NameOf(m, n);
    }
  }

  lemma {:induction false} NamesCount(lo: nat, hi: nat)
    requires lo <= hi
    ensures |Names(lo, hi)| == hi - lo
  {
    if lo < hi {
      NamesCount(lo, hi - 1);
      NameIn(hi - 1, lo, hi - 1);
      assert Names(lo, hi) == Names(lo, hi - 1) + {Name(hi - 1)};
    } else {
      assert Names(lo, hi) == {};
    }
  }

  /** `workers` distinct worker ids. */
  function Staff(workers: nat): (ws: seq<string>)
    ensures |ws| == workers && forall i :: 0 <= i < workers ==> ws[i] == Name(i)
  {
    seq(workers, i requires 0 <= i < workers => Name(i))
  }

  lemma StaffLive(own: Ownership, owners: nat, workers: nat)
    requires Owners(own) == Names(0, owners) && owners <= workers
    ensures Live(own, Staff(workers))
  {
    var ws := Staff(workers);
    forall i, j | 0 <= i < j < workers ensures ws[i] != ws[j] {
      if Name(i) == Name(j) {
        NameOf(i, j);
      }
    }
    forall o | o in Owners(own) ensures o in ws {
      var i :| 0 <= i < owners && Name(i) == o;
      assert ws[i] == o;
    }
  }

  // ------------------------------------------------------------ fleets by dealing

  /** Shard number `n` belongs to worker number `who(n)`. */
  function Dealt(shards: nat, who: nat -> nat): Ownership {
    map s | s in Names(0, shards) :: Name(who(|s| - 1))
  }

  lemma DealtAt(shards: nat, who: nat -> nat, n: nat)
    ensures Name(n) in Dealt(shards, who) <==> n < shards
    ensures n < shards ==> Dealt(shards, who)[Name(n)] == Name(who(n))
  {
    NameIn(n, 0, shards);
  }

  lemma OwnsOf(shards: nat, who: nat -> nat, w: nat, s: string)
    ensures s in Owns(Dealt(shards, who), Name(w)) <==> exists n :: 0 <= n < shards && s == Name(n) && who(n) == w
  {
    var own := Dealt(shards, who);
    if s in Owns(own, Name(w)) {
      var n :| 0 <= n < shards && Name(n) == s;
      DealtAt(shards, who, n);
      NameOf(who(n), w);
    }
    if n :| 0 <= n < shards && s == Name(n) && who(n) == w {
      DealtAt(shards, who, n);
    }
  }

  lemma RangeOf(shards: nat, who: nat -> nat, w: nat, lo: nat, hi: nat)
    requires lo <= hi <= shards
    requires forall n :: 0 <= n < shards ==> (who(n) == w <==> lo <= n < hi)
    ensures |Owns(Dealt(shards, who), Name(w))| == hi - lo
  {
    forall s
      ensures s in Owns(Dealt(shards, who), Name(w)) <==> s in Names(lo, hi)
    {
      OwnsOf(shards, who, w, s);
    }
    assert Owns(Dealt(shards, who), Name(w)) == Names(lo, hi);
    NamesCount(lo, hi);
  }

  lemma WithinBlock(shards: nat, who: nat -> nat, w: nat, first: nat, lo: nat, size: nat)
    requires forall n :: 0 <= n < shards && who(n) == w ==> n == first || lo <= n < lo + size
    ensures |Owns(Dealt(shards, who), Name(w))| <= 1 + size
  {
    var owned := Owns(Dealt(shards, who), Name(w));
    forall s | s in owned
      ensures s in {Name(first)} + Names(lo, lo + size)
    {
      OwnsOf(shards, who, w, s);
    }
    OneAndBlock(Name(first), lo, size, owned);
  }

  lemma OneAndBlock(x: string, lo: nat, size: nat, owned: set<string>)
    requires owned <= {x} + Names(lo, lo + size)
    ensures |owned| <= 1 + size
  {
    NamesCount(lo, lo + size);
    CardinalityMonotone(owned, {x} + Names(lo, lo + size));
    if x in Names(lo, lo + size) {
      assert {x} + Names(lo, lo + size) == Names(lo, lo + size);
    }
  }

  lemma AllAssigned(shards: nat, who: nat -> nat)
    ensures |Dealt(shards, who)| == shards && "" !in Dealt(shards, who)
    ensures Owns(Dealt(shards, who), "") == {}
  {
    var own := Dealt(shards, who);
    NamesCount(0, shards);
    assert own.Keys == Names(0, shards) && |own| == |own.Keys|;
  }

  ghost predicate Busy(shards: nat, who: nat -> nat, w: nat) {
    exists n :: 0 <= n < shards && who(n) == w
  }

  lemma DealtOwners(shards: nat, who: nat -> nat, owners: nat)
    requires forall n :: 0 <= n < shards ==> who(n) < owners
    requires forall w :: 0 <= w < owners ==> Busy(shards, who, w)
    ensures Owners(Dealt(shards, who)) == Names(0, owners) && |Owners(Dealt(shards, who))| == owners
  {
    var own := Dealt(shards, who);
    forall o | o in Owners(own)
      ensures o in Names(0, owners)
    {
      var s :| s in own && own[s] == o;
      var n :| 0 <= n < shards && Name(n) == s;
      DealtAt(shards, who, n);
    }
    forall o | o in Names(0, owners)
      ensures o in Owners(own)
    {
      var w :| 0 <= w < owners && Name(w) == o;
      assert Busy(shards, who, w);
      var n :| 0 <= n < shards && who(n) == w;
      DealtAt(shards, who, n);
      assert own[Name(n)] == o && o != "";
    }
    NamesCount(0, owners);
  }

  lemma Block(e: nat, size: nat, j: nat)
    requires size >= 1 && e / size == j
    ensures j * size <= e < j * size + size
  {
  }

  lemma BlockIndex(e: nat, size: nat, blocks: nat)
    requires size >= 1 && e < blocks * size
    ensures e / size < blocks
  {
    if e / size >= blocks {
      Block(e, size, e / size);
      Scale(blocks, e / size, size);
    }
  }

  lemma Scale(a: int, b: int, c: nat)
    requires a <= b
    ensures a * c <= b * c
  {
  }

  /** Deal to `others` workers: one shard each first, then blocks up to `share`. */
  function Spread(n: nat, others: nat, share: nat): nat {
    if n < others || share < 2 then n else (n - others) / (share - 1)
  }

  /** The shards worker `j` can have: its first, and one block. */
  lemma SpreadBlock(n: nat, others: nat, share: nat, j: nat)
    requires share >= 2 && Spread(n, others, share) == j
    ensures var lo := others + j * (share - 1);
      n == j || lo <= n < lo + (share - 1)
  {
    if n >= others {
      Block(n - others, share - 1, j);
    }
  }

  lemma SpreadInRange(n: nat, others: nat, share: nat)
    requires share >= 2 && n < others + others * (share - 1)
    ensures Spread(n, others, share) < others
  {
    if n >= others {
      BlockIndex(n - others, share - 1, others);
    }
  }

  lemma SpreadOwners(shards: nat, owners: nat, share: nat)
    requires share >= 2 && owners <= shards <= owners * share
    ensures var own := Dealt(shards, (n: nat) => Spread(n, owners, share));
      Owners(own) == Names(0, owners) && |Owners(own)| == owners
  {
    var who := (n: nat) => Spread(n, owners, share);
    assert owners * share == owners + owners * (share - 1);
    forall n | 0 <= n < shards ensures who(n) < owners {
      SpreadInRange(n, owners, share);
    }
    forall w | 0 <= w < owners ensures Busy(shards, who, w) {
      assert who(w) == w;
    }
    DealtOwners(shards, who, owners);
  }

  /** All of `shards` dealt to `owners` workers, each with one at least and `share` at most. */
  lemma SpreadFleet(shards: nat, owners: nat, share: nat) returns (own: Ownership)
    requires share >= 2 && owners <= shards <= owners * share
    ensures |own| == shards && "" !in own && Owns(own, "") == {}
    ensures Owners(own) == Names(0, owners) && |Owners(own)| == owners && NobodyAbove(own, share)
  {
    var who := (n: nat) => Spread(n, owners, share);
    own := Dealt(shards, who);
    AllAssigned(shards, who);
    SpreadOwners(shards, owners, share);
    forall o | o in Owners(own) ensures |Owns(own, o)| <= share {
      var w :| 0 <= w < owners && Name(w) == o;
      SpreadLoad(shards, owners, share, w);
    }
  }

  lemma SpreadLoad(shards: nat, owners: nat, share: nat, w: nat)
    requires share >= 2
    ensures |Owns(Dealt(shards, (n: nat) => Spread(n, owners, share)), Name(w))| <= share
  {
    Scale(0, w, share - 1);
    var lo: nat := owners + w * (share - 1);
    forall n | 0 <= n < shards && Spread(n, owners, share) == w
      ensures n == w || lo <= n < lo + (share - 1)
    {
      SpreadBlock(n, owners, share, w);
    }
    WithinBlock(shards, (n: nat) => Spread(n, owners, share), w, w, lo, share - 1);
  }

  /** Worker 0 has `fair - 2` shards, worker 1 a full share, the other `rest` workers are dealt
      theirs. */
  function Skewed(n: nat, fair: nat, rest: nat): nat {
    if n < fair - 2 then 0
    else if n < 2 * fair - 2 then 1
    else 2 + Spread(n - (if fair == 0 then 0 else 2 * fair - 2), rest, fair)
  }

  lemma SkewedLoad(shards: nat, fair: nat, rest: nat, w: nat)
    requires fair >= 3 && 2 * fair - 2 <= shards
    ensures var load := |Owns(Dealt(shards, (n: nat) => Skewed(n, fair, rest)), Name(w))|;
      load <= fair && (w == 0 ==> load == fair - 2) && (w == 1 ==> load == fair)
  {
    var who := (n: nat) => Skewed(n, fair, rest);
    if w == 0 {
      RangeOf(shards, who, 0, 0, fair - 2);
    } else if w == 1 {
      RangeOf(shards, who, 1, fair - 2, 2 * fair - 2);
    } else {
      var j, base := w - 2, 2 * fair - 2;
      Scale(0, j, fair - 1);
      var lo: nat := base + rest + j * (fair - 1);
      forall n | 0 <= n < shards && who(n) == w
        ensures n == base + j || lo <= n < lo + (fair - 1)
      {
        SpreadBlock(n - base, rest, fair, j);
      }
      WithinBlock(shards, who, w, base + j, lo, fair - 1);
    }
  }

  lemma SkewedOwners(shards: nat, fair: nat, rest: nat)
    requires fair >= 3 && 2 * fair - 2 + rest <= shards <= 2 * fair - 2 + rest + rest * (fair - 1)
    ensures var own := Dealt(shards, (n: nat) => Skewed(n, fair, rest));
      Owners(own) == Names(0, rest + 2) && |Owners(own)| == rest + 2
  {
    var who := (n: nat) => Skewed(n, fair, rest);
    var base := 2 * fair - 2;
    forall n | 0 <= n < shards ensures who(n) < rest + 2 {
      if n >= base {
        SpreadInRange(n - base, rest, fair);
      }
    }
    forall w | 0 <= w < rest + 2 ensures Busy(shards, who, w) {
      var n := if w == 0 then 0 else if w == 1 then fair - 2 else base + (w - 2);
      assert who(n) == w;
    }
    DealtOwners(shards, who, rest + 2);
  }

  /** A fleet of `rest + 2` owners, all within the fair share, one of them two below it. */
  lemma SkewedFleet(shards: nat, fair: nat, rest: nat) returns (own: Ownership)
    requires fair >= 3 && 2 * fair - 2 + rest <= shards <= 2 * fair - 2 + rest + rest * (fair - 1)
    ensures |own| == shards && "" !in own && Owns(own, "") == {}
    ensures Owners(own) == Names(0, rest + 2) && |Owners(own)| == rest + 2 && NobodyAbove(own, fair)
    ensures |Owns(own, Name(0))| == fair - 2 && |Owns(own, Name(1))| == fair
  {
    var who := (n: nat) => Skewed(n, fair, rest);
    own := Dealt(shards, who);
    AllAssigned(shards, who);
    SkewedOwners(shards, fair, rest);
    SkewedLoad(shards, fair, rest, 0);
    SkewedLoad(shards, fair, rest, 1);
    forall o | o in Owners(own) ensures |Owns(own, o)| <= fair {
      var w :| 0 <= w < rest + 2 && Name(w) == o;
      SkewedLoad(shards, fair, rest, w);
    }
  }

  lemma Product(fair: nat, rest: nat)
    requires fair >= 3
    ensures fair * (rest + 2) == fair * rest + 2 * fair
    ensures rest * (fair - 1) == fair * rest - rest
    ensures fair * rest >= 3 * rest
  {
    Scale(3, fair, rest);
  }

  lemma RoomFor(shards: int, fair: int, rest: int, product: int)
    requires fair >= 3 && rest >= -1 && product >= 3 * rest
    requires shards <= product + 2 * fair - 2 && product + 2 * fair < shards + rest + 2
    ensures rest >= 1 && 2 * fair - 2 + rest <= shards <= 2 * fair - 2 + product
  {
  }

  lemma Room(shards: nat, fair: nat, owners: nat)
    requires fair >= 3 && owners >= 1 && fair == FairShareTarget(shards, owners)
    requires fair * owners - shards >= 2
    ensures owners >= 3
    ensures var rest := owners - 2;
      2 * fair - 2 + rest <= shards <= 2 * fair - 2 + rest + rest * (fair - 1)
  {
    assert shards <= fair * owners < shards + owners;
    if owners >= 2 {
      Product(fair, owners - 2);
      RoomFor(shards, fair, owners - 2, fair * (owners - 2));
    }
  }

  // ------------------------------------------------------------ the fair share as workers join

  lemma Cancel(a: int, b: int, c: nat)
    requires a * c < (b + 1) * c
    ensures a <= b
  {
    if a >= b + 1 {
      Scale(b + 1, a, c);
    }
  }

  /** The fair share is the least load that lets `workers` hold everything. */
  lemma ShareIsLeast(shards: nat, workers: nat, load: nat)
    requires workers >= 1 && shards <= workers * load
    ensures FairShareTarget(shards, workers) <= load
  {
    var fair := FairShareTarget(shards, workers);
    assert (load + 1) * workers == workers * load + workers;
    Cancel(fair, load, workers);
  }

  lemma ShareFalls(shards: nat, workers: nat)
    requires workers >= 1
    ensures FairShareTarget(shards, workers + 1) <= FairShareTarget(shards, workers)
  {
    var fair := FairShareTarget(shards, workers);
    assert (workers + 1) * fair == workers * fair + fair;
    ShareIsLeast(shards, workers + 1, fair);
  }

  lemma ShareOfCrowd(shards: nat, workers: nat)
    requires 1 <= shards <= workers
    ensures FairShareTarget(shards, workers) == 1
  {
    ShareIsLeast(shards, workers, 1);
  }

  /** Up to `workers` of them, each worker that joins while shards are to spare lowers the share. */
  predicate EachJoinerCounts(shards: nat, workers: nat) {
    forall k :: 1 <= k < workers && k < shards ==> Lowers(shards, k)
  }

  predicate Lowers(shards: nat, k: nat) {
    FairShareTarget(shards, k + 1) < FairShareTarget(shards, k)
  }

  // ------------------------------------------------------------ settled fleets

  /** `own` is a point at which a fleet of `workers` live workers and `shards` shards, all drained,
      comes to rest: no planner pass of any of them does anything. */
  ghost predicate Resting(own: Ownership, ws: seq<string>, shards: nat, workers: nat) {
    && |own| == shards && |ws| == workers && "" !in own
    && Live(own, ws) && Quiescent(own, ws, own.Keys)
  }

  /** No two live workers differ by more than one shard, an idle one holding none. */
  ghost predicate EvenAcross(own: Ownership, ws: seq<string>) {
    forall o, p :: o in ws && p in ws ==> |Owns(own, o)| <= |Owns(own, p)| + 1
  }

  lemma LoadsAddUp(own: Ownership, k: nat)
    requires Owns(own, "") == {} && NobodyAbove(own, k)
    ensures |own| <= |Owners(own)| * k
  {
    var os := Enumerate(Owners(own));
    OwnedAtMost(own, os, k);
    assert |own| == |own.Keys|;
    forall s | s in own ensures s in OwnedBy(own, os) {
      assert s !in Owns(own, "") && own[s] in Owners(own);
    }
    assert own.Keys == OwnedBy(own, os);
  }

  lemma OwnersAtMostShards(own: Ownership)
    ensures |Owners(own)| <= |own|
  {
    var os := Enumerate(Owners(own));
    forall o | o in os ensures |Owns(own, o)| >= 1 {
      OwnerIff(own, o);
    }
    FullHouse(own, os, 1);
    ExcessBound(own, os);
  }

  lemma AllBusyEven(own: Ownership, ws: seq<string>)
    requires Fair(own) && forall w :: w in ws ==> w in Owners(own)
    requires Slack(own) <= 1 || FairShareTarget(|own|, |Owners(own)|) <= 2
    ensures EvenAcross(own, ws)
  {
    FairIsEven(own);
  }

  /** With an idle worker about, everybody holds at most one shard. */
  lemma IdleMeansSingles(own: Ownership, workers: nat)
    requires Fair(own) && |Owners(own)| < workers && EachJoinerCounts(|own|, workers)
    requires NobodyAbove(own, FairShareTarget(|own|, |Owners(own)| + 1))
    ensures NobodyAbove(own, 1)
  {
    var n, k := |own|, |Owners(own)|;
    LoadsAddUp(own, FairShareTarget(n, k + 1));
    OwnersAtMostShards(own);
    if k >= 1 {
      ShareIsLeast(n, k, FairShareTarget(n, k + 1));
      assert !Lowers(n, k);
      assert n == k;
      ShareOfCrowd(n, k + 1);
    }
  }

  lemma OwnersAmong(own: Ownership, ws: seq<string>)
    requires Live(own, ws)
    ensures |Owners(own)| <= |ws|
    ensures |Owners(own)| == |ws| ==> forall w :: w in ws ==> w in Owners(own)
    ensures (forall w :: w in ws ==> w in Owners(own)) ==> |Owners(own)| == |ws|
  {
    var all := set w | w in ws;
    SetOfSeq(ws);
    CardinalityMonotone(Owners(own), all);
    if w :| w in ws && w !in Owners(own) {
      CardinalityMonotone(Owners(own) + {w}, all);
    } else {
      assert Owners(own) == all;
    }
  }

  lemma RestingIsEven(own: Ownership, ws: seq<string>, shards: nat, workers: nat)
    requires workers >= 1 && Resting(own, ws, shards, workers) && EachJoinerCounts(shards, workers)
    requires FairShareTarget(shards, workers) * workers - shards <= 1 || FairShareTarget(shards, workers) <= 2
    ensures EvenAcross(own, ws)
  {
    QuiescentIff(own, ws, own.Keys);
    OwnersAmong(own, ws);
    if forall w :: w in ws ==> w in Owners(own) {
      AllBusyEven(own, ws);
    } else {
      IdleMeansSingles(own, workers);
      forall o | o in ws ensures |Owns(own, o)| <= 1 {
        OwnerIff(own, o);
      }
    }
  }

  /** When a share does not fall for the next worker, that worker idles beside bigger ones. */
  lemma IdleRest(shards: nat, workers: nat, k: nat) returns (own: Ownership, ws: seq<string>)
    requires 1 <= k < workers && k < shards && !Lowers(shards, k)
    ensures Resting(own, ws, shards, workers) && !EvenAcross(own, ws)
  {
    var share := FairShareTarget(shards, k);
    ShareFalls(shards, k);
    assert share * k == k * share;
    if share <= 1 {
      Scale(share, 1, k);
    }
    own := SpreadFleet(shards, k, share);
    ws := Staff(workers);
    StaffLive(own, k, workers);
    QuiescentIff(own, ws, own.Keys);
    IdleBesideTwo(own, ws, k);
  }

  lemma IdleBesideTwo(own: Ownership, ws: seq<string>, k: nat)
    requires Live(own, ws) && |Owners(own)| == k < |ws| && k < |own| && Owns(own, "") == {}
    ensures !EvenAcross(own, ws)
  {
    OwnersAmong(own, ws);
    var idle :| idle in ws && idle !in Owners(own);
    OwnerIff(own, idle);
    if EvenAcross(own, ws) {
      LoadsAddUp(own, 1);
    }
  }

  lemma SkewedRest(shards: nat, workers: nat) returns (own: Ownership, ws: seq<string>)
    requires workers >= 1
    requires FairShareTarget(shards, workers) * workers - shards >= 2 && FairShareTarget(shards, workers) >= 3
    ensures Resting(own, ws, shards, workers) && !EvenAcross(own, ws)
  {
    var fair := FairShareTarget(shards, workers);
    Room(shards, fair, workers);
    own := SkewedFleet(shards, fair, workers - 2);
    ws := Staff(workers);
    StaffLive(own, workers, workers);
    OwnersAmong(own, ws);
    QuiescentIff(own, ws, own.Keys);
    assert ws[0] == Name(0) && ws[1] == Name(1);
  }

  /** "As even as possible" is true of `workers` live workers and `shards` shards, however they came
      to rest, exactly when every worker that joins while shards are to spare lowers the fair share,
      and at most one shard is missing from full shares or a full share is at most two shards. */
  lemma EvenIff(shards: nat, workers: nat)
    requires workers >= 1
    ensures (forall own: Ownership, ws: seq<string> :: Resting(own, ws, shards, workers) ==> EvenAcross(own, ws))
      <==>
      && EachJoinerCounts(shards, workers)
      && (FairShareTarget(shards, workers) * workers - shards <= 1 || FairShareTarget(shards, workers) <= 2)
  {
    if !EachJoinerCounts(shards, workers) {
      var k :| 1 <= k < workers && k < shards && !Lowers(shards, k);
      var own, ws := IdleRest(shards, workers, k);
    } else if FairShareTarget(shards, workers) * workers - shards <= 1 || FairShareTarget(shards, workers) <= 2 {
      forall own: Ownership, ws: seq<string> | Resting(own, ws, shards, workers)
        ensures EvenAcross(own, ws)
      {
        RestingIsEven(own, ws, shards, workers);
      }
    } else {
      var own, ws := SkewedRest(shards, workers);
    }
  }

  // ------------------------------------------------------------ two resting points

  const SEVEN: Ownership := map["1" := "A", "2" := "B", "3" := "B", "4" := "B", "5" := "C", "6" := "C", "7" := "C"]

  const FOUR: Ownership := map["1" := "A", "2" := "A", "3" := "B", "4" := "B"]

  lemma AtRest(own: Ownership, ws: seq<string>) returns (leases: seq<Lease>)
    requires Settled(own, ws) && "" !in ws
    ensures Represents(leases, own) && |Active(leases)| == |own|
    ensures forall w :: w in ws ==> IsPlan(Snapshot(leases, own, w, own.Keys), NO_ACTION)
  {
    leases := RowsOf(own);
    ActiveCount(leases, own);
    forall w | w in ws ensures IsPlan(Snapshot(leases, own, w, own.Keys), NO_ACTION) {
      SettledIsBelow(own, ws, w);
      QuietBelow(own, w, own.Keys, leases);
    }
  }

  lemma SevenShards()
    ensures |SEVEN| == 7 && Owners(SEVEN) == {"A", "B", "C"}
  {
    assert SEVEN.Keys == {"1", "2", "3", "4", "5", "6", "7"} && |SEVEN| == |SEVEN.Keys|;
    assert SEVEN["1"] == "A" && SEVEN["2"] == "B" && SEVEN["5"] == "C";
  }

  lemma SevenLoads()
    ensures |SEVEN| == 7 && Owns(SEVEN, "") == {} && Owners(SEVEN) == {"A", "B", "C"}
    ensures |Owns(SEVEN, "A")| == 1 && |Owns(SEVEN, "B")| == 3 && |Owns(SEVEN, "C")| == 3
  {
    SevenShards();
    assert Owns(SEVEN, "A") == {"1"};
    assert Owns(SEVEN, "B") == {"2", "3", "4"};
    assert Owns(SEVEN, "C") == {"5", "6", "7"};
  }

  lemma SettledBy(own: Ownership, ws: seq<string>, shards: nat, owners: nat, k: nat)
    requires Owns(own, "") == {} && |own| == shards && |Owners(own)| == owners && NobodyAbove(own, k)
    requires k <= FairShareTarget(shards, owners)
    requires (forall w :: w in ws ==> w in Owners(own)) || k <= FairShareTarget(shards, owners + 1)
    ensures Settled(own, ws)
  {
  }

  lemma SevenBelow()
    ensures |Owners(SEVEN)| == 3 && NobodyAbove(SEVEN, 3)
  {
    SevenLoads();
    forall o | o in Owners(SEVEN) ensures |Owns(SEVEN, o)| <= 3 {
      assert o in {"A", "B", "C"};
    }
  }

  lemma SevenSettled()
    ensures Settled(SEVEN, ["A", "B", "C"])
  {
    SevenLoads();
    SevenBelow();
    forall w | w in ["A", "B", "C"] ensures w in Owners(SEVEN) {
      assert w in {"A", "B", "C"};
    }
    SettledBy(SEVEN, ["A", "B", "C"], 7, 3, 3);
  }

  /** Lease rows of seven shards among three live workers, at 1, 3 and 3, on which each of the
      three plans nothing. */
  lemma SevenAmongThree() returns (leases: seq<Lease>)
    ensures Represents(leases, SEVEN) && |Active(leases)| == 7
    ensures |Owns(SEVEN, "A")| == 1 && |Owns(SEVEN, "B")| == 3 && |Owns(SEVEN, "C")| == 3
    ensures forall w :: w in ["A", "B", "C"] ==> IsPlan(Snapshot(leases, SEVEN, w, SEVEN.Keys), NO_ACTION)
  {
    SevenLoads();
    SevenSettled();
    leases := AtRest(SEVEN, ["A", "B", "C"]);
  }

  lemma FourLoads()
    ensures |FOUR| == 4 && Owns(FOUR, "") == {} && Owners(FOUR) == {"A", "B"}
    ensures |Owns(FOUR, "A")| == 2 && |Owns(FOUR, "B")| == 2 && |Owns(FOUR, "C")| == 0
  {
    assert FOUR.Keys == {"1", "2", "3", "4"} && |FOUR| == |FOUR.Keys|;
    assert Owns(FOUR, "A") == {"1", "2"};
    assert Owns(FOUR, "B") == {"3", "4"};
    assert Owns(FOUR, "C") == {};
    assert FOUR["1"] == "A" && FOUR["3"] == "B";
  }

  lemma FourBelow()
    ensures |Owners(FOUR)| == 2 && NobodyAbove(FOUR, 2)
  {
    FourLoads();
    forall o | o in Owners(FOUR) ensures |Owns(FOUR, o)| <= 2 {
      assert o in {"A", "B"};
    }
  }

  lemma FourSettled()
    ensures Settled(FOUR, ["A", "B", "C"])
  {
    FourLoads();
    FourBelow();
    SettledBy(FOUR, ["A", "B", "C"], 4, 2, 2);
  }

  /** Lease rows of four shards among three live workers, at 2, 2 and 0, on which each of the three
      plans nothing: the idle worker computes a share of two and sees nobody above it. */
  lemma FourAmongThree() returns (leases: seq<Lease>)
    ensures Represents(leases, FOUR) && |Active(leases)| == 4
    ensures |Owns(FOUR, "A")| == 2 && |Owns(FOUR, "B")| == 2 && |Owns(FOUR, "C")| == 0
    ensures forall w :: w in ["A", "B", "C"] ==> IsPlan(Snapshot(leases, FOUR, w, FOUR.Keys), NO_ACTION)
  {
    FourLoads();
    FourSettled();
    leases := AtRest(FOUR, ["A", "B", "C"]);
  }
}
