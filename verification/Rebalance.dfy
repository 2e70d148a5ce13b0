/** Convergence of planner passes in a closed fleet: fixed live workers, every owned row
    heartbeating, one pass at a time, each pass carried out before the next begins. */
module Rebalance {
  import opened Sequences
  import opened Strings
  import opened LeaseStore
  import opened Taker
  import opened TakerLemmas

  /** The owner of every active shard; "" is unowned. */
  type Ownership = map<string, string>

  function Owns(own: Ownership, o: string): set<string> {
    set s | s in own && own[s] == o
  }

  function Owners(own: Ownership): set<string> {
    set s | s in own && own[s] != "" :: own[s]
  }

  /** The table rows of the active shards are those of `own`, in any order, among any
      number of SHARD_END rows. */
  ghost predicate Represents(leases: seq<Lease>, own: Ownership) {
    && DistinctShards(leases)
    && (forall l :: l in leases && IsActive(l) ==> l.shardId in own && own[l.shardId] == l.owner)
    && (forall s :: s in own ==> exists l :: l in leases && IsActive(l) && l.shardId == s)
  }

  function Snapshot(leases: seq<Lease>, own: Ownership, w: string, drained: set<string>): PlanInput {
    PlanInput(leases, w, own.Keys - Owns(own, ""), drained, Owns(own, w))
  }

  /** The ownership after worker `w` carried `r` out. */
  function After(own: Ownership, w: string, r: PlanResult): (next: Ownership)
    ensures next.Keys == own.Keys
  {
    map s | s in own ::
      if s in r.release then ""
      else if s in r.acquire || (r.steal != "" && s == r.steal) then w
      else own[s]
  }

  /** One pass of `w` that plans `r`. */
  ghost predicate Pass(own: Ownership, w: string, drained: set<string>, r: PlanResult) {
    exists leases :: Represents(leases, own) && IsPlan(Snapshot(leases, own, w, drained), r)
  }

  function Seats(own: Ownership, w: string): nat {
    FairShareTarget(|own|, |Owners(own) + {w}|)
  }

  // ------------------------------------------------ counting rows as sets of shards

  function IdSet(leases: seq<Lease>): set<string> {
    set l | l in leases :: l.shardId
  }

  lemma {:induction false} DistinctIdCount(leases: seq<Lease>)
    requires DistinctShards(leases)
    ensures |IdSet(leases)| == |leases|
  {
    if leases != [] {
      var n := |leases| - 1;
      DistinctIdCount(leases[..n]);
      assert leases == leases[..n] + [leases[n]];
      assert IdSet(leases) == IdSet(leases[..n]) + {leases[n].shardId};
    }
  }

  /** The ids of the kept active rows, and how many there are. */
  lemma KeptIds(leases: seq<Lease>, own: Ownership, p: Lease -> bool, ids: set<string>)
    requires Represents(leases, own)
    requires forall l :: l in leases && IsActive(l) ==> (p(l) <==> l.shardId in ids)
    requires ids <= own.Keys
    ensures IdSet(Keep(Active(leases), p)) == ids && |Keep(Active(leases), p)| == |ids|
  {
    var kept := Keep(Active(leases), p);
    forall l ensures l in kept <==> l in leases && IsActive(l) && p(l) {
      KeepMember(Active(leases), p, l);
      KeepMember(leases, IsActive, l);
    }
    forall s | s in ids ensures s in IdSet(kept) {
      var l :| l in leases && IsActive(l) && l.shardId == s;
      assert l in kept;
    }
    KeepDistinctShards(leases, IsActive);
    KeepDistinctShards(Active(leases), p);
    DistinctIdCount(kept);
  }

  lemma ActiveCount(leases: seq<Lease>, own: Ownership)
    requires Represents(leases, own)
    ensures |Active(leases)| == |own|
  {
    forall s | s in own ensures s in IdSet(Active(leases)) {
      var l :| l in leases && IsActive(l) && l.shardId == s;
      KeepMember(leases, IsActive, l);
    }
    forall l | l in Active(leases) ensures l.shardId in own {
      KeepMember(leases, IsActive, l);
    }
    assert IdSet(Active(leases)) == own.Keys;
    KeepDistinctShards(leases, IsActive);
    DistinctIdCount(Active(leases));
  }

  lemma WorkerCount(leases: seq<Lease>, own: Ownership)
    requires Represents(leases, own)
    ensures FreshOwners(Active(leases), own.Keys - Owns(own, "")) == Owners(own)
  {
    var owners := FreshOwners(Active(leases), own.Keys - Owns(own, ""));
    forall o | o in Owners(own) ensures o in owners {
      var s :| s in own && own[s] == o;
      var l :| l in leases && IsActive(l) && l.shardId == s;
      KeepMember(leases, IsActive, l);
    }
    forall l | l in Active(leases) && l.owner != "" ensures l.owner in Owners(own) {
      KeepMember(leases, IsActive, l);
    }
  }

  lemma SnapshotTarget(leases: seq<Lease>, own: Ownership, w: string, drained: set<string>)
    requires Represents(leases, own)
    ensures Target(Snapshot(leases, own, w, drained)) == Seats(own, w)
  {
    ActiveCount(leases, own);
    WorkerCount(leases, own);
  }

  lemma SnapshotMine(leases: seq<Lease>, own: Ownership, w: string, drained: set<string>)
    requires Represents(leases, own)
    ensures var mine := Mine(Snapshot(leases, own, w, drained));
      |mine| == |Owns(own, w)| && (set s | s in mine) == Owns(own, w) && Distinct(mine)
  {
    var p := IsOwned(Owns(own, w));
    KeptIds(leases, own, p, Owns(own, w));
    var kept := Keep(Active(leases), p);
    forall s ensures s in Sort(Ids(kept)) <==> s in Owns(own, w) {
      IdsMember(kept, s);
      assert s in IdSet(kept) <==> s in Owns(own, w);
    }
    KeepDistinctShards(leases, IsActive);
    KeepDistinctShards(Active(leases), p);
    SortedIdsDistinct(kept);
  }

  lemma SnapshotLoad(leases: seq<Lease>, own: Ownership, w: string, o: string)
    requires Represents(leases, own) && o != ""
    ensures Load(Active(leases), own.Keys - Owns(own, ""), o) == |Owns(own, o)|
  {
    KeptIds(leases, own, IsLoadOf(o, own.Keys - Owns(own, "")), Owns(own, o));
  }

  lemma SnapshotFree(leases: seq<Lease>, own: Ownership, w: string, drained: set<string>)
    requires Represents(leases, own)
    ensures var free := Free(Snapshot(leases, own, w, drained));
      |free| == |Owns(own, "") * drained - Owns(own, w)| && IdSet(free) == Owns(own, "") * drained - Owns(own, w)
  {
    var freshIds := own.Keys - Owns(own, "");
    KeptIds(leases, own, IsFree(w, freshIds, drained, Owns(own, w)), Owns(own, "") * drained - Owns(own, w));
  }

  // --------------------------------------------------------- what one pass changes

  /** The pass released `moved` shards of `w`. */
  ghost predicate Released(own: Ownership, own': Ownership, w: string) {
    && own'.Keys == own.Keys
    && (forall o :: o != "" && o != w ==> Owns(own', o) == Owns(own, o))
    && |Owns(own', w)| < |Owns(own, w)| && |Owns(own', w)| == Seats(own, w)
  }

  /** The pass gave `w` the unowned shards `taken`. */
  ghost predicate Taken(own: Ownership, own': Ownership, w: string, taken: set<string>) {
    && own'.Keys == own.Keys
    && taken <= Owns(own, "")
    && Owns(own', "") == Owns(own, "") - taken
    && Owns(own', w) >= Owns(own, w) + taken
    && |Owns(own', w)| <= Seats(own, w)
  }

  lemma SetOfSeq(xs: seq<string>)
    requires Distinct(xs)
    ensures |set s | s in xs| == |xs|
  {
    if xs != [] {
      var n := |xs| - 1;
      SetOfSeq(xs[..n]);
      assert xs == xs[..n] + [xs[n]];
      assert (set s | s in xs) == (set s | s in xs[..n]) + {xs[n]};
    }
  }

  lemma ReleasedSet(mine: seq<string>, target: nat)
    requires Distinct(mine) && target <= |mine|
    ensures (set s | s in mine[target..]) <= (set s | s in mine)
    ensures |(set s | s in mine) - (set s | s in mine[target..])| == target
  {
    var all, out := (set s | s in mine), (set s | s in mine[target..]);
    SetOfSeq(mine);
    SetOfSeq(mine[target..]);
    assert |all - out| == |all| - |out|;
  }

  lemma ReleasePlan(own: Ownership, w: string, drained: set<string>, leases: seq<Lease>, r: PlanResult)
    returns (mine: seq<string>)
    requires Represents(leases, own) && IsPlan(Snapshot(leases, own, w, drained), r)
    requires |Owns(own, w)| > Seats(own, w)
    ensures Distinct(mine) && (set s | s in mine) == Owns(own, w) && |mine| == |Owns(own, w)|
    ensures r == NO_ACTION.(release := mine[Seats(own, w)..])
  {
    SnapshotTarget(leases, own, w, drained);
    SnapshotMine(leases, own, w, drained);
    mine := Mine(Snapshot(leases, own, w, drained));
  }

  lemma ReleaseEffect(own: Ownership, w: string, mine: seq<string>)
    requires w != "" && |Owns(own, w)| > Seats(own, w)
    requires Distinct(mine) && (set s | s in mine) == Owns(own, w) && |mine| == |Owns(own, w)|
    ensures Released(own, After(own, w, NO_ACTION.(release := mine[Seats(own, w)..])), w)
  {
    var gone := mine[Seats(own, w)..];
    var own' := After(own, w, NO_ACTION.(release := gone));
    ReleasedSet(mine, Seats(own, w));
    forall s | s in gone ensures s in Owns(own, w) {
      assert s in set m | m in gone;
    }
    ReleasedOwns(own, w, gone, w);
    forall o | o != "" && o != w ensures Owns(own', o) == Owns(own, o) {
      ReleasedOwns(own, w, gone, o);
    }
  }

  lemma ReleasedOwns(own: Ownership, w: string, gone: seq<string>, o: string)
    requires o != "" && forall s :: s in gone ==> s in Owns(own, w)
    ensures Owns(After(own, w, NO_ACTION.(release := gone)), o) == if o == w then Owns(own, w) - (set s | s in gone) else Owns(own, o)
  {
  }

  /** `r` claims unowned drained shards, and at most one shard of an overloaded peer. */
  ghost predicate Claims(own: Ownership, w: string, drained: set<string>, r: PlanResult) {
    && r.release == []
    && (forall s :: s in r.acquire ==> s in Owns(own, "") * drained)
    && |r.acquire| + |Owns(own, w)| + Stolen(r) <= Seats(own, w)
    && (r.steal != "" ==> StolenFrom(own, w, r.steal))
  }

  ghost predicate StolenFrom(own: Ownership, w: string, s: string) {
    s in own && own[s] != "" && own[s] != w && |Owns(own, own[s])| > Seats(own, w)
  }

  lemma ClaimShape(own: Ownership, w: string, drained: set<string>, leases: seq<Lease>, r: PlanResult)
    requires Represents(leases, own) && IsPlan(Snapshot(leases, own, w, drained), r)
    requires |Owns(own, w)| <= Seats(own, w)
    ensures r.release == [] && |r.acquire| + |Owns(own, w)| + Stolen(r) <= Seats(own, w)
  {
    SnapshotTarget(leases, own, w, drained);
    SnapshotMine(leases, own, w, drained);
    PlanStaysWithinTarget(Snapshot(leases, own, w, drained), r);
  }

  lemma ClaimedUnowned(own: Ownership, w: string, drained: set<string>, leases: seq<Lease>, r: PlanResult, s: string)
    requires Represents(leases, own) && IsPlan(Snapshot(leases, own, w, drained), r) && s in r.acquire
    ensures s in Owns(own, "") * drained
  {
    var l := AcquireGate(Snapshot(leases, own, w, drained), r, s);
  }

  lemma ClaimedStolen(own: Ownership, w: string, drained: set<string>, leases: seq<Lease>, r: PlanResult)
    requires Represents(leases, own) && IsPlan(Snapshot(leases, own, w, drained), r) && r.steal != ""
    ensures StolenFrom(own, w, r.steal)
  {
    var l := StealGate(Snapshot(leases, own, w, drained), r);
    SnapshotLoad(leases, own, w, l.owner);
    SnapshotTarget(leases, own, w, drained);
  }

  lemma ClaimsOf(own: Ownership, w: string, drained: set<string>, leases: seq<Lease>, r: PlanResult)
    requires Represents(leases, own) && IsPlan(Snapshot(leases, own, w, drained), r)
    requires |Owns(own, w)| <= Seats(own, w)
    ensures Claims(own, w, drained, r)
  {
    ClaimShape(own, w, drained, leases, r);
    forall s | s in r.acquire ensures s in Owns(own, "") * drained {
      ClaimedUnowned(own, w, drained, leases, r, s);
    }
    if r.steal != "" {
      ClaimedStolen(own, w, drained, leases, r);
    }
  }

  /** A worker below its target takes something whenever a drained shard is unowned. */
  lemma FreeShardTaken(own: Ownership, w: string, drained: set<string>, leases: seq<Lease>, r: PlanResult, s: string)
    requires w != "" && Represents(leases, own) && IsPlan(Snapshot(leases, own, w, drained), r)
    requires |Owns(own, w)| < Seats(own, w) && s in Owns(own, "") * drained
    ensures r.acquire != []
  {
    SnapshotTarget(leases, own, w, drained);
    SnapshotMine(leases, own, w, drained);
    SnapshotFree(leases, own, w, drained);
    assert s in Owns(own, "") * drained - Owns(own, w);
    assert |r.acquire| == |FirstFree(Free(Snapshot(leases, own, w, drained)), Seats(own, w) - |Owns(own, w)|)|;
  }

  lemma SetOfSeqAtMost(xs: seq<string>)
    ensures |set s | s in xs| <= |xs|
  {
    if xs != [] {
      var n := |xs| - 1;
      SetOfSeqAtMost(xs[..n]);
      assert xs == xs[..n] + [xs[n]];
      assert (set s | s in xs) == (set s | s in xs[..n]) + {xs[n]};
    }
  }

  function StolenSet(r: PlanResult): set<string> {
    if r.steal != "" then {r.steal} else {}
  }

  lemma AfterClaim(own: Ownership, w: string, drained: set<string>, r: PlanResult, s: string)
    requires w != "" && Claims(own, w, drained, r) && s in own
    ensures After(own, w, r)[s] == if s in r.acquire || s in StolenSet(r) then w else own[s]
    ensures s in r.acquire ==> own[s] == ""
    ensures s in StolenSet(r) ==> own[s] != "" && own[s] != w
  {
  }

  lemma UnownedAfterClaim(own: Ownership, w: string, drained: set<string>, r: PlanResult)
    requires w != "" && Claims(own, w, drained, r)
    ensures Owns(After(own, w, r), "") == Owns(own, "") - set s | s in r.acquire
  {
    forall s | s in own
      ensures After(own, w, r)[s] == if s in r.acquire || s in StolenSet(r) then w else own[s]
      ensures s in StolenSet(r) ==> own[s] != ""
    {
      AfterClaim(own, w, drained, r, s);
    }
  }

  lemma MineAfterClaim(own: Ownership, w: string, drained: set<string>, r: PlanResult)
    requires w != "" && Claims(own, w, drained, r)
    ensures Owns(After(own, w, r), w) == Owns(own, w) + (set s | s in r.acquire) + StolenSet(r)
  {
    var now, all := Owns(After(own, w, r), w), Owns(own, w) + (set s | s in r.acquire) + StolenSet(r);
    forall s ensures s in now <==> s in all {
      MineAfterAt(own, w, drained, r, s);
    }
  }

  lemma MineAfterAt(own: Ownership, w: string, drained: set<string>, r: PlanResult, s: string)
    requires w != "" && Claims(own, w, drained, r)
    ensures s in Owns(After(own, w, r), w) <==> s in Owns(own, w) || s in r.acquire || s in StolenSet(r)
  {
    if s in own {
      AfterClaim(own, w, drained, r, s);
    }
  }

  lemma PeerAfterClaim(own: Ownership, w: string, drained: set<string>, r: PlanResult, o: string)
    requires w != "" && Claims(own, w, drained, r) && o != "" && o != w
    ensures Owns(After(own, w, r), o) == Owns(own, o) - StolenSet(r)
  {
    forall s | s in own
      ensures After(own, w, r)[s] == if s in r.acquire || s in StolenSet(r) then w else own[s]
      ensures s in r.acquire ==> own[s] == ""
    {
      AfterClaim(own, w, drained, r, s);
    }
  }

  lemma TakeEffect(own: Ownership, w: string, drained: set<string>, r: PlanResult)
    requires w != "" && Claims(own, w, drained, r)
    ensures Taken(own, After(own, w, r), w, set s | s in r.acquire)
    ensures forall o :: o != "" && o != w ==> Owns(After(own, w, r), o) == Owns(own, o) - StolenSet(r)
    ensures StolenSet(r) <= Owns(After(own, w, r), w)
  {
    var taken := set s | s in r.acquire;
    MineAfterClaim(own, w, drained, r);
    UnownedAfterClaim(own, w, drained, r);
    SetOfSeqAtMost(r.acquire);
    assert |Owns(own, w) + taken + StolenSet(r)| <= |Owns(own, w)| + |taken| + |StolenSet(r)|;
    forall o | o != "" && o != w ensures Owns(After(own, w, r), o) == Owns(own, o) - StolenSet(r) {
      PeerAfterClaim(own, w, drained, r, o);
    }
  }

  // -------------------------------------------------------------- the ranking

  /** Shards of `o` beyond the fair share among the current owners. */
  function Excess(own: Ownership, o: string): nat {
    var fair := FairShareTarget(|own|, |Owners(own)|);
    if |Owns(own, o)| > fair then |Owns(own, o)| - fair else 0
  }

  function TotalExcess(own: Ownership, ws: seq<string>): nat {
    if ws == [] then 0 else TotalExcess(own, ws[..|ws| - 1]) + Excess(own, ws[|ws| - 1])
  }

  /** (workers - owners, excess, unowned shards), compared lexicographically. */
  ghost predicate Lower(own': Ownership, own: Ownership, ws: seq<string>) {
    || |Owners(own')| > |Owners(own)|
    || (|Owners(own')| == |Owners(own)| && TotalExcess(own', ws) < TotalExcess(own, ws))
    || (|Owners(own')| == |Owners(own)| && TotalExcess(own', ws) == TotalExcess(own, ws)
        && |Owns(own', "")| < |Owns(own, "")|)
  }

  /** Live workers: distinct, non-empty ids, among them every owner. */
  ghost predicate Live(own: Ownership, ws: seq<string>) {
    Distinct(ws) && "" !in ws && forall o :: o in Owners(own) ==> o in ws
  }

  lemma {:induction false} ExcessNoMore(own: Ownership, own': Ownership, ws: seq<string>)
    requires forall o :: o in ws ==> Excess(own', o) <= Excess(own, o)
    ensures TotalExcess(own', ws) <= TotalExcess(own, ws)
  {
    if ws != [] {
      ExcessNoMore(own, own', ws[..|ws| - 1]);
    }
  }

  lemma {:induction false} ExcessFalls(own: Ownership, own': Ownership, ws: seq<string>, v: string)
    requires forall o :: o in ws ==> Excess(own', o) <= Excess(own, o)
    requires v in ws && Excess(own', v) < Excess(own, v)
    ensures TotalExcess(own', ws) < TotalExcess(own, ws)
  {
    var n := |ws| - 1;
    if ws[n] == v {
      ExcessNoMore(own, own', ws[..n]);
    } else {
      assert v in ws[..n];
      ExcessFalls(own, own', ws[..n], v);
    }
  }

  lemma OwnerIff(own: Ownership, o: string)
    ensures o in Owners(own) <==> o != "" && Owns(own, o) != {}
  {
    if o in Owners(own) {
      var s :| s in own && own[s] == o;
      assert s in Owns(own, o);
    }
  }

  lemma OwnersMonotone(own: Ownership, own': Ownership)
    requires forall o :: o != "" && Owns(own, o) != {} ==> Owns(own', o) != {}
    ensures Owners(own) <= Owners(own')
  {
    forall o | o in Owners(own) ensures o in Owners(own') {
      OwnerIff(own, o);
      OwnerIff(own', o);
    }
  }

  /** Releasing surplus keeps every owner and lowers the excess. */
  lemma ReleaseLowers(own: Ownership, own': Ownership, ws: seq<string>, w: string)
    requires w in ws && "" !in ws && Released(own, own', w)
    ensures Lower(own', own, ws)
  {
    assert |Owns(own, w)| > 0;
    OwnerIff(own, w);
    assert Owners(own) + {w} == Owners(own);
    var s :| s in Owns(own, w);
    assert |own| == |own.Keys| > 0;
    forall o ensures o in Owners(own) <==> o in Owners(own') {
      OwnerIff(own, o);
      OwnerIff(own', o);
    }
    assert Owners(own) == Owners(own');
    assert |own'| == |own'.Keys|;
    ExcessFalls(own, own', ws, w);
  }

  /** A claim by a worker that owned nothing makes it an owner and unseats nobody. */
  lemma NewOwnerLowers(own: Ownership, w: string, drained: set<string>, r: PlanResult, ws: seq<string>)
    requires w != "" && Claims(own, w, drained, r) && r != NO_ACTION && Owns(own, w) == {}
    ensures Lower(After(own, w, r), own, ws)
  {
    var own' := After(own, w, r);
    TakeEffect(own, w, drained, r);
    ClaimNonEmpty(own, w, drained, r);
    KeepsOwners(own, w, drained, r);
    OwnerIff(own, w);
    OwnerIff(own', w);
    assert Owners(own) + {w} <= Owners(own');
    assert |Owners(own) + {w}| <= |Owners(own')| by {
      CardinalityMonotone(Owners(own) + {w}, Owners(own'));
    }
  }

  lemma CardinalityMonotone(a: set<string>, b: set<string>)
    requires a <= b
    ensures |a| <= |b|
  {
    assert |b| == |a| + |b - a| by { assert b == a + (b - a); }
  }

  lemma ClaimNonEmpty(own: Ownership, w: string, drained: set<string>, r: PlanResult)
    requires w != "" && Claims(own, w, drained, r) && r != NO_ACTION
    ensures Owns(After(own, w, r), w) != {} && own != map[] && Seats(own, w) >= 1
  {
    MineAfterClaim(own, w, drained, r);
    if r.acquire != [] {
      assert r.acquire[0] in Owns(After(own, w, r), w);
    } else {
      assert r.steal in Owns(After(own, w, r), w);
    }
  }

  lemma KeepsOwners(own: Ownership, w: string, drained: set<string>, r: PlanResult)
    requires w != "" && Claims(own, w, drained, r) && r != NO_ACTION
    ensures Owners(own) <= Owners(After(own, w, r))
  {
    ClaimNonEmpty(own, w, drained, r);
    forall o | o != "" && Owns(own, o) != {} ensures Owns(After(own, w, r), o) != {} {
      if o == w {
        MineAfterClaim(own, w, drained, r);
      } else {
        PeerAfterClaim(own, w, drained, r, o);
      }
      if o != w && r.steal != "" && own[r.steal] == o {
        assert |Owns(own, o)| >= 2;
        assert |Owns(own, o) - {r.steal}| >= 1;
      }
    }
    OwnersMonotone(own, After(own, w, r));
  }

  lemma OwnersWithin(own: Ownership, w: string, drained: set<string>, r: PlanResult)
    requires w != "" && Claims(own, w, drained, r)
    ensures Owners(After(own, w, r)) <= Owners(own) + {w}
  {
    forall o | o in Owners(After(own, w, r)) && o != w ensures o in Owners(own) {
      OwnerIff(After(own, w, r), o);
      PeerAfterClaim(own, w, drained, r, o);
      OwnerIff(own, o);
    }
  }

  lemma SittingOwnersSame(own: Ownership, w: string, drained: set<string>, r: PlanResult)
    requires w != "" && Claims(own, w, drained, r) && r != NO_ACTION && Owns(own, w) != {}
    ensures Owners(After(own, w, r)) == Owners(own) == Owners(own) + {w}
  {
    OwnerIff(own, w);
    KeepsOwners(own, w, drained, r);
    OwnersWithin(own, w, drained, r);
  }

  lemma SittingExcess(own: Ownership, w: string, drained: set<string>, r: PlanResult, o: string)
    requires w != "" && Claims(own, w, drained, r) && r != NO_ACTION && Owns(own, w) != {} && o != ""
    ensures Excess(After(own, w, r), o) <= Excess(own, o)
    ensures r.steal != "" && o == own[r.steal] ==> Excess(After(own, w, r), o) < Excess(own, o)
  {
    var own' := After(own, w, r);
    SittingOwnersSame(own, w, drained, r);
    assert |own'| == |own'.Keys| == |own.Keys| == |own|;
    if o == w {
      TakeEffect(own, w, drained, r);
    } else {
      PeerAfterClaim(own, w, drained, r, o);
      CardinalityMonotone(Owns(own', o), Owns(own, o));
      if r.steal != "" && o == own[r.steal] {
        assert r.steal in Owns(own, o);
      }
    }
  }

  /** A claim by a sitting owner leaves the owners alone, never adds excess, and lowers
      either the victim's excess or the number of unowned shards. */
  lemma SittingOwnerLowers(own: Ownership, w: string, drained: set<string>, r: PlanResult, ws: seq<string>)
    requires w != "" && Claims(own, w, drained, r) && r != NO_ACTION && Owns(own, w) != {}
    requires Live(own, ws)
    ensures Lower(After(own, w, r), own, ws)
  {
    var own' := After(own, w, r);
    SittingOwnersSame(own, w, drained, r);
    forall o | o in ws ensures Excess(own', o) <= Excess(own, o) {
      SittingExcess(own, w, drained, r, o);
    }
    ExcessNoMore(own, own', ws);
    if r.steal != "" {
      SittingExcess(own, w, drained, r, own[r.steal]);
      assert own[r.steal] in Owners(own);
      ExcessFalls(own, own', ws, own[r.steal]);
    } else {
      UnownedFalls(own, w, drained, r);
    }
  }

  lemma UnownedFalls(own: Ownership, w: string, drained: set<string>, r: PlanResult)
    requires w != "" && Claims(own, w, drained, r) && r.acquire != []
    ensures |Owns(After(own, w, r), "")| < |Owns(own, "")|
  {
    UnownedAfterClaim(own, w, drained, r);
    var s := r.acquire[0];
    assert s in Owns(own, "") * drained;
    CardinalityMonotone(Owns(After(own, w, r), "") + {s}, Owns(own, ""));
  }

  lemma ClaimLowers(own: Ownership, w: string, drained: set<string>, r: PlanResult, ws: seq<string>)
    requires Live(own, ws) && w in ws && Claims(own, w, drained, r) && r != NO_ACTION
    ensures Lower(After(own, w, r), own, ws) && Live(After(own, w, r), ws)
  {
    if Owns(own, w) == {} {
      NewOwnerLowers(own, w, drained, r, ws);
    } else {
      SittingOwnerLowers(own, w, drained, r, ws);
    }
    OwnersWithin(own, w, drained, r);
  }

  lemma PassShape(own: Ownership, w: string, drained: set<string>, r: PlanResult)
    requires Pass(own, w, drained, r) && w != ""
    ensures if |Owns(own, w)| > Seats(own, w) then Released(own, After(own, w, r), w) else Claims(own, w, drained, r)
  {
    var leases :| Represents(leases, own) && IsPlan(Snapshot(leases, own, w, drained), r);
    if |Owns(own, w)| > Seats(own, w) {
      var mine := ReleasePlan(own, w, drained, leases, r);
      ReleaseEffect(own, w, mine);
    } else {
      ClaimsOf(own, w, drained, leases, r);
    }
  }

  /** Every pass that does anything moves the fleet down the ranking. */
  lemma PassLowers(own: Ownership, w: string, drained: set<string>, r: PlanResult, ws: seq<string>)
    requires Live(own, ws) && w in ws && Pass(own, w, drained, r) && r != NO_ACTION
    ensures Lower(After(own, w, r), own, ws) && Live(After(own, w, r), ws)
    ensures After(own, w, r).Keys == own.Keys
  {
    PassShape(own, w, drained, r);
    if |Owns(own, w)| > Seats(own, w) {
      ReleaseLowers(own, After(own, w, r), ws, w);
      ReleaseKeepsLive(own, After(own, w, r), ws, w);
    } else {
      ClaimLowers(own, w, drained, r, ws);
    }
  }

  lemma ReleaseKeepsLive(own: Ownership, own': Ownership, ws: seq<string>, w: string)
    requires Live(own, ws) && w in ws && Released(own, own', w)
    ensures Live(own', ws)
  {
    forall o | o in Owners(own') ensures o in ws {
      OwnerIff(own', o);
      OwnerIff(own, o);
    }
  }

  // -------------------------------------------------------------- termination

  function OwnedBy(own: Ownership, ws: seq<string>): set<string> {
    set s | s in own && own[s] in ws
  }

  lemma OwnedByStep(own: Ownership, ws: seq<string>)
    requires Distinct(ws) && ws != []
    ensures |OwnedBy(own, ws)| == |OwnedBy(own, ws[..|ws| - 1])| + |Owns(own, ws[|ws| - 1])|
  {
    var n := |ws| - 1;
    assert ws == ws[..n] + [ws[n]];
    assert OwnedBy(own, ws) == OwnedBy(own, ws[..n]) + Owns(own, ws[n]);
    assert OwnedBy(own, ws[..n]) !! Owns(own, ws[n]);
  }

  lemma {:induction false} ExcessBound(own: Ownership, ws: seq<string>)
    requires Distinct(ws)
    ensures TotalExcess(own, ws) <= |OwnedBy(own, ws)| <= |own|
  {
    assert |own| == |own.Keys|;
    CardinalityMonotone(OwnedBy(own, ws), own.Keys);
    if ws != [] {
      var n := |ws| - 1;
      ExcessBound(own, ws[..n]);
      OwnedByStep(own, ws);
    }
  }

  lemma OwnerBound(own: Ownership, ws: seq<string>)
    requires Live(own, ws)
    ensures |Owners(own)| <= |ws|
  {
    SetOfSeq(ws);
    CardinalityMonotone(Owners(own), set o | o in ws);
  }

  function Rank(own: Ownership, ws: seq<string>): int {
    (|ws| - |Owners(own)|) * ((|own| + 1) * (|own| + 1)) + TotalExcess(own, ws) * (|own| + 1) + |Owns(own, "")|
  }

  lemma RankArithmetic(n: nat, a: int, a': int, b: nat, b': nat, c: nat, c': nat)
    requires b <= n && b' <= n && c <= n && c' <= n
    requires a' < a || (a' == a && b' < b) || (a' == a && b' == b && c' < c)
    ensures a' * ((n + 1) * (n + 1)) + b' * (n + 1) + c' < a * ((n + 1) * (n + 1)) + b * (n + 1) + c
  {
    var m := n + 1;
    if a' < a {
      assert a' * (m * m) + m * m <= a * (m * m) by { MulStep(a', a, m * m); }
      assert b' * m + m <= m * m by { MulStep(b', m, m); }
      assert b * m >= 0;
    } else if b' < b {
      MulStep(b', b, m);
    }
  }

  lemma MulStep(x: int, y: int, m: nat)
    requires x < y
    ensures x * m + m <= y * m
  {
    var d: nat := y - x - 1;
    assert d * m >= 0;
    calc {
      y * m;
      (x + 1 + d) * m;
      x * m + m + d * m;
    }
  }

  lemma RankBounds(own: Ownership, ws: seq<string>)
    requires Live(own, ws)
    ensures 0 <= Rank(own, ws) < (|ws| + 1) * ((|own| + 1) * (|own| + 1))
  {
    OwnerBound(own, ws);
    ExcessBound(own, ws);
    CardinalityMonotone(Owns(own, ""), own.Keys);
    RankRange(|own|, |ws|, |ws| - |Owners(own)|, TotalExcess(own, ws), |Owns(own, "")|);
  }

  lemma RankRange(n: nat, workers: nat, a: nat, b: nat, c: nat)
    requires a <= workers && b <= n && c <= n
    ensures 0 <= a * ((n + 1) * (n + 1)) + b * (n + 1) + c < (workers + 1) * ((n + 1) * (n + 1))
  {
    RankArithmetic(n, workers + 1, a, 0, b, 0, c);
    NoLess(a, (n + 1) * (n + 1));
    NoLess(b, n + 1);
  }

  lemma NoLess(x: nat, m: nat)
    ensures x * m >= 0
  {
  }

  lemma LowerRank(own: Ownership, own': Ownership, ws: seq<string>)
    requires Live(own, ws) && Live(own', ws) && own.Keys == own'.Keys && Lower(own', own, ws)
    ensures Rank(own', ws) < Rank(own, ws)
  {
    assert |own| == |own.Keys| == |own'.Keys| == |own'|;
    ExcessBound(own, ws);
    ExcessBound(own', ws);
    CardinalityMonotone(Owns(own, ""), own.Keys);
    CardinalityMonotone(Owns(own', ""), own'.Keys);
    RankArithmetic(|own|, |ws| - |Owners(own)|, |ws| - |Owners(own')|,
                   TotalExcess(own, ws), TotalExcess(own', ws), |Owns(own, "")|, |Owns(own', "")|);
  }

  datatype Turn = Turn(worker: string, drained: set<string>, result: PlanResult)

  /** `turns` are consecutive passes that all did something, starting from `own`. */
  ghost predicate Busy(own: Ownership, ws: seq<string>, turns: seq<Turn>)
    decreases |turns|
  {
    turns == [] ||
    var t := turns[0];
    && t.worker in ws && t.result != NO_ACTION
    && Pass(own, t.worker, t.drained, t.result)
    && Busy(After(own, t.worker, t.result), ws, turns[1..])
  }

  lemma {:induction false} BusyRank(own: Ownership, ws: seq<string>, turns: seq<Turn>)
    requires Live(own, ws) && Busy(own, ws, turns)
    ensures |turns| <= Rank(own, ws)
    decreases |turns|
  {
    RankBounds(own, ws);
    if turns != [] {
      var t := turns[0];
      var own' := After(own, t.worker, t.result);
      PassLowers(own, t.worker, t.drained, t.result, ws);
      LowerRank(own, own', ws);
      BusyRank(own', ws, turns[1..]);
    }
  }

  /** Rebalancing terminates without a leader: however the turns are taken, and whatever
      each pass finds drained, fewer than (W + 1)(N + 1)^2 passes of W workers over N
      shards can do anything. */
  lemma RebalancingTerminates(own: Ownership, ws: seq<string>, turns: seq<Turn>)
    requires Live(own, ws) && Busy(own, ws, turns)
    ensures |turns| < (|ws| + 1) * ((|own| + 1) * (|own| + 1))
  {
    BusyRank(own, ws, turns);
    RankBounds(own, ws);
  }

  // -------------------------------------------------------------- where it stops

  /** No worker has anything left to do. */
  ghost predicate Quiescent(own: Ownership, ws: seq<string>, drained: set<string>) {
    forall w :: w in ws ==> Pass(own, w, drained, NO_ACTION)
  }

  lemma QuietWorker(own: Ownership, w: string, drained: set<string>)
    requires w != "" && Pass(own, w, drained, NO_ACTION)
    ensures |Owns(own, w)| <= Seats(own, w)
    ensures |Owns(own, w)| < Seats(own, w) ==> Owns(own, "") * drained == {}
  {
    var leases :| Represents(leases, own) && IsPlan(Snapshot(leases, own, w, drained), NO_ACTION);
    if |Owns(own, w)| > Seats(own, w) {
      var mine := ReleasePlan(own, w, drained, leases, NO_ACTION);
      assert false;
    }
    if |Owns(own, w)| < Seats(own, w) && Owns(own, "") * drained != {} {
      var s :| s in Owns(own, "") * drained;
      FreeShardTaken(own, w, drained, leases, NO_ACTION, s);
      assert false;
    }
  }

  /** Shards owned by the listed workers when each holds at least `k`. */
  lemma {:induction false} FullHouse(own: Ownership, ws: seq<string>, k: nat)
    requires Distinct(ws) && forall w :: w in ws ==> |Owns(own, w)| >= k
    ensures |OwnedBy(own, ws)| >= |ws| * k
  {
    if ws != [] {
      var n := |ws| - 1;
      FullHouse(own, ws[..n], k);
      OwnedByStep(own, ws);
      assert ws[n] in ws;
      assert (n + 1) * k == n * k + k;
    }
  }

  lemma Enumerate(a: set<string>) returns (xs: seq<string>)
    ensures Distinct(xs) && |xs| == |a| && forall x :: x in xs <==> x in a
  {
    if a == {} {
      xs := [];
    } else {
      var x :| x in a;
      xs := Enumerate(a - {x});
      xs := xs + [x];
    }
  }

  /** Where rebalancing stops with every parent drained, every shard has an owner and no
      owner holds more than its fair share, ceil(shards / owners). */
  lemma QuiescentIsFair(own: Ownership, ws: seq<string>, drained: set<string>)
    requires Live(own, ws) && ws != [] && own.Keys <= drained && Quiescent(own, ws, drained)
    ensures Owns(own, "") == {}
    ensures forall o :: o in Owners(own) ==> |Owns(own, o)| <= FairShareTarget(|own|, |Owners(own)|)
  {
    forall o | o in Owners(own) ensures |Owns(own, o)| <= FairShareTarget(|own|, |Owners(own)|) {
      QuietWorker(own, o, drained);
      assert Owners(own) + {o} == Owners(own);
    }
    NothingUnowned(own, ws, drained);
  }

  /** When every owner holds its fair share no shard is left over. */
  lemma FairOwnersFillUp(own: Ownership)
    requires Owners(own) != {}
    requires forall o :: o in Owners(own) ==> |Owns(own, o)| >= FairShareTarget(|own|, |Owners(own)|)
    ensures Owns(own, "") == {}
  {
    var os := Enumerate(Owners(own));
    var fair := FairShareTarget(|own|, |Owners(own)|);
    FullHouse(own, os, fair);
    assert |own| == |own.Keys|;
    OwnerIff(own, "");
    assert OwnedBy(own, os) !! Owns(own, "");
    CardinalityMonotone(OwnedBy(own, os) + Owns(own, ""), own.Keys);
    assert |OwnedBy(own, os) + Owns(own, "")| == |OwnedBy(own, os)| + |Owns(own, "")|;
  }

  lemma SeatsOfOwner(own: Ownership, o: string)
    requires o in Owners(own)
    ensures Seats(own, o) == FairShareTarget(|own|, |Owners(own)|)
  {
    assert Owners(own) + {o} == Owners(own);
  }

  /** With every parent drained, an unowned shard would have a taker. */
  lemma NothingUnowned(own: Ownership, ws: seq<string>, drained: set<string>)
    requires Live(own, ws) && ws != [] && own.Keys <= drained && Quiescent(own, ws, drained)
    ensures Owns(own, "") == {}
  {
    if Owns(own, "") != {} {
      assert Owns(own, "") * drained != {};
      assert |own.Keys| > 0;
      if Owners(own) == {} {
        QuietWorker(own, ws[0], drained);
        OwnerIff(own, ws[0]);
        assert false;
      }
      forall o | o in Owners(own) ensures |Owns(own, o)| >= FairShareTarget(|own|, |Owners(own)|) {
        QuietWorker(own, o, drained);
        SeatsOfOwner(own, o);
      }
      FairOwnersFillUp(own);
    }
  }

  /** Nobody holds more than `k` shards. */
  ghost predicate NobodyAbove(own: Ownership, k: nat) {
    forall o :: o in Owners(own) ==> |Owns(own, o)| <= k
  }

  /** Every shard is owned and nobody holds more than the fair share. */
  ghost predicate Fair(own: Ownership) {
    Owns(own, "") == {} && NobodyAbove(own, FairShareTarget(|own|, |Owners(own)|))
  }

  /** Lease rows for an ownership. */
  lemma RowsOf(own: Ownership) returns (leases: seq<Lease>)
    ensures Represents(leases, own)
  {
    var ids := Enumerate(own.Keys);
    leases := Map(ids, (s: string) => Lease(s, if s in own then own[s] else "", 0, TRIM_HORIZON, []));
    forall s | s in own
      ensures exists l :: l in leases && IsActive(l) && l.shardId == s
    {
      var i :| 0 <= i < |ids| && ids[i] == s;
      assert leases[i].shardId == s;
    }
  }

  lemma NothingFree(own: Ownership, w: string, drained: set<string>, leases: seq<Lease>)
    requires Owns(own, "") == {} && Represents(leases, own)
    ensures Free(Snapshot(leases, own, w, drained)) == []
  {
    SnapshotFree(leases, own, w, drained);
    assert Owns(own, "") * drained - Owns(own, w) == {};
  }

  lemma NobodyOverloaded(own: Ownership, w: string, drained: set<string>, leases: seq<Lease>, o: string)
    requires NobodyAbove(own, Seats(own, w)) && Represents(leases, own)
    ensures !Overloaded(Active(leases), Snapshot(leases, own, w, drained), Seats(own, w), o)
  {
    if o != "" {
      SnapshotLoad(leases, own, w, o);
      OwnerIff(own, o);
    }
  }

  /** A worker plans nothing when every shard is owned and nobody exceeds the share it computes. */
  lemma QuietBelow(own: Ownership, w: string, drained: set<string>, leases: seq<Lease>)
    requires w != "" && Owns(own, "") == {} && NobodyAbove(own, Seats(own, w)) && Represents(leases, own)
    ensures IsPlan(Snapshot(leases, own, w, drained), NO_ACTION)
  {
    var in_ := Snapshot(leases, own, w, drained);
    SnapshotTarget(leases, own, w, drained);
    NothingFree(own, w, drained, leases);
    forall o ensures !Overloaded(Active(leases), in_, Seats(own, w), o) {
      NobodyOverloaded(own, w, drained, leases, o);
    }
    assert IsSteal(Active(leases), in_, Seats(own, w), "");
    OwnerIff(own, w);
    SnapshotMine(leases, own, w, drained);
    QuietPlan(in_);
  }

  lemma QuietPlan(in_: PlanInput)
    requires |Mine(in_)| <= Target(in_) && Free(in_) == []
    requires IsSteal(Active(in_.leases), in_, Target(in_), "")
    ensures IsPlan(in_, NO_ACTION)
  {
    assert FirstFree([], Target(in_) - |Mine(in_)|) == [];
    assert Sort(Ids([])) == [];
  }

  /** An overloaded peer has a shard to steal. */
  lemma VictimHasCandidate(own: Ownership, w: string, drained: set<string>, leases: seq<Lease>, o: string)
    requires Represents(leases, own) && own.Keys <= drained && o in Owners(own)
    ensures LowestCandidate(Active(leases), Snapshot(leases, own, w, drained), o) in own
  {
    var p := IsCandidate(o, own.Keys - Owns(own, ""), drained);
    KeptIds(leases, own, p, Owns(own, o));
    OwnerIff(own, o);
    var rows := Keep(Active(leases), p);
    var first := Sort(Ids(rows))[0];
    IdsMember(rows, first);
    assert first in IdSet(rows);
  }

  lemma OverloadedOwns(own: Ownership, w: string, drained: set<string>, leases: seq<Lease>, o: string)
    requires Represents(leases, own) && Overloaded(Active(leases), Snapshot(leases, own, w, drained), Seats(own, w), o)
    ensures o in Owners(own)
  {
    SnapshotLoad(leases, own, w, o);
    OwnerIff(own, o);
  }

  /** An idle worker that plans nothing sees nobody above the share it would get. */
  lemma IdleWorker(own: Ownership, w: string, drained: set<string>)
    requires w != "" && w !in Owners(own) && Pass(own, w, drained, NO_ACTION)
    requires "" !in own && own.Keys <= drained && Owns(own, "") == {}
    ensures NobodyAbove(own, Seats(own, w))
  {
    var leases :| Represents(leases, own) && IsPlan(Snapshot(leases, own, w, drained), NO_ACTION);
    forall o | o in Owners(own) ensures |Owns(own, o)| <= Seats(own, w) {
      if |Owns(own, o)| > Seats(own, w) {
        IdleWorkerSteals(own, w, drained, leases, o);
        assert false;
      }
    }
  }

  lemma SomebodyToRob(own: Ownership, w: string, drained: set<string>, leases: seq<Lease>, o: string)
    requires w != "" && w !in Owners(own) && o in Owners(own) && |Owns(own, o)| > Seats(own, w)
    requires "" !in own && own.Keys <= drained && Represents(leases, own)
    ensures !IsSteal(Active(leases), Snapshot(leases, own, w, drained), Seats(own, w), "")
  {
    var in_ := Snapshot(leases, own, w, drained);
    SnapshotLoad(leases, own, w, o);
    assert Overloaded(Active(leases), in_, Seats(own, w), o);
    forall v | IsVictim(Active(leases), in_, Seats(own, w), v)
      ensures LowestCandidate(Active(leases), in_, v) != ""
    {
      OverloadedOwns(own, w, drained, leases, v);
      VictimHasCandidate(own, w, drained, leases, v);
    }
  }

  lemma BusyPlan(in_: PlanInput)
    requires |Mine(in_)| == 0 && Target(in_) > 0 && Free(in_) == []
    requires !IsSteal(Active(in_.leases), in_, Target(in_), "")
    ensures !IsPlan(in_, NO_ACTION)
  {
  }

  lemma IdleWorkerSteals(own: Ownership, w: string, drained: set<string>, leases: seq<Lease>, o: string)
    requires w != "" && w !in Owners(own) && o in Owners(own) && |Owns(own, o)| > Seats(own, w)
    requires "" !in own && own.Keys <= drained && Owns(own, "") == {} && Represents(leases, own)
    ensures !IsPlan(Snapshot(leases, own, w, drained), NO_ACTION)
  {
    SnapshotTarget(leases, own, w, drained);
    SnapshotMine(leases, own, w, drained);
    NothingFree(own, w, drained, leases);
    OwnerIff(own, w);
    OwnerIff(own, o);
    SomebodyToRob(own, w, drained, leases, o);
    assert |own| == |own.Keys| > 0;
    BusyPlan(Snapshot(leases, own, w, drained));
  }

  lemma BelowIsQuiet(own: Ownership, ws: seq<string>, drained: set<string>)
    requires "" !in ws && Owns(own, "") == {} && forall w :: w in ws ==> NobodyAbove(own, Seats(own, w))
    ensures Quiescent(own, ws, drained)
  {
    var leases := RowsOf(own);
    forall w | w in ws ensures Pass(own, w, drained, NO_ACTION) {
      QuietBelow(own, w, drained, leases);
    }
  }

  lemma SeatsOfIdle(own: Ownership, w: string)
    requires w !in Owners(own)
    ensures Seats(own, w) == FairShareTarget(|own|, |Owners(own)| + 1)
  {
  }

  /** The ownership is fair, and either every live worker owns something or an idle one would
      see nobody above the share it computes. */
  ghost predicate Settled(own: Ownership, ws: seq<string>) {
    && Fair(own)
    && ((forall w :: w in ws ==> w in Owners(own)) || NobodyAbove(own, FairShareTarget(|own|, |Owners(own)| + 1)))
  }

  lemma QuietMeansSettled(own: Ownership, ws: seq<string>, drained: set<string>)
    requires Live(own, ws) && ws != [] && "" !in own && own.Keys <= drained && Quiescent(own, ws, drained)
    ensures Settled(own, ws)
  {
    QuiescentIsFair(own, ws, drained);
    if w :| w in ws && w !in Owners(own) {
      IdleWorker(own, w, drained);
      SeatsOfIdle(own, w);
    }
  }

  lemma SettledIsBelow(own: Ownership, ws: seq<string>, w: string)
    requires Settled(own, ws) && w in ws
    ensures NobodyAbove(own, Seats(own, w))
  {
    if w in Owners(own) {
      SeatsOfOwner(own, w);
    } else {
      SeatsOfIdle(own, w);
    }
  }

  /** Where the planner stops, for any live workers, idle ones included. */
  lemma QuiescentIff(own: Ownership, ws: seq<string>, drained: set<string>)
    requires Live(own, ws) && ws != [] && "" !in own && own.Keys <= drained
    ensures Quiescent(own, ws, drained) <==> Settled(own, ws)
  {
    if Quiescent(own, ws, drained) {
      QuietMeansSettled(own, ws, drained);
    }
    if Settled(own, ws) {
      forall w | w in ws ensures NobodyAbove(own, Seats(own, w)) {
        SettledIsBelow(own, ws, w);
      }
      BelowIsQuiet(own, ws, drained);
    }
  }

  /** "Even as possible" among the owners: no two differ by more than one shard. */
  ghost predicate Even(own: Ownership) {
    forall o, p :: o in Owners(own) && p in Owners(own) ==> |Owns(own, o)| <= |Owns(own, p)| + 1
  }

  /** Shards missing until every owner would hold its full share. */
  function Slack(own: Ownership): int {
    FairShareTarget(|own|, |Owners(own)|) * |Owners(own)| - |own|
  }

  /** A fair ownership is even when at most one shard is missing from full shares, or
      when a share is at most two shards. */
  lemma FairIsEven(own: Ownership)
    requires Fair(own) && (Slack(own) <= 1 || FairShareTarget(|own|, |Owners(own)|) <= 2)
    ensures Even(own)
  {
    var fair := FairShareTarget(|own|, |Owners(own)|);
    forall o, p | o in Owners(own) && p in Owners(own)
      ensures |Owns(own, o)| <= |Owns(own, p)| + 1
    {
      OwnerIff(own, p);
      if |Owns(own, o)| > |Owns(own, p)| + 1 {
        OneShort(own, p);
      }
    }
  }

  lemma AllOwned(own: Ownership, os: seq<string>, p: string)
    requires Owns(own, "") == {} && p in Owners(own)
    requires forall o :: o in os <==> o in Owners(own) - {p}
    ensures own.Keys == OwnedBy(own, os) + Owns(own, p)
  {
    forall s | s in own ensures s in OwnedBy(own, os) + Owns(own, p) {
      assert s !in Owns(own, "");
      assert own[s] in Owners(own);
    }
  }

  /** What one owner misses to its share, the fleet misses. */
  lemma OneShort(own: Ownership, p: string)
    requires Fair(own) && p in Owners(own)
    ensures FairShareTarget(|own|, |Owners(own)|) - |Owns(own, p)| <= Slack(own)
  {
    var fair := FairShareTarget(|own|, |Owners(own)|);
    var os := Enumerate(Owners(own) - {p});
    OwnedAtMost(own, os, fair);
    AllOwned(own, os, p);
    assert |own| == |own.Keys| <= |OwnedBy(own, os)| + |Owns(own, p)|;
    Missing(|os|, fair, |OwnedBy(own, os)|, |Owns(own, p)|, |own|);
    assert |Owners(own)| == |os| + 1;
  }

  lemma Missing(n: nat, fair: nat, others: nat, held: nat, size: nat)
    requires others <= n * fair && size <= others + held
    ensures fair - held <= fair * (n + 1) - size
  {
    assert fair * (n + 1) == n * fair + fair;
  }

  lemma {:induction false} OwnedAtMost(own: Ownership, ws: seq<string>, k: nat)
    requires Distinct(ws) && forall w :: w in ws ==> |Owns(own, w)| <= k
    ensures |OwnedBy(own, ws)| <= |ws| * k
  {
    if ws != [] {
      var n := |ws| - 1;
      OwnedAtMost(own, ws[..n], k);
      OwnedByStep(own, ws);
      assert ws[n] in ws;
      assert (n + 1) * k == n * k + k;
    }
  }
}
