/** Every step of the fleet keeps the invariant. */
module FleetSteps {
  import opened Sequences
  import opened LeaseStore
  import opened Taker
  import opened TakerLemmas
  import opened Discovery
  import opened Positions
  import opened PollerMachine
  import opened Fleet
  import opened FleetInvariant

  /** Parents stay done for the shards with handled records. */
  lemma LoggedParents(e: Env, f: Fleet, f': Fleet)
    requires Shape(e, f) && Grows(e, f, f')
    requires f'.log.Keys == f'.versions.Keys
    requires forall c :: c in f'.log && f'.log[c] != [] ==> c in f.log && f.log[c] != []
    ensures forall c :: c in f'.versions && f'.log[c] != [] ==> ParentsDone(e, f', c)
  {
    forall c | c in f'.versions && f'.log[c] != [] ensures ParentsDone(e, f', c) {
      ParentsDoneGrows(e, f, f', c);
    }
  }

  // ------------------------------------------------------------ the coordinator

  lemma TickInv(e: Env, f: Fleet, elapsed: nat)
    requires Inv(e, f)
    ensures Inv(e, Do(e, f, Tick(elapsed)))
  {
    var f' := Do(e, f, Tick(elapsed));
    LoggedParents(e, f, f');
    Assemble(e, f, f');
  }

  lemma NewWorkerOk(e: Env, f: Fleet, w: string)
    requires w in f.workers && f.workers[w] == NEW_WORKER
    ensures WorkerOk(e, f, w)
  {
    assert Claims(NO_ACTION) == {};
  }

  lemma SetWorkerInv(e: Env, f: Fleet, w: string, k: Worker)
    requires Inv(e, f) && WorkerOk(e, f.(workers := f.workers[w := k]), w)
    ensures Inv(e, f.(workers := f.workers[w := k]))
  {
    var f' := f.(workers := f.workers[w := k]);
    LoggedParents(e, f, f');
    Assemble(e, f, f');
  }

  lemma RestartedInv(e: Env, f: Fleet, w: string)
    requires Inv(e, f)
    ensures Inv(e, Restarted(f, w))
  {
    var f1 := f.(pollers := Killed(f.pollers, w));
    KillInv(e, f, w);
    NewWorkerOk(e, f1.(workers := f1.workers[w := NEW_WORKER]), w);
    SetWorkerInv(e, f1, w, NEW_WORKER);
  }

  lemma RestartInv(e: Env, f: Fleet, w: string)
    requires Inv(e, f) && Enabled(e, f, Restart(w))
    ensures Inv(e, Do(e, f, Restart(w)))
  {
    RestartedInv(e, f, w);
  }

  lemma KillInv(e: Env, f: Fleet, w: string)
    requires Inv(e, f)
    ensures Inv(e, f.(pollers := Killed(f.pollers, w)))
  {
    var f' := f.(pollers := Killed(f.pollers, w));
    LoggedParents(e, f, f');
    forall pid | 0 <= pid < |f'.pollers| ensures PollerOk(e, f', pid, f'.pollers[pid]) {
      KilledOk(e, f, f', pid, f.pollers[pid]);
      PollerGrows(e, f, f', pid, f.pollers[pid]);
    }
    Assemble(e, f, f');
  }

  lemma KilledOk(e: Env, f: Fleet, f': Fleet, pid: nat, p: Poller)
    requires Grows(e, f, f') && PollerOk(e, f, pid, p)
    ensures PollerOk(e, f', pid, p.(phase := Done))
  {
    PollerGrows(e, f, f', pid, p);
  }

  lemma FirstListedGrows(e: Env, f: Fleet, s: string)
    requires Shape(e, f) && Listable(e, f, s) && s !in f.table
    ensures Grows(e, f, FirstListed(e, f, s))
  {
  }

  /** The table a first listing of `s` produces. */
  lemma DiscoverSnapshot(e: Env, f: Fleet, s: string)
    requires Inv(e, f) && Listable(e, f, s) && s !in f.table
    ensures SnapshotOk(e, FirstListed(e, f, s), f.table[s := FreshRow(s, e.parents[s])])
  {
    var f' := FirstListed(e, f, s);
    var t := f.table[s := FreshRow(s, e.parents[s])];
    FirstListedGrows(e, f, s);
    SnapshotGrows(e, f, f', f.table);
    forall c, p | c in t && c in e.parents && p in e.parents[c] && p in f'.versions && p !in t
      ensures AllHandled(e, f', p)
    {
      if c == s {
        assert HistoryOk(e, f, p);
        HandledGrows(e, f, f', p, |e.streams[p]|);
      }
    }
  }

  lemma DiscoverShape(e: Env, f: Fleet, s: string)
    requires Inv(e, f) && Listable(e, f, s) && s !in f.table
    ensures Grows(e, f, FirstListed(e, f, s)) && Shape(e, FirstListed(e, f, s))
  {
    var f' := FirstListed(e, f, s);
    FirstListedGrows(e, f, s);
    assert f'.versions.Keys == f'.table.Keys + f'.reaped;
    LoggedParents(e, f, f');
  }

  lemma DiscoverHistory(e: Env, f: Fleet, s: string)
    requires Inv(e, f) && Listable(e, f, s) && s !in f.table
    ensures HistoryOk(e, FirstListed(e, f, s), s)
  {
    PosOfSentinels(e.streams[s]);
    assert VersionOk(e, FirstListed(e, f, s), s, 0);
  }

  lemma FirstListedInv(e: Env, f: Fleet, s: string)
    requires Inv(e, f) && Listable(e, f, s) && s !in f.table
    ensures Inv(e, FirstListed(e, f, s))
  {
    DiscoverShape(e, f, s);
    DiscoverHistory(e, f, s);
    DiscoverSnapshot(e, f, s);
    Assemble(e, f, FirstListed(e, f, s));
  }

  lemma DiscoverGrows(e: Env, f: Fleet, s: string)
    requires Inv(e, f) && Enabled(e, f, Discover(s)) && s !in f.table
    ensures Grows(e, f, Do(e, f, Discover(s))) && Shape(e, Do(e, f, Discover(s)))
  {
    DiscoverShape(e, f, s);
  }

  lemma DiscoverInv(e: Env, f: Fleet, s: string)
    requires Inv(e, f) && Enabled(e, f, Discover(s))
    ensures Inv(e, Do(e, f, Discover(s)))
  {
    if s !in f.table {
      FirstListedInv(e, f, s);
    }
  }

  lemma RefreshedOk(e: Env, f: Fleet, observed: Observations, t: Table)
    requires SnapshotOk(e, f, t) && ObservedOk(f, observed)
    requires forall s :: s in f.versions ==> HistoryOk(e, f, s)
    ensures ObservedOk(f, Refreshed(observed, t, f.now))
  {
    forall s | s in t ensures 0 <= t[s].counter < |f.versions[s]| && f.versions[s][t[s].counter].at <= f.now {
      assert t[s].shardId == s && IsVersion(f, t[s]);
      assert VersionOk(e, f, s, t[s].counter);
    }
  }

  lemma DrainedMeansDone(e: Env, f: Fleet, t: Table, s: string)
    requires Inv(e, f) && SnapshotOk(e, f, t) && s in DrainedShards(t)
    ensures ParentsDone(e, f, s)
  {
    assert t[s].shardId == s && IsVersion(f, t[s]);
    assert HistoryOk(e, f, s);
    assert VersionOk(e, f, s, t[s].counter);
    forall p | p in e.parents[s] && p in f.versions ensures AllHandled(e, f, p) {
      if p in t {
        assert p in t[s].parentIds;
        assert t[p].checkpoint == SHARD_END;
        assert t[p].shardId == p && IsVersion(f, t[p]);
        assert HistoryOk(e, f, p) && VersionOk(e, f, p, t[p].counter);
        PosOfSentinels(e.streams[p]);
      }
    }
  }

  lemma ListedRow(leases: seq<Lease>, t: Table, l: Lease)
    requires Enumerates(leases, t) && l in leases
    ensures l.shardId in t && t[l.shardId] == l
  {
    var i :| 0 <= i < |leases| && leases[i] == l;
  }

  /** Not fresh means the counter was already the listed one a lease duration ago. */
  lemma StaleMeansOld(e: Env, f: Fleet, observed: Observations, t: Table, s: string)
    requires ObservedOk(f, observed) && s in t && t[s].owner != ""
    requires s in observed && observed[s].counter == t[s].counter
    requires s !in FreshShards(observed, t, f.now, e.leaseDuration)
    ensures s in f.versions && 0 <= t[s].counter < |f.versions[s]|
    ensures f.versions[s][t[s].counter].at + e.leaseDuration <= f.now
  {
  }

  lemma FreeListed(e: Env, f: Fleet, w: string, leases: seq<Lease>, t: Table, owned: set<string>, plan: PlanResult, s: string)
    requires PlansOn(e, f, w, leases, t, owned, plan) && s in plan.acquire
    ensures var observed := Refreshed(f.workers[w].observed, t, f.now);
      && s in DrainedShards(t) && t[s].shardId == s && t[s].checkpoint != SHARD_END
      && (t[s].owner == "" || t[s].owner == w || s !in FreshShards(observed, t, f.now, e.leaseDuration))
  {
    var observed := Refreshed(f.workers[w].observed, t, f.now);
    var l := AcquireGate(Input(e, w, leases, t, owned, observed, f.now), plan, s);
    ListedRow(leases, t, l);
  }

  lemma NotFreshIsOld(e: Env, f: Fleet, w: string, t: Table, s: string)
    requires Inv(e, f) && w in f.workers && t in f.past && s in t && t[s].owner != ""
    requires s !in FreshShards(Refreshed(f.workers[w].observed, t, f.now), t, f.now, e.leaseDuration)
    ensures IsVersion(f, t[s]) && f.versions[t[s].shardId][t[s].counter].at + e.leaseDuration <= f.now
  {
    assert WorkerOk(e, f, w) && SnapshotOk(e, f, t);
    assert t[s].shardId == s && IsVersion(f, t[s]);
    RefreshedOk(e, f, f.workers[w].observed, t);
    StaleMeansOld(e, f, Refreshed(f.workers[w].observed, t, f.now), t, s);
  }

  lemma AcquireClaimOk(e: Env, f: Fleet, w: string, leases: seq<Lease>, t: Table, owned: set<string>, plan: PlanResult, s: string)
    requires Inv(e, f) && PlansOn(e, f, w, leases, t, owned, plan) && s in plan.acquire
    ensures s in t && ClaimOk(e, f, w, t[s], false)
  {
    FreeListed(e, f, w, leases, t, owned, plan, s);
    assert SnapshotOk(e, f, t);
    DrainedMeansDone(e, f, t, s);
    assert IsVersion(f, t[s]);
    if t[s].owner != "" && t[s].owner != w {
      NotFreshIsOld(e, f, w, t, s);
    }
  }

  lemma StealClaimOk(e: Env, f: Fleet, w: string, leases: seq<Lease>, t: Table, owned: set<string>, plan: PlanResult)
    requires Inv(e, f) && PlansOn(e, f, w, leases, t, owned, plan) && plan.steal != ""
    ensures plan.steal in t && ClaimOk(e, f, w, t[plan.steal], true)
  {
    var observed := Refreshed(f.workers[w].observed, t, f.now);
    var l := StealGate(Input(e, w, leases, t, owned, observed, f.now), plan);
    ListedRow(leases, t, l);
    assert SnapshotOk(e, f, t);
    DrainedMeansDone(e, f, t, plan.steal);
    assert IsVersion(f, l);
  }

  lemma ClaimCases(plan: PlanResult, s: string)
    requires s in Claims(plan)
    ensures s in plan.acquire || (plan.steal != "" && s == plan.steal)
  {
  }

  lemma ClaimsOk(e: Env, f: Fleet, w: string, leases: seq<Lease>, t: Table, owned: set<string>, plan: PlanResult, s: string)
    requires Inv(e, f) && PlansOn(e, f, w, leases, t, owned, plan) && s in Claims(plan)
    ensures s in t && ClaimOk(e, f, w, t[s], s !in plan.acquire)
  {
    ClaimCases(plan, s);
    if s in plan.acquire {
      AcquireClaimOk(e, f, w, leases, t, owned, plan, s);
    } else {
      StealClaimOk(e, f, w, leases, t, owned, plan);
    }
  }

  lemma PlannedGrows(e: Env, f: Fleet, w: string, t: Table, plan: PlanResult)
    requires w in f.workers
    ensures Grows(e, f, Planned(f, w, t, plan))
  {
  }

  lemma PlannedWorker(e: Env, f: Fleet, w: string, leases: seq<Lease>, t: Table, owned: set<string>, plan: PlanResult)
    requires Inv(e, f) && PlansOn(e, f, w, leases, t, owned, plan)
    ensures WorkerOk(e, Planned(f, w, t, plan), w)
  {
    var f' := Planned(f, w, t, plan);
    PlannedGrows(e, f, w, t, plan);
    assert SnapshotOk(e, f, t) && WorkerOk(e, f, w);
    SnapshotGrows(e, f, f', t);
    RefreshedOk(e, f, f.workers[w].observed, t);
    forall s | s in Claims(plan) ensures s in t && ClaimOk(e, f', w, t[s], s !in plan.acquire) {
      ClaimsOk(e, f, w, leases, t, owned, plan, s);
      ClaimGrows(e, f, f', w, t[s], s !in plan.acquire);
    }
  }

  lemma PlannedInv(e: Env, f: Fleet, w: string, leases: seq<Lease>, t: Table, owned: set<string>, plan: PlanResult)
    requires Inv(e, f) && PlansOn(e, f, w, leases, t, owned, plan)
    ensures Inv(e, Planned(f, w, t, plan))
  {
    PlannedWorker(e, f, w, leases, t, owned, plan);
    SetWorkerInv(e, f, w, Worker(t, Refreshed(f.workers[w].observed, t, f.now), plan));
  }

  lemma ReconcileInv(e: Env, f: Fleet, step: Step)
    requires Inv(e, f) && Enabled(e, f, step) && step.Reconcile?
    ensures Inv(e, Do(e, f, step))
  {
    PlannedInv(e, f, step.worker, step.leases, step.t, step.owned, step.plan);
  }

  /** A listed row whose counter still matches is the current row. */
  lemma CounterMatchesRow(e: Env, f: Fleet, l: Lease)
    requires Inv(e, f) && IsVersion(f, l) && l.shardId in f.table && f.table[l.shardId].counter == l.counter
    ensures f.table[l.shardId] == l && l.counter == |f.versions[l.shardId]| - 1
    ensures Last(f, l.shardId) == f.versions[l.shardId][l.counter]
  {
    assert HistoryOk(e, f, l.shardId);
    assert VersionOk(e, f, l.shardId, |f.versions[l.shardId]| - 1);
  }

  lemma ClaimIsGood(e: Env, f: Fleet, w: string, l: Lease, stolen: bool)
    requires Inv(e, f) && w != "" && ClaimOk(e, f, w, l, stolen)
    requires l.shardId in f.table && f.table[l.shardId].counter == l.counter
    ensures f.table[l.shardId] == l
    ensures GoodWrite(e, f, AcquiredRow(l, w), Taken(stolen), |f.pollers|)
  {
    CounterMatchesRow(e, f, l);
    assert HistoryOk(e, f, l.shardId) && VersionOk(e, f, l.shardId, l.counter);
  }

  lemma NewPollerOk(e: Env, f: Fleet, f': Fleet, p: Poller)
    requires Grows(e, f, f') && p.shardId in f.versions && ParentsDone(e, f, p.shardId)
    requires p.shardId in e.streams && p.leased.shardId == p.shardId && p.leased.checkpoint != SHARD_END
    requires IsVersion(f', p.leased) && f'.versions[p.shardId][p.leased.counter].writer == |f.pollers|
    requires (p.phase.Acquired? || p.phase.Done?) && p.unsaved == 0
    ensures PollerOk(e, f', |f.pollers|, p)
  {
    ParentsDoneGrows(e, f, f', p.shardId);
  }

  lemma StartedInv(e: Env, f: Fleet, l: Lease, w: string, stolen: bool, acked: bool)
    requires Inv(e, f) && w != "" && ClaimOk(e, f, w, l, stolen)
    requires l.shardId in f.table && f.table[l.shardId].counter == l.counter
    ensures f.table[l.shardId] == l && Inv(e, Started(f, AcquiredRow(l, w), Taken(stolen), acked))
  {
    var row, pid := AcquiredRow(l, w), |f.pollers|;
    ClaimIsGood(e, f, w, l, stolen);
    PutInv(e, f, row, Taken(stolen), pid);
    PutGrows(e, f, row, Taken(stolen), pid);
    NewPollerOk(e, f, Put(f, row, Taken(stolen), pid), NewPoller(row, acked));
    AddPollerInv(e, Put(f, row, Taken(stolen), pid), NewPoller(row, acked));
  }

  lemma ClaimInv(e: Env, f: Fleet, w: string, s: string, acked: bool)
    requires Inv(e, f) && Enabled(e, f, Claim(w, s, acked))
    ensures Inv(e, Do(e, f, Claim(w, s, acked)))
  {
    var l, stolen := f.workers[w].listed[s], s !in f.workers[w].plan.acquire;
    assert WorkerOk(e, f, w) && ClaimOk(e, f, w, l, stolen) && l.shardId == s;
    StartedInv(e, f, l, w, stolen, acked);
  }

  lemma AddPollerInv(e: Env, f: Fleet, p: Poller)
    requires Inv(e, f) && PollerOk(e, f, |f.pollers|, p)
    ensures Inv(e, f.(pollers := f.pollers + [p]))
  {
    var f' := f.(pollers := f.pollers + [p]);
    PollerGrows(e, f, f', |f.pollers|, p);
    LoggedParents(e, f, f');
    forall s | s in f.versions ensures RowUntouched(f, f', s) {
    }
    Assemble(e, f, f');
  }

  lemma EndedAllHandled(e: Env, f: Fleet, l: Lease)
    requires Inv(e, f) && IsVersion(f, l) && l.checkpoint == SHARD_END
    requires l.shardId in f.table && f.table[l.shardId].counter == l.counter
    ensures f.table[l.shardId] == l && AllHandled(e, f, l.shardId) && l.shardId in f.versions
  {
    CounterMatchesRow(e, f, l);
    assert HistoryOk(e, f, l.shardId) && VersionOk(e, f, l.shardId, l.counter);
    PosOfSentinels(e.streams[l.shardId]);
  }

  lemma ReapedAllHandled(e: Env, f: Fleet, w: string, s: string)
    requires Inv(e, f) && Enabled(e, f, Reap(w, s))
    ensures f.table[s].checkpoint == SHARD_END && AllHandled(e, f, s) && s in f.versions
  {
    assert WorkerOk(e, f, w);
    assert f.workers[w].listed[s].shardId == s && IsVersion(f, f.workers[w].listed[s]);
    EndedAllHandled(e, f, f.workers[w].listed[s]);
  }

  function Without(f: Fleet, s: string): Fleet {
    f.(table := f.table - {s}, reaped := f.reaped + {s}, past := f.past + {f.table - {s}})
  }

  lemma ReapHistory(e: Env, f: Fleet, s: string)
    requires Inv(e, f) && s in f.table && AllHandled(e, f, s)
    ensures HistoryOk(e, Without(f, s), s)
  {
    var f' := Without(f, s);
    HandledGrows(e, f, f', s, |e.streams[s]|);
    assert s in f.versions;
    assert HistoryOk(e, f, s);
    forall c | 0 <= c < |f'.versions[s]| ensures VersionOk(e, f', s, c) {
      VersionOkGrows(e, f, f', s, c);
    }
  }

  /** Dropping a fully handled shard from a snapshot leaves it sound. */
  lemma SnapshotWithout(e: Env, f: Fleet, t: Table, s: string)
    requires SnapshotOk(e, f, t) && AllHandled(e, f, s)
    ensures SnapshotOk(e, f, t - {s})
  {
    var t' := t - {s};
    forall c, p | c in t' && c in e.parents && p in e.parents[c] && p in f.versions && p !in t'
      ensures AllHandled(e, f, p)
    {
      assert c in t;
      if p != s {
        assert p !in t;
      }
    }
  }

  lemma ReapGrows(e: Env, f: Fleet, s: string)
    requires Inv(e, f) && s in f.table && AllHandled(e, f, s)
    ensures Grows(e, f, Without(f, s)) && Shape(e, Without(f, s)) && AllHandled(e, Without(f, s), s)
  {
    var f' := Without(f, s);
    assert f'.versions.Keys == f'.table.Keys + f'.reaped;
    LoggedParents(e, f, f');
  }

  lemma WithoutSnapshot(e: Env, f: Fleet, s: string)
    requires Inv(e, f) && Grows(e, f, Without(f, s)) && AllHandled(e, Without(f, s), s)
    ensures SnapshotOk(e, Without(f, s), f.table - {s})
  {
    assert SnapshotOk(e, f, f.table);
    SnapshotGrows(e, f, Without(f, s), f.table);
    SnapshotWithout(e, Without(f, s), f.table, s);
  }

  lemma WithoutInv(e: Env, f: Fleet, s: string)
    requires Inv(e, f) && s in f.table && AllHandled(e, f, s)
    ensures Inv(e, Without(f, s))
  {
    var f' := Without(f, s);
    ReapGrows(e, f, s);
    WithoutSnapshot(e, f, s);
    ReapHistory(e, f, s);
    forall r | r in f'.versions ensures RowUntouched(f, f', r) || HistoryOk(e, f', r) {
      if r != s {
        WithoutElsewhere(f, s, r);
      }
    }
    Assemble(e, f, f');
  }

  lemma WithoutElsewhere(f: Fleet, s: string, r: string)
    requires r != s && r in f.versions
    ensures RowUntouched(f, Without(f, s), r)
  {
  }

  lemma ReapInv(e: Env, f: Fleet, w: string, s: string)
    requires Inv(e, f) && Enabled(e, f, Reap(w, s))
    ensures Inv(e, Do(e, f, Reap(w, s)))
  {
    ReapedAllHandled(e, f, w, s);
    WithoutInv(e, f, s);
  }

  // ------------------------------------------------------------ the poller

  /** The handle's own checkpoint is covered. */
  lemma HandleCovered(e: Env, f: Fleet, pid: nat)
    requires Inv(e, f) && pid < |f.pollers|
    ensures var p := f.pollers[pid];
      && p.shardId in e.streams && MarksPlace(e.streams[p.shardId], p.leased.checkpoint)
      && Handled(f, p.shardId, Pos(e.streams[p.shardId], p.leased.checkpoint))
      && HistoryOk(e, f, p.shardId)
  {
    var p := f.pollers[pid];
    assert PollerOk(e, f, pid, p);
    assert HistoryOk(e, f, p.shardId) && VersionOk(e, f, p.shardId, p.leased.counter);
  }

  /** Every local move of a poller keeps its iterator right after its checkpoint. */
  lemma MovePhaseOk(e: Env, f: Fleet, p: Poller, ev: Event)
    requires p.shardId in e.streams && PhaseOk(e, f, p)
    requires Handled(f, p.shardId, Pos(e.streams[p.shardId], p.leased.checkpoint))
    requires CanStep(p.phase, ev) && Plausible(e.streams[p.shardId], e.maxRecords, p, ev) && !ev.Delivered?
    ensures PhaseOk(e, f, Stepped(p, ev))
  {
    MoveInStep(e.streams[p.shardId], e.maxRecords, p, ev);
  }

  function WithHandled(f: Fleet, s: string, i: nat): Fleet
    requires s in f.log
  {
    f.(log := f.log[s := f.log[s] + [i]])
  }

  lemma DeliverPhaseOk(e: Env, f: Fleet, p: Poller)
    requires p.shardId in e.streams && PhaseOk(e, f, p) && p.phase.Handling?
    requires p.shardId in f.log
    ensures PhaseOk(e, WithHandled(f, p.shardId, p.phase.start + p.phase.done), Stepped(p, Delivered))
  {
    MoveInStep(e.streams[p.shardId], e.maxRecords, p, Delivered);
    var i := p.phase.start + p.phase.done;
    var f' := WithHandled(f, p.shardId, i);
    forall k | 0 <= k < i + 1 ensures k in f'.log[p.shardId] {
      if k < i {
        assert k in f.log[p.shardId];
      } else {
        assert f'.log[p.shardId][|f.log[p.shardId]|] == i;
      }
    }
  }

  lemma HandledGrowsLog(e: Env, f: Fleet, s: string, i: nat)
    requires Inv(e, f) && s in f.log && ParentsDone(e, f, s)
    ensures Grows(e, f, WithHandled(f, s, i)) && Shape(e, WithHandled(f, s, i))
  {
    var f' := WithHandled(f, s, i);
    assert f'.log.Keys == f.log.Keys;
    forall c | c in f'.versions && f'.log[c] != [] ensures ParentsDone(e, f', c) {
      ParentsDoneGrows(e, f, f', c);
    }
  }

  lemma HandledInv(e: Env, f: Fleet, s: string, i: nat)
    requires Inv(e, f) && s in f.log && ParentsDone(e, f, s)
    ensures Inv(e, WithHandled(f, s, i)) && Grows(e, f, WithHandled(f, s, i))
  {
    HandledGrowsLog(e, f, s, i);
    Assemble(e, f, WithHandled(f, s, i));
  }

  lemma DeliveredAs(e: Env, f: Fleet, pid: nat)
    requires Enabled(e, f, Poll(pid, Delivered))
    ensures var p := f.pollers[pid];
      && p.phase.Handling? && p.shardId in f.log
      && Do(e, f, Poll(pid, Delivered))
        == SetPoller(WithHandled(f, p.shardId, p.phase.start + p.phase.done), pid, Stepped(p, Delivered))
  {
  }

  lemma DeliverInv(e: Env, f: Fleet, pid: nat)
    requires Inv(e, f) && Enabled(e, f, Poll(pid, Delivered))
    ensures Inv(e, Do(e, f, Poll(pid, Delivered)))
  {
    DeliveredAs(e, f, pid);
    var p := f.pollers[pid];
    DeliveredInv(e, f, pid, p, WithHandled(f, p.shardId, p.phase.start + p.phase.done));
  }

  lemma DeliveredInv(e: Env, f: Fleet, pid: nat, p: Poller, f1: Fleet)
    requires Inv(e, f) && pid < |f.pollers| && p == f.pollers[pid] && p.phase.Handling? && p.shardId in f.log
    requires f1 == WithHandled(f, p.shardId, p.phase.start + p.phase.done)
    ensures Inv(e, SetPoller(f1, pid, Stepped(p, Delivered)))
  {
    assert PollerOk(e, f, pid, p);
    HandledInv(e, f, p.shardId, p.phase.start + p.phase.done);
    DeliveredPollerOk(e, f, pid, p);
    SetPollerInv(e, f1, pid, Stepped(p, Delivered));
  }

  lemma DeliveredPollerOk(e: Env, f: Fleet, pid: nat, p: Poller)
    requires PollerOk(e, f, pid, p) && p.phase.Handling? && p.shardId in f.log
    requires Grows(e, f, WithHandled(f, p.shardId, p.phase.start + p.phase.done))
    ensures PollerOk(e, WithHandled(f, p.shardId, p.phase.start + p.phase.done), pid, Stepped(p, Delivered))
  {
    var i := p.phase.start + p.phase.done;
    PollerGrows(e, f, WithHandled(f, p.shardId, i), pid, p);
    DeliverPhaseOk(e, f, p);
    MovedPollerOk(e, WithHandled(f, p.shardId, i), pid, p, Delivered);
  }

  lemma MovedPollerOk(e: Env, f: Fleet, pid: nat, p: Poller, ev: Event)
    requires PollerOk(e, f, pid, p) && CanStep(p.phase, ev)
    requires PhaseOk(e, f, Stepped(p, ev))
    ensures PollerOk(e, f, pid, Stepped(p, ev))
  {
  }

  lemma MoveInv(e: Env, f: Fleet, pid: nat, ev: Event)
    requires Inv(e, f) && Enabled(e, f, Poll(pid, ev)) && !ev.Delivered?
    ensures Inv(e, Do(e, f, Poll(pid, ev)))
  {
    var p := f.pollers[pid];
    HandleCovered(e, f, pid);
    assert PollerOk(e, f, pid, p);
    MovePhaseOk(e, f, p, ev);
    SetPollerInv(e, f, pid, Stepped(p, ev));
  }

  lemma PhaseChangeInv(e: Env, f: Fleet, pid: nat, phase: Phase)
    requires Inv(e, f) && pid < |f.pollers| && (phase.Exiting? || phase.Done?)
    ensures Inv(e, SetPhase(f, pid, phase))
  {
    assert PollerOk(e, f, pid, f.pollers[pid]);
    SetPollerInv(e, f, pid, f.pollers[pid].(phase := phase));
  }

  // ------------------------------------------------------------ the poller's writes

  /** The fence: a poller that may write holds the newest version of its row, and wrote
      that version itself. */
  lemma FencedHoldsRow(e: Env, f: Fleet, pid: nat)
    requires Inv(e, f) && pid < |f.pollers| && Fenced(f.table, f.pollers[pid].leased)
    ensures var p := f.pollers[pid];
      && p.leased.shardId == p.shardId && f.table[p.shardId] == p.leased && HistoryOk(e, f, p.shardId)
      && Last(f, p.shardId).row == p.leased && Last(f, p.shardId).writer == pid
      && Last(f, p.shardId).at <= f.now
  {
    var p := f.pollers[pid];
    assert PollerOk(e, f, pid, p);
    CounterMatchesRow(e, f, p.leased);
    assert HistoryOk(e, f, p.shardId) && VersionOk(e, f, p.shardId, p.leased.counter);
  }

  /** A write of the same checkpoint, acknowledged or not, leaves the poller sound. */
  lemma KeptPollerOk(e: Env, f: Fleet, f': Fleet, pid: nat, p: Poller, row: Lease, acked: bool)
    requires Grows(e, f, f') && PollerOk(e, f, pid, p)
    requires row.shardId == p.shardId && row.checkpoint == p.leased.checkpoint
    requires IsVersion(f', row) && f'.versions[p.shardId][row.counter].writer == pid
    ensures PollerOk(e, f', pid, Keeping(p, row, acked))
  {
    PollerGrows(e, f, f', pid, p);
  }

  lemma BeatIsGood(e: Env, f: Fleet, pid: nat)
    requires Inv(e, f) && pid < |f.pollers| && Fenced(f.table, f.pollers[pid].leased)
    ensures GoodWrite(e, f, HeartbeatRow(f.pollers[pid].leased), Beaten, pid)
    ensures GoodWrite(e, f, ReleasedRow(f.pollers[pid].leased), Freed, pid)
  {
    FencedHoldsRow(e, f, pid);
    HandleCovered(e, f, pid);
  }

  lemma BeatInv(e: Env, f: Fleet, pid: nat, acked: bool)
    requires Inv(e, f) && Enabled(e, f, Beat(pid, acked))
    ensures Inv(e, Do(e, f, Beat(pid, acked)))
  {
    var p := f.pollers[pid];
    FencedHoldsRow(e, f, pid);
    BeatIsGood(e, f, pid);
    var row := HeartbeatRow(p.leased);
    PutInv(e, f, row, Beaten, pid);
    PutGrows(e, f, row, Beaten, pid);
    assert PollerOk(e, f, pid, p);
    KeptPollerOk(e, f, Put(f, row, Beaten, pid), pid, p, row, acked);
    SetPollerInv(e, Put(f, row, Beaten, pid), pid, Keeping(p, row, acked));
  }

  lemma SaveWrite(e: Env, f: Fleet, pid: nat)
    requires Inv(e, f) && pid < |f.pollers| && f.pollers[pid].phase.Saving? && Fenced(f.table, f.pollers[pid].leased)
    ensures var p := f.pollers[pid]; var row := CheckpointRow(p.leased, e.streams[p.shardId][p.phase.start + p.phase.done - 1]);
      && GoodWrite(e, f, row, Saved, pid)
      && Pos(e.streams[p.shardId], row.checkpoint) == p.phase.start + p.phase.done
      && row.checkpoint != SHARD_END
  {
    var p := f.pollers[pid];
    assert PollerOk(e, f, pid, p);
    FencedHoldsRow(e, f, pid);
    PosOfRecord(e.streams[p.shardId], p.phase.start + p.phase.done - 1);
  }

  lemma SavedPollerOk(e: Env, f: Fleet, pid: nat, p: Poller, row: Lease, acked: bool)
    requires PollerOk(e, f, pid, p) && p.phase.Saving? && ValidStream(e.streams[p.shardId])
    requires row.shardId == p.shardId && IsVersion(f, row) && f.versions[row.shardId][row.counter].writer == pid
    requires row.checkpoint == LastSeq(e, p)
    ensures PollerOk(e, f, pid, if acked then SavedAs(p, row) else p.(unsaved := 0))
  {
    SaveInStep(e.streams[p.shardId], e.maxRecords, p, row);
  }

  lemma SaveInv(e: Env, f: Fleet, pid: nat, acked: bool)
    requires Inv(e, f) && Enabled(e, f, Save(pid, acked))
    ensures Inv(e, Do(e, f, Save(pid, acked)))
  {
    var p := f.pollers[pid];
    assert PollerOk(e, f, pid, p);
    FencedHoldsRow(e, f, pid);
    SaveWrite(e, f, pid);
    var row := CheckpointRow(p.leased, LastSeq(e, p));
    PutInv(e, f, row, Saved, pid);
    var f1 := Put(f, row, Saved, pid);
    PutGrows(e, f, row, Saved, pid);
    PollerGrows(e, f, f1, pid, p);
    SavedPollerOk(e, f1, pid, p, row, acked);
    SetPollerInv(e, f1, pid, if acked then SavedAs(p, row) else p.(unsaved := 0));
  }

  lemma EndIsGood(e: Env, f: Fleet, pid: nat)
    requires Inv(e, f) && pid < |f.pollers| && f.pollers[pid].phase.Ending? && Fenced(f.table, f.pollers[pid].leased)
    ensures GoodWrite(e, f, CheckpointRow(f.pollers[pid].leased, SHARD_END), Saved, pid)
  {
    var p := f.pollers[pid];
    assert PollerOk(e, f, pid, p);
    FencedHoldsRow(e, f, pid);
    HandleCovered(e, f, pid);
    PosOfSentinels(e.streams[p.shardId]);
  }

  lemma EndedPollerOk(e: Env, f: Fleet, f': Fleet, pid: nat, p: Poller, row: Lease, acked: bool)
    requires Grows(e, f, f') && PollerOk(e, f, pid, p) && row.shardId == p.shardId
    requires IsVersion(f', row) && f'.versions[p.shardId][row.counter].writer == pid
    ensures PollerOk(e, f', pid, Keeping(p, row, acked).(phase := Exiting))
  {
    PollerGrows(e, f, f', pid, p);
  }

  lemma EndInv(e: Env, f: Fleet, pid: nat, acked: bool)
    requires Inv(e, f) && Enabled(e, f, End(pid, acked))
    ensures Inv(e, Do(e, f, End(pid, acked)))
  {
    var p := f.pollers[pid];
    FencedHoldsRow(e, f, pid);
    EndIsGood(e, f, pid);
    var row := CheckpointRow(p.leased, SHARD_END);
    PutInv(e, f, row, Saved, pid);
    PutGrows(e, f, row, Saved, pid);
    assert PollerOk(e, f, pid, p);
    EndedPollerOk(e, f, Put(f, row, Saved, pid), pid, p, row, acked);
    SetPollerInv(e, Put(f, row, Saved, pid), pid, Keeping(p, row, acked).(phase := Exiting));
  }

  lemma FreeInv(e: Env, f: Fleet, pid: nat)
    requires Inv(e, f) && Enabled(e, f, Free(pid))
    ensures Inv(e, Do(e, f, Free(pid)))
  {
    FencedHoldsRow(e, f, pid);
    BeatIsGood(e, f, pid);
    var row := ReleasedRow(f.pollers[pid].leased);
    PutInv(e, f, row, Freed, pid);
    PhaseChangeInv(e, Put(f, row, Freed, pid), pid, Done);
  }

  // ------------------------------------------------------------ every step, every run

  lemma GivenUpInv(e: Env, f: Fleet, step: Step)
    requires Inv(e, f) && Enabled(e, f, step)
    requires step.SaveGivenUp? || step.EndGivenUp? || step.FreeFailed?
    ensures Inv(e, Do(e, f, step))
  {
    PhaseChangeInv(e, f, step.pid, if step.FreeFailed? then Done else Exiting);
  }

  lemma PollInv(e: Env, f: Fleet, pid: nat, ev: Event)
    requires Inv(e, f) && Enabled(e, f, Poll(pid, ev))
    ensures Inv(e, Do(e, f, Poll(pid, ev)))
  {
    if ev.Delivered? {
      DeliverInv(e, f, pid);
    } else {
      MoveInv(e, f, pid, ev);
    }
  }

  lemma PollerStepInv(e: Env, f: Fleet, step: Step)
    requires Inv(e, f) && Enabled(e, f, step)
    requires step.Beat? || step.Save? || step.End? || step.Free?
    ensures Inv(e, Do(e, f, step))
  {
    match step
    case Beat(pid, acked) => BeatInv(e, f, pid, acked);
    case Save(pid, acked) => SaveInv(e, f, pid, acked);
    case End(pid, acked) => EndInv(e, f, pid, acked);
    case Free(pid) => FreeInv(e, f, pid);
  }

  lemma CoordinatorStepInv(e: Env, f: Fleet, step: Step)
    requires Inv(e, f) && Enabled(e, f, step)
    requires step.Tick? || step.Discover? || step.Restart? || step.Claim? || step.Reap?
    ensures Inv(e, Do(e, f, step))
  {
    if step.Tick? {
      TickInv(e, f, step.elapsed);
    } else if step.Discover? {
      DiscoverInv(e, f, step.shardId);
    } else if step.Restart? {
      RestartInv(e, f, step.worker);
    } else if step.Claim? {
      ClaimInv(e, f, step.worker, step.shardId, step.acked);
    } else {
      ReapInv(e, f, step.worker, step.shardId);
    }
  }

  lemma StepKeepsInv(e: Env, f: Fleet, step: Step)
    requires Inv(e, f) && Enabled(e, f, step)
    ensures Inv(e, Do(e, f, step))
  {
    if step.Reconcile? {
      ReconcileInv(e, f, step);
    } else if step.Poll? {
      PollInv(e, f, step.pid, step.ev);
    } else if step.Beat? || step.Save? || step.End? || step.Free? {
      PollerStepInv(e, f, step);
    } else if step.SaveGivenUp? || step.EndGivenUp? || step.FreeFailed? {
      GivenUpInv(e, f, step);
    } else {
      CoordinatorStepInv(e, f, step);
    }
  }

  lemma EmptyInv(e: Env)
    requires ValidEnv(e)
    ensures Inv(e, EMPTY)
  {
  }

  lemma {:induction false} RunKeepsInv(e: Env, f: Fleet, steps: seq<Step>)
    requires Inv(e, f) && CanRun(e, f, steps)
    ensures Inv(e, Outcome(e, f, steps))
    decreases |steps|
  {
    if steps != [] {
      StepKeepsInv(e, f, steps[0]);
      RunKeepsInv(e, Do(e, f, steps[0]), steps[1..]);
    }
  }
}
