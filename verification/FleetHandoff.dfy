/** Planned handoffs are exactly-once: runs whose only handoffs are drains. */
module FleetHandoff {
  import opened Sequences
  import opened LeaseStore
  import opened Taker
  import opened Positions
  import opened PollerMachine
  import opened Fleet
  import opened FleetInvariant
  import opened FleetSteps
  import opened FleetSafety
  import opened FleetDelivery

  /** No live poller dies, nothing is taken from an owner, no acknowledgement is lost and no
      checkpoint is given up. Drains, rejections, expired iterators, failed reads and failed
      releases remain. */
  ghost predicate Graceful(f: Fleet, step: Step) {
    match step
    case Restart(w) => forall p :: p in f.pollers && p.worker == w ==> p.phase == Done
    case Claim(_, s, acked) => acked && s in f.table && f.table[s].owner == ""
    case Beat(_, acked) => acked
    case Save(_, acked) => acked
    case End(_, acked) => acked
    case SaveGivenUp(_) => false
    case _ => true
  }

  ghost predicate GracefulRun(e: Env, f: Fleet, steps: seq<Step>)
    decreases |steps|
  {
    steps == [] ||
    (Graceful(f, steps[0]) && Enabled(e, f, steps[0]) && GracefulRun(e, Do(e, f, steps[0]), steps[1..]))
  }

  /** A live poller holds the newest version, as its owner; a finished one saved all it
      handled. */
  ghost predicate Tidy(f: Fleet, p: Poller) {
    && (p.phase != Done ==> Holds(f, p))
    && (p.unsaved > 0 ==> p.phase.Handling? || p.phase.Saving?)
  }

  ghost predicate Holds(f: Fleet, p: Poller) {
    && p.shardId in f.versions && |f.versions[p.shardId]| > 0
    && p.leased == Last(f, p.shardId).row && p.leased.owner != ""
  }

  ghost predicate InOrder(xs: seq<nat>) {
    forall i :: 0 <= i < |xs| ==> xs[i] == i
  }

  ghost predicate Orderly(e: Env, f: Fleet) {
    && (forall pid :: 0 <= pid < |f.pollers| ==> Tidy(f, f.pollers[pid]))
    && (forall s :: s in f.log ==> InOrder(f.log[s]))
  }

  /** At most one poller of a shard is live, because its row names one writer. */
  lemma OneLive(e: Env, f: Fleet, a: nat, b: nat)
    requires Inv(e, f) && Orderly(e, f) && a < |f.pollers| && b < |f.pollers|
    requires f.pollers[a].shardId == f.pollers[b].shardId
    requires f.pollers[a].phase != Done && f.pollers[b].phase != Done
    ensures a == b
  {
    assert Tidy(f, f.pollers[a]) && Tidy(f, f.pollers[b]);
    assert PollerOk(e, f, a, f.pollers[a]) && PollerOk(e, f, b, f.pollers[b]);
  }

  lemma OthersAreDone(e: Env, f: Fleet, pid: nat, q: nat)
    requires Inv(e, f) && Orderly(e, f) && pid < |f.pollers| && q < |f.pollers| && q != pid
    requires f.pollers[q].shardId == f.pollers[pid].shardId && f.pollers[pid].phase != Done
    ensures f.pollers[q].phase == Done
  {
    if f.pollers[q].phase != Done {
      OneLive(e, f, q, pid);
    }
  }

  lemma {:induction false} UnsavedOfOne(pollers: seq<Poller>, pid: nat, s: string)
    requires pid < |pollers|
    requires forall i :: 0 <= i < |pollers| && i != pid ==> Share(pollers[i], s) == 0
    ensures Unsaved(pollers, s) == Share(pollers[pid], s)
  {
    var n := |pollers| - 1;
    if pid == n {
      UnsavedNone(pollers[..n], s);
    } else {
      UnsavedOfOne(pollers[..n], pid, s);
    }
  }

  lemma OnlyMineUnsaved(e: Env, f: Fleet, pid: nat)
    requires Inv(e, f) && Orderly(e, f) && pid < |f.pollers| && f.pollers[pid].phase != Done
    ensures Unsaved(f.pollers, f.pollers[pid].shardId) == f.pollers[pid].unsaved
  {
    var s := f.pollers[pid].shardId;
    forall i | 0 <= i < |f.pollers| && i != pid ensures Share(f.pollers[i], s) == 0 {
      assert Tidy(f, f.pollers[i]);
      if f.pollers[i].shardId == s {
        OthersAreDone(e, f, pid, i);
      }
    }
    UnsavedOfOne(f.pollers, pid, s);
  }

  /** The next record a live poller delivers is the next one of the shard. */
  lemma DeliversNext(e: Env, f: Fleet, pid: nat)
    requires Inv(e, f) && Accounted(e, f) && Orderly(e, f)
    requires pid < |f.pollers| && f.pollers[pid].phase.Handling?
    ensures f.pollers[pid].shardId in f.log
    ensures f.pollers[pid].phase.start + f.pollers[pid].phase.done == |f.log[f.pollers[pid].shardId]|
  {
    var p := f.pollers[pid];
    assert PollerOk(e, f, pid, p) && Tidy(f, p) && Balanced(e, f, p.shardId);
    OnlyMineUnsaved(e, f, pid);
  }

  /** Replacing poller `pid`, with the histories of other shards untouched. */
  lemma TidyReplace(e: Env, f: Fleet, f': Fleet, pid: nat, p: Poller)
    requires Inv(e, f) && Orderly(e, f) && pid < |f.pollers| && f.pollers[pid].phase != Done
    requires f'.pollers == f.pollers[pid := p] && p.shardId == f.pollers[pid].shardId
    requires f'.versions.Keys == f.versions.Keys
    requires forall s :: s in f.versions && s != p.shardId ==> f'.versions[s] == f.versions[s]
    requires Tidy(f', p)
    ensures forall q :: 0 <= q < |f'.pollers| ==> Tidy(f', f'.pollers[q])
  {
    forall q | 0 <= q < |f'.pollers| ensures Tidy(f', f'.pollers[q]) {
      if q != pid {
        assert Tidy(f, f.pollers[q]);
        if f.pollers[q].shardId == p.shardId {
          OthersAreDone(e, f, pid, q);
        }
      }
    }
  }

  lemma MoveTidy(f: Fleet, p: Poller, ev: Event)
    requires CanStep(p.phase, ev) && Tidy(f, p)
    requires p.phase.Saving? || p.phase.Handling? || p.unsaved == 0
    requires p.phase.Handling? ==> p.unsaved == p.phase.done
    ensures Tidy(f, Stepped(p, ev))
  {
  }

  lemma MoveOrderly(e: Env, f: Fleet, pid: nat, ev: Event)
    requires Inv(e, f) && Orderly(e, f) && Enabled(e, f, Poll(pid, ev)) && !ev.Delivered?
    ensures Orderly(e, Do(e, f, Poll(pid, ev)))
  {
    MovedAs(e, f, pid, ev);
    var p := f.pollers[pid];
    assert PollerOk(e, f, pid, p) && Tidy(f, p);
    MoveTidy(f, p, ev);
    TidyReplace(e, f, SetPoller(f, pid, Stepped(p, ev)), pid, Stepped(p, ev));
  }

  lemma DeliveredOrderly(e: Env, f: Fleet, pid: nat, p: Poller, f': Fleet)
    requires Inv(e, f) && Accounted(e, f) && Orderly(e, f)
    requires pid < |f.pollers| && p == f.pollers[pid] && p.phase.Handling? && p.shardId in f.log
    requires f' == SetPoller(WithHandled(f, p.shardId, p.phase.start + p.phase.done), pid, Stepped(p, Delivered))
    ensures Orderly(e, f')
  {
    assert PollerOk(e, f, pid, p) && Tidy(f, p);
    DeliversNext(e, f, pid);
    MoveTidy(f, p, Delivered);
    TidyReplace(e, f, f', pid, Stepped(p, Delivered));
  }

  lemma DeliverOrderly(e: Env, f: Fleet, pid: nat)
    requires Inv(e, f) && Accounted(e, f) && Orderly(e, f) && Enabled(e, f, Poll(pid, Delivered))
    ensures Orderly(e, Do(e, f, Poll(pid, Delivered)))
  {
    DeliveredAs(e, f, pid);
    DeliveredOrderly(e, f, pid, f.pollers[pid], Do(e, f, Poll(pid, Delivered)));
  }

  lemma PollOrderly(e: Env, f: Fleet, pid: nat, ev: Event)
    requires Inv(e, f) && Accounted(e, f) && Orderly(e, f) && Enabled(e, f, Poll(pid, ev))
    ensures Orderly(e, Do(e, f, Poll(pid, ev)))
  {
    if ev.Delivered? {
      DeliverOrderly(e, f, pid);
    } else {
      MoveOrderly(e, f, pid, ev);
    }
  }

  /** An acknowledged write by a live poller leaves it holding the newest version. */
  lemma WriteOrderly(e: Env, f: Fleet, pid: nat, row: Lease, op: Op, p: Poller)
    requires Inv(e, f) && Orderly(e, f) && pid < |f.pollers| && f.pollers[pid].phase != Done
    requires p.shardId == f.pollers[pid].shardId == row.shardId && p.shardId in f.versions
    requires p.phase != Done ==> p.leased == row && row.owner != ""
    requires p.unsaved > 0 ==> p.phase.Handling? || p.phase.Saving?
    ensures Orderly(e, SetPoller(Put(f, row, op, pid), pid, p))
  {
    TidyReplace(e, f, SetPoller(Put(f, row, op, pid), pid, p), pid, p);
  }

  lemma LivePoller(e: Env, f: Fleet, pid: nat)
    requires Inv(e, f) && Orderly(e, f) && pid < |f.pollers| && f.pollers[pid].phase != Done
    requires Fenced(f.table, f.pollers[pid].leased)
    ensures var p := f.pollers[pid];
      && p.leased.shardId == p.shardId && p.shardId in f.versions && f.table[p.shardId] == p.leased
      && p.leased.owner != "" && (p.unsaved > 0 ==> p.phase.Handling? || p.phase.Saving?)
  {
    FencedHoldsRow(e, f, pid);
    assert Tidy(f, f.pollers[pid]);
  }

  lemma BeatOrderly(e: Env, f: Fleet, pid: nat)
    requires Inv(e, f) && Orderly(e, f) && Enabled(e, f, Beat(pid, true))
    ensures Orderly(e, Do(e, f, Beat(pid, true)))
  {
    LivePoller(e, f, pid);
    var p := f.pollers[pid];
    WriteOrderly(e, f, pid, HeartbeatRow(p.leased), Beaten, Keeping(p, HeartbeatRow(p.leased), true));
  }

  lemma SaveOrderly(e: Env, f: Fleet, pid: nat)
    requires Inv(e, f) && Orderly(e, f) && Enabled(e, f, Save(pid, true))
    ensures Orderly(e, Do(e, f, Save(pid, true)))
  {
    LivePoller(e, f, pid);
    var p := f.pollers[pid];
    var row := CheckpointRow(p.leased, LastSeq(e, p));
    WriteOrderly(e, f, pid, row, Saved, SavedAs(p, row));
  }

  lemma EndOrderly(e: Env, f: Fleet, pid: nat)
    requires Inv(e, f) && Orderly(e, f) && Enabled(e, f, End(pid, true))
    ensures Orderly(e, Do(e, f, End(pid, true)))
  {
    LivePoller(e, f, pid);
    var p := f.pollers[pid];
    var row := CheckpointRow(p.leased, SHARD_END);
    WriteOrderly(e, f, pid, row, Saved, Keeping(p, row, true).(phase := Exiting));
  }

  lemma FreeOrderly(e: Env, f: Fleet, pid: nat)
    requires Inv(e, f) && Orderly(e, f) && Enabled(e, f, Free(pid))
    ensures Orderly(e, Do(e, f, Free(pid)))
  {
    LivePoller(e, f, pid);
    var p := f.pollers[pid];
    WriteOrderly(e, f, pid, ReleasedRow(p.leased), Freed, p.(phase := Done));
  }

  lemma PhaseChangeOrderly(e: Env, f: Fleet, pid: nat, phase: Phase)
    requires Inv(e, f) && Orderly(e, f) && pid < |f.pollers| && f.pollers[pid].phase != Done
    requires f.pollers[pid].unsaved == 0
    ensures Orderly(e, SetPhase(f, pid, phase))
  {
    assert Tidy(f, f.pollers[pid]);
    TidyReplace(e, f, SetPhase(f, pid, phase), pid, f.pollers[pid].(phase := phase));
  }

  lemma GivenUpOrderly(e: Env, f: Fleet, step: Step)
    requires Inv(e, f) && Orderly(e, f) && Enabled(e, f, step) && (step.EndGivenUp? || step.FreeFailed?)
    ensures Orderly(e, Do(e, f, step))
  {
    assert Tidy(f, f.pollers[step.pid]);
    PhaseChangeOrderly(e, f, step.pid, if step.FreeFailed? then Done else Exiting);
  }

  lemma UnownedHasNoLive(e: Env, f: Fleet, s: string, q: nat)
    requires Inv(e, f) && Orderly(e, f) && s in f.table && f.table[s].owner == ""
    requires q < |f.pollers| && f.pollers[q].shardId == s
    ensures f.pollers[q].phase == Done
  {
    TopVersion(e, f, s);
    assert Tidy(f, f.pollers[q]);
  }

  /** A claim of an unowned row meets no live poller. */
  lemma StartedOrderly(e: Env, f: Fleet, s: string, row: Lease, op: Op)
    requires Inv(e, f) && Orderly(e, f) && s in f.table && f.table[s].owner == ""
    requires row.shardId == s && row.owner != ""
    ensures Orderly(e, Started(f, row, op, true))
  {
    var f' := Started(f, row, op, true);
    assert Tidy(f', NewPoller(row, true));
    forall q | 0 <= q < |f.pollers| ensures Tidy(f', f.pollers[q]) {
      StartedTidy(e, f, s, row, op, q);
    }
  }

  lemma StartedTidy(e: Env, f: Fleet, s: string, row: Lease, op: Op, q: nat)
    requires Inv(e, f) && Orderly(e, f) && s in f.table && f.table[s].owner == "" && row.shardId == s
    requires q < |f.pollers|
    ensures Tidy(Started(f, row, op, true), f.pollers[q])
  {
    assert Tidy(f, f.pollers[q]);
    if f.pollers[q].shardId == s {
      UnownedHasNoLive(e, f, s, q);
    } else {
      HoldsElsewhere(f, row, op, f.pollers[q]);
    }
  }

  lemma HoldsElsewhere(f: Fleet, row: Lease, op: Op, p: Poller)
    requires Tidy(f, p) && p.shardId != row.shardId
    ensures Tidy(Started(f, row, op, true), p)
  {
  }

  lemma ClaimOrderly(e: Env, f: Fleet, w: string, s: string)
    requires Inv(e, f) && Orderly(e, f) && Enabled(e, f, Claim(w, s, true)) && f.table[s].owner == ""
    ensures Orderly(e, Do(e, f, Claim(w, s, true)))
  {
    RowsKeyed(e, f, s);
    StartedOrderly(e, f, s, AcquiredRow(f.table[s], w), Taken(s !in f.workers[w].plan.acquire));
  }

  lemma FirstListedOrderly(e: Env, f: Fleet, s: string)
    requires Inv(e, f) && Orderly(e, f) && s in e.parents && s !in f.versions
    ensures Orderly(e, FirstListed(e, f, s))
  {
    var f' := FirstListed(e, f, s);
    forall q | 0 <= q < |f'.pollers| ensures Tidy(f', f'.pollers[q]) {
      assert Tidy(f, f.pollers[q]) && PollerOk(e, f, q, f.pollers[q]);
    }
  }

  lemma DiscoverOrderly(e: Env, f: Fleet, s: string)
    requires Inv(e, f) && Orderly(e, f) && Enabled(e, f, Discover(s))
    ensures Orderly(e, Do(e, f, Discover(s)))
  {
    if s !in f.table {
      assert s !in f.table.Keys + f.reaped;
      FirstListedOrderly(e, f, s);
    }
  }

  lemma RestartOrderly(e: Env, f: Fleet, w: string)
    requires Orderly(e, f) && Enabled(e, f, Restart(w)) && Graceful(f, Restart(w))
    ensures Orderly(e, Do(e, f, Restart(w)))
  {
    var f' := Do(e, f, Restart(w));
    assert f'.pollers == f.pollers;
    forall q | 0 <= q < |f'.pollers| ensures Tidy(f', f'.pollers[q]) {
      assert Tidy(f, f.pollers[q]);
    }
  }

  lemma QuietOrderly(e: Env, f: Fleet, step: Step)
    requires Orderly(e, f) && Enabled(e, f, step) && (step.Tick? || step.Reconcile? || step.Reap?)
    ensures Orderly(e, Do(e, f, step))
  {
    var f' := Do(e, f, step);
    assert f'.pollers == f.pollers && f'.versions == f.versions && f'.log == f.log;
    forall q | 0 <= q < |f'.pollers| ensures Tidy(f', f'.pollers[q]) {
      assert Tidy(f, f.pollers[q]);
    }
  }

  lemma WriteStepOrderly(e: Env, f: Fleet, step: Step)
    requires Inv(e, f) && Orderly(e, f) && Enabled(e, f, step) && Graceful(f, step)
    requires step.Beat? || step.Save? || step.End? || step.Free?
    ensures Orderly(e, Do(e, f, step))
  {
    if step.Beat? {
      BeatOrderly(e, f, step.pid);
    } else if step.Save? {
      SaveOrderly(e, f, step.pid);
    } else if step.End? {
      EndOrderly(e, f, step.pid);
    } else {
      FreeOrderly(e, f, step.pid);
    }
  }

  lemma StepOrderly(e: Env, f: Fleet, step: Step)
    requires Inv(e, f) && Accounted(e, f) && Orderly(e, f) && Enabled(e, f, step) && Graceful(f, step)
    ensures Orderly(e, Do(e, f, step))
  {
    if step.Poll? {
      PollOrderly(e, f, step.pid, step.ev);
    } else if step.Beat? || step.Save? || step.End? || step.Free? {
      WriteStepOrderly(e, f, step);
    } else if step.EndGivenUp? || step.FreeFailed? {
      GivenUpOrderly(e, f, step);
    } else if step.Discover? {
      DiscoverOrderly(e, f, step.shardId);
    } else if step.Restart? {
      RestartOrderly(e, f, step.worker);
    } else if step.Claim? {
      ClaimOrderly(e, f, step.worker, step.shardId);
    } else {
      QuietOrderly(e, f, step);
    }
  }

  lemma {:induction false} GracefulRunOrderly(e: Env, f: Fleet, steps: seq<Step>)
    requires Inv(e, f) && Accounted(e, f) && Orderly(e, f) && GracefulRun(e, f, steps)
    ensures CanRun(e, f, steps) && Orderly(e, Outcome(e, f, steps))
    ensures Inv(e, Outcome(e, f, steps)) && Accounted(e, Outcome(e, f, steps))
    decreases |steps|
  {
    if steps != [] {
      StepOrderly(e, f, steps[0]);
      StepKeepsBooks(e, f, steps[0]);
      StepKeepsInv(e, f, steps[0]);
      GracefulRunOrderly(e, Do(e, f, steps[0]), steps[1..]);
    }
  }

  /** Across all the successive owners of a shard, a run whose only handoffs are drains
      handles each record exactly once and in shard order; and when nobody is inside a
      batch, exactly the records the checkpoint covers. */
  lemma DrainsAreExactlyOnce(e: Env, steps: seq<Step>, s: string)
    requires ValidEnv(e) && GracefulRun(e, EMPTY, steps)
    ensures CanRun(e, EMPTY, steps)
    ensures var f := Outcome(e, EMPTY, steps);
      s in f.log ==> forall i :: 0 <= i < |f.log[s]| ==> f.log[s][i] == i
    ensures var f := Outcome(e, EMPTY, steps);
      s in f.table && (forall p :: p in f.pollers && p.shardId == s ==> !p.phase.Handling? && !p.phase.Saving?) ==>
        s in e.streams && s in f.log && |f.log[s]| == Pos(e.streams[s], f.table[s].checkpoint)
  {
    EmptyInv(e);
    GracefulRunOrderly(e, EMPTY, steps);
    SavedUp(e, Outcome(e, EMPTY, steps), s);
  }

  lemma SavedUp(e: Env, f: Fleet, s: string)
    requires Inv(e, f) && Accounted(e, f) && Orderly(e, f)
    ensures s in f.table && (forall p :: p in f.pollers && p.shardId == s ==> !p.phase.Handling? && !p.phase.Saving?) ==>
      s in e.streams && s in f.log && |f.log[s]| == Pos(e.streams[s], f.table[s].checkpoint)
  {
    if s in f.table && (forall p :: p in f.pollers && p.shardId == s ==> !p.phase.Handling? && !p.phase.Saving?) {
      forall i | 0 <= i < |f.pollers| ensures Share(f.pollers[i], s) == 0 {
        assert f.pollers[i] in f.pollers && Tidy(f, f.pollers[i]);
      }
      UnsavedNone(f.pollers, s);
      TopVersion(e, f, s);
      assert Balanced(e, f, s);
    }
  }
}
