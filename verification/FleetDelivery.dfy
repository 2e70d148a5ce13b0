/** Duplicates: how many deliveries ungraceful handoffs can repeat, and none otherwise. */
module FleetDelivery {
  import opened Sequences
  import opened LeaseStore
  import opened Taker
  import opened Positions
  import opened PollerMachine
  import opened Fleet
  import opened FleetInvariant
  import opened FleetSteps
  import opened FleetSafety

  // ------------------------------------------------------------ accounting

  function Share(p: Poller, s: string): nat {
    if p.shardId == s then p.unsaved else 0
  }

  /** Records of `s` handled by some poller since its last checkpoint that landed. */
  function Unsaved(pollers: seq<Poller>, s: string): nat {
    if pollers == [] then 0
    else Unsaved(pollers[..|pollers| - 1], s) + Share(pollers[|pollers| - 1], s)
  }

  ghost predicate Current(f: Fleet, p: Poller) {
    p.shardId in f.versions && p.leased.counter == |f.versions[p.shardId]| - 1
  }

  /** Every delivery is either covered by the checkpoint or still unsaved by one poller. */
  ghost predicate Balanced(e: Env, f: Fleet, s: string) {
    && s in f.versions && |f.versions[s]| > 0 && s in e.streams && s in f.log
    && |f.log[s]| == Pos(e.streams[s], Last(f, s).row.checkpoint) + Unsaved(f.pollers, s)
  }

  /** A poller about to checkpoint with a live handle has its whole batch unsaved. */
  ghost predicate BatchUnsaved(f: Fleet, p: Poller) {
    p.phase.Saving? && Current(f, p) ==> p.unsaved == p.phase.done
  }

  ghost predicate Accounted(e: Env, f: Fleet) {
    && (forall s :: s in f.versions ==> Balanced(e, f, s))
    && (forall pid :: 0 <= pid < |f.pollers| ==> BatchUnsaved(f, f.pollers[pid]))
  }

  lemma {:induction false} UnsavedUpdate(pollers: seq<Poller>, pid: nat, p: Poller, s: string)
    requires pid < |pollers|
    ensures Unsaved(pollers[pid := p], s) + Share(pollers[pid], s) == Unsaved(pollers, s) + Share(p, s)
  {
    var n := |pollers| - 1;
    if pid == n {
      assert pollers[pid := p][..n] == pollers[..n];
    } else {
      assert pollers[pid := p][..n] == pollers[..n][pid := p];
      UnsavedUpdate(pollers[..n], pid, p, s);
    }
  }

  lemma {:induction false} UnsavedKilled(pollers: seq<Poller>, w: string, s: string)
    ensures Unsaved(Killed(pollers, w), s) == Unsaved(pollers, s)
  {
    if pollers != [] {
      var n := |pollers| - 1;
      assert Killed(pollers, w)[..n] == Killed(pollers[..n], w);
      UnsavedKilled(pollers[..n], w, s);
    }
  }

  lemma {:induction false} UnsavedNone(pollers: seq<Poller>, s: string)
    requires forall i :: 0 <= i < |pollers| ==> Share(pollers[i], s) == 0
    ensures Unsaved(pollers, s) == 0
  {
    if pollers != [] {
      UnsavedNone(pollers[..|pollers| - 1], s);
    }
  }

  lemma UnsavedAdd(pollers: seq<Poller>, p: Poller, s: string)
    ensures Unsaved(pollers + [p], s) == Unsaved(pollers, s) + Share(p, s)
  {
    assert (pollers + [p])[..|pollers|] == pollers;
  }

  /** A step that leaves histories, logs and unsaved counts alone leaves the books alone. */
  lemma SameBooks(e: Env, f: Fleet, f': Fleet)
    requires Accounted(e, f)
    requires f'.versions == f.versions && f'.log == f.log && |f'.pollers| == |f.pollers|
    requires forall s :: Unsaved(f'.pollers, s) == Unsaved(f.pollers, s)
    requires forall pid :: 0 <= pid < |f.pollers| && f'.pollers[pid].phase.Saving? ==>
      f'.pollers[pid] == f.pollers[pid]
    ensures Accounted(e, f')
  {
    forall s | s in f'.versions ensures Balanced(e, f', s) {
      assert Balanced(e, f, s);
    }
    forall pid | 0 <= pid < |f'.pollers| ensures BatchUnsaved(f', f'.pollers[pid]) {
      assert BatchUnsaved(f, f.pollers[pid]);
    }
  }

  /** What a poller's step does to the books of the other shards: nothing. */
  lemma OtherShardBalanced(e: Env, f: Fleet, f': Fleet, pid: nat, p: Poller, s: string)
    requires Balanced(e, f, s) && pid < |f.pollers|
    requires f'.pollers == f.pollers[pid := p] && p.shardId == f.pollers[pid].shardId != s
    requires s in f'.versions && f'.versions[s] == f.versions[s] && s in f'.log && f'.log[s] == f.log[s]
    ensures Balanced(e, f', s)
  {
    UnsavedUpdate(f.pollers, pid, p, s);
  }

  lemma OtherPollerUnsaved(e: Env, f: Fleet, f': Fleet, q: nat)
    requires q < |f.pollers| && PollerOk(e, f, q, f.pollers[q]) && BatchUnsaved(f, f.pollers[q])
    requires f.pollers[q].shardId in f'.versions
    requires |f'.versions[f.pollers[q].shardId]| >= |f.versions[f.pollers[q].shardId]|
    ensures BatchUnsaved(f', f.pollers[q])
  {
  }

  /** A step of poller `pid` on its own shard keeps the books if it balances that shard. */
  lemma PollerBooks(e: Env, f: Fleet, f': Fleet, pid: nat, p: Poller)
    requires Accounted(e, f) && Inv(e, f) && Grows(e, f, f') && pid < |f.pollers|
    requires f'.pollers == f.pollers[pid := p] && p.shardId == f.pollers[pid].shardId
    requires f'.versions.Keys == f.versions.Keys
    requires forall s :: s in f.versions && s != p.shardId ==>
      f'.versions[s] == f.versions[s] && s in f'.log && s in f.log && f'.log[s] == f.log[s]
    requires Balanced(e, f', p.shardId) && BatchUnsaved(f', p)
    ensures Accounted(e, f')
  {
    forall s | s in f'.versions ensures Balanced(e, f', s) {
      if s != p.shardId {
        OtherShardBalanced(e, f, f', pid, p, s);
      }
    }
    forall q | 0 <= q < |f'.pollers| ensures BatchUnsaved(f', f'.pollers[q]) {
      if q != pid {
        assert PollerOk(e, f, q, f.pollers[q]);
        OtherPollerUnsaved(e, f, f', q);
      }
    }
  }

  lemma MovedAs(e: Env, f: Fleet, pid: nat, ev: Event)
    requires Enabled(e, f, Poll(pid, ev)) && !ev.Delivered?
    ensures CanStep(f.pollers[pid].phase, ev)
    ensures Do(e, f, Poll(pid, ev)) == SetPoller(f, pid, Stepped(f.pollers[pid], ev))
  {
  }

  lemma StillUnsaved(e: Env, f: Fleet, p: Poller, ev: Event)
    requires CanStep(p.phase, ev) && p.shardId in e.streams && PhaseOk(e, f, p)
    ensures Stepped(p, ev).phase.Saving? ==> Stepped(p, ev).unsaved == Stepped(p, ev).phase.done
  {
  }

  lemma ReplaceBalances(e: Env, f: Fleet, pid: nat, p: Poller)
    requires pid < |f.pollers| && Balanced(e, f, p.shardId)
    requires p.shardId == f.pollers[pid].shardId && p.unsaved == f.pollers[pid].unsaved
    ensures Balanced(e, SetPoller(f, pid, p), p.shardId)
  {
    UnsavedUpdate(f.pollers, pid, p, p.shardId);
  }

  lemma SetPollerOnlyGrows(e: Env, f: Fleet, pid: nat, p: Poller)
    requires pid < |f.pollers|
    ensures Grows(e, f, SetPoller(f, pid, p))
  {
  }

  /** Replacing a poller without touching log or table keeps the books if its unsaved
      count stands. */
  lemma ReplaceBooks(e: Env, f: Fleet, pid: nat, p: Poller)
    requires Accounted(e, f) && Inv(e, f) && pid < |f.pollers|
    requires p.shardId == f.pollers[pid].shardId && p.unsaved == f.pollers[pid].unsaved && p.shardId in f.versions
    requires BatchUnsaved(f, p)
    ensures Accounted(e, SetPoller(f, pid, p))
  {
    assert Balanced(e, f, p.shardId);
    ReplaceBalances(e, f, pid, p);
    SetPollerOnlyGrows(e, f, pid, p);
    PollerBooks(e, f, SetPoller(f, pid, p), pid, p);
  }

  lemma MoveBooks(e: Env, f: Fleet, pid: nat, ev: Event)
    requires Accounted(e, f) && Inv(e, f) && Enabled(e, f, Poll(pid, ev)) && !ev.Delivered?
    ensures Accounted(e, Do(e, f, Poll(pid, ev)))
  {
    MovedAs(e, f, pid, ev);
    assert PollerOk(e, f, pid, f.pollers[pid]);
    StillUnsaved(e, f, f.pollers[pid], ev);
    ReplaceBooks(e, f, pid, Stepped(f.pollers[pid], ev));
  }

  lemma DeliverBalances(e: Env, f: Fleet, pid: nat, p: Poller, i: nat)
    requires pid < |f.pollers| && p == f.pollers[pid] && p.phase.Handling? && Balanced(e, f, p.shardId)
    ensures Balanced(e, SetPoller(WithHandled(f, p.shardId, i), pid, Stepped(p, Delivered)), p.shardId)
  {
    UnsavedUpdate(f.pollers, pid, Stepped(p, Delivered), p.shardId);
  }

  lemma DeliveredGrows(e: Env, f: Fleet, pid: nat, s: string, i: nat, p: Poller)
    requires pid < |f.pollers| && s in f.log
    ensures Grows(e, f, SetPoller(WithHandled(f, s, i), pid, p))
  {
  }

  lemma DeliveredBooks(e: Env, f: Fleet, pid: nat, p: Poller, f': Fleet)
    requires Accounted(e, f) && Inv(e, f) && pid < |f.pollers| && p == f.pollers[pid]
    requires p.phase.Handling? && p.shardId in f.log && p.shardId in f.versions && p.shardId in e.streams
    requires f' == SetPoller(WithHandled(f, p.shardId, p.phase.start + p.phase.done), pid, Stepped(p, Delivered))
    requires Stepped(p, Delivered).phase.Saving? ==>
      Stepped(p, Delivered).unsaved == Stepped(p, Delivered).phase.done
    ensures Accounted(e, f')
  {
    assert Balanced(e, f, p.shardId);
    DeliverBalances(e, f, pid, p, p.phase.start + p.phase.done);
    DeliveredGrows(e, f, pid, p.shardId, p.phase.start + p.phase.done, Stepped(p, Delivered));
    PollerBooks(e, f, f', pid, Stepped(p, Delivered));
  }

  lemma DeliverBooks(e: Env, f: Fleet, pid: nat)
    requires Accounted(e, f) && Inv(e, f) && Enabled(e, f, Poll(pid, Delivered))
    ensures Accounted(e, Do(e, f, Poll(pid, Delivered)))
  {
    DeliveredAs(e, f, pid);
    assert PollerOk(e, f, pid, f.pollers[pid]);
    StillUnsaved(e, f, f.pollers[pid], Delivered);
    DeliveredBooks(e, f, pid, f.pollers[pid], Do(e, f, Poll(pid, Delivered)));
  }

  // ------------------------------------------------------------ the writes

  /** A write of poller `pid` keeps the books when the checkpoint moves by exactly what the
      poller no longer counts as unsaved. */
  lemma WriteBooks(e: Env, f: Fleet, pid: nat, row: Lease, op: Op, p: Poller)
    requires Accounted(e, f) && Inv(e, f) && pid < |f.pollers| && p.shardId == f.pollers[pid].shardId == row.shardId
    requires p.shardId in f.versions && |f.versions[p.shardId]| > 0 && p.shardId in e.streams
    requires Pos(e.streams[p.shardId], row.checkpoint) + p.unsaved
      == Pos(e.streams[p.shardId], Last(f, p.shardId).row.checkpoint) + f.pollers[pid].unsaved
    requires BatchUnsaved(Put(f, row, op, pid), p)
    ensures Accounted(e, SetPoller(Put(f, row, op, pid), pid, p))
  {
    var f' := SetPoller(Put(f, row, op, pid), pid, p);
    assert Balanced(e, f, p.shardId);
    UnsavedUpdate(f.pollers, pid, p, p.shardId);
    assert Last(f', p.shardId).row == row;
    PutGrows(e, f, row, op, pid);
    SetPollerGrows(e, f, Put(f, row, op, pid), pid, p);
    PollerBooks(e, f, f', pid, p);
  }

  lemma BeatBooks(e: Env, f: Fleet, pid: nat, acked: bool)
    requires Accounted(e, f) && Inv(e, f) && Enabled(e, f, Beat(pid, acked))
    ensures Accounted(e, Do(e, f, Beat(pid, acked)))
  {
    FencedHoldsRow(e, f, pid);
    TopVersion(e, f, f.pollers[pid].shardId);
    var p := f.pollers[pid];
    assert BatchUnsaved(f, p);
    WriteBooks(e, f, pid, HeartbeatRow(p.leased), Beaten, Keeping(p, HeartbeatRow(p.leased), acked));
  }

  lemma SaveBooks(e: Env, f: Fleet, pid: nat, acked: bool)
    requires Accounted(e, f) && Inv(e, f) && Enabled(e, f, Save(pid, acked))
    ensures Accounted(e, Do(e, f, Save(pid, acked)))
  {
    FencedHoldsRow(e, f, pid);
    TopVersion(e, f, f.pollers[pid].shardId);
    SaveWrite(e, f, pid);
    var p := f.pollers[pid];
    assert BatchUnsaved(f, p) && PollerOk(e, f, pid, p);
    WriteBooks(e, f, pid, CheckpointRow(p.leased, LastSeq(e, p)), Saved,
               if acked then SavedAs(p, CheckpointRow(p.leased, LastSeq(e, p))) else p.(unsaved := 0));
  }

  lemma EndBooks(e: Env, f: Fleet, pid: nat, acked: bool)
    requires Accounted(e, f) && Inv(e, f) && Enabled(e, f, End(pid, acked))
    ensures Accounted(e, Do(e, f, End(pid, acked)))
  {
    FencedHoldsRow(e, f, pid);
    var p := f.pollers[pid];
    assert PollerOk(e, f, pid, p);
    PosOfSentinels(e.streams[p.shardId]);
    var row := CheckpointRow(p.leased, SHARD_END);
    WriteBooks(e, f, pid, row, Saved, Keeping(p, row, acked).(phase := Exiting));
  }

  lemma FreeBooks(e: Env, f: Fleet, pid: nat)
    requires Accounted(e, f) && Inv(e, f) && Enabled(e, f, Free(pid))
    ensures Accounted(e, Do(e, f, Free(pid)))
  {
    FencedHoldsRow(e, f, pid);
    var p := f.pollers[pid];
    assert PollerOk(e, f, pid, p);
    WriteBooks(e, f, pid, ReleasedRow(p.leased), Freed, p.(phase := Done));
  }

  lemma GivenUpBooks(e: Env, f: Fleet, step: Step)
    requires Accounted(e, f) && Inv(e, f) && Enabled(e, f, step)
    requires step.SaveGivenUp? || step.EndGivenUp? || step.FreeFailed?
    ensures Accounted(e, Do(e, f, step))
  {
    assert PollerOk(e, f, step.pid, f.pollers[step.pid]);
    ReplaceBooks(e, f, step.pid, f.pollers[step.pid].(phase := if step.FreeFailed? then Done else Exiting));
  }

  // ------------------------------------------------------------ the coordinator's steps

  lemma RestartBooks(e: Env, f: Fleet, w: string)
    requires Accounted(e, f) && Enabled(e, f, Restart(w))
    ensures Accounted(e, Do(e, f, Restart(w)))
  {
    var f' := Do(e, f, Restart(w));
    forall s ensures Unsaved(f'.pollers, s) == Unsaved(f.pollers, s) {
      UnsavedKilled(f.pollers, w, s);
    }
    SameBooks(e, f, f');
  }

  lemma NoPollerYet(e: Env, f: Fleet, s: string)
    requires Inv(e, f) && s !in f.versions
    ensures Unsaved(f.pollers, s) == 0
  {
    forall i | 0 <= i < |f.pollers| ensures Share(f.pollers[i], s) == 0 {
      assert PollerOk(e, f, i, f.pollers[i]);
    }
    UnsavedNone(f.pollers, s);
  }

  lemma FirstListedBalanced(e: Env, f: Fleet, s: string, r: string)
    requires s in e.parents && s in e.streams && ValidStream(e.streams[s]) && s !in f.versions && Unsaved(f.pollers, s) == 0
    requires r != s ==> Balanced(e, f, r)
    ensures Balanced(e, FirstListed(e, f, s), r)
  {
    if r == s {
      PosOfSentinels(e.streams[s]);
    }
  }

  lemma FirstListedBooks(e: Env, f: Fleet, s: string)
    requires Accounted(e, f) && Inv(e, f) && Listable(e, f, s) && s !in f.table
    ensures Accounted(e, FirstListed(e, f, s))
  {
    var f' := FirstListed(e, f, s);
    assert s !in f.table.Keys + f.reaped;
    NoPollerYet(e, f, s);
    forall r | r in f'.versions ensures Balanced(e, f', r) {
      if r != s {
        assert Balanced(e, f, r);
      }
      FirstListedBalanced(e, f, s, r);
    }
    forall q | 0 <= q < |f'.pollers| ensures BatchUnsaved(f', f'.pollers[q]) {
      assert PollerOk(e, f, q, f.pollers[q]) && BatchUnsaved(f, f.pollers[q]);
    }
  }

  lemma DiscoverBooks(e: Env, f: Fleet, s: string)
    requires Accounted(e, f) && Inv(e, f) && Enabled(e, f, Discover(s))
    ensures Accounted(e, Do(e, f, Discover(s)))
  {
    if s !in f.table {
      FirstListedBooks(e, f, s);
    }
  }

  /** A new value of a row at the same checkpoint, and a new poller with nothing unsaved. */
  lemma StartedBooks(e: Env, f: Fleet, row: Lease, op: Op, acked: bool)
    requires Accounted(e, f) && Inv(e, f) && row.shardId in f.versions && |f.versions[row.shardId]| > 0
    requires row.checkpoint == Last(f, row.shardId).row.checkpoint
    ensures Accounted(e, Started(f, row, op, acked))
  {
    var f' := Started(f, row, op, acked);
    forall r | r in f'.versions ensures Balanced(e, f', r) {
      assert Balanced(e, f, r);
      StartedBalanced(e, f, row, op, acked, r);
    }
    forall q | 0 <= q < |f'.pollers| ensures BatchUnsaved(f', f'.pollers[q]) {
      if q < |f.pollers| {
        assert PollerOk(e, f, q, f.pollers[q]);
        OtherPollerUnsaved(e, f, f', q);
      }
    }
  }

  lemma StartedBalanced(e: Env, f: Fleet, row: Lease, op: Op, acked: bool, r: string)
    requires Balanced(e, f, r) && row.shardId in f.versions && |f.versions[row.shardId]| > 0
    requires row.checkpoint == Last(f, row.shardId).row.checkpoint
    ensures Balanced(e, Started(f, row, op, acked), r)
  {
    UnsavedAdd(f.pollers, NewPoller(row, acked), r);
  }

  lemma ClaimBooks(e: Env, f: Fleet, w: string, s: string, acked: bool)
    requires Accounted(e, f) && Inv(e, f) && Enabled(e, f, Claim(w, s, acked))
    ensures Accounted(e, Do(e, f, Claim(w, s, acked)))
  {
    TopVersion(e, f, s);
    RowsKeyed(e, f, s);
    StartedBooks(e, f, AcquiredRow(f.table[s], w), Taken(s !in f.workers[w].plan.acquire), acked);
  }

  lemma QuietBooks(e: Env, f: Fleet, step: Step)
    requires Accounted(e, f) && Enabled(e, f, step) && (step.Tick? || step.Reconcile? || step.Reap?)
    ensures Accounted(e, Do(e, f, step))
  {
    SameBooks(e, f, Do(e, f, step));
  }

  lemma WriteStepBooks(e: Env, f: Fleet, step: Step)
    requires Accounted(e, f) && Inv(e, f) && Enabled(e, f, step)
    requires step.Beat? || step.Save? || step.End? || step.Free?
    ensures Accounted(e, Do(e, f, step))
  {
    if step.Beat? {
      BeatBooks(e, f, step.pid, step.acked);
    } else if step.Save? {
      SaveBooks(e, f, step.pid, step.acked);
    } else if step.End? {
      EndBooks(e, f, step.pid, step.acked);
    } else {
      FreeBooks(e, f, step.pid);
    }
  }

  lemma PollBooks(e: Env, f: Fleet, pid: nat, ev: Event)
    requires Accounted(e, f) && Inv(e, f) && Enabled(e, f, Poll(pid, ev))
    ensures Accounted(e, Do(e, f, Poll(pid, ev)))
  {
    if ev.Delivered? {
      DeliverBooks(e, f, pid);
    } else {
      MoveBooks(e, f, pid, ev);
    }
  }

  lemma StepKeepsBooks(e: Env, f: Fleet, step: Step)
    requires Accounted(e, f) && Inv(e, f) && Enabled(e, f, step)
    ensures Accounted(e, Do(e, f, step))
  {
    if step.Poll? {
      PollBooks(e, f, step.pid, step.ev);
    } else if step.Beat? || step.Save? || step.End? || step.Free? {
      WriteStepBooks(e, f, step);
    } else if step.SaveGivenUp? || step.EndGivenUp? || step.FreeFailed? {
      GivenUpBooks(e, f, step);
    } else if step.Discover? {
      DiscoverBooks(e, f, step.shardId);
    } else if step.Restart? {
      RestartBooks(e, f, step.worker);
    } else if step.Claim? {
      ClaimBooks(e, f, step.worker, step.shardId, step.acked);
    } else {
      QuietBooks(e, f, step);
    }
  }

  lemma {:induction false} RunKeepsBooks(e: Env, f: Fleet, steps: seq<Step>)
    requires Accounted(e, f) && Inv(e, f) && CanRun(e, f, steps)
    ensures Accounted(e, Outcome(e, f, steps))
    decreases |steps|
  {
    if steps != [] {
      StepKeepsBooks(e, f, steps[0]);
      StepKeepsInv(e, f, steps[0]);
      RunKeepsBooks(e, Do(e, f, steps[0]), steps[1..]);
    }
  }

  lemma ReachableAccounted(e: Env, f: Fleet)
    requires Reachable(e, f)
    ensures Accounted(e, f) && Inv(e, f)
  {
    var steps :| CanRun(e, EMPTY, steps) && Outcome(e, EMPTY, steps) == f;
    EmptyInv(e);
    RunKeepsInv(e, EMPTY, steps);
    RunKeepsBooks(e, EMPTY, steps);
  }

  // ------------------------------------------------------------ bounded duplicates

  /** A poller still working through the batch that follows the newest checkpoint. */
  ghost predicate Working(f: Fleet, p: Poller) {
    Current(f, p) && (p.phase.Handling? || p.phase.Saving?)
  }

  /** A poller that lost its lease, died or gave up with delivered records unsaved. */
  ghost predicate LostBatch(f: Fleet, p: Poller, s: string) {
    p.shardId == s && p.unsaved > 0 && !Working(f, p)
  }

  ghost function Losses(f: Fleet, pollers: seq<Poller>, s: string): nat {
    if pollers == [] then 0
    else Losses(f, pollers[..|pollers| - 1], s) + if LostBatch(f, pollers[|pollers| - 1], s) then 1 else 0
  }

  function Elements(xs: seq<nat>): set<int> {
    set x | x in xs
  }

  function UpTo(n: nat): (r: set<int>)
    ensures |r| == n && forall i :: i in r <==> 0 <= i < n
  {
    if n == 0 then {} else UpTo(n - 1) + {n - 1}
  }

  lemma HandledDistinct(f: Fleet, s: string, n: nat)
    requires Handled(f, s, n)
    ensures |Elements(f.log[s])| >= n
  {
    assert UpTo(n) <= Elements(f.log[s]);
    assert Elements(f.log[s]) == UpTo(n) + (Elements(f.log[s]) - UpTo(n));
  }

  /** The unsaved records of `s` are those of the working poller `a`, if any, and at most
      one batch per lost one. */
  lemma {:induction false} UnsavedBound(e: Env, f: Fleet, pollers: seq<Poller>, s: string, a: int)
    requires forall i :: 0 <= i < |pollers| ==> pollers[i].unsaved <= e.maxRecords
    requires forall i :: 0 <= i < |pollers| && i != a && pollers[i].shardId == s ==> !Working(f, pollers[i])
    requires 0 <= a < |pollers| ==> pollers[a].shardId == s
    ensures Unsaved(pollers, s)
      <= (if 0 <= a < |pollers| then pollers[a].unsaved else 0) + e.maxRecords * Losses(f, pollers, s)
  {
    if pollers != [] {
      var n := |pollers| - 1;
      var rest := pollers[..n];
      UnsavedBound(e, f, rest, s, a);
      var lost := if LostBatch(f, pollers[n], s) then 1 else 0;
      assert Losses(f, pollers, s) == Losses(f, rest, s) + lost;
      assert e.maxRecords * (Losses(f, rest, s) + lost) == e.maxRecords * Losses(f, rest, s) + e.maxRecords * lost;
      assert lost == 1 ==> e.maxRecords * lost == e.maxRecords;
    }
  }

  lemma WorkingHandled(e: Env, f: Fleet, pid: nat, s: string)
    requires Inv(e, f) && Accounted(e, f) && pid < |f.pollers| && s in f.versions
    requires f.pollers[pid].shardId == s && Working(f, f.pollers[pid])
    ensures s in e.streams && |f.versions[s]| > 0
    ensures Handled(f, s, Pos(e.streams[s], Last(f, s).row.checkpoint) + f.pollers[pid].unsaved)
  {
    assert PollerOk(e, f, pid, f.pollers[pid]) && HistoryOk(e, f, s);
    assert BatchUnsaved(f, f.pollers[pid]);
  }

  lemma OneWorking(e: Env, f: Fleet, a: nat, b: nat)
    requires Inv(e, f) && a < |f.pollers| && b < |f.pollers| && f.pollers[a].shardId == f.pollers[b].shardId
    requires Current(f, f.pollers[a]) && Current(f, f.pollers[b])
    ensures a == b
  {
    assert PollerOk(e, f, a, f.pollers[a]) && PollerOk(e, f, b, f.pollers[b]);
  }

  lemma DuplicatesFrom(e: Env, f: Fleet, s: string, a: int)
    requires Inv(e, f) && Accounted(e, f) && s in f.versions
    requires 0 <= a < |f.pollers| ==> f.pollers[a].shardId == s && Working(f, f.pollers[a])
    requires forall i :: 0 <= i < |f.pollers| && i != a && f.pollers[i].shardId == s ==> !Working(f, f.pollers[i])
    ensures s in f.log && |f.log[s]| <= |Elements(f.log[s])| + e.maxRecords * Losses(f, f.pollers, s)
  {
    assert Balanced(e, f, s) && HistoryOk(e, f, s) && VersionOk(e, f, s, |f.versions[s]| - 1);
    forall i | 0 <= i < |f.pollers| ensures f.pollers[i].unsaved <= e.maxRecords {
      assert PollerOk(e, f, i, f.pollers[i]);
    }
    UnsavedBound(e, f, f.pollers, s, a);
    var at := Pos(e.streams[s], Last(f, s).row.checkpoint);
    if 0 <= a < |f.pollers| {
      WorkingHandled(e, f, a, s);
      HandledDistinct(f, s, at + f.pollers[a].unsaved);
    } else {
      HandledDistinct(f, s, at);
    }
  }

  /** Deliveries beyond the first of each record number at most MaxRecords for every
      ungraceful loss of a batch: stolen, expired, crashed or given up. */
  lemma DuplicatesBounded(e: Env, f: Fleet, s: string)
    requires Reachable(e, f) && s in f.log
    ensures |f.log[s]| <= |Elements(f.log[s])| + e.maxRecords * Losses(f, f.pollers, s)
  {
    ReachableAccounted(e, f);
    if a: nat :| a < |f.pollers| && f.pollers[a].shardId == s && Working(f, f.pollers[a]) {
      forall i | 0 <= i < |f.pollers| && i != a && f.pollers[i].shardId == s ensures !Working(f, f.pollers[i]) {
        if Working(f, f.pollers[i]) {
          OneWorking(e, f, a, i);
        }
      }
      DuplicatesFrom(e, f, s, a);
    } else {
      DuplicatesFrom(e, f, s, -1);
    }
  }
}
