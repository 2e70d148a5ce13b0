/** What holds over whole runs of the fleet, under any interleaving with crashes, steals,
    lost acknowledgements and store errors. */
module FleetSafety {
  import opened Sequences
  import opened LeaseStore
  import opened Taker
  import opened Discovery
  import opened Positions
  import opened PollerMachine
  import opened Fleet
  import opened FleetInvariant
  import opened FleetSteps

  /** A state some run of the fleet reaches from the empty table. */
  ghost predicate Reachable(e: Env, f: Fleet) {
    ValidEnv(e) && exists steps :: CanRun(e, EMPTY, steps) && Outcome(e, EMPTY, steps) == f
  }

  lemma ReachableInv(e: Env, f: Fleet)
    requires Reachable(e, f)
    ensures Inv(e, f)
  {
    var steps :| CanRun(e, EMPTY, steps) && Outcome(e, EMPTY, steps) == f;
    EmptyInv(e);
    RunKeepsInv(e, EMPTY, steps);
  }

  // ------------------------------------------------------------ nothing is lost

  /** Every record a persisted checkpoint covers was handled by some poller; a row at
      SHARD_END, or a reaped one, means the whole shard was. */
  lemma NothingLost(e: Env, f: Fleet, s: string)
    requires Reachable(e, f)
    ensures s in f.table ==> s in e.streams && Handled(f, s, Pos(e.streams[s], f.table[s].checkpoint))
    ensures s in f.table && f.table[s].checkpoint == SHARD_END ==> AllHandled(e, f, s)
    ensures s in f.reaped ==> s !in f.table && AllHandled(e, f, s)
  {
    ReachableInv(e, f);
    if s in f.versions {
      assert HistoryOk(e, f, s) && VersionOk(e, f, s, |f.versions[s]| - 1);
      PosOfSentinels(e.streams[s]);
    }
  }

  /** A record of a shard is only ever handled once every record of each of its parents
      that has had a row was handled. */
  lemma ParentsBeforeChildren(e: Env, f: Fleet, pid: nat, p: string)
    requires Reachable(e, f) && Enabled(e, f, Poll(pid, Delivered))
    requires f.pollers[pid].shardId in e.parents && p in e.parents[f.pollers[pid].shardId]
    ensures p in f.versions ==> AllHandled(e, f, p)
  {
    ReachableInv(e, f);
    assert PollerOk(e, f, pid, f.pollers[pid]);
  }

  /** ... and such a parent cannot turn up later without having been handled: in every
      reachable state, a shard with a handled record has all its known parents done. */
  lemma HandledChildHasDoneParents(e: Env, f: Fleet, c: string, p: string)
    requires Reachable(e, f) && c in f.log && f.log[c] != []
    ensures c in e.parents && (p in e.parents[c] && p in f.versions ==> AllHandled(e, f, p))
  {
    ReachableInv(e, f);
  }

  /** No poller, not even one whose lease was stolen, handles a record more than one batch
      past the checkpoint in its handle. */
  lemma OneBatchAhead(e: Env, f: Fleet, pid: nat)
    requires Reachable(e, f) && Enabled(e, f, Poll(pid, Delivered))
    ensures var p := f.pollers[pid]; var at := Pos(e.streams[p.shardId], p.leased.checkpoint);
      at <= p.phase.start + p.phase.done < at + e.maxRecords
  {
    ReachableInv(e, f);
    assert PollerOk(e, f, pid, f.pollers[pid]);
  }

  // ------------------------------------------------------------ rows over time

  lemma {:induction false} CheckpointsAdvance(e: Env, f: Fleet, s: string, i: nat, j: nat)
    requires Inv(e, f) && s in f.versions && i <= j < |f.versions[s]|
    ensures s in e.streams
    ensures var stream, a, b := e.streams[s], f.versions[s][i].row.checkpoint, f.versions[s][j].row.checkpoint;
      Pos(stream, a) <= Pos(stream, b) && (a == SHARD_END ==> b == SHARD_END)
    decreases j
  {
    assert HistoryOk(e, f, s);
    if i < j {
      CheckpointsAdvance(e, f, s, i, j - 1);
      assert VersionOk(e, f, s, j) && VersionOk(e, f, s, j - 1);
    }
  }

  lemma SetPollerGrows(e: Env, f: Fleet, g: Fleet, pid: nat, p: Poller)
    requires Grows(e, f, g) && pid < |g.pollers|
    ensures Grows(e, f, SetPoller(g, pid, p))
  {
  }

  lemma BeatGrows(e: Env, f: Fleet, pid: nat, acked: bool)
    requires Inv(e, f) && Enabled(e, f, Beat(pid, acked))
    ensures Grows(e, f, Do(e, f, Beat(pid, acked)))
  {
    FencedHoldsRow(e, f, pid);
    var p := f.pollers[pid];
    PutGrows(e, f, HeartbeatRow(p.leased), Beaten, pid);
    SetPollerGrows(e, f, Put(f, HeartbeatRow(p.leased), Beaten, pid), pid, Keeping(p, HeartbeatRow(p.leased), acked));
  }

  lemma SaveGrows(e: Env, f: Fleet, pid: nat, acked: bool)
    requires Inv(e, f) && Enabled(e, f, Save(pid, acked))
    ensures Grows(e, f, Do(e, f, Save(pid, acked)))
  {
    FencedHoldsRow(e, f, pid);
    var p := f.pollers[pid];
    var row := CheckpointRow(p.leased, LastSeq(e, p));
    PutGrows(e, f, row, Saved, pid);
    SetPollerGrows(e, f, Put(f, row, Saved, pid), pid, if acked then SavedAs(p, row) else p.(unsaved := 0));
  }

  lemma EndGrows(e: Env, f: Fleet, pid: nat, acked: bool)
    requires Inv(e, f) && Enabled(e, f, End(pid, acked))
    ensures Grows(e, f, Do(e, f, End(pid, acked)))
  {
    FencedHoldsRow(e, f, pid);
    var p := f.pollers[pid];
    var row := CheckpointRow(p.leased, SHARD_END);
    PutGrows(e, f, row, Saved, pid);
    SetPollerGrows(e, f, Put(f, row, Saved, pid), pid, Keeping(p, row, acked).(phase := Exiting));
  }

  lemma FreeGrows(e: Env, f: Fleet, pid: nat)
    requires Inv(e, f) && Enabled(e, f, Free(pid))
    ensures Grows(e, f, Do(e, f, Free(pid)))
  {
    FencedHoldsRow(e, f, pid);
    var p := f.pollers[pid];
    PutGrows(e, f, ReleasedRow(p.leased), Freed, pid);
    SetPollerGrows(e, f, Put(f, ReleasedRow(p.leased), Freed, pid), pid, p.(phase := Done));
  }

  lemma WriteGrows(e: Env, f: Fleet, step: Step)
    requires Inv(e, f) && Enabled(e, f, step)
    requires step.Beat? || step.Save? || step.End? || step.Free?
    ensures Grows(e, f, Do(e, f, step))
  {
    if step.Beat? {
      BeatGrows(e, f, step.pid, step.acked);
    } else if step.Save? {
      SaveGrows(e, f, step.pid, step.acked);
    } else if step.End? {
      EndGrows(e, f, step.pid, step.acked);
    } else {
      FreeGrows(e, f, step.pid);
    }
  }

  lemma PollGrows(e: Env, f: Fleet, pid: nat, ev: Event)
    requires Enabled(e, f, Poll(pid, ev))
    ensures Grows(e, f, Do(e, f, Poll(pid, ev)))
  {
    assert Do(e, f, Poll(pid, ev)).versions == f.versions;
  }

  lemma StartedGrows(e: Env, f: Fleet, row: Lease, op: Op, acked: bool)
    requires row.shardId in f.versions
    ensures Grows(e, f, Started(f, row, op, acked))
  {
  }

  lemma ClaimStepGrows(e: Env, f: Fleet, w: string, s: string, acked: bool)
    requires Inv(e, f) && Enabled(e, f, Claim(w, s, acked))
    ensures Grows(e, f, Do(e, f, Claim(w, s, acked)))
  {
    RowsKeyed(e, f, s);
    StartedGrows(e, f, AcquiredRow(f.table[s], w), Taken(s !in f.workers[w].plan.acquire), acked);
  }

  lemma QuietStepGrows(e: Env, f: Fleet, step: Step)
    requires Enabled(e, f, step)
    requires !(step.Discover? || step.Poll? || step.Claim? || step.Beat? || step.Save? || step.End? || step.Free?)
    ensures Grows(e, f, Do(e, f, step))
  {
  }

  lemma StepGrows(e: Env, f: Fleet, step: Step)
    requires Inv(e, f) && Enabled(e, f, step)
    ensures Grows(e, f, Do(e, f, step))
  {
    if step.Discover? {
      if step.shardId !in f.table {
        DiscoverGrows(e, f, step.shardId);
      }
    } else if step.Beat? || step.Save? || step.End? || step.Free? {
      WriteGrows(e, f, step);
    } else if step.Claim? {
      ClaimStepGrows(e, f, step.worker, step.shardId, step.acked);
    } else if step.Poll? {
      PollGrows(e, f, step.pid, step.ev);
    } else {
      QuietStepGrows(e, f, step);
    }
  }

  lemma RowsKeyed(e: Env, f: Fleet, s: string)
    requires Inv(e, f) && s in f.table
    ensures f.table[s].shardId == s && s in f.versions
  {
    assert HistoryOk(e, f, s) && VersionOk(e, f, s, |f.versions[s]| - 1);
  }

  lemma GrowsTransitive(e: Env, f: Fleet, g: Fleet, h: Fleet)
    requires Grows(e, f, g) && Grows(e, g, h)
    ensures Grows(e, f, h)
  {
  }

  lemma {:induction false} RunGrows(e: Env, f: Fleet, steps: seq<Step>)
    requires Inv(e, f) && CanRun(e, f, steps)
    ensures Grows(e, f, Outcome(e, f, steps))
    decreases |steps|
  {
    if steps != [] {
      var g := Do(e, f, steps[0]);
      StepGrows(e, f, steps[0]);
      StepKeepsInv(e, f, steps[0]);
      RunGrows(e, g, steps[1..]);
      GrowsTransitive(e, f, g, Outcome(e, g, steps[1..]));
    }
  }

  /** Whatever happens next, a row's counter and checkpoint never move back, a row at
      SHARD_END stays there, and equal counters mean equal rows. */
  lemma RowsNeverMoveBack(e: Env, f: Fleet, steps: seq<Step>, s: string)
    requires Reachable(e, f) && CanRun(e, f, steps)
    requires s in f.table && s in Outcome(e, f, steps).table
    ensures s in e.streams
    ensures var a, b := f.table[s], Outcome(e, f, steps).table[s];
      && a.counter <= b.counter
      && Pos(e.streams[s], a.checkpoint) <= Pos(e.streams[s], b.checkpoint)
      && (a.checkpoint == SHARD_END ==> b.checkpoint == SHARD_END)
      && (a.counter == b.counter ==> a == b)
  {
    ReachableInv(e, f);
    RunGrows(e, f, steps);
    RunKeepsInv(e, f, steps);
    LaterRow(e, f, Outcome(e, f, steps), s);
  }

  lemma TopVersion(e: Env, f: Fleet, s: string)
    requires Inv(e, f) && s in f.table
    ensures s in f.versions && f.table[s].counter == |f.versions[s]| - 1 >= 0
    ensures f.versions[s][f.table[s].counter].row == f.table[s]
  {
    assert HistoryOk(e, f, s) && VersionOk(e, f, s, |f.versions[s]| - 1);
  }

  lemma LaterRow(e: Env, f: Fleet, f': Fleet, s: string)
    requires Inv(e, f) && Inv(e, f') && Grows(e, f, f') && s in f.table && s in f'.table
    ensures s in e.streams
    ensures var a, b := f.table[s], f'.table[s];
      && a.counter <= b.counter
      && Pos(e.streams[s], a.checkpoint) <= Pos(e.streams[s], b.checkpoint)
      && (a.checkpoint == SHARD_END ==> b.checkpoint == SHARD_END)
      && (a.counter == b.counter ==> a == b)
  {
    TopVersion(e, f, s);
    TopVersion(e, f', s);
    assert f'.versions[s][f.table[s].counter] == f.versions[s][f.table[s].counter];
    CheckpointsAdvance(e, f', s, f.table[s].counter, f'.table[s].counter);
  }

  /** A reaped shard never gets a row again. */
  lemma {:induction false} ReapedStaysReaped(e: Env, f: Fleet, steps: seq<Step>, s: string)
    requires Inv(e, f) && CanRun(e, f, steps) && s in f.reaped
    ensures s in Outcome(e, f, steps).reaped && s !in Outcome(e, f, steps).table
    decreases |steps|
  {
    if steps != [] {
      StepKeepsInv(e, f, steps[0]);
      ReapedStep(e, f, steps[0], s);
      ReapedStaysReaped(e, Do(e, f, steps[0]), steps[1..], s);
    }
  }

  lemma ReapedStep(e: Env, f: Fleet, step: Step, s: string)
    requires Enabled(e, f, step) && s in f.reaped
    ensures s in Do(e, f, step).reaped
  {
  }

  // ------------------------------------------------------------ fencing

  /** Every handle a poller holds is a value its row really had, written by that poller. */
  lemma HandlesArePastVersions(e: Env, f: Fleet, pid: nat)
    requires Reachable(e, f) && pid < |f.pollers|
    ensures var l := f.pollers[pid].leased;
      && l.shardId in f.versions && 0 <= l.counter < |f.versions[l.shardId]|
      && f.versions[l.shardId][l.counter].row == l && f.versions[l.shardId][l.counter].writer == pid
  {
    ReachableInv(e, f);
    assert PollerOk(e, f, pid, f.pollers[pid]);
  }

  /** Versions count up by one, and from an acquisition to the next only the acquiring
      poller's heartbeats, checkpoints and release succeed. */
  lemma {:induction false} OnlyTheAcquirerWrites(e: Env, f: Fleet, s: string, i: nat, k: nat)
    requires Reachable(e, f) && s in f.versions && i <= k < |f.versions[s]|
    requires forall j :: i < j <= k ==> !f.versions[s][j].op.Taken?
    ensures f.versions[s][k].writer == f.versions[s][i].writer
    ensures f.versions[s][k].row.counter == k && f.versions[s][i].row.counter == i
    decreases k
  {
    ReachableInv(e, f);
    assert HistoryOk(e, f, s) && VersionOk(e, f, s, k) && VersionOk(e, f, s, i);
    if i < k {
      OnlyTheAcquirerWrites(e, f, s, i, k - 1);
    }
  }

  /** Two pollers never both hold the current version of a row. */
  lemma OneWriterPerRow(e: Env, f: Fleet, p: nat, q: nat)
    requires Reachable(e, f) && p < |f.pollers| && q < |f.pollers|
    requires f.pollers[p].shardId == f.pollers[q].shardId
    requires Fenced(f.table, f.pollers[p].leased) && Fenced(f.table, f.pollers[q].leased)
    ensures p == q
  {
    ReachableInv(e, f);
    FencedHoldsRow(e, f, p);
    FencedHoldsRow(e, f, q);
  }

  /** A lease is taken from another worker, other than by a steal, only after the row saw no
      write for a whole lease duration; and never at SHARD_END. */
  lemma TakeoverMeansSilence(e: Env, f: Fleet, s: string, k: nat)
    requires Reachable(e, f) && s in f.versions && 0 < k < |f.versions[s]|
    requires f.versions[s][k].op.Taken?
    ensures var a, b := f.versions[s][k - 1], f.versions[s][k];
      && a.row.checkpoint != SHARD_END
      && (!b.op.stolen && a.row.owner != "" && a.row.owner != b.row.owner ==> a.at + e.leaseDuration <= b.at)
  {
    ReachableInv(e, f);
    assert HistoryOk(e, f, s) && VersionOk(e, f, s, k);
  }
}
