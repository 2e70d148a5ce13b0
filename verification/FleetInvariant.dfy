/** The invariant of the fleet, and its proof step by step. */
module FleetInvariant {
  import opened Sequences
  import opened LeaseStore
  import opened Taker
  import opened TakerLemmas
  import opened Discovery
  import opened Positions
  import opened PollerMachine
  import opened Fleet

  // ---------------------------------------------------------------- statements

  /** The first `n` records of `s` were each handled at least once. */
  ghost predicate Handled(f: Fleet, s: string, n: nat) {
    s in f.log && forall i :: 0 <= i < n ==> i in f.log[s]
  }

  ghost predicate AllHandled(e: Env, f: Fleet, s: string) {
    s in e.streams && Handled(f, s, |e.streams[s]|)
  }

  /** Every parent of `c` that ever had a row was handled to its end. */
  ghost predicate ParentsDone(e: Env, f: Fleet, c: string) {
    c in e.parents && forall p :: p in e.parents[c] && p in f.versions ==> AllHandled(e, f, p)
  }

  ghost predicate IsVersion(f: Fleet, l: Lease) {
    && l.shardId in f.versions
    && 0 <= l.counter < |f.versions[l.shardId]|
    && f.versions[l.shardId][l.counter].row == l
  }

  /** The step from one value of a row to the next. */
  ghost predicate Linked(e: Env, a: Version, b: Version) {
    a.row.shardId in e.streams && a.at <= b.at &&
    match b.op
    case Created => false
    case Taken(stolen) =>
      && b.row.owner != "" && b.row == AcquiredRow(a.row, b.row.owner)
      && a.row.checkpoint != SHARD_END
      && (!stolen && a.row.owner != "" && a.row.owner != b.row.owner ==> a.at + e.leaseDuration <= b.at)
    case Beaten => b.row == HeartbeatRow(a.row) && b.writer == a.writer
    case Freed => b.row == ReleasedRow(a.row) && b.writer == a.writer
    case Saved =>
      && b.row == CheckpointRow(a.row, b.row.checkpoint) && b.writer == a.writer
      && a.row.checkpoint != SHARD_END
      && Pos(e.streams[a.row.shardId], a.row.checkpoint) <= Pos(e.streams[a.row.shardId], b.row.checkpoint)
  }

  ghost predicate VersionOk(e: Env, f: Fleet, s: string, c: nat)
    requires s in f.versions && c < |f.versions[s]| && s in e.streams && s in e.parents
  {
    var v := f.versions[s][c];
    && v.row.counter == c && v.row.shardId == s && v.row.parentIds == e.parents[s] && v.at <= f.now
    && MarksPlace(e.streams[s], v.row.checkpoint)
    && Handled(f, s, Pos(e.streams[s], v.row.checkpoint))
    && (if c == 0 then v.row == FreshRow(s, e.parents[s]) && v.op == Created
        else Linked(e, f.versions[s][c - 1], v))
  }

  ghost predicate HistoryOk(e: Env, f: Fleet, s: string) {
    && s in f.versions && |f.versions[s]| > 0 && s in e.streams && s in e.parents && s in f.log
    && (forall c :: 0 <= c < |f.versions[s]| ==> VersionOk(e, f, s, c))
    && (s in f.table ==> f.table[s] == f.versions[s][|f.versions[s]| - 1].row)
    && (s in f.reaped ==> AllHandled(e, f, s))
  }

  ghost predicate Shape(e: Env, f: Fleet) {
    && f.versions.Keys == f.table.Keys + f.reaped
    && f.table.Keys !! f.reaped
    && f.log.Keys == f.versions.Keys
    && f.table in f.past
    && (forall c :: c in f.versions && f.log[c] != [] ==> ParentsDone(e, f, c))
  }

  /** A table value some worker may still be acting on. */
  ghost predicate SnapshotOk(e: Env, f: Fleet, t: Table) {
    && (forall s :: s in t ==> t[s].shardId == s && IsVersion(f, t[s]))
    && (forall c, p ::
      c in t && c in e.parents && p in e.parents[c] && p in f.versions && p !in t ==> AllHandled(e, f, p))
  }

  ghost predicate ObservedOk(f: Fleet, observed: Observations) {
    forall s :: s in observed ==>
      && s in f.versions && 0 <= observed[s].counter < |f.versions[s]|
      && f.versions[s][observed[s].counter].at <= observed[s].seenAt <= f.now
  }

  /** Why worker `w` may take shard `s`, given the row it listed. */
  ghost predicate ClaimOk(e: Env, f: Fleet, w: string, l: Lease, stolen: bool) {
    && IsVersion(f, l) && l.checkpoint != SHARD_END && ParentsDone(e, f, l.shardId)
    && (!stolen && l.owner != "" && l.owner != w ==>
      f.versions[l.shardId][l.counter].at + e.leaseDuration <= f.now)
  }

  ghost predicate WorkerOk(e: Env, f: Fleet, w: string)
    requires w in f.workers
  {
    var k := f.workers[w];
    && SnapshotOk(e, f, k.listed) && ObservedOk(f, k.observed)
    && (forall s :: s in Claims(k.plan) ==>
      s in k.listed && ClaimOk(e, f, w, k.listed[s], s !in k.plan.acquire))
  }

  /** Where a poller stands relative to the checkpoint in its handle, and that what it
      counts as delivered was handled. */
  ghost predicate PhaseOk(e: Env, f: Fleet, p: Poller)
    requires p.shardId in e.streams
  {
    && InStep(e.streams[p.shardId], e.maxRecords, p)
    && (p.phase.Handling? || p.phase.Saving? ==> Handled(f, p.shardId, p.phase.start + p.phase.done))
  }

  ghost predicate PollerOk(e: Env, f: Fleet, pid: nat, p: Poller) {
    && p.shardId in e.streams && p.leased.shardId == p.shardId
    && IsVersion(f, p.leased) && f.versions[p.shardId][p.leased.counter].writer == pid
    && ParentsDone(e, f, p.shardId)
    && PhaseOk(e, f, p)
  }

  ghost predicate Inv(e: Env, f: Fleet) {
    && ValidEnv(e) && Shape(e, f)
    && (forall s :: s in f.versions ==> HistoryOk(e, f, s))
    && (forall t :: t in f.past ==> SnapshotOk(e, f, t))
    && (forall w :: w in f.workers ==> WorkerOk(e, f, w))
    && (forall pid :: 0 <= pid < |f.pollers| ==> PollerOk(e, f, pid, f.pollers[pid]))
  }

  // ---------------------------------------------------------------- monotonicity

  /** `f'` has seen everything `f` saw: histories and logs only grow, and a shard that is
      new to the table is no parent of one that already had a row. */
  ghost predicate Grows(e: Env, f: Fleet, f': Fleet) {
    && f.now <= f'.now
    && (forall s :: s in f.versions ==> s in f'.versions && f.versions[s] <= f'.versions[s])
    && (forall s :: s in f.log ==> s in f'.log && f.log[s] <= f'.log[s])
    && (forall c, p :: c in f.versions && c in e.parents && p in e.parents[c] && p in f'.versions ==> p in f.versions)
  }

  lemma HandledGrows(e: Env, f: Fleet, f': Fleet, s: string, n: nat)
    requires Grows(e, f, f') && Handled(f, s, n)
    ensures Handled(f', s, n)
  {
    forall i | 0 <= i < n ensures i in f'.log[s] {
      assert i in f.log[s];
      var k :| 0 <= k < |f.log[s]| && f.log[s][k] == i;
      assert f'.log[s][k] == i;
    }
  }

  lemma ParentsDoneGrows(e: Env, f: Fleet, f': Fleet, c: string)
    requires Grows(e, f, f') && c in f.versions && ParentsDone(e, f, c)
    ensures ParentsDone(e, f', c)
  {
    forall p | p in e.parents[c] && p in f'.versions ensures AllHandled(e, f', p) {
      HandledGrows(e, f, f', p, |e.streams[p]|);
    }
  }

  lemma VersionGrows(e: Env, f: Fleet, f': Fleet, l: Lease)
    requires Grows(e, f, f') && IsVersion(f, l)
    ensures IsVersion(f', l) && f'.versions[l.shardId][l.counter] == f.versions[l.shardId][l.counter]
  {
  }

  lemma SnapshotGrows(e: Env, f: Fleet, f': Fleet, t: Table)
    requires Grows(e, f, f') && SnapshotOk(e, f, t)
    ensures SnapshotOk(e, f', t)
  {
    forall s | s in t ensures IsVersion(f', t[s]) {
      VersionGrows(e, f, f', t[s]);
    }
    forall c, p | c in t && c in e.parents && p in e.parents[c] && p in f'.versions && p !in t
      ensures AllHandled(e, f', p)
    {
      assert t[c].shardId == c && IsVersion(f, t[c]);
      HandledGrows(e, f, f', p, |e.streams[p]|);
    }
  }

  lemma ClaimGrows(e: Env, f: Fleet, f': Fleet, w: string, l: Lease, stolen: bool)
    requires Grows(e, f, f') && ClaimOk(e, f, w, l, stolen)
    ensures ClaimOk(e, f', w, l, stolen)
  {
    VersionGrows(e, f, f', l);
    ParentsDoneGrows(e, f, f', l.shardId);
  }

  lemma WorkerGrows(e: Env, f: Fleet, f': Fleet, w: string)
    requires Grows(e, f, f') && w in f.workers && WorkerOk(e, f, w)
    requires w in f'.workers && f'.workers[w] == f.workers[w]
    ensures WorkerOk(e, f', w)
  {
    var k := f.workers[w];
    SnapshotGrows(e, f, f', k.listed);
    forall s | s in Claims(k.plan) ensures ClaimOk(e, f', w, k.listed[s], s !in k.plan.acquire) {
      ClaimGrows(e, f, f', w, k.listed[s], s !in k.plan.acquire);
    }
  }

  lemma PhaseGrows(e: Env, f: Fleet, f': Fleet, p: Poller)
    requires Grows(e, f, f') && p.shardId in e.streams && PhaseOk(e, f, p)
    ensures PhaseOk(e, f', p)
  {
    if p.phase.Handling? || p.phase.Saving? {
      HandledGrows(e, f, f', p.shardId, p.phase.start + p.phase.done);
    }
  }

  lemma PollerGrows(e: Env, f: Fleet, f': Fleet, pid: nat, p: Poller)
    requires Grows(e, f, f') && PollerOk(e, f, pid, p)
    ensures PollerOk(e, f', pid, p)
  {
    VersionGrows(e, f, f', p.leased);
    ParentsDoneGrows(e, f, f', p.shardId);
    PhaseGrows(e, f, f', p);
  }

  lemma VersionOkGrows(e: Env, f: Fleet, f': Fleet, s: string, c: nat)
    requires Grows(e, f, f') && s in f.versions && c < |f.versions[s]| && s in e.streams && s in e.parents
    requires VersionOk(e, f, s, c)
    ensures VersionOk(e, f', s, c)
  {
    HandledGrows(e, f, f', s, Pos(e.streams[s], f.versions[s][c].row.checkpoint));
  }

  /** The history of a shard whose row is untouched. */
  lemma HistoryGrows(e: Env, f: Fleet, f': Fleet, s: string)
    requires Grows(e, f, f') && HistoryOk(e, f, s)
    requires f'.versions[s] == f.versions[s]
    requires s in f'.table ==> s in f.table && f'.table[s] == f.table[s]
    requires s in f'.reaped ==> s in f.reaped
    ensures HistoryOk(e, f', s)
  {
    forall c | 0 <= c < |f'.versions[s]| ensures VersionOk(e, f', s, c) {
      VersionOkGrows(e, f, f', s, c);
    }
    if s in f'.reaped {
      HandledGrows(e, f, f', s, |e.streams[s]|);
    }
  }

  ghost predicate RowUntouched(f: Fleet, f': Fleet, s: string) {
    && s in f.versions && s in f'.versions && f'.versions[s] == f.versions[s]
    && (s in f'.table ==> s in f.table && f'.table[s] == f.table[s])
    && (s in f'.reaped ==> s in f.reaped)
  }

  /** A growing step keeps the invariant when what it replaced is in order. */
  lemma Assemble(e: Env, f: Fleet, f': Fleet)
    requires Inv(e, f) && Grows(e, f, f') && Shape(e, f')
    requires forall s :: s in f'.versions ==> RowUntouched(f, f', s) || HistoryOk(e, f', s)
    requires forall t :: t in f'.past ==> t in f.past || SnapshotOk(e, f', t)
    requires forall w :: w in f'.workers ==>
      (w in f.workers && f'.workers[w] == f.workers[w]) || WorkerOk(e, f', w)
    requires forall pid :: 0 <= pid < |f'.pollers| ==>
      (pid < |f.pollers| && f'.pollers[pid] == f.pollers[pid]) || PollerOk(e, f', pid, f'.pollers[pid])
    ensures Inv(e, f')
  {
    forall s | s in f'.versions ensures HistoryOk(e, f', s) {
      if RowUntouched(f, f', s) {
        HistoryGrows(e, f, f', s);
      }
    }
    forall t | t in f'.past ensures SnapshotOk(e, f', t) {
      if t in f.past {
        SnapshotGrows(e, f, f', t);
      }
    }
    forall w | w in f'.workers ensures WorkerOk(e, f', w) {
      if w in f.workers && f'.workers[w] == f.workers[w] {
        WorkerGrows(e, f, f', w);
      }
    }
    forall pid | 0 <= pid < |f'.pollers| ensures PollerOk(e, f', pid, f'.pollers[pid]) {
      if pid < |f.pollers| && f'.pollers[pid] == f.pollers[pid] {
        PollerGrows(e, f, f', pid, f'.pollers[pid]);
      }
    }
  }

  // ---------------------------------------------------------------- writing a row

  function Last(f: Fleet, s: string): Version
    requires s in f.versions && |f.versions[s]| > 0
  {
    f.versions[s][|f.versions[s]| - 1]
  }

  /** `row` is a proper next value for its shard. */
  ghost predicate GoodWrite(e: Env, f: Fleet, row: Lease, op: Op, writer: int) {
    var s := row.shardId;
    && s in f.table && s in f.versions && |f.versions[s]| > 0 && s in e.streams
    && Linked(e, Last(f, s), Version(row, op, writer, f.now))
    && MarksPlace(e.streams[s], row.checkpoint)
    && Handled(f, s, Pos(e.streams[s], row.checkpoint))
  }

  lemma PutGrows(e: Env, f: Fleet, row: Lease, op: Op, writer: int)
    requires row.shardId in f.versions
    ensures Grows(e, f, Put(f, row, op, writer))
  {
  }

  lemma PutShape(e: Env, f: Fleet, row: Lease, op: Op, writer: int)
    requires Inv(e, f) && GoodWrite(e, f, row, op, writer)
    ensures Shape(e, Put(f, row, op, writer))
  {
    var f' := Put(f, row, op, writer);
    PutGrows(e, f, row, op, writer);
    assert f'.versions.Keys == f.versions.Keys;
    assert f'.table.Keys == f.table.Keys;
    forall c | c in f'.versions && f'.log[c] != [] ensures ParentsDone(e, f', c) {
      ParentsDoneGrows(e, f, f', c);
    }
  }

  lemma PutNewest(e: Env, f: Fleet, row: Lease, op: Op, writer: int)
    requires Inv(e, f) && GoodWrite(e, f, row, op, writer)
    ensures var f', s := Put(f, row, op, writer), row.shardId;
      && s in f'.versions && s in e.parents && |f'.versions[s]| == |f.versions[s]| + 1
      && VersionOk(e, f', s, |f.versions[s]|)
  {
    var s, f' := row.shardId, Put(f, row, op, writer);
    PutGrows(e, f, row, op, writer);
    HandledGrows(e, f, f', s, Pos(e.streams[s], row.checkpoint));
    assert HistoryOk(e, f, s);
    assert VersionOk(e, f, s, |f.versions[s]| - 1);
  }

  lemma PutHistory(e: Env, f: Fleet, row: Lease, op: Op, writer: int)
    requires Inv(e, f) && GoodWrite(e, f, row, op, writer)
    ensures HistoryOk(e, Put(f, row, op, writer), row.shardId)
  {
    var s, f' := row.shardId, Put(f, row, op, writer);
    assert HistoryOk(e, f, s);
    PutGrows(e, f, row, op, writer);
    PutNewest(e, f, row, op, writer);
    forall c | 0 <= c < |f.versions[s]| ensures VersionOk(e, f', s, c) {
      VersionOkGrows(e, f, f', s, c);
    }
  }

  lemma PutSnapshot(e: Env, f: Fleet, row: Lease, op: Op, writer: int)
    requires Inv(e, f) && GoodWrite(e, f, row, op, writer)
    ensures SnapshotOk(e, Put(f, row, op, writer), f.table[row.shardId := row])
  {
    var s, f' := row.shardId, Put(f, row, op, writer);
    PutGrows(e, f, row, op, writer);
    SnapshotGrows(e, f, f', f.table);
    PutHistory(e, f, row, op, writer);
    assert VersionOk(e, f', s, |f.versions[s]|);
  }

  lemma PutInv(e: Env, f: Fleet, row: Lease, op: Op, writer: int)
    requires Inv(e, f) && GoodWrite(e, f, row, op, writer)
    ensures Inv(e, Put(f, row, op, writer))
    ensures IsVersion(Put(f, row, op, writer), row)
    ensures Put(f, row, op, writer).versions[row.shardId][row.counter] == Version(row, op, writer, f.now)
  {
    var f' := Put(f, row, op, writer);
    PutGrows(e, f, row, op, writer);
    PutShape(e, f, row, op, writer);
    PutHistory(e, f, row, op, writer);
    PutSnapshot(e, f, row, op, writer);
    assert VersionOk(e, f', row.shardId, |f.versions[row.shardId]|);
    PutElsewhere(f, row, op, writer);
    Assemble(e, f, f');
  }

  lemma PutElsewhere(f: Fleet, row: Lease, op: Op, writer: int)
    requires row.shardId in f.versions
    ensures forall s :: s in f.versions && s != row.shardId ==> RowUntouched(f, Put(f, row, op, writer), s)
  {
  }

  lemma SetPollerInv(e: Env, f: Fleet, pid: nat, p: Poller)
    requires Inv(e, f) && pid < |f.pollers| && PollerOk(e, f, pid, p)
    ensures Inv(e, SetPoller(f, pid, p))
  {
    var f' := SetPoller(f, pid, p);
    PollerGrows(e, f, f', pid, p);
    forall c | c in f'.versions && f'.log[c] != [] ensures ParentsDone(e, f', c) {
      ParentsDoneGrows(e, f, f', c);
    }
    PollerOnly(f, pid, p);
    Assemble(e, f, f');
  }

  lemma PollerOnly(f: Fleet, pid: nat, p: Poller)
    requires pid < |f.pollers|
    ensures forall s :: s in f.versions ==> RowUntouched(f, SetPoller(f, pid, p), s)
  {
  }
}
