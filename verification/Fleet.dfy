/** The fleet of workers sharing one lease table, as a state machine whose steps are one
    store call or one critical section each. */
module Fleet {
  import opened Sequences
  import opened LeaseStore
  import opened Taker
  import opened Discovery
  import opened Positions
  import opened PollerMachine

  /** What the environment fixes. `streams[s]` is the whole record log of a shard, of which
      a reader at any time sees some prefix; `parents[s]` is what ListShards reports. */
  datatype Env = Env(streams: map<string, seq<string>>, parents: map<string, seq<string>>,
                     maxRecords: nat, leaseDuration: nat)

  ghost predicate ValidEnv(e: Env) {
    e.parents.Keys == e.streams.Keys && forall s :: s in e.streams ==> ValidStream(e.streams[s])
  }

  datatype Op = Created | Taken(stolen: bool) | Beaten | Saved | Freed

  /** One value a row had: what wrote it, for which poller, and when. */
  datatype Version = Version(row: Lease, op: Op, writer: int, at: nat)

  datatype Worker = Worker(listed: Table, observed: Observations, plan: PlanResult)

  const NEW_WORKER := Worker(map[], map[], NO_ACTION)

  datatype Fleet = Fleet(
    now: nat,
    table: Table,
    reaped: set<string>,                    // shards whose row was garbage-collected
    versions: map<string, seq<Version>>,    // every value each row ever had, oldest first
    past: set<Table>,                       // every value the table ever had
    workers: map<string, Worker>,
    pollers: seq<Poller>,                   // every poller ever started; index is its identity
    log: map<string, seq<nat>>)             // per shard, the records handled, in order

  const EMPTY := Fleet(0, map[], {}, map[], {map[]}, map[], [], map[])

  datatype Step =
    | Tick(elapsed: nat)
    | Discover(shardId: string)
    | Restart(worker: string)
    | Reconcile(worker: string, leases: seq<Lease>, t: Table, owned: set<string>, plan: PlanResult)
    | Claim(worker: string, shardId: string, acked: bool)
    | Reap(worker: string, shardId: string)
    | Poll(pid: nat, ev: Event)
    | Beat(pid: nat, acked: bool)
    | Save(pid: nat, acked: bool)
    | SaveGivenUp(pid: nat)
    | End(pid: nat, acked: bool)
    | EndGivenUp(pid: nat)
    | Free(pid: nat)
    | FreeFailed(pid: nat)

  /** A store write that lands: `acked` false means the caller saw an error instead. */
  function Put(f: Fleet, row: Lease, op: Op, writer: int): Fleet {
    var s, v := row.shardId, Version(row, op, writer, f.now);
    var history := if s in f.versions then f.versions[s] else [];
    f.(table := f.table[s := row],
       versions := f.versions[s := history + [v]],
       past := f.past + {f.table[s := row]})
  }

  function SetPoller(f: Fleet, pid: nat, p: Poller): Fleet
    requires pid < |f.pollers|
  {
    f.(pollers := f.pollers[pid := p])
  }

  function SetPhase(f: Fleet, pid: nat, phase: Phase): Fleet
    requires pid < |f.pollers|
  {
    SetPoller(f, pid, f.pollers[pid].(phase := phase))
  }

  /** The handle a poller would keep after a write of `row` that was or was not acked. */
  function Keeping(p: Poller, row: Lease, acked: bool): Poller {
    if acked then p.(leased := row) else p
  }

  function Claims(plan: PlanResult): set<string> {
    (set s | s in plan.acquire) + if plan.steal != "" then {plan.steal} else {}
  }

  function Input(e: Env, w: string, leases: seq<Lease>, t: Table, owned: set<string>,
                 observed: Observations, now: nat): PlanInput {
    PlanInput(leases, w, FreshShards(observed, t, now, e.leaseDuration), DrainedShards(t), owned)
  }

  /** Worker `w` may list table value `t`, however old, and decide `plan` on it. */
  ghost predicate PlansOn(e: Env, f: Fleet, w: string, leases: seq<Lease>, t: Table, owned: set<string>, plan: PlanResult) {
    && w in f.workers && t in f.past && Enumerates(leases, t)
    && IsPlan(Input(e, w, leases, t, owned, Refreshed(f.workers[w].observed, t, f.now), f.now), plan)
  }

  function Planned(f: Fleet, w: string, t: Table, plan: PlanResult): Fleet
    requires w in f.workers
  {
    f.(workers := f.workers[w := Worker(t, Refreshed(f.workers[w].observed, t, f.now), plan)])
  }

  /** ListShards may name `s`: a trimmed shard is not listed again, and a shard is not first
      listed after its child. */
  ghost predicate Listable(e: Env, f: Fleet, s: string) {
    && s in e.streams && s in e.parents && s !in f.reaped
    && (s in f.table || forall c :: c in f.versions && c in e.parents ==> s !in e.parents[c])
  }

  function FirstListed(e: Env, f: Fleet, s: string): Fleet
    requires s in e.parents
  {
    Put(f, FreshRow(s, e.parents[s]), Created, -1).(log := f.log[s := []])
  }

  function Killed(pollers: seq<Poller>, w: string): seq<Poller> {
    seq(|pollers|, i requires 0 <= i < |pollers| =>
      if pollers[i].worker == w then pollers[i].(phase := Done) else pollers[i])
  }

  /** A claim that lands: the row taken, and the poller that was, or would have been, started. */
  function Started(f: Fleet, row: Lease, op: Op, acked: bool): Fleet {
    Put(f, row, op, |f.pollers|).(pollers := f.pollers + [NewPoller(row, acked)])
  }

  function NewPoller(row: Lease, acked: bool): Poller {
    Poller(row.shardId, row.owner, row, if acked then Acquired else Done, 0)
  }

  function Restarted(f: Fleet, w: string): Fleet {
    f.(workers := f.workers[w := NEW_WORKER], pollers := Killed(f.pollers, w))
  }

  function LastSeq(e: Env, p: Poller): string
    requires p.phase.Saving? && p.shardId in e.streams
    requires 0 < p.phase.done && p.phase.start + p.phase.done <= |e.streams[p.shardId]|
  {
    e.streams[p.shardId][p.phase.start + p.phase.done - 1]
  }

  predicate HasPoller(f: Fleet, pid: nat) {
    pid < |f.pollers|
  }

  ghost predicate Enabled(e: Env, f: Fleet, step: Step) {
    match step
    case Tick(_) => true
    case Discover(s) => Listable(e, f, s)
    case Restart(w) => w != ""
    case Reconcile(w, leases, t, owned, plan) => PlansOn(e, f, w, leases, t, owned, plan)
    case Claim(w, s, _) =>
      && w in f.workers && w != ""
      && s in Claims(f.workers[w].plan) && s in f.workers[w].listed
      && s in f.table && f.table[s].counter == f.workers[w].listed[s].counter
    case Reap(w, s) =>
      && w in f.workers && s in f.workers[w].listed
      && f.workers[w].listed[s].checkpoint == SHARD_END
      && s in f.table && f.table[s].counter == f.workers[w].listed[s].counter
    case Poll(pid, ev) =>
      && HasPoller(f, pid) && CanStep(f.pollers[pid].phase, ev)
      && f.pollers[pid].shardId in e.streams && f.pollers[pid].shardId in f.log
      && Plausible(e.streams[f.pollers[pid].shardId], e.maxRecords, f.pollers[pid], ev)
    case Beat(pid, _) =>
      HasPoller(f, pid) && f.pollers[pid].phase != Done && Fenced(f.table, f.pollers[pid].leased)
    case Save(pid, _) =>
      && HasPoller(f, pid) && f.pollers[pid].phase.Saving? && Fenced(f.table, f.pollers[pid].leased)
      && f.pollers[pid].shardId in e.streams && 0 < f.pollers[pid].phase.done
      && f.pollers[pid].phase.start + f.pollers[pid].phase.done <= |e.streams[f.pollers[pid].shardId]|
    case SaveGivenUp(pid) => HasPoller(f, pid) && f.pollers[pid].phase.Saving?
    case End(pid, _) => HasPoller(f, pid) && f.pollers[pid].phase.Ending? && Fenced(f.table, f.pollers[pid].leased)
    case EndGivenUp(pid) => HasPoller(f, pid) && f.pollers[pid].phase.Ending?
    case Free(pid) => HasPoller(f, pid) && f.pollers[pid].phase.Exiting? && Fenced(f.table, f.pollers[pid].leased)
    case FreeFailed(pid) => HasPoller(f, pid) && f.pollers[pid].phase.Exiting?
  }

  function Do(e: Env, f: Fleet, step: Step): Fleet
    requires Enabled(e, f, step)
  {
    match step
    case Tick(elapsed) => f.(now := f.now + elapsed)
    case Discover(s) => if s in f.table then f else FirstListed(e, f, s)
    case Restart(w) => Restarted(f, w)
    case Reconcile(w, leases, t, owned, plan) => Planned(f, w, t, plan)
    case Claim(w, s, acked) => Started(f, AcquiredRow(f.table[s], w), Taken(s !in f.workers[w].plan.acquire), acked)
    case Reap(w, s) =>
      f.(table := f.table - {s}, reaped := f.reaped + {s}, past := f.past + {f.table - {s}})
    case Poll(pid, ev) =>
      var p := f.pollers[pid];
      var f' := SetPoller(f, pid, Stepped(p, ev));
      if ev.Delivered? then f'.(log := f.log[p.shardId := f.log[p.shardId] + [p.phase.start + p.phase.done]]) else f'
    case Beat(pid, acked) =>
      var p := f.pollers[pid];
      var row := HeartbeatRow(f.table[p.leased.shardId]);
      SetPoller(Put(f, row, Beaten, pid), pid, Keeping(p, row, acked))
    case Save(pid, acked) =>
      var p := f.pollers[pid];
      var row := CheckpointRow(f.table[p.leased.shardId], LastSeq(e, p));
      SetPoller(Put(f, row, Saved, pid), pid, if acked then SavedAs(p, row) else p.(unsaved := 0))
    case SaveGivenUp(pid) => SetPhase(f, pid, Exiting)
    case End(pid, acked) =>
      var p := f.pollers[pid];
      var row := CheckpointRow(f.table[p.leased.shardId], SHARD_END);
      SetPoller(Put(f, row, Saved, pid), pid, Keeping(p, row, acked).(phase := Exiting))
    case EndGivenUp(pid) => SetPhase(f, pid, Exiting)
    case Free(pid) =>
      var row := ReleasedRow(f.table[f.pollers[pid].leased.shardId]);
      SetPhase(Put(f, row, Freed, pid), pid, Done)
    case FreeFailed(pid) => SetPhase(f, pid, Done)
  }

  /** The fleet after a sequence of steps. */
  ghost predicate CanRun(e: Env, f: Fleet, steps: seq<Step>)
    decreases |steps|
  {
    steps == [] || (Enabled(e, f, steps[0]) && CanRun(e, Do(e, f, steps[0]), steps[1..]))
  }

  function Outcome(e: Env, f: Fleet, steps: seq<Step>): Fleet
    requires CanRun(e, f, steps)
    decreases |steps|
  {
    if steps == [] then f else Outcome(e, Do(e, f, steps[0]), steps[1..])
  }
}
