/** No shard is ever stuck: whatever the fleet went through, a single worker that starts afresh can take over
    any drained shard and read it to its end. */
module FleetProgress {
  import opened Sequences
  import opened Strings
  import opened LeaseStore
  import opened Taker
  import opened TakerLemmas
  import opened PlanMeaning
  import opened Discovery
  import opened Positions
  import opened PollerMachine
  import opened Fleet
  import opened FleetInvariant
  import opened FleetSteps
  import opened FleetSafety

  /** Some run leads from `f` to `g`. */
  ghost predicate Reaches(e: Env, f: Fleet, g: Fleet) {
    exists steps :: CanRun(e, f, steps) && Outcome(e, f, steps) == g
  }

  lemma OneStep(e: Env, f: Fleet, step: Step)
    requires Enabled(e, f, step)
    ensures Reaches(e, f, Do(e, f, step))
  {
    var g := Do(e, f, step);
    assert [step][1..] == [];
    assert CanRun(e, g, []) && Outcome(e, g, []) == g;
    assert CanRun(e, f, [step]) && Outcome(e, f, [step]) == g;
  }

  lemma {:induction false} RunsJoin(e: Env, f: Fleet, steps: seq<Step>, more: seq<Step>)
    requires CanRun(e, f, steps) && CanRun(e, Outcome(e, f, steps), more)
    ensures CanRun(e, f, steps + more) && Outcome(e, f, steps + more) == Outcome(e, Outcome(e, f, steps), more)
    decreases |steps|
  {
    if steps == [] {
      assert steps + more == more;
    } else {
      RunsJoin(e, Do(e, f, steps[0]), steps[1..], more);
      assert (steps + more)[1..] == steps[1..] + more;
    }
  }

  lemma Onwards(e: Env, f: Fleet, g: Fleet, h: Fleet)
    requires Reaches(e, f, g) && Reaches(e, g, h)
    ensures Reaches(e, f, h)
  {
    var steps :| CanRun(e, f, steps) && Outcome(e, f, steps) == g;
    var more :| CanRun(e, g, more) && Outcome(e, g, more) == h;
    RunsJoin(e, f, steps, more);
  }

  lemma StillReachable(e: Env, f: Fleet, g: Fleet)
    requires Reachable(e, f) && Reaches(e, f, g)
    ensures Reachable(e, g)
  {
    assert Reaches(e, EMPTY, f);
    Onwards(e, EMPTY, f, g);
  }

  // ------------------------------------------------------------ taking over

  lemma {:induction false} RowsOf(t: Table, ids: set<string>) returns (rows: seq<Lease>)
    requires KeyedById(t) && ids <= t.Keys
    ensures forall i :: 0 <= i < |rows| ==> rows[i].shardId in ids && t[rows[i].shardId] == rows[i]
    ensures forall s :: s in ids ==> t[s] in rows
    ensures forall i, j :: 0 <= i < j < |rows| ==> rows[i].shardId != rows[j].shardId
    decreases ids
  {
    if ids == {} {
      rows := [];
    } else {
      var s :| s in ids;
      var others := RowsOf(t, ids - {s});
      rows := others + [t[s]];
      forall r | r in ids ensures t[r] in rows {
        if r != s {
          var i :| 0 <= i < |others| && others[i] == t[r];
          assert rows[i] == t[r];
        } else {
          assert rows[|others|] == t[s];
        }
      }
    }
  }

  /** With nobody heartbeating, a worker that polls nothing acquires every drained shard that is not done. */
  lemma LoneWorkerTakesAll(in_: PlanInput, r: PlanResult, t: Table, s: string)
    requires IsPlan(in_, r) && Enumerates(in_.leases, t) && in_.freshIds == {} && in_.owned == {}
    requires s in t && s in in_.drained && t[s].checkpoint != SHARD_END
    ensures s in r.acquire
  {
    LoneSeats(in_);
    SubsetSize(FreeIds(in_), OpenIds(in_));
    AcquireMeans(in_, r);
    AllOfThem(r.acquire, FreeIds(in_));
    IsAmongFree(in_, t, s);
  }

  lemma LoneSeats(in_: PlanInput)
    requires DistinctShards(in_.leases) && in_.freshIds == {} && in_.owned == {}
    ensures Target(in_) == |OpenIds(in_)| && PolledIds(in_) == {} && FreeIds(in_) <= OpenIds(in_)
  {
    TargetMeans(in_);
    assert LiveWorkers(in_) == {in_.self};
  }

  lemma IsAmongFree(in_: PlanInput, t: Table, s: string)
    requires Enumerates(in_.leases, t) && in_.freshIds == {} && in_.owned == {}
    requires s in t && s in in_.drained && t[s].checkpoint != SHARD_END
    ensures s in FreeIds(in_)
  {
    assert t[s] in in_.leases;
  }

  lemma {:induction false} SubsetSize(a: set<string>, b: set<string>)
    requires a <= b
    ensures |a| <= |b|
  {
    assert b == a + (b - a);
  }

  lemma AllOfThem(xs: seq<string>, ids: set<string>)
    requires Distinct(xs) && |xs| == |ids| && forall x :: x in xs ==> x in ids
    ensures forall x :: x in ids ==> x in xs
  {
    var found := set x | x in xs;
    DistinctSetSize(xs, found);
    assert ids == found + (ids - found);
    assert |ids - found| == 0;
  }

  /** What a fresh start of `w` leaves alone. */
  ghost predicate SameRecords(f: Fleet, g: Fleet) {
    g.table == f.table && g.past == f.past && g.log == f.log && g.versions == f.versions && g.reaped == f.reaped
  }

  /** All that `w` has noted about the rows it noted a lease duration ago or more. */
  ghost predicate NotedLongAgo(e: Env, f: Fleet, w: string) {
    && w in f.workers
    && forall s :: s in f.table ==>
      && s in f.workers[w].observed && f.workers[w].observed[s].counter == f.table[s].counter
      && f.workers[w].observed[s].seenAt + e.leaseDuration <= f.now
  }

  /** A worker lists the table and decides. */
  lemma Decides(e: Env, f: Fleet, w: string) returns (rows: seq<Lease>, plan: PlanResult)
    requires w in f.workers && f.table in f.past && KeyedById(f.table)
    ensures Enumerates(rows, f.table)
    ensures Enabled(e, f, Reconcile(w, rows, f.table, {}, plan))
    ensures IsPlan(Input(e, w, rows, f.table, {}, Refreshed(f.workers[w].observed, f.table, f.now), f.now), plan)
  {
    rows := RowsOf(f.table, f.table.Keys);
    plan := PlanExists(Input(e, w, rows, f.table, {}, Refreshed(f.workers[w].observed, f.table, f.now), f.now));
  }

  lemma Restarts(e: Env, f: Fleet, w: string) returns (g: Fleet)
    requires w != ""
    ensures Reaches(e, f, g) && SameRecords(f, g) && w in g.workers && g.workers[w].observed == map[] && g.now == f.now
  {
    OneStep(e, f, Restart(w));
    g := Do(e, f, Restart(w));
  }

  lemma Notes(e: Env, f: Fleet, w: string) returns (g: Fleet)
    requires w in f.workers && f.workers[w].observed == map[] && f.table in f.past && KeyedById(f.table)
    ensures Reaches(e, f, g) && SameRecords(f, g) && w in g.workers && g.now == f.now
    ensures forall s :: s in f.table ==>
      s in g.workers[w].observed && g.workers[w].observed[s] == Observation(f.table[s].counter, f.now)
  {
    var rows, plan := Decides(e, f, w);
    var step := Step.Reconcile(w, rows, f.table, {}, plan);
    OneStep(e, f, step);
    g := Do(e, f, step);
  }

  /** A worker started again lists the table once and lets a lease duration pass. */
  lemma FreshStart(e: Env, f: Fleet, w: string) returns (g: Fleet)
    requires w != "" && f.table in f.past && KeyedById(f.table)
    ensures Reaches(e, f, g) && SameRecords(f, g) && NotedLongAgo(e, g, w)
  {
    var f1 := Restarts(e, f, w);
    var f2 := Notes(e, f1, w);
    OneStep(e, f2, Tick(e.leaseDuration));
    g := f2.(now := f2.now + e.leaseDuration);
    Onwards(e, f, f1, f2);
    Onwards(e, f, f2, g);
  }

  /** Then it sees nobody heartbeating and plans to take every drained shard. */
  lemma PlansToTake(e: Env, f: Fleet, w: string, s: string) returns (g: Fleet)
    requires NotedLongAgo(e, f, w) && f.table in f.past && KeyedById(f.table)
    requires s in DrainedShards(f.table) && f.table[s].checkpoint != SHARD_END
    ensures Reaches(e, f, g) && SameRecords(f, g)
    ensures w in g.workers && s in g.workers[w].plan.acquire && g.workers[w].listed == f.table
  {
    var rows, plan := Decides(e, f, w);
    var step := Step.Reconcile(w, rows, f.table, {}, plan);
    var observed := Refreshed(f.workers[w].observed, f.table, f.now);
    assert FreshShards(observed, f.table, f.now, e.leaseDuration) == {};
    LoneWorkerTakesAll(Input(e, w, rows, f.table, {}, observed, f.now), plan, f.table, s);
    OneStep(e, f, step);
    g := Do(e, f, step);
  }

  // ------------------------------------------------------------ reading to the end

  /** Poller `pid` holds the row of `s` under its newest handle and is about to read, or sees the shard
      closed. */
  ghost predicate Polling(e: Env, f: Fleet, pid: nat, s: string, next: Option<nat>) {
    && pid < |f.pollers| && s in f.table && s in e.streams && s in f.log
    && f.pollers[pid] == Poller(s, f.table[s].owner, f.table[s], Ready(next), 0)
    && f.table[s].shardId == s && f.table[s].checkpoint != SHARD_END
    && AfterOk(e.streams[s], Pos(e.streams[s], f.table[s].checkpoint), next)
  }

  lemma Claimed(e: Env, f: Fleet, w: string, s: string) returns (g: Fleet, pid: nat)
    requires w != "" && w in f.workers && s in f.workers[w].plan.acquire && f.workers[w].listed == f.table
    requires s in f.table && f.table[s].shardId == s && s in e.streams && s in f.log && f.table[s].checkpoint != SHARD_END
    ensures Reaches(e, f, g) && Polling(e, g, pid, s, Some(Pos(e.streams[s], f.table[s].checkpoint)))
    ensures g.table.Keys == f.table.Keys
  {
    var at := Pos(e.streams[s], f.table[s].checkpoint);
    pid := |f.pollers|;
    OneStep(e, f, Claim(w, s, true));
    var f1 := Do(e, f, Claim(w, s, true));
    OneStep(e, f1, Poll(pid, Install));
    var f2 := Do(e, f1, Poll(pid, Install));
    OneStep(e, f2, Poll(pid, Opened(at)));
    g := Do(e, f2, Poll(pid, Opened(at)));
    Onwards(e, f, f1, f2);
    Onwards(e, f, f2, g);
  }

  /** The record at `at` was handled and its checkpoint is next. */
  ghost predicate AboutToSave(e: Env, f: Fleet, pid: nat, s: string, at: nat, after: Option<nat>) {
    && pid < |f.pollers| && s in f.table && s in e.streams && s in f.log && at < |e.streams[s]|
    && f.pollers[pid] == Poller(s, f.table[s].owner, f.table[s], Saving(at, 1, false, after), 1)
    && f.table[s].shardId == s
  }

  function NextAfter(e: Env, s: string, at: nat): Option<nat>
    requires s in e.streams
  {
    if at + 1 == |e.streams[s]| then None else Some(at + 1)
  }

  lemma Fetched(e: Env, f: Fleet, pid: nat, s: string, at: nat) returns (g: Fleet)
    requires e.maxRecords > 0 && Polling(e, f, pid, s, Some(at)) && at < |e.streams[s]|
    ensures Reaches(e, f, g) && g.table == f.table && AboutToSave(e, g, pid, s, at, NextAfter(e, s, at))
  {
    var fetch := Poll(pid, Fetch(1, at + 1 == |e.streams[s]|));
    OneStep(e, f, fetch);
    var f1 := Do(e, f, fetch);
    OneStep(e, f1, Poll(pid, Delivered));
    g := Do(e, f1, Poll(pid, Delivered));
    Onwards(e, f, f1, g);
  }

  lemma SavedOne(e: Env, f: Fleet, pid: nat, s: string, at: nat) returns (g: Fleet)
    requires ValidEnv(e) && s in e.streams && AboutToSave(e, f, pid, s, at, NextAfter(e, s, at))
    ensures Reaches(e, f, g) && g.table.Keys == f.table.Keys && Polling(e, g, pid, s, NextAfter(e, s, at))
  {
    PosOfRecord(e.streams[s], at);
    OneStep(e, f, Save(pid, true));
    g := Do(e, f, Save(pid, true));
  }

  /** One record read, handled and checkpointed. */
  lemma OneRecord(e: Env, f: Fleet, pid: nat, s: string, at: nat) returns (g: Fleet)
    requires ValidEnv(e) && e.maxRecords > 0 && Polling(e, f, pid, s, Some(at)) && at < |e.streams[s]|
    ensures Reaches(e, f, g) && g.table.Keys == f.table.Keys && Polling(e, g, pid, s, NextAfter(e, s, at))
  {
    var f1 := Fetched(e, f, pid, s, at);
    g := SavedOne(e, f1, pid, s, at);
    Onwards(e, f, f1, g);
  }

  lemma {:induction false} ReadToEnd(e: Env, f: Fleet, pid: nat, s: string, at: nat) returns (g: Fleet)
    requires ValidEnv(e) && e.maxRecords > 0 && Polling(e, f, pid, s, Some(at))
    ensures Reaches(e, f, g) && g.table.Keys == f.table.Keys && Polling(e, g, pid, s, None)
    decreases |e.streams[s]| - at
  {
    if at >= |e.streams[s]| {
      OneStep(e, f, Poll(pid, Fetch(0, true)));
      g := Do(e, f, Poll(pid, Fetch(0, true)));
    } else {
      var f1 := OneRecord(e, f, pid, s, at);
      if at + 1 == |e.streams[s]| {
        g := f1;
      } else {
        g := ReadToEnd(e, f1, pid, s, at + 1);
        Onwards(e, f, f1, g);
      }
    }
  }

  lemma WriteEnd(e: Env, f: Fleet, pid: nat, s: string) returns (g: Fleet)
    requires Polling(e, f, pid, s, None)
    ensures Reaches(e, f, g) && s in g.table && g.table[s].checkpoint == SHARD_END && g.table.Keys == f.table.Keys
  {
    OneStep(e, f, Poll(pid, SeeClosed));
    var f1 := Do(e, f, Poll(pid, SeeClosed));
    OneStep(e, f1, End(pid, true));
    g := Do(e, f1, End(pid, true));
    Onwards(e, f, f1, g);
  }

  /** From every fleet that any run can reach, whatever crashed, was lost or is in flight there, one worker
      alone can bring any listed shard whose parents are done to its end, and then every record of it was
      handled. */
  lemma NoShardIsStuck(e: Env, f: Fleet, s: string, w: string) returns (g: Fleet)
    requires Reachable(e, f) && e.maxRecords > 0 && w != "" && s in DrainedShards(f.table)
    ensures Reaches(e, f, g) && Reachable(e, g)
    ensures s in g.table && g.table[s].checkpoint == SHARD_END && AllHandled(e, g, s)
    ensures g.table.Keys == f.table.Keys
  {
    ReachableInv(e, f);
    RowsAreKeyed(e, f);
    if f.table[s].checkpoint == SHARD_END {
      g := f;
      assert CanRun(e, f, []) && Outcome(e, f, []) == f;
    } else {
      var f1 := FreshStart(e, f, w);
      var f2 := PlansToTake(e, f1, w, s);
      var f3, pid := Claimed(e, f2, w, s);
      var f4 := ReadToEnd(e, f3, pid, s, Pos(e.streams[s], f.table[s].checkpoint));
      g := WriteEnd(e, f4, pid, s);
      Onwards(e, f, f1, f2);
      Onwards(e, f, f2, f3);
      Onwards(e, f, f3, f4);
      Onwards(e, f, f4, g);
    }
    StillReachable(e, f, g);
    NothingLost(e, g, s);
  }

  lemma RowsAreKeyed(e: Env, f: Fleet)
    requires Inv(e, f)
    ensures KeyedById(f.table) && f.table in f.past && ValidEnv(e)
    ensures forall s :: s in f.table ==> s in e.streams && s in f.log
  {
    forall s | s in f.table ensures f.table[s].shardId == s && s in e.streams && s in f.log {
      assert HistoryOk(e, f, s) && VersionOk(e, f, s, |f.versions[s]| - 1);
    }
  }
}
