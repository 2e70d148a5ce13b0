/** The lease table and its fenced writes: internal/lease/lease.go and memory.go. */
module LeaseStore {
  import opened Sequences

  const TRIM_HORIZON := "TRIM_HORIZON"
  const SHARD_END := "SHARD_END"

  datatype Lease = Lease(shardId: string, owner: string, counter: int, checkpoint: string, parentIds: seq<string>)

  datatype StoreError = LeaseConflict | LeaseNotFound | EmptyOwner

  datatype Result<+T> = Ok(value: T) | Err(error: StoreError)

  type Table = map<string, Lease>

  /** A store call, for statements about sequences of calls. */
  datatype Call =
    | Ensure(shardId: string, parentIds: seq<string>)
    | Acquire(shardId: string, owner: string, expected: int)
    | Heartbeat(lease: Lease)
    | Checkpoint(lease: Lease, seqNo: string)
    | Release(lease: Lease)
    | Delete(shardId: string, expected: int)
  {
    function Target(): string {
      match this
      case Ensure(s, _) => s
      case Acquire(s, _, _) => s
      case Delete(s, _) => s
      case Heartbeat(l) => l.shardId
      case Checkpoint(l, _) => l.shardId
      case Release(l) => l.shardId
    }
  }

  function FreshRow(shardId: string, parentIds: seq<string>): Lease {
    Lease(shardId, "", 0, TRIM_HORIZON, parentIds)
  }

  function AcquiredRow(row: Lease, owner: string): Lease {
    row.(owner := owner, counter := row.counter + 1)
  }

  function HeartbeatRow(row: Lease): Lease {
    row.(counter := row.counter + 1)
  }

  function CheckpointRow(row: Lease, seqNo: string): Lease {
    row.(checkpoint := seqNo, counter := row.counter + 1)
  }

  function ReleasedRow(row: Lease): Lease {
    row.(owner := "", counter := row.counter + 1)
  }

  /** The fencing predicate of Heartbeat, Checkpoint and Release. */
  predicate Fenced(t: Table, expected: Lease) {
    && expected.shardId in t
    && t[expected.shardId].owner == expected.owner
    && t[expected.shardId].counter == expected.counter
  }

  function FenceError(t: Table, expected: Lease): StoreError {
    if expected.shardId in t then LeaseConflict else LeaseNotFound
  }

  /** The table after `call` and the error it reports, if any. */
  function Apply(t: Table, call: Call): (Table, Option<StoreError>) {
    match call
    case Ensure(s, parents) =>
      (if s in t then t else t[s := FreshRow(s, parents)], None)
    case Acquire(s, owner, expected) =>
      if owner == "" then (t, Some(EmptyOwner))
      else if s !in t then (t, Some(LeaseNotFound))
      else if t[s].counter != expected then (t, Some(LeaseConflict))
      else (t[s := AcquiredRow(t[s], owner)], None)
    case Heartbeat(l) =>
      if Fenced(t, l) then (t[l.shardId := HeartbeatRow(t[l.shardId])], None) else (t, Some(FenceError(t, l)))
    case Checkpoint(l, seqNo) =>
      if Fenced(t, l) then (t[l.shardId := CheckpointRow(t[l.shardId], seqNo)], None)
      else (t, Some(FenceError(t, l)))
    case Release(l) =>
      if Fenced(t, l) then (t[l.shardId := ReleasedRow(t[l.shardId])], None) else (t, Some(FenceError(t, l)))
    case Delete(s, expected) =>
      if s !in t then (t, None)
      else if t[s].counter != expected then (t, Some(LeaseConflict))
      else (t - {s}, None)
  }

  /** The result a row-returning call hands back to its caller. */
  function RowResult(t: Table, call: Call): Result<Lease>
    requires call.Acquire? || call.Heartbeat? || call.Checkpoint?
  {
    var (t', error) := Apply(t, call);
    if error.Some? then Err(error.value) else Ok(t'[call.Target()])
  }

  ghost predicate KeyedById(t: Table) {
    forall s :: s in t ==> t[s].shardId == s
  }

  /** `rows` lists the table: every row once, in any order. */
  ghost predicate Enumerates(rows: seq<Lease>, t: Table) {
    && (forall i :: 0 <= i < |rows| ==> rows[i].shardId in t && t[rows[i].shardId] == rows[i])
    && (forall s :: s in t ==> t[s].shardId == s && t[s] in rows)
    && (forall i, j :: 0 <= i < j < |rows| ==> rows[i].shardId != rows[j].shardId)
  }

  class MemoryStore {
    var leases: Table

    constructor ()
      ensures leases == map[]
    {
      leases := map[];
    }

    method List() returns (out: seq<Lease>)
      requires KeyedById(leases)
      ensures Enumerates(out, leases)
    {
      out := [];
      var pending := leases.Keys;
      while pending != {}
        invariant pending <= leases.Keys
        invariant forall i :: 0 <= i < |out| ==>
          out[i].shardId in leases && out[i].shardId !in pending && leases[out[i].shardId] == out[i]
        invariant forall s :: s in leases && s !in pending ==> leases[s] in out
        invariant forall i, j :: 0 <= i < j < |out| ==> out[i].shardId != out[j].shardId
        decreases pending
      {
        var s :| s in pending;
        pending := pending - {s};
        out := out + [leases[s]];
      }
    }

    method EnsureRow(shardId: string, parentIds: seq<string>)
      modifies this
      ensures leases == Apply(old(leases), Ensure(shardId, parentIds)).0
    {
      if shardId in leases {
        return;
      }
      leases := leases[shardId := Lease(shardId, "", 0, TRIM_HORIZON, parentIds)];
    }

    method AcquireLease(shardId: string, owner: string, expectedCounter: int) returns (r: Result<Lease>)
      modifies this
      ensures leases == Apply(old(leases), Acquire(shardId, owner, expectedCounter)).0
      ensures r == RowResult(old(leases), Acquire(shardId, owner, expectedCounter))
      ensures r.Ok? <==> owner != "" && shardId in old(leases) && old(leases)[shardId].counter == expectedCounter
      ensures r.Ok? ==> r.value == old(leases)[shardId].(owner := owner, counter := expectedCounter + 1)
      ensures leases == if r.Ok? then old(leases)[shardId := r.value] else old(leases)
    {
      if owner == "" {
        return Err(EmptyOwner);
      }
      if shardId !in leases {
        return Err(LeaseNotFound);
      }
      var cur := leases[shardId];
      if cur.counter != expectedCounter {
        return Err(LeaseConflict);
      }
      cur := cur.(owner := owner);
      cur := cur.(counter := cur.counter + 1);
      leases := leases[shardId := cur];
      return Ok(cur);
    }

    method HeartbeatLease(lease: Lease) returns (r: Result<Lease>)
      modifies this
      ensures leases == Apply(old(leases), Heartbeat(lease)).0
      ensures r == RowResult(old(leases), Heartbeat(lease))
      ensures r.Ok? <==>
        && lease.shardId in old(leases) && old(leases)[lease.shardId].owner == lease.owner
        && old(leases)[lease.shardId].counter == lease.counter
      ensures r.Ok? ==> r.value == old(leases)[lease.shardId].(counter := lease.counter + 1)
      ensures leases == if r.Ok? then old(leases)[lease.shardId := r.value] else old(leases)
    {
      r := ConditionalUpdate(lease, HeartbeatRow);
    }

    method CheckpointLease(lease: Lease, seqNo: string) returns (r: Result<Lease>)
      modifies this
      ensures leases == Apply(old(leases), Checkpoint(lease, seqNo)).0
      ensures r == RowResult(old(leases), Checkpoint(lease, seqNo))
      ensures r.Ok? <==>
        && lease.shardId in old(leases) && old(leases)[lease.shardId].owner == lease.owner
        && old(leases)[lease.shardId].counter == lease.counter
      ensures r.Ok? ==> r.value == old(leases)[lease.shardId].(checkpoint := seqNo, counter := lease.counter + 1)
      ensures leases == if r.Ok? then old(leases)[lease.shardId := r.value] else old(leases)
    {
      r := ConditionalUpdate(lease, row => CheckpointRow(row, seqNo));
    }

    method ReleaseLease(lease: Lease) returns (error: Option<StoreError>)
      modifies this
      ensures (leases, error) == Apply(old(leases), Release(lease))
      ensures error.None? <==>
        && lease.shardId in old(leases) && old(leases)[lease.shardId].owner == lease.owner
        && old(leases)[lease.shardId].counter == lease.counter
      ensures error.None? ==>
        leases == old(leases)[lease.shardId := old(leases)[lease.shardId].(owner := "", counter := lease.counter + 1)]
      ensures error.Some? ==> leases == old(leases)
    {
      var r := ConditionalUpdate(lease, ReleasedRow);
      error := if r.Ok? then None else Some(r.error);
    }

    method DeleteRow(shardId: string, expectedCounter: int) returns (error: Option<StoreError>)
      modifies this
      ensures (leases, error) == Apply(old(leases), Delete(shardId, expectedCounter))
      ensures error.None? <==> shardId in old(leases) ==> old(leases)[shardId].counter == expectedCounter
      ensures leases == if error.None? then old(leases) - {shardId} else old(leases)
    {
      if shardId !in leases {
        return None;
      }
      if leases[shardId].counter != expectedCounter {
        return Some(LeaseConflict);
      }
      leases := leases - {shardId};
      return None;
    }

    method ConditionalUpdate(expected: Lease, mutate: Lease -> Lease) returns (r: Result<Lease>)
      modifies this
      ensures var s := expected.shardId;
        if Fenced(old(leases), expected)
        then leases == old(leases)[s := mutate(old(leases)[s])] && r == Ok(mutate(old(leases)[s]))
        else leases == old(leases) && r == Err(FenceError(old(leases), expected))
    {
      if expected.shardId !in leases {
        return Err(LeaseNotFound);
      }
      var cur := leases[expected.shardId];
      if cur.owner != expected.owner || cur.counter != expected.counter {
        return Err(LeaseConflict);
      }
      cur := mutate(cur);
      leases := leases[expected.shardId := cur];
      return Ok(cur);
    }
  }

  /** A call touches its own row only; an error changes nothing; a successful write
      raises the counter by exactly one, and only Acquire and Release move ownership. */
  lemma CallEffect(t: Table, call: Call)
    ensures var (t', error) := Apply(t, call); var s := call.Target();
      && t' - {s} == t - {s}
      && (error.Some? ==> t' == t)
      && (s in t && s in t' && t' != t ==> t'[s].counter == t[s].counter + 1)
      && (s in t && s in t' && t'[s].owner != t[s].owner ==> call.Acquire? || call.Release?)
      && (s in t && s in t' && t'[s].checkpoint != t[s].checkpoint ==> call.Checkpoint?)
      && (s in t && s !in t' ==> call.Delete? && t[s].counter == call.expected)
      && (s in t && error.None? && !call.Ensure? && !call.Delete? ==> t' != t)
  {
    var (t', error) := Apply(t, call);
    var s := call.Target();
    assert s in t && t' != t && s in t' ==> t'[s] != t[s] by {
      if s in t && s in t' && t'[s] == t[s] {
        assert t' == t;
      }
    }
  }

  /** The table after a sequence of calls by any callers. */
  function Run(t: Table, calls: seq<Call>): Table
    decreases |calls|
  {
    if calls == [] then t else Run(Apply(t, calls[0]).0, calls[1..])
  }

  /** No call of the sequence removes the row of `s`. */
  ghost predicate NeverDeleted(t: Table, calls: seq<Call>, s: string)
    decreases |calls|
  {
    calls == [] || (s in Apply(t, calls[0]).0 && NeverDeleted(Apply(t, calls[0]).0, calls[1..], s))
  }

  /** While its row exists, a superseded handle stays fenced out for ever: no later
      Heartbeat, Checkpoint, Release, Acquire or Delete at its counter can succeed. */
  lemma {:induction false} SupersededForever(t: Table, calls: seq<Call>, handle: Lease)
    requires handle.shardId in t && handle.counter < t[handle.shardId].counter
    requires NeverDeleted(t, calls, handle.shardId)
    ensures handle.shardId in Run(t, calls)
    ensures handle.counter < Run(t, calls)[handle.shardId].counter
    ensures !Fenced(Run(t, calls), handle)
    decreases |calls|
  {
    if calls != [] {
      SupersededForever(Apply(t, calls[0]).0, calls[1..], handle);
    }
  }

  /** As long as its row is not deleted, an unchanged counter means an unchanged row, whatever calls
      anybody made. */
  lemma {:induction false} SameCounterSameRow(t: Table, calls: seq<Call>, s: string)
    requires s in t && NeverDeleted(t, calls, s)
    ensures s in Run(t, calls) && Run(t, calls)[s].counter >= t[s].counter
    ensures Run(t, calls)[s].counter == t[s].counter ==> Run(t, calls)[s] == t[s]
    decreases |calls|
  {
    if calls != [] {
      CallEffect(t, calls[0]);
      SameCounterSameRow(Apply(t, calls[0]).0, calls[1..], s);
    }
  }

  /** The table after the row of `s` was deleted at its counter and created again. */
  function Recreated(t: Table, s: string, parents: seq<string>): Table
    requires s in t
  {
    Apply(Apply(t, Delete(s, t[s].counter)).0, Ensure(s, parents)).0
  }

  /** `beats` heartbeats by whoever owns the row of `s`, one after the other from `row`. */
  function Beating(row: Lease, beats: nat): seq<Call>
    decreases beats
  {
    if beats == 0 then [] else [Heartbeat(row)] + Beating(HeartbeatRow(row), beats - 1)
  }

  lemma {:induction false} BeatingRaises(t: Table, row: Lease, beats: nat)
    requires row.shardId in t && t[row.shardId] == row
    ensures row.shardId in Run(t, Beating(row, beats))
    ensures Run(t, Beating(row, beats))[row.shardId] == row.(counter := row.counter + beats)
    decreases beats
  {
    if beats > 0 {
      var calls := Beating(row, beats);
      assert calls[0] == Heartbeat(row) && calls[1..] == Beating(HeartbeatRow(row), beats - 1);
      BeatingRaises(Apply(t, Heartbeat(row)).0, HeartbeatRow(row), beats - 1);
    }
  }

  /** An owned row has been acquired at least once since it was created. */
  ghost predicate OwnedIsCounted(t: Table) {
    forall s :: s in t ==> t[s].counter >= 0 && (t[s].owner != "" ==> t[s].counter >= 1)
  }

  lemma {:induction false} OwnedStaysCounted(t: Table, calls: seq<Call>)
    requires OwnedIsCounted(t)
    ensures OwnedIsCounted(Run(t, calls))
    decreases |calls|
  {
    if calls != [] {
      OwnedStaysCounted(Apply(t, calls[0]).0, calls[1..]);
    }
  }

  /** The fence does not survive re-creation: Delete then Ensure restarts the counter at 0, and every
      handle that somebody held in the row's earlier life, at whatever counter an owner can have,
      can match again. */
  lemma RecreationRevivesHandle(t: Table, handle: Lease, parents: seq<string>)
    requires OwnedIsCounted(t) && handle.shardId in t && handle.owner != ""
    ensures (exists calls :: Fenced(Run(Recreated(t, handle.shardId, parents), calls), handle)) <==> handle.counter >= 1
  {
    var s := handle.shardId;
    var fresh_ := Recreated(t, s, parents);
    if handle.counter >= 1 {
      var taken := Apply(fresh_, Acquire(s, handle.owner, 0)).0;
      var beats := Beating(taken[s], handle.counter - 1);
      BeatingRaises(taken, taken[s], handle.counter - 1);
      var calls := [Acquire(s, handle.owner, 0)] + beats;
      assert calls[1..] == beats;
      assert Fenced(Run(fresh_, calls), handle);
    }
    if calls :| Fenced(Run(fresh_, calls), handle) {
      OwnedStaysCounted(fresh_, calls);
    }
  }
}
