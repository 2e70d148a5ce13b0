/** The poller goroutine: poller.go, poller_lease.go and poller_records.go. */
module ShardPoller {
  import opened Sequences
  import opened LeaseStore
  import opened Positions
  import opened PollTurns
  import opened PollerMachine

  const CHECKPOINT_ATTEMPTS := 3

  lemma SpanSnoc(before: seq<nat>, fates: seq<Fate>, start: nat, batch: seq<Fate>, n: nat)
    requires n < |batch|
    ensures (before + Span(start, n)) + [start + n] == before + Span(start, n + 1)
    ensures (fates + batch[..n]) + [batch[n]] == fates + batch[..n + 1]
  {
  }

  /** What appending a batch of positions does to the deliveries since `from`. */
  lemma DeliveredGrows(before: seq<nat>, after: seq<nat>, from: nat, position: nat, n: nat)
    requires from <= |before| && after == before + Span(position, n)
    ensures forall i :: i in before[from..] ==> i in after[from..]
    ensures forall i :: position <= i < position + n ==> i in after[from..]
    ensures forall k :: from <= k < |after| ==> (k < |before| && after[k] == before[k]) || position <= after[k] < position + n
  {
    var batch := Span(position, n);
    assert after[from..] == before[from..] + batch;
    forall i | position <= i < position + n
      ensures i in after[from..]
    {
      assert batch[i - position] == i;
    }
  }


  class Poller {
    const store: MemoryStore
    const stream: seq<string>
    const maxRecords: nat
    const deadLetters: bool
    var leased: Lease
    ghost var machine: PollerMachine.Poller
    ghost var delivered: seq<nat>     // positions handled, in order
    ghost var fates: seq<Fate>        // and what became of each
    ghost var writes: seq<Write>      // every lease write sent

    /** Equal counters mean equal rows: what the fleet's histories guarantee
        (FleetSteps.FencedHoldsRow) about this handle, whatever other workers write. */
    ghost predicate HandleIsVersion()
      reads this, store
    {
      Fenced(store.leases, leased) ==> store.leases[leased.shardId] == leased
    }

    /** The code's handle and the machine's agree, and the machine is in step. */
    ghost predicate Valid()
      reads this, store
    {
      && ValidStream(stream) && HandleIsVersion()
      && machine.leased == leased && InStep(stream, maxRecords, machine)
      && PassedOver()
    }

    /** Every record the loop moved past is one the checkpoint may leave behind. */
    ghost predicate PassedOver()
      reads this
    {
      |fates| == |delivered| && forall k :: 0 <= k < |fates| ==> MayPass(fates[k], deadLetters)
    }

    constructor (store: MemoryStore, stream: seq<string>, maxRecords: nat, deadLetters: bool, leased: Lease)
      requires ValidStream(stream) && leased.checkpoint != SHARD_END
      requires Fenced(store.leases, leased) ==> store.leases[leased.shardId] == leased
      ensures Valid() && this.store == store && this.stream == stream && this.maxRecords == maxRecords
      ensures this.leased == leased && this.deadLetters == deadLetters && machine.phase == Opening && delivered == [] && writes == []
    {
      this.store := store;
      this.stream := stream;
      this.maxRecords := maxRecords;
      this.deadLetters := deadLetters;
      this.leased := leased;
      this.machine := PollerMachine.Poller(leased.shardId, leased.owner, leased, Opening, 0);
      this.delivered, this.fates, this.writes := [], [], [];
    }

    /** Other workers and the coordinator may use the store between any two calls. */
    method OthersAct()
      requires HandleIsVersion()
      modifies store
      ensures HandleIsVersion()
    {
    }

    /** heartbeat: one fenced write, which succeeds exactly when it is answered and the fence passed at
        the table it met; the handle moves only then. */
    method HeartbeatOnce(reply: Reply) returns (r: CallResult, ghost found: Table)
      requires Valid()
      modifies this`leased, this`machine, this`writes, store
      ensures Valid() && machine == old(machine).(leased := leased)
      ensures writes == old(writes) + [Write(Heartbeat(old(leased)), found, reply)]
      ensures r == CallOutcome(reply, found, old(leased))
      ensures store.leases == TableAfter(reply, found, Heartbeat(old(leased)))
      ensures leased == if r.Success? then HeartbeatRow(old(leased)) else old(leased)
    {
      OthersAct();
      found := store.leases;
      writes := writes + [Write(Heartbeat(leased), found, reply)];
      if reply == NotSent {
        return Transient, found;
      }
      if reply == Cancelled {
        return Aborted, found;
      }
      var updated := store.HeartbeatLease(leased);
      if reply == AnswerLost {
        return Transient, found;
      }
      if updated.Err? {
        return Conflict(updated.error), found;
      }
      leased := updated.value;
      machine := machine.(leased := updated.value);
      return Success, found;
    }

    /** checkpoint: one fenced write of `seqNo`, in the same way. */
    method CheckpointOnce(seqNo: string, reply: Reply) returns (r: CallResult, ghost found: Table)
      requires HandleIsVersion()
      modifies this`leased, this`writes, store
      ensures HandleIsVersion()
      ensures writes == old(writes) + [Write(Checkpoint(old(leased), seqNo), found, reply)]
      ensures r == CallOutcome(reply, found, old(leased))
      ensures store.leases == TableAfter(reply, found, Checkpoint(old(leased), seqNo))
      ensures leased == if r.Success? then CheckpointRow(old(leased), seqNo) else old(leased)
    {
      OthersAct();
      found := store.leases;
      writes := writes + [Write(Checkpoint(leased, seqNo), found, reply)];
      if reply == NotSent {
        return Transient, found;
      }
      if reply == Cancelled {
        return Aborted, found;
      }
      var updated := store.CheckpointLease(leased, seqNo);
      if reply == AnswerLost {
        return Transient, found;
      }
      if updated.Err? {
        return Conflict(updated.error), found;
      }
      leased := updated.value;
      return Success, found;
    }

    /** checkpointWithRetry: transient failures are retried in place, at most three attempts;
        a lost lease or cancellation surfaces at once. */
    method CheckpointWithRetry(seqNo: string, replies: seq<Reply>) returns (r: CallResult, ghost tries: seq<Write>)
      requires HandleIsVersion() && |replies| >= CHECKPOINT_ATTEMPTS
      modifies this`leased, this`writes, store
      ensures HandleIsVersion() && writes == old(writes) + tries
      ensures SaveTold(tries, replies, old(leased), seqNo, leased, r.Success?)
    {
      var attempts := 0;
      tries := [];
      r := Transient;
      while attempts < CHECKPOINT_ATTEMPTS
        invariant attempts == |tries| <= CHECKPOINT_ATTEMPTS
        invariant HandleIsVersion() && leased == old(leased) && r.Transient? && writes == old(writes) + tries
        invariant Tries(tries, replies, leased, seqNo)
        invariant forall k :: 0 <= k < |tries| ==> tries[k].reply.AnswerLost? || tries[k].reply.NotSent?
      {
        ghost var found;
        r, found := CheckpointOnce(seqNo, replies[attempts]);
        tries := tries + [Write(Checkpoint(old(leased), seqNo), found, replies[attempts])];
        attempts := attempts + 1;
        if r.Success? || r.Conflict? || r.Aborted? {
          return;
        }
      }
    }

    /** A local move of the loop, checked against the machine. */
    ghost method Move(ev: Event)
      requires Valid() && CanStep(machine.phase, ev) && Plausible(stream, maxRecords, machine, ev)
      modifies this`machine
      ensures Valid() && machine == Stepped(old(machine), ev)
    {
      MoveInStep(stream, maxRecords, machine, ev);
      machine := Stepped(machine, ev);
    }

    /** Where openIterator starts reading for a checkpoint: right after it, from the start for
        TRIM_HORIZON, and nowhere on a shard that is drained or cannot be reached. */
    method IteratorAt(checkpoint: string, up: bool) returns (iter: Option<nat>)
      requires ValidStream(stream)
      ensures iter.Some? <==> up && checkpoint != SHARD_END
      ensures iter.Some? ==> iter.value == Pos(stream, checkpoint)
    {
      if checkpoint == SHARD_END || !up {
        return None;
      }
      if checkpoint != "" && checkpoint != TRIM_HORIZON && checkpoint in stream {
        return Some(IndexOf(stream, checkpoint) + 1);
      }
      return Some(0);
    }

    /** openIterator in the loop, whose handle is never at SHARD_END. */
    method OpenIterator(up: bool) returns (iter: Option<nat>, ok: bool)
      requires Valid() && machine.phase == Opening
      modifies this`machine
      ensures Valid() && machine.leased == old(machine.leased) && machine.unsaved == 0
      ensures ok <==> up
      ensures ok ==> iter == Some(Pos(stream, leased.checkpoint)) && machine.phase == Ready(iter)
      ensures !ok ==> machine.phase == Exiting
    {
      iter := IteratorAt(leased.checkpoint, up);
      ok := iter.Some?;
      if ok {
        Move(Opened(iter.value));
      } else {
        Move(OpenFailed);
      }
    }

    /** handleRecord, and what the loop makes of its result. */
    method HandleOne(f: Fate, ghost position: nat) returns (retry: bool)
      requires Valid() && machine.phase.Handling?
      modifies this`machine, this`delivered, this`fates
      ensures Valid() && (retry <==> !MayPass(f, deadLetters))
      ensures retry ==> machine == Stepped(old(machine), Rejected) && delivered == old(delivered) && fates == old(fates)
      ensures !retry ==> machine == Stepped(old(machine), Delivered)
      ensures !retry ==> delivered == old(delivered) + [position] && fates == old(fates) + [f]
    {
      if HandleRecord(f.downstream, deadLetters, f.emitFails) == RecordRetry {
        Move(Rejected);
        return true;
      }
      delivered, fates := delivered + [position], fates + [f];
      Move(Delivered);
      return false;
    }

    /** `n` records of the batch from `start` are behind the loop; `was` and `whose` are what was
        delivered before, with its fates. */
    ghost predicate Through(batch: seq<Fate>, start: nat, after: Option<nat>, n: nat, was: seq<nat>, whose: seq<Fate>)
      reads this
    {
      && n <= |batch| && machine.unsaved == n
      && delivered == was + Span(start, n) && fates == whose + batch[..n]
      && machine.phase == if n < |batch| then Handling(start, |batch|, n, after) else Saving(start, n, false, after)
    }

    /** One turn of the record loop. */
    method HandleNext(batch: seq<Fate>, ghost start: nat, ghost after: Option<nat>, n: nat,
                      ghost was: seq<nat>, ghost whose: seq<Fate>)
      returns (retry: bool)
      requires Valid() && n < |batch| && Through(batch, start, after, n, was, whose)
      modifies this`machine, this`delivered, this`fates
      ensures Valid() && machine.leased == old(machine.leased) && (retry <==> !MayPass(batch[n], deadLetters))
      ensures !retry ==> Through(batch, start, after, n + 1, was, whose)
      ensures retry ==> delivered == old(delivered) && fates == old(fates)
      ensures retry ==> machine.phase == (if n > 0 then Saving(start, n, true, after) else Opening) && machine.unsaved == n
    {
      retry := HandleOne(batch[n], start + n);
      if !retry {
        SpanSnoc(was, whose, start, batch, n);
      }
    }

    /** The record loop of runPoll: handle records until one must be retried, which is the first the
        checkpoint may not leave behind. */
    method HandleBatch(numbers: seq<string>, batch: seq<Fate>)
      returns (advanceSeq: string, retry: bool, n: nat)
      requires Valid() && machine.phase.Handling?
      requires machine.phase.done == 0 && machine.phase.got == |batch| == |numbers|
      requires numbers == stream[machine.phase.start..machine.phase.start + machine.phase.got]
      modifies this`machine, this`delivered, this`fates
      ensures Valid() && machine.leased == old(machine.leased)
      ensures n <= |batch| && (forall k :: 0 <= k < n ==> MayPass(batch[k], deadLetters))
      ensures if retry then n < |batch| && !MayPass(batch[n], deadLetters) else n == |batch|
      ensures fates == old(fates) + batch[..n]
      ensures var start, after := old(machine.phase.start), old(machine.phase.after);
        && delivered == old(delivered) + Span(start, n)
        && (n == 0 ==> advanceSeq == "" && machine.phase == Opening && machine.unsaved == 0)
        && (n > 0 ==> advanceSeq == numbers[n - 1])
        && (n > 0 ==> machine.phase == Saving(start, n, retry, after) && machine.unsaved == n)
    {
      ghost var start, after := machine.phase.start, machine.phase.after;
      ghost var was, whose := delivered, fates;
      advanceSeq := "";
      retry := false;
      n := 0;
      while n < |batch|
        invariant !retry && Valid() && machine.leased == old(machine.leased)
        invariant Through(batch, start, after, n, was, whose)
        invariant forall k :: 0 <= k < n ==> MayPass(batch[k], deadLetters)
        invariant advanceSeq == if n == 0 then "" else numbers[n - 1]
      {
        retry := HandleNext(batch, start, after, n, was, whose);
        if retry {
          return;
        }
        advanceSeq := numbers[n];
        n := n + 1;
      }
    }

    /** What was delivered since `from`: exactly nothing missing up to the checkpoint, and
        nothing beyond it but `machine.unsaved` records. */
    ghost predicate CaughtUp(from: nat, origin: nat, ahead: nat)
      reads this
    {
      && from <= |delivered| && origin <= Pos(stream, leased.checkpoint)
      && (forall k :: from <= k < |delivered| ==> origin <= delivered[k] < Pos(stream, leased.checkpoint) + ahead)
      && (forall i :: origin <= i < Pos(stream, leased.checkpoint) ==> i in delivered[from..])
    }

    /** Save the batch and move on: the checkpoint step of the loop. */
    method SaveBatch(advanceSeq: string, replies: seq<Reply>, ghost from: nat, ghost origin: nat)
      returns (ok: bool, ghost tries: seq<Write>)
      requires Valid() && machine.phase.Saving? && |replies| >= CHECKPOINT_ATTEMPTS
      requires machine.unsaved == machine.phase.done
      requires advanceSeq == stream[machine.phase.start + machine.phase.done - 1]
      requires CaughtUp(from, origin, machine.phase.done)
      requires forall i :: Pos(stream, leased.checkpoint) <= i < machine.phase.start + machine.phase.done ==>
        i in delivered[from..]
      modifies this`leased, this`machine, this`writes, store
      ensures Valid() && leased.shardId == old(leased.shardId)
      ensures writes == old(writes) + tries && SaveTold(tries, replies, old(leased), advanceSeq, leased, ok)
      ensures ok ==> CaughtUp(from, origin, 0) && machine == SavedAs(old(machine), leased)
      ensures !ok ==> CaughtUp(from, origin, maxRecords) && machine.phase == Exiting
    {
      var r;
      r, tries := CheckpointWithRetry(advanceSeq, replies);
      if !r.Success? {
        machine := machine.(phase := Exiting);
        return false, tries;
      }
      SaveInStep(stream, maxRecords, machine, leased);
      machine := SavedAs(machine, leased);
      return true, tries;
    }

    /** writeShardEnd: tried once more, under the exit context, exactly when it failed and the context
        was cancelled. */
    method WriteShardEnd(cancelled: bool, replies: seq<Reply>) returns (ghost tries: seq<Write>)
      requires Valid() && machine.phase == Ending && |replies| >= 2
      modifies this`leased, this`machine, this`writes, store
      ensures Valid() && machine.phase == Exiting
      ensures writes == old(writes) + tries && EndTold(tries, replies, old(leased), cancelled, leased)
    {
      var r;
      ghost var found;
      r, found := CheckpointOnce(SHARD_END, replies[0]);
      tries := [Write(Checkpoint(old(leased), SHARD_END), found, replies[0])];
      if !r.Success? && (cancelled || r.Aborted?) {
        r, found := CheckpointOnce(SHARD_END, replies[1]);
        tries := tries + [Write(Checkpoint(old(leased), SHARD_END), found, replies[1])];
      }
      machine := machine.(leased := leased, phase := Exiting);
    }

    /** The heartbeat goroutine between two turns of the poll loop. */
    method Beats(replies: seq<Reply>) returns (lost: bool, ghost beats: seq<Write>)
      requires Valid()
      modifies this`leased, this`machine, this`writes, store
      ensures Valid() && machine == old(machine).(leased := leased)
      ensures leased.checkpoint == old(leased.checkpoint) && leased.shardId == old(leased.shardId)
      ensures writes == old(writes) + beats && BeatsTold(beats, replies, old(leased), leased, lost)
    {
      lost, beats := false, [];
      var i := 0;
      while i < |replies| && !lost
        invariant Valid() && machine == old(machine).(leased := leased) && writes == old(writes) + beats
        invariant i == |beats| && BeatsSoFar(beats, replies, old(leased), leased, lost)
      {
        ghost var found;
        ghost var handle := leased;
        var r;
        r, found := HeartbeatOnce(replies[i]);
        ghost var beat := Write(Heartbeat(handle), found, replies[i]);
        BeatsSnoc(beats, beat, replies, old(leased), handle);
        Joined(old(writes), beats, [beat]);
        beats := beats + [beat];
        lost := r.Conflict? || r.Aborted?;
        i := i + 1;
      }
    }

    /** What the log of a turn is checked against. */
    function Here(): Setting {
      Setting(stream, maxRecords, deadLetters)
    }

    /** The records of one answer handled in order, up to the first that must be retried. */
    method HandleFetched(position: nat, read: Read, ghost from: nat, ghost origin: nat)
      returns (advanceSeq: string, retry: bool, n: nat)
      requires Valid() && machine.phase == Ready(Some(position)) && CanRead(stream, maxRecords, position, read)
      requires read.Records? && read.fates != [] && CaughtUp(from, origin, 0)
      modifies this`machine, this`delivered, this`fates
      ensures Valid() && position == Pos(stream, leased.checkpoint) && CaughtUp(from, origin, n)
      ensures delivered == old(delivered) + Span(position, n)
      ensures forall i :: position <= i < position + n ==> i in delivered[from..]
      ensures n <= |read.fates| && forall k :: 0 <= k < n ==> MayPass(read.fates[k], deadLetters)
      ensures if retry then n < |read.fates| && !MayPass(read.fates[n], deadLetters) else n == |read.fates|
      ensures n == 0 ==> advanceSeq == "" && retry && machine.phase == Opening && machine.unsaved == 0
      ensures var next := if read.closed then None else Some(position + |read.fates|);
        n > 0 ==> machine.phase == Saving(position, n, retry, next) && machine.unsaved == n
      ensures n > 0 ==> advanceSeq != "" && advanceSeq == stream[position + n - 1]
    {
      var got := |read.fates|;
      Move(Fetch(got, read.closed));
      ghost var before := delivered;
      advanceSeq, retry, n := HandleBatch(stream[position..position + got], read.fates);
      DeliveredGrows(before, delivered, from, position, n);
    }

    /** `so` is the log of this turn up to the read. */
    ghost predicate Begun(so: TurnLog, turn: Turn, position: nat)
      reads this
    {
      so.turn == turn && so.iter == Some(position) && so.held == leased
    }

    /** One GetRecords answer: handle the records, save the good prefix, find the next iterator. */
    method HandleRead(turn: Turn, position: nat, ghost so: TurnLog, ghost from: nat, ghost origin: nat)
      returns (iter: Option<nat>, exit: Exit, ghost passed: nat, ghost tries: seq<Write>)
      requires Valid() && machine.phase == Ready(Some(position)) && turn.read.Records?
      requires CanRead(stream, maxRecords, position, turn.read) && Begun(so, turn, position)
      requires |turn.saves| >= CHECKPOINT_ATTEMPTS && CaughtUp(from, origin, 0)
      modifies this`leased, this`machine, this`delivered, this`fates, this`writes, store
      ensures Valid() && leased.shardId == old(leased.shardId)
      ensures exit == StillRunning ==> machine.phase == Ready(iter)
      ensures exit != StillRunning ==> machine.phase == Exiting
      ensures CaughtUp(from, origin, if exit == SaveFailed then maxRecords else 0)
      ensures writes == old(writes) + tries && delivered == old(delivered) + Span(position, passed)
      ensures var l := so.(passed := passed, saves := tries, next := iter, after := leased, exit := exit);
        PassedTold(l, Here()) && GoesOn(l)
    {
      var read := turn.read;
      if |read.fates| == 0 {
        Move(Fetch(0, read.closed));
        return if read.closed then None else Some(position), StillRunning, 0, [];
      }
      var advanceSeq, retry, n := HandleFetched(position, read, from, origin);
      passed := n;
      iter, exit, tries := SaveAndGoOn(turn, position, advanceSeq, retry, n, so, from, origin);
    }

    /** The good prefix of the batch saved, if there is one, and the iterator the loop goes on with. */
    method SaveAndGoOn(turn: Turn, position: nat, advanceSeq: string, retry: bool, ghost n: nat,
                       ghost so: TurnLog, ghost from: nat, ghost origin: nat)
      returns (iter: Option<nat>, exit: Exit, ghost tries: seq<Write>)
      requires Valid() && turn.read.Records? && CanRead(stream, maxRecords, position, turn.read)
      requires turn.read.fates != [] && Begun(so, turn, position)
      requires |turn.saves| >= CHECKPOINT_ATTEMPTS && CaughtUp(from, origin, n) && position == Pos(stream, leased.checkpoint)
      requires forall i :: position <= i < position + n ==> i in delivered[from..]
      requires n <= |turn.read.fates| && forall k :: 0 <= k < n ==> MayPass(turn.read.fates[k], deadLetters)
      requires if retry then n < |turn.read.fates| && !MayPass(turn.read.fates[n], deadLetters) else n == |turn.read.fates|
      requires n == 0 ==> advanceSeq == "" && machine.phase == Opening
      requires var next := if turn.read.closed then None else Some(position + |turn.read.fates|);
        n > 0 ==> machine.phase == Saving(position, n, retry, next) && machine.unsaved == n
      requires n > 0 ==> advanceSeq != "" && advanceSeq == stream[position + n - 1]
      modifies this`leased, this`machine, this`writes, store
      ensures Valid() && leased.shardId == old(leased.shardId)
      ensures exit == StillRunning ==> machine.phase == Ready(iter)
      ensures exit != StillRunning ==> machine.phase == Exiting
      ensures CaughtUp(from, origin, if exit == SaveFailed then maxRecords else 0)
      ensures writes == old(writes) + tries
      ensures var l := so.(passed := n, saves := tries, next := iter, after := leased, exit := exit);
        PassedTold(l, Here()) && GoesOn(l)
    {
      tries := [];
      if advanceSeq != "" {
        var ok;
        ok, tries := SaveBatch(advanceSeq, turn.saves, from, origin);
        if !ok {
          return None, SaveFailed, tries;
        }
      }
      if !retry {
        return if turn.read.closed then None else Some(position + |turn.read.fates|), StillRunning, tries;
      }
      iter, exit := ReopenAfterRetry(turn.reopens, turn.stopLater);
    }

    /** Back to the checkpoint after a record that must be retried, and the wait before the next read. */
    method ReopenAfterRetry(reopens: bool, stopInWait: bool) returns (iter: Option<nat>, exit: Exit)
      requires Valid() && machine.phase == Opening
      modifies this`machine
      ensures Valid()
      ensures exit == if !reopens then NoIterator else if stopInWait then Stopped else StillRunning
      ensures exit == StillRunning ==> machine.phase == Ready(iter)
      ensures exit != StillRunning ==> machine.phase == Exiting
      ensures reopens ==> iter == Some(Pos(stream, leased.checkpoint))
    {
      var fromCheckpoint, ok := OpenIterator(reopens);
      if !ok {
        return None, NoIterator;
      }
      if stopInWait {
        Move(Stop);
        return fromCheckpoint, Stopped;
      }
      return fromCheckpoint, StillRunning;
    }

    /** One GetRecords call: a failure changes nothing but may end in the wait after it, an expired
        iterator is opened again. */
    method ReadOnce(turn: Turn, position: nat, ghost so: TurnLog, ghost from: nat, ghost origin: nat)
      returns (iter: Option<nat>, exit: Exit, ghost passed: nat, ghost tries: seq<Write>)
      requires Valid() && machine.phase == Ready(Some(position)) && Begun(so, turn, position)
      requires |turn.saves| >= CHECKPOINT_ATTEMPTS && CaughtUp(from, origin, 0)
      modifies this`leased, this`machine, this`delivered, this`fates, this`writes, store
      ensures Valid() && leased.shardId == old(leased.shardId)
      ensures exit == StillRunning ==> machine.phase == Ready(iter)
      ensures exit != StillRunning ==> machine.phase == Exiting
      ensures CaughtUp(from, origin, if exit == SaveFailed then maxRecords else 0)
      ensures writes == old(writes) + tries && delivered == old(delivered) + Span(position, passed)
      ensures ReadTold(so.(passed := passed, saves := tries, next := iter, after := leased, exit := exit), Here())
    {
      passed, tries := 0, [];
      if turn.read == ReadFailed || !CanRead(stream, maxRecords, position, turn.read) {
        if turn.stopLater {
          Move(Stop);
          return Some(position), Stopped, 0, [];
        }
        return Some(position), StillRunning, 0, [];
      }
      if turn.read == IteratorExpired {
        Move(Expired);
        var ok;
        iter, ok := OpenIterator(turn.reopens);
        return iter, if ok then StillRunning else NoIterator, 0, [];
      }
      iter, exit, passed, tries := HandleRead(turn, position, so, from, origin);
    }

    /** The turn that finds no iterator; `so` is its log up to there. */
    method CloseShard(turn: Turn, ghost so: TurnLog, ghost from: nat, ghost origin: nat) returns (ghost log: TurnLog)
      requires Valid() && machine.phase == Ready(None) && CaughtUp(from, origin, 0) && |turn.saves| >= CHECKPOINT_ATTEMPTS
      requires so.turn == turn && so.iter == None && so.held == leased && !so.lost && !turn.cancelled
      requires BeatsTold(so.beats, turn.beats, so.handle, so.held, false) && so.passed == 0 && so.next == None
      modifies this`leased, this`machine, this`writes, store
      ensures Valid() && machine.phase == Exiting && CaughtUp(from, origin, 0) && leased.shardId == old(leased.shardId)
      ensures Pos(stream, leased.checkpoint) == |stream|
      ensures log == so.(saves := log.saves, after := leased, exit := ShardClosed) && TurnTold(log, Here())
      ensures writes == old(writes) + log.saves
    {
      Move(SeeClosed);
      ghost var tries := WriteShardEnd(turn.cancelledLate, turn.saves);
      log := so.(saves := tries, after := leased, exit := ShardClosed);
      ToldByEnd(log, Here());
    }

    /** One turn of the poll loop, as it is logged. A drain is honoured only while there is an iterator:
        a closed shard gets its SHARD_END first. */
    method RunTurn(turn: Turn, iter: Option<nat>, ghost from: nat, ghost origin: nat)
      returns (next: Option<nat>, exit: Exit, ghost log: TurnLog)
      requires Valid() && machine.phase == Ready(iter)
      requires |turn.saves| >= CHECKPOINT_ATTEMPTS && CaughtUp(from, origin, 0)
      modifies this`leased, this`machine, this`delivered, this`fates, this`writes, store
      ensures Valid() && leased.shardId == old(leased.shardId)
      ensures exit == StillRunning ==> machine.phase == Ready(next)
      ensures exit != StillRunning ==> machine.phase == Exiting
      ensures CaughtUp(from, origin, if exit == SaveFailed then maxRecords else 0)
      ensures TurnTold(log, Here()) && log.turn == turn && log.iter == iter && log.handle == old(leased)
      ensures log.next == next && log.exit == exit && log.after == leased
      ensures exit == ShardClosed ==> Pos(stream, leased.checkpoint) == |stream|
      ensures writes == old(writes) + WritesIn(log) && delivered == old(delivered) + PassedIn(log)
    {
      ghost var handle := leased;
      var lost;
      ghost var beats;
      lost, beats := Beats(turn.beats);
      ghost var held := leased;
      log := TurnLog(turn, iter, handle, beats, held, lost, 0, [], iter, held, Stopped);
      next := iter;
      assert WritesIn(log) == beats;
      if turn.cancelled || lost {
        Move(Stop);
        exit := Stopped;
        ToldByStop(log, Here());
      } else if iter == None {
        exit := ShardClosed;
        log := CloseShard(turn, log, from, origin);
        Joined(old(writes), beats, log.saves);
      } else if turn.drain {
        Move(Stop);
        exit, log := Drained, log.(exit := Drained);
        ToldByStop(log, Here());
      } else if turn.stopInWait {
        Move(Stop);
        exit := Stopped;
        ToldByStop(log, Here());
      } else {
        ghost var passed, tries;
        next, exit, passed, tries := ReadOnce(turn, iter.value, log, from, origin);
        log := log.(passed := passed, saves := tries, next := next, after := leased, exit := exit);
        ToldByRead(log, Here());
        Joined(old(writes), beats, tries);
      }
    }

    /** The poll loop over the first turns of any environment. It leaves with everything it
        delivered saved, except when the save itself failed, and then no more than one batch
        is unsaved; nothing between the checkpoints is skipped. The log tells every turn. */
    method RunPoll(opens: bool, turns: seq<Turn>) returns (exit: Exit, iter: Option<nat>, ghost log: seq<TurnLog>)
      requires Valid() && machine.phase == Opening
      requires forall t :: 0 <= t < |turns| ==> |turns[t].saves| >= CHECKPOINT_ATTEMPTS
      modifies this`leased, this`machine, this`delivered, this`fates, this`writes, store
      ensures Valid() && leased.shardId == old(leased.shardId)
      ensures var from, origin := old(|delivered|), old(Pos(stream, leased.checkpoint));
        CaughtUp(from, origin, if exit == SaveFailed then maxRecords else 0)
      ensures exit != StillRunning ==> machine.phase == Exiting
      ensures exit == StillRunning ==> machine.phase == Ready(iter)
      ensures !opens ==> exit == NoIterator && log == [] && leased == old(leased)
      ensures opens ==> RunTold(log, turns, old(Pos(stream, leased.checkpoint)), old(leased), Here(), exit, iter, leased)
      ensures NilCloses(log, turns, exit)
      ensures writes == old(writes) + WritesOf(log) && delivered == old(delivered) + PassedOf(log)
      ensures exit == ShardClosed ==> EndsWithEnd(WritesOf(log), leased) && Pos(stream, leased.checkpoint) == |stream|
    {
      log := [];
      var ok;
      iter, ok := OpenIterator(opens);
      if !ok {
        return NoIterator, None, log;
      }
      exit, iter, log := RunTurns(turns, iter.value, |delivered|);
    }

    /** The loop itself, from an open iterator on. */
    method RunTurns(turns: seq<Turn>, start: nat, ghost from: nat) returns (exit: Exit, iter: Option<nat>, ghost log: seq<TurnLog>)
      requires Valid() && machine.phase == Ready(Some(start)) && CaughtUp(from, start, 0)
      requires forall t :: 0 <= t < |turns| ==> |turns[t].saves| >= CHECKPOINT_ATTEMPTS
      modifies this`leased, this`machine, this`delivered, this`fates, this`writes, store
      ensures Valid() && leased.shardId == old(leased.shardId)
      ensures CaughtUp(from, start, if exit == SaveFailed then maxRecords else 0)
      ensures exit != StillRunning ==> machine.phase == Exiting
      ensures exit == StillRunning ==> machine.phase == Ready(iter)
      ensures RunTold(log, turns, start, old(leased), Here(), exit, iter, leased)
      ensures NilCloses(log, turns, exit)
      ensures writes == old(writes) + WritesOf(log) && delivered == old(delivered) + PassedOf(log)
      ensures exit == ShardClosed ==> EndsWithEnd(WritesOf(log), leased) && Pos(stream, leased.checkpoint) == |stream|
    {
      ghost var handle := leased;
      exit, iter, log := StillRunning, Some(start), [];
      var t := 0;
      while t < |turns| && exit == StillRunning
        invariant 0 <= t == |log| <= |turns|
        invariant Valid() && leased.shardId == old(leased.shardId)
        invariant exit == StillRunning ==> machine.phase == Ready(iter)
        invariant exit != StillRunning ==> machine.phase == Exiting
        invariant CaughtUp(from, start, if exit == SaveFailed then maxRecords else 0)
        invariant exit == ShardClosed ==> Pos(stream, leased.checkpoint) == |stream|
        invariant Logged(log, turns, start, handle, old(writes), old(delivered), exit, iter)
      {
        iter, exit, log := OneMore(turns, t, iter, from, start, handle, old(writes), old(delivered), log);
        t := t + 1;
      }
      RunNilCloses(log, turns, start, handle, Here(), exit, iter, leased);
      if exit == ShardClosed {
        ClosedEndsWithEnd(log, turns, start, handle, Here(), exit, iter, leased);
      }
    }

    /** The log tells what happened since the handle was `handle` and `was` and `whose` were the writes and
        deliveries. */
    ghost predicate Logged(log: seq<TurnLog>, turns: seq<Turn>, start: nat, handle: Lease, was: seq<Write>, whose: seq<nat>,
                           exit: Exit, iter: Option<nat>)
      reads this
    {
      && Ran(log, turns, start, handle, Here(), exit, iter, leased)
      && writes == was + WritesOf(log) && delivered == whose + PassedOf(log)
    }

    /** One turn, and its place in the log. */
    method OneMore(turns: seq<Turn>, t: nat, iter: Option<nat>, ghost from: nat, ghost start: nat, ghost handle: Lease,
                   ghost was: seq<Write>, ghost whose: seq<nat>, ghost log: seq<TurnLog>)
      returns (next: Option<nat>, exit: Exit, ghost log': seq<TurnLog>)
      requires Valid() && machine.phase == Ready(iter) && CaughtUp(from, start, 0)
      requires t == |log| < |turns| && |turns[t].saves| >= CHECKPOINT_ATTEMPTS
      requires Logged(log, turns, start, handle, was, whose, StillRunning, iter)
      modifies this`leased, this`machine, this`delivered, this`fates, this`writes, store
      ensures Valid() && leased.shardId == old(leased.shardId)
      ensures exit == StillRunning ==> machine.phase == Ready(next)
      ensures exit != StillRunning ==> machine.phase == Exiting
      ensures CaughtUp(from, start, if exit == SaveFailed then maxRecords else 0)
      ensures exit == ShardClosed ==> Pos(stream, leased.checkpoint) == |stream|
      ensures |log'| == t + 1 && Logged(log', turns, start, handle, was, whose, exit, next)
    {
      ghost var l;
      next, exit, l := RunTurn(turns[t], iter, from, start);
      RanSnoc(log, turns, l, start, handle, Here());
      Joined(was, WritesOf(log), WritesIn(l));
      Joined(whose, PassedOf(log), PassedIn(l));
      log' := log + [l];
    }

    /** release: the latest handle, whatever the loop left behind. `found` is the table at
        the call. */
    method ReleaseHandle(reply: Reply) returns (ghost found: Table)
      requires HandleIsVersion()
      modifies store, this`machine, this`writes
      ensures machine == old(machine).(phase := Done)
      ensures writes == old(writes) + [Write(Release(leased), found, reply)]
      ensures Fenced(found, leased) ==> found[leased.shardId] == leased
      ensures store.leases ==
        if reply.Answered? || reply.AnswerLost? then Apply(found, Release(leased)).0 else found
    {
      OthersAct();
      found := store.leases;
      writes := writes + [Write(Release(leased), found, reply)];
      if reply.Answered? || reply.AnswerLost? {
        var error := store.ReleaseLease(leased);
      }
      machine := machine.(phase := Done);
    }

    /** run: the poll loop, then the release under the newest handle. A drained poller hands
        its shard over with every record it delivered covered by the checkpoint. */
    method RunPoller(opens: bool, turns: seq<Turn>, release: Reply)
      returns (exit: Exit, ghost iter: Option<nat>, ghost found: Table, ghost log: seq<TurnLog>)
      requires Valid() && machine.phase == Opening
      requires forall t :: 0 <= t < |turns| ==> |turns[t].saves| >= CHECKPOINT_ATTEMPTS
      modifies this`leased, this`machine, this`delivered, this`fates, this`writes, store
      ensures machine.phase == Done && leased.shardId == old(leased.shardId)
      ensures CaughtUp(old(|delivered|), old(Pos(stream, leased.checkpoint)), if exit == SaveFailed then maxRecords else 0)
      ensures PassedOver()
      ensures !opens ==> exit == NoIterator && log == [] && leased == old(leased)
      ensures opens ==> RunTold(log, turns, old(Pos(stream, leased.checkpoint)), old(leased), Here(), exit, iter, leased)
      ensures writes == old(writes) + WritesOf(log) + [Write(Release(leased), found, release)]
      ensures delivered == old(delivered) + PassedOf(log)
      ensures NilCloses(log, turns, exit)
      ensures exit == ShardClosed ==> EndsWithEnd(WritesOf(log), leased)
      ensures (release.Answered? || release.AnswerLost?) && Fenced(found, leased) ==>
        leased.shardId in store.leases && store.leases[leased.shardId] == leased.(owner := "", counter := leased.counter + 1)
    {
      exit, iter, log := RunPoll(opens, turns);
      found := ReleaseHandle(release);
    }
  }
}
