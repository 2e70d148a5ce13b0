/** The turns of the poll loop told from outside: what one turn may send, handle and decide
    (poller.go, poller_lease.go and poller_records.go). */
module PollTurns {
  import opened Sequences
  import opened LeaseStore
  import opened Positions

  // ------------------------------------------------------------ record outcomes

  datatype RecordResult = RecordOK | RecordSkip | RecordRetry

  /** What the downstream pipeline does with one record. */
  datatype Downstream =
    | Undecompressable
    | Undecodable                         // sink.consume reports a decode failure, as skip
    | Accepted
    | RejectedForGood
    | RejectedForNow

  /** maybeDeadLetter: may the checkpoint pass an unprocessable record? */
  function DeadLettered(enabled: bool, emitFails: bool): bool {
    !enabled || !emitFails
  }

  function HandleRecord(d: Downstream, deadLetterEnabled: bool, emitFails: bool): RecordResult {
    match d
    case Undecompressable => if DeadLettered(deadLetterEnabled, emitFails) then RecordSkip else RecordRetry
    case Undecodable => if DeadLettered(deadLetterEnabled, emitFails) then RecordSkip else RecordRetry
    case RejectedForNow => RecordRetry
    case RejectedForGood => RecordSkip
    case Accepted => RecordOK
  }

  /** What became of one record: the pipeline's verdict, and whether a dead letter for it would fail. */
  datatype Fate = Fate(downstream: Downstream, emitFails: bool)

  /** The checkpoint may leave a record behind: the pipeline took it or refused it for good, or it is
      unprocessable and, where dead letters are configured, its dead letter was taken. */
  predicate MayPass(f: Fate, deadLetters: bool) {
    || f.downstream in {Accepted, RejectedForGood}
    || (f.downstream in {Undecompressable, Undecodable} && (deadLetters ==> !f.emitFails))
  }

  // ------------------------------------------------------------ the environment

  /** How a store call ends: it reaches the store and the answer comes back, or it lands
      with the answer lost, or it does not land, or the context is cancelled. */
  datatype Reply = Answered | AnswerLost | NotSent | Cancelled

  datatype CallResult = Success | Conflict(error: StoreError) | Transient | Aborted

  /** The result of a store call answered this way, which met the table `found`. */
  function CallOutcome(reply: Reply, found: Table, handle: Lease): CallResult {
    match reply
    case NotSent => Transient
    case AnswerLost => Transient
    case Cancelled => Aborted
    case Answered => if Fenced(found, handle) then Success else Conflict(FenceError(found, handle))
  }

  /** The table such a call leaves: it lands, or it does not. */
  function TableAfter(reply: Reply, found: Table, call: Call): Table {
    if reply.Answered? || reply.AnswerLost? then Apply(found, call).0 else found
  }

  datatype Read = Records(closed: bool, fates: seq<Fate>) | IteratorExpired | ReadFailed

  /** What the environment does during one turn of the poll loop. `cancelledLate` is a cancellation that
      comes while the turn's own write is under way, `stopLater` a stop in the wait at the turn's end. */
  datatype Turn = Turn(cancelled: bool, drain: bool, stopInWait: bool, read: Read, beats: seq<Reply>, saves: seq<Reply>,
                       reopens: bool, cancelledLate: bool, stopLater: bool)

  datatype Exit = NoIterator | Stopped | ShardClosed | Drained | SaveFailed | StillRunning

  /** The `n` positions from `start` on. */
  function Span(start: nat, n: nat): (r: seq<nat>)
    ensures |r| == n && forall k :: 0 <= k < n ==> r[k] == start + k
  {
    seq(n, k requires 0 <= k < n => start + k)
  }

  /** Kinesis can give this answer at this position. */
  predicate CanRead(stream: seq<string>, maxRecords: nat, position: nat, read: Read) {
    read.Records? ==>
      && |read.fates| <= maxRecords && position + |read.fates| <= |stream|
      && (read.closed ==> position + |read.fates| == |stream|)
  }

  // ------------------------------------------------------------ writes

  /** A lease write a poller sent: the table it met there, and how the call ended. */
  datatype Write = Write(call: Call, found: Table, reply: Reply)

  predicate FencedCall(call: Call) {
    call.Heartbeat? || call.Checkpoint? || call.Release?
  }

  /** The write landed and the answer came back: only then does the handle move. */
  predicate Confirmed(w: Write) {
    FencedCall(w.call) && w.reply.Answered? && Fenced(w.found, w.call.lease)
  }

  /** The store said that the lease is somebody else's now, or the context was cancelled. */
  predicate LeaseLost(w: Write) {
    w.reply.Cancelled? || (FencedCall(w.call) && w.reply.Answered? && !Fenced(w.found, w.call.lease))
  }

  function ConfirmedIn(writes: seq<Write>): nat {
    if writes == [] then 0
    else ConfirmedIn(writes[..|writes| - 1]) + if Confirmed(writes[|writes| - 1]) then 1 else 0
  }

  /** A handle that `beats` brought this far. */
  function Beaten(handle: Lease, beats: seq<Write>): Lease {
    handle.(counter := handle.counter + ConfirmedIn(beats))
  }

  /** Heartbeats go out one after the other, each under the newest handle. */
  ghost predicate BeatsSent(beats: seq<Write>, replies: seq<Reply>, handle: Lease) {
    && |beats| <= |replies|
    && forall k :: 0 <= k < |beats| ==> beats[k].call == Heartbeat(Beaten(handle, beats[..k])) && beats[k].reply == replies[k]
  }

  /** The heartbeats so far: none went out after one that found the lease lost. */
  ghost predicate BeatsSoFar(beats: seq<Write>, replies: seq<Reply>, handle: Lease, held: Lease, lost: bool) {
    && BeatsSent(beats, replies, handle) && held == Beaten(handle, beats)
    && (forall k :: 0 <= k < |beats| - 1 ==> !LeaseLost(beats[k]))
    && (lost <==> beats != [] && LeaseLost(beats[|beats| - 1]))
  }

  /** All of them go out unless one finds the lease lost. */
  ghost predicate BeatsTold(beats: seq<Write>, replies: seq<Reply>, handle: Lease, held: Lease, lost: bool) {
    BeatsSoFar(beats, replies, handle, held, lost) && (!lost ==> |beats| == |replies|)
  }

  /** One more heartbeat. */
  lemma {:induction false} BeatsSnoc(beats: seq<Write>, w: Write, replies: seq<Reply>, handle: Lease, held: Lease)
    requires BeatsSoFar(beats, replies, handle, held, false) && |beats| < |replies|
    requires w.call == Heartbeat(held) && w.reply == replies[|beats|]
    ensures BeatsSoFar(beats + [w], replies, handle, if Confirmed(w) then HeartbeatRow(held) else held, LeaseLost(w))
  {
    var more := beats + [w];
    assert more[..|more| - 1] == beats;
    forall k | 0 <= k < |more|
      ensures more[k].call == Heartbeat(Beaten(handle, more[..k])) && more[k].reply == replies[k]
    {
      assert more[..k] == beats[..k];
    }
    forall k | 0 <= k < |more| - 1 ensures !LeaseLost(more[k]) {
      assert more[k] == beats[k];
    }
  }

  /** All of `writes` try to save `seqNo` under the one handle. */
  ghost predicate Tries(writes: seq<Write>, replies: seq<Reply>, handle: Lease, seqNo: string) {
    && |writes| <= |replies|
    && forall k :: 0 <= k < |writes| ==> writes[k].call == Checkpoint(handle, seqNo) && writes[k].reply == replies[k]
  }

  /** A checkpoint with its retries: up to three tries, another one exactly after an answer that was
      lost or a call that did not land; saved when the last was confirmed, and the handle moves then. */
  ghost predicate SaveTold(writes: seq<Write>, replies: seq<Reply>, handle: Lease, seqNo: string, after: Lease, saved: bool) {
    && Tries(writes, replies, handle, seqNo) && 1 <= |writes| <= 3
    && (forall k :: 0 <= k < |writes| - 1 ==> writes[k].reply.AnswerLost? || writes[k].reply.NotSent?)
    && (var last := writes[|writes| - 1];
        && (last.reply.AnswerLost? || last.reply.NotSent? ==> |writes| == 3)
        && (saved <==> Confirmed(last))
        && after == if Confirmed(last) then handle.(checkpoint := seqNo, counter := handle.counter + 1) else handle)
  }

  /** The end of a closed shard written down: once, and once more exactly when the first write was not
      confirmed and the context was cancelled; the handle is at SHARD_END exactly when the last was. */
  ghost predicate EndTold(writes: seq<Write>, replies: seq<Reply>, handle: Lease, cancelled: bool, after: Lease) {
    && Tries(writes, replies, handle, "SHARD_END") && 1 <= |writes| <= 2
    && (|writes| == 2 <==> !Confirmed(writes[0]) && (cancelled || writes[0].reply.Cancelled?))
    && after == if Confirmed(writes[|writes| - 1]) then handle.(checkpoint := "SHARD_END", counter := handle.counter + 1) else handle
  }

  // ------------------------------------------------------------ one turn

  /** One turn: what the environment did, the iterator and the handle it began with, the heartbeats sent
      and the handle held after them, the records passed, the other writes, and how it ended. */
  datatype TurnLog = TurnLog(turn: Turn, iter: Option<nat>, handle: Lease, beats: seq<Write>, held: Lease, lost: bool,
                             passed: nat, saves: seq<Write>, next: Option<nat>, after: Lease, exit: Exit)

  /** The stream, the read limit and the dead-letter setting of one poller. */
  datatype Setting = Setting(stream: seq<string>, maxRecords: nat, deadLetters: bool)

  /** No record is passed and no checkpoint written. */
  ghost predicate Untouched(l: TurnLog) {
    l.passed == 0 && l.saves == [] && l.after == l.held
  }

  ghost predicate Leaves(l: TurnLog, exit: Exit) {
    Untouched(l) && l.next == l.iter && l.exit == exit
  }

  /** The order in which a turn decides. */
  ghost predicate TurnTold(l: TurnLog, c: Setting) {
    && BeatsTold(l.beats, l.turn.beats, l.handle, l.held, l.lost)
    && if l.turn.cancelled || l.lost then Leaves(l, Stopped)
       else if l.iter.None? then
         && EndTold(l.saves, l.turn.saves, l.held, l.turn.cancelledLate, l.after)
         && l.passed == 0 && l.next == None && l.exit == ShardClosed
       else if l.turn.drain then Leaves(l, Drained)
       else if l.turn.stopInWait then Leaves(l, Stopped)
       else ReadTold(l, c)
  }

  /** The read of a turn that gets that far. */
  ghost predicate ReadTold(l: TurnLog, c: Setting)
    requires l.iter.Some?
  {
    if l.turn.read.ReadFailed? || !CanRead(c.stream, c.maxRecords, l.iter.value, l.turn.read) then
      Leaves(l, if l.turn.stopLater then Stopped else StillRunning)
    else if l.turn.read.IteratorExpired? then
      && Untouched(l) && l.exit == (if l.turn.reopens then StillRunning else NoIterator)
      && (l.turn.reopens ==> l.next == l.iter)
    else
      PassedTold(l, c) && GoesOn(l)
  }

  /** Exactly the records before the first that must be retried are passed, and the last of them, if any,
      is checkpointed. */
  ghost predicate PassedTold(l: TurnLog, c: Setting)
    requires l.iter.Some? && l.turn.read.Records? && CanRead(c.stream, c.maxRecords, l.iter.value, l.turn.read)
  {
    var fates := l.turn.read.fates;
    && l.passed <= |fates|
    && (forall k :: 0 <= k < l.passed ==> MayPass(fates[k], c.deadLetters))
    && (l.passed < |fates| ==> !MayPass(fates[l.passed], c.deadLetters))
    && if l.passed == 0 then l.saves == [] && l.after == l.held
       else SaveTold(l.saves, l.turn.saves, l.held, c.stream[l.iter.value + l.passed - 1], l.after, l.exit != SaveFailed)
  }

  /** Where the loop goes on: nowhere when the save failed; after a retry, where the checkpoint now stands;
      otherwise at the end of the batch, with no iterator once the shard is closed. */
  ghost predicate GoesOn(l: TurnLog)
    requires l.iter.Some? && l.turn.read.Records?
  {
    var end := l.iter.value + l.passed;
    && (l.passed == 0 ==> l.exit != SaveFailed)
    && (l.exit != SaveFailed ==>
          if l.passed == |l.turn.read.fates| then l.next == (if l.turn.read.closed then None else Some(end)) && l.exit == StillRunning
          else if !l.turn.reopens then l.exit == NoIterator
          else l.next == Some(end) && l.exit == if l.turn.stopLater then Stopped else StillRunning)
  }

  /** A turn that begins with its heartbeats and gets as far as the read. */
  lemma ToldByRead(l: TurnLog, c: Setting)
    requires BeatsTold(l.beats, l.turn.beats, l.handle, l.held, false) && !l.lost && l.iter.Some?
    requires !l.turn.cancelled && !l.turn.drain && !l.turn.stopInWait
    requires ReadTold(l, c)
    ensures TurnTold(l, c)
  {
  }

  /** A turn that ends before the read. */
  lemma ToldByStop(l: TurnLog, c: Setting)
    requires BeatsTold(l.beats, l.turn.beats, l.handle, l.held, l.lost)
    requires if l.turn.cancelled || l.lost then Leaves(l, Stopped)
             else l.iter.Some? && if l.turn.drain then Leaves(l, Drained) else l.turn.stopInWait && Leaves(l, Stopped)
    ensures TurnTold(l, c)
  {
  }

  /** A turn that finds no iterator. */
  lemma ToldByEnd(l: TurnLog, c: Setting)
    requires BeatsTold(l.beats, l.turn.beats, l.handle, l.held, false) && !l.lost && l.iter.None? && !l.turn.cancelled
    requires EndTold(l.saves, l.turn.saves, l.held, l.turn.cancelledLate, l.after)
    requires l.passed == 0 && l.next == None && l.exit == ShardClosed
    ensures TurnTold(l, c)
  {
  }

  // ------------------------------------------------------------ whole runs

  /** The turns the environment offered, in order, from the position `start` under `handle`: each from where
      the one before left off, and none after one that decided to leave. */
  ghost predicate Ran(log: seq<TurnLog>, turns: seq<Turn>, start: nat, handle: Lease, c: Setting,
                      exit: Exit, iter: Option<nat>, after: Lease)
    decreases |log|
  {
    if log == [] then
      exit == StillRunning && iter == Some(start) && after == handle
    else
      var l := log[|log| - 1];
      && |log| <= |turns| && l.turn == turns[|log| - 1]
      && Ran(log[..|log| - 1], turns, start, handle, c, StillRunning, l.iter, l.handle)
      && TurnTold(l, c) && exit == l.exit && iter == l.next && after == l.after
  }

  /** As many turns as there are, unless one decided to leave. */
  ghost predicate RunTold(log: seq<TurnLog>, turns: seq<Turn>, start: nat, handle: Lease, c: Setting,
                          exit: Exit, iter: Option<nat>, after: Lease)
  {
    Ran(log, turns, start, handle, c, exit, iter, after) && (exit == StillRunning ==> |log| == |turns|)
  }

  lemma Joined<T>(a: seq<T>, b: seq<T>, c: seq<T>)
    ensures (a + b) + c == a + (b + c)
  {
  }

  /** The writes of one turn: its heartbeats, then its other writes. */
  function WritesIn(l: TurnLog): seq<Write> {
    l.beats + l.saves
  }

  function WritesOf(log: seq<TurnLog>): seq<Write> {
    if log == [] then [] else WritesOf(log[..|log| - 1]) + WritesIn(log[|log| - 1])
  }

  function PassedIn(l: TurnLog): seq<nat> {
    if l.iter.Some? then Span(l.iter.value, l.passed) else []
  }

  function PassedOf(log: seq<TurnLog>): seq<nat> {
    if log == [] then [] else PassedOf(log[..|log| - 1]) + PassedIn(log[|log| - 1])
  }

  /** One more turn. */
  lemma {:induction false} RanSnoc(log: seq<TurnLog>, turns: seq<Turn>, l: TurnLog, start: nat, handle: Lease, c: Setting)
    requires Ran(log, turns, start, handle, c, StillRunning, l.iter, l.handle) && TurnTold(l, c)
    requires |log| < |turns| && l.turn == turns[|log|]
    ensures Ran(log + [l], turns, start, handle, c, l.exit, l.next, l.after)
    ensures WritesOf(log + [l]) == WritesOf(log) + WritesIn(l) && PassedOf(log + [l]) == PassedOf(log) + PassedIn(l)
  {
    assert (log + [l])[..|log + [l]| - 1] == log;
  }

  // ------------------------------------------------------------ what a run means

  /** A turn that begins without an iterator, and finds neither a cancellation nor the lease lost, is the
      last one, and it closes the shard. */
  lemma {:induction false} NilIteratorCloses(log: seq<TurnLog>, turns: seq<Turn>, start: nat, handle: Lease, c: Setting,
                                             exit: Exit, iter: Option<nat>, after: Lease, k: nat)
    requires Ran(log, turns, start, handle, c, exit, iter, after)
    requires k < |log| <= |turns| && log[k].iter == None && !turns[k].cancelled && !log[k].lost
    ensures exit == ShardClosed && k == |log| - 1
  {
    var n := |log| - 1;
    if k < n {
      NilIteratorCloses(log[..n], turns, start, handle, c, StillRunning, log[n].iter, log[n].handle, k);
    } else {
      NilTurnCloses(log[n], c);
    }
  }

  /** The same for every turn of a run. */
  ghost predicate NilCloses(log: seq<TurnLog>, turns: seq<Turn>, exit: Exit) {
    && |log| <= |turns|
    && forall k :: 0 <= k < |log| && log[k].iter == None && !turns[k].cancelled && !log[k].lost ==>
      exit == ShardClosed && k == |log| - 1
  }

  lemma {:induction false} RunNilCloses(log: seq<TurnLog>, turns: seq<Turn>, start: nat, handle: Lease, c: Setting,
                                        exit: Exit, iter: Option<nat>, after: Lease)
    requires Ran(log, turns, start, handle, c, exit, iter, after)
    ensures NilCloses(log, turns, exit)
  {
    forall k | 0 <= k < |log| && log[k].iter == None && !turns[k].cancelled && !log[k].lost
      ensures exit == ShardClosed && k == |log| - 1
    {
      NilIteratorCloses(log, turns, start, handle, c, exit, iter, after, k);
    }
  }

  lemma NilTurnCloses(l: TurnLog, c: Setting)
    requires TurnTold(l, c) && l.iter == None && !l.turn.cancelled && !l.lost
    ensures l.exit == ShardClosed
  {
  }

  /** An attempt to write the end of the shard down, which left the handle `after`: at SHARD_END exactly when
      the attempt was confirmed. */
  predicate WritesEnd(w: Write, after: Lease) {
    match w.call
    case Checkpoint(handle, seqNo) =>
      && seqNo == "SHARD_END" && handle.checkpoint != "SHARD_END"
      && after == if w.reply.Answered? && Fenced(w.found, handle)
                  then handle.(checkpoint := "SHARD_END", counter := handle.counter + 1) else handle
    case _ => false
  }

  /** The last write was such an attempt, and not one cut short by a cancellation unless it was the second. */
  predicate EndsWithEnd(writes: seq<Write>, after: Lease) {
    && writes != [] && WritesEnd(writes[|writes| - 1], after)
    && (writes[|writes| - 1].reply.Cancelled? ==> |writes| >= 2 && writes[|writes| - 2].call == writes[|writes| - 1].call)
  }

  /** While the loop runs its handle is not at the end of the shard. */
  lemma {:induction false} NeverAtEnd(log: seq<TurnLog>, turns: seq<Turn>, start: nat, handle: Lease, c: Setting,
                                      exit: Exit, iter: Option<nat>, after: Lease)
    requires Ran(log, turns, start, handle, c, exit, iter, after) && exit != ShardClosed
    requires handle.checkpoint != "SHARD_END" && ValidStream(c.stream)
    ensures after.checkpoint != "SHARD_END"
  {
    if log != [] {
      var n := |log| - 1;
      NeverAtEnd(log[..n], turns, start, handle, c, StillRunning, log[n].iter, log[n].handle);
      assert TurnTold(log[n], c);
    }
  }

  lemma {:induction false} ClosedEndsWithEnd(log: seq<TurnLog>, turns: seq<Turn>, start: nat, handle: Lease, c: Setting,
                                             exit: Exit, iter: Option<nat>, after: Lease)
    requires Ran(log, turns, start, handle, c, exit, iter, after) && exit == ShardClosed
    requires handle.checkpoint != "SHARD_END" && ValidStream(c.stream)
    ensures EndsWithEnd(WritesOf(log), after)
  {
    NeverAtEnd(log[..|log| - 1], turns, start, handle, c, StillRunning, log[|log| - 1].iter, log[|log| - 1].handle);
    var l := log[|log| - 1];
    ClosingTurn(l, c);
    EndAtEnd(WritesOf(log[..|log| - 1]) + l.beats, l.saves, l.turn.saves, l.held, l.turn.cancelledLate, l.after);
    Joined(WritesOf(log[..|log| - 1]), l.beats, l.saves);
  }

  lemma ClosingTurn(l: TurnLog, c: Setting)
    requires TurnTold(l, c) && l.exit == ShardClosed
    ensures EndTold(l.saves, l.turn.saves, l.held, l.turn.cancelledLate, l.after)
    ensures l.held.checkpoint == l.handle.checkpoint
  {
  }

  lemma {:induction false} EndAtEnd(before: seq<Write>, saves: seq<Write>, replies: seq<Reply>, held: Lease,
                                    cancelled: bool, after: Lease)
    requires EndTold(saves, replies, held, cancelled, after) && held.checkpoint != "SHARD_END"
    ensures EndsWithEnd(before + saves, after)
  {
    var all := before + saves;
    assert all[|all| - 1] == saves[|saves| - 1];
    if |saves| == 2 {
      assert all[|all| - 2] == saves[0];
    }
  }

  /** A turn on which nothing goes wrong. */
  ghost predicate Fair(l: TurnLog, c: Setting) {
    && !l.turn.cancelled && !l.lost && !l.turn.drain && !l.turn.stopInWait
    && (l.iter.Some? ==>
          && l.turn.read.Records? && CanRead(c.stream, c.maxRecords, l.iter.value, l.turn.read)
          && (forall f :: f in l.turn.read.fates ==> MayPass(f, c.deadLetters))
          && (l.saves != [] ==> Confirmed(l.saves[|l.saves| - 1])))
  }

  /** While nothing goes wrong the loop handles the stream record by record without a gap or a repeat, its
      handle's checkpoint is the last record handled, and it leaves only a closed shard. */
  lemma {:induction false} FairRunDelivers(log: seq<TurnLog>, turns: seq<Turn>, start: nat, handle: Lease, c: Setting,
                                           exit: Exit, iter: Option<nat>, after: Lease)
    requires Ran(log, turns, start, handle, c, exit, iter, after)
    requires forall k :: 0 <= k < |log| ==> Fair(log[k], c)
    ensures FairSoFar(PassedOf(log), start, handle, c, exit, iter, after)
  {
    if log != [] {
      var n := |log| - 1;
      FairRunDelivers(log[..n], turns, start, handle, c, StillRunning, log[n].iter, log[n].handle);
      FairStep(PassedOf(log[..n]), log[n], start, handle, c);
    }
  }

  /** What was passed is the stream from `start` on, the iterator stands after it, and the checkpoint is the
      last of it. */
  predicate FairSoFar(passed: seq<nat>, start: nat, handle: Lease, c: Setting, exit: Exit, iter: Option<nat>, after: Lease) {
    && (exit == StillRunning || exit == ShardClosed)
    && passed == Span(start, |passed|)
    && (iter.Some? ==> iter.value == start + |passed|)
    && (exit == StillRunning ==>
          after.checkpoint == if passed == [] then handle.checkpoint else RecordAt(c.stream, start + |passed| - 1))
  }

  lemma FairStep(before: seq<nat>, l: TurnLog, start: nat, handle: Lease, c: Setting)
    requires FairSoFar(before, start, handle, c, StillRunning, l.iter, l.handle) && TurnTold(l, c) && Fair(l, c)
    ensures FairSoFar(before + PassedIn(l), start, handle, c, l.exit, l.next, l.after)
  {
    FairTurn(l, c);
    if l.iter.Some? {
      SpanJoins(start, |before|, l.passed);
    }
  }

  lemma SpanJoins(start: nat, n: nat, m: nat)
    ensures Span(start, n) + Span(start + n, m) == Span(start, n + m)
  {
  }

  function RecordAt(stream: seq<string>, i: int): string {
    if 0 <= i < |stream| then stream[i] else ""
  }

  lemma FairTurn(l: TurnLog, c: Setting)
    requires TurnTold(l, c) && Fair(l, c)
    ensures l.iter.None? ==> l.exit == ShardClosed && l.passed == 0 && l.next == None
    ensures l.iter.Some? ==>
      && l.exit == StillRunning && l.turn.read.Records? && l.passed == |l.turn.read.fates|
      && l.next == (if l.turn.read.closed then None else Some(l.iter.value + l.passed))
      && l.after.checkpoint == if l.passed == 0 then l.handle.checkpoint else RecordAt(c.stream, l.iter.value + l.passed - 1)
  {
    if l.iter.Some? {
      var fates := l.turn.read.fates;
      assert forall k :: 0 <= k < |fates| ==> fates[k] in fates;
    }
  }
}
