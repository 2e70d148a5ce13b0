/** One shard poller as a machine: the control points of runPoll and run, and the
    position of the read iterator in the shard's stream. */
module PollerMachine {
  import opened Sequences
  import opened LeaseStore
  import opened Positions

  datatype Phase =
    | Acquired                                                          // lease taken, goroutine not started
    | Opening                                                           // about to call openIterator
    | Ready(next: Option<nat>)                                          // top of the loop; None is a nil iterator
    | Handling(start: nat, got: nat, done: nat, after: Option<nat>)     // inside a batch of `got` records
    | Saving(start: nat, done: nat, retry: bool, after: Option<nat>)    // checkpoint of `done` records pending
    | Ending                                                            // SHARD_END pending
    | Exiting                                                           // loop left, release pending
    | Done

  datatype Poller = Poller(shardId: string, worker: string, leased: Lease, phase: Phase, unsaved: nat)

  /** What happens inside a poller between its store calls. */
  datatype Event =
    | Install                             // startPoller installs the poller
    | Refuse                              // startPoller found the coordinator stopped
    | Opened(position: nat)               // openIterator succeeded
    | OpenFailed
    | Stop                                // drain, cancellation or lost lease noticed at the loop top
    | Expired                             // the iterator expired: re-open from the checkpoint
    | SeeClosed                           // nil iterator at the loop top
    | Fetch(got: nat, closed: bool)       // GetRecords returned; closed means no next iterator
    | Delivered                           // handleRecord returned OK or skip
    | Rejected                            // handleRecord returned retry

  function AfterFetch(start: nat, got: nat, closed: bool): Phase {
    var after := if closed then None else Some(start + got);
    if got == 0 then Ready(after) else Handling(start, got, 0, after)
  }

  /** Is `ev` possible at this control point? */
  predicate CanStep(phase: Phase, ev: Event) {
    match ev
    case Install => phase.Acquired?
    case Refuse => phase.Acquired?
    case Opened(_) => phase.Opening?
    case OpenFailed => phase.Opening?
    case Stop => phase.Ready?
    case Expired => phase.Ready? && phase.next.Some?
    case SeeClosed => phase == Ready(None)
    case Fetch(_, _) => phase.Ready? && phase.next.Some?
    case Delivered => phase.Handling?
    case Rejected => phase.Handling?
  }

  function NextPhase(phase: Phase, ev: Event): Phase
    requires CanStep(phase, ev)
  {
    match ev
    case Install => Opening
    case Refuse => Exiting
    case Opened(position) => Ready(Some(position))
    case OpenFailed => Exiting
    case Stop => Exiting
    case Expired => Opening
    case SeeClosed => Ending
    case Fetch(got, closed) => AfterFetch(phase.next.value, got, closed)
    case Delivered =>
      if phase.done + 1 >= phase.got then Saving(phase.start, phase.done + 1, false, phase.after)
      else Handling(phase.start, phase.got, phase.done + 1, phase.after)
    case Rejected =>
      if phase.done > 0 then Saving(phase.start, phase.done, true, phase.after) else Opening
  }

  function Stepped(p: Poller, ev: Event): Poller
    requires CanStep(p.phase, ev)
  {
    p.(phase := NextPhase(p.phase, ev), unsaved := if ev.Delivered? then p.unsaved + 1 else p.unsaved)
  }

  /** The poller after its checkpoint call returned the updated lease. */
  function SavedAs(p: Poller, updated: Lease): Poller
    requires p.phase.Saving?
  {
    p.(leased := updated, unsaved := 0, phase := if p.phase.retry then Opening else Ready(p.phase.after))
  }

  /** What Kinesis may answer: an iterator opens right after the checkpoint; a read returns
      the next records, at most MaxRecords, with no next iterator only at the very end. */
  predicate Plausible(stream: seq<string>, maxRecords: nat, p: Poller, ev: Event)
    requires CanStep(p.phase, ev)
  {
    match ev
    case Opened(position) => p.leased.checkpoint != SHARD_END && position == Pos(stream, p.leased.checkpoint)
    case Fetch(got, closed) =>
      && got <= maxRecords
      && p.phase.next.value + got <= |stream|
      && (closed ==> p.phase.next.value + got == |stream|)
    case _ => true
  }

  /** The next iterator after reading up to `end`: there, or nil at the end of the shard. */
  predicate AfterOk(stream: seq<string>, end: nat, after: Option<nat>) {
    if after.Some? then after.value == end else end == |stream|
  }

  /** The loop's iterator stands right after the checkpoint in the handle, and what was
      delivered beyond that checkpoint is the start of one batch. */
  predicate InStep(stream: seq<string>, maxRecords: nat, p: Poller) {
    var at := Pos(stream, p.leased.checkpoint);
    p.unsaved <= maxRecords && (p.phase.Exiting? || p.phase.Done? || p.leased.checkpoint != SHARD_END) &&
    match p.phase
    case Acquired => p.unsaved == 0
    case Opening => p.unsaved == 0
    case Ready(next) => p.unsaved == 0 && AfterOk(stream, at, next)
    case Handling(start, got, done, after) =>
      && start == at && done < got <= maxRecords && start + got <= |stream|
      && AfterOk(stream, start + got, after) && p.unsaved == done
    case Saving(start, done, retry, after) =>
      && start == at && 0 < done <= maxRecords && start + done <= |stream|
      && (!retry ==> AfterOk(stream, start + done, after)) && p.unsaved <= done
    case Ending => p.unsaved == 0 && at == |stream|
    case Exiting => true
    case Done => true
  }

  /** Every local move keeps the poller in step with its checkpoint. */
  lemma MoveInStep(stream: seq<string>, maxRecords: nat, p: Poller, ev: Event)
    requires InStep(stream, maxRecords, p) && CanStep(p.phase, ev) && Plausible(stream, maxRecords, p, ev)
    ensures InStep(stream, maxRecords, Stepped(p, ev))
  {
  }

  /** A checkpoint of the delivered prefix of the batch keeps it in step, wherever the loop
      goes on. */
  lemma SaveInStep(stream: seq<string>, maxRecords: nat, p: Poller, row: Lease)
    requires ValidStream(stream) && InStep(stream, maxRecords, p) && p.phase.Saving?
    requires row.checkpoint == stream[p.phase.start + p.phase.done - 1]
    ensures InStep(stream, maxRecords, SavedAs(p, row)) && InStep(stream, maxRecords, p.(unsaved := 0))
    ensures Pos(stream, row.checkpoint) == p.phase.start + p.phase.done && row.checkpoint != SHARD_END
  {
    PosOfRecord(stream, p.phase.start + p.phase.done - 1);
  }
}
