/** Shard streams as sequences of sequence numbers, and the place a checkpoint marks. */
module Positions {
  import opened LeaseStore

  /** Sequence numbers are distinct, non-empty and none of the checkpoint sentinels. */
  ghost predicate ValidStream(stream: seq<string>) {
    && (forall i, j :: 0 <= i < j < |stream| ==> stream[i] != stream[j])
    && (forall i :: 0 <= i < |stream| ==> stream[i] != "" && stream[i] != TRIM_HORIZON && stream[i] != SHARD_END)
  }

  /** A checkpoint some poller of this shard may have written. */
  ghost predicate MarksPlace(stream: seq<string>, checkpoint: string) {
    checkpoint == TRIM_HORIZON || checkpoint == SHARD_END || checkpoint in stream
  }

  function IndexOf(stream: seq<string>, seqNo: string): (i: nat)
    requires seqNo in stream
    ensures i < |stream| && stream[i] == seqNo
  {
    if stream[0] == seqNo then 0 else IndexOf(stream[1..], seqNo) + 1
  }

  /** Records the checkpoint covers: the position the next reader starts at. */
  function Pos(stream: seq<string>, checkpoint: string): (n: nat)
    ensures n <= |stream|
  {
    if checkpoint == SHARD_END then |stream|
    else if checkpoint in stream then IndexOf(stream, checkpoint) + 1
    else 0
  }

  lemma PosOfRecord(stream: seq<string>, i: nat)
    requires ValidStream(stream) && i < |stream|
    ensures Pos(stream, stream[i]) == i + 1 && MarksPlace(stream, stream[i]) && stream[i] != SHARD_END
  {
  }

  lemma PosOfSentinels(stream: seq<string>)
    requires ValidStream(stream)
    ensures Pos(stream, TRIM_HORIZON) == 0 && Pos(stream, SHARD_END) == |stream|
  {
  }
}
