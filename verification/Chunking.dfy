/** Cutting a flush into PutRecords calls: flush in exporter/awskinesisexporter/record.go. */
module Chunking {
  import opened Sequences
  import opened Config
  import opened Record

  function Size(entries: seq<Entry>): nat {
    if entries == [] then 0 else Size(entries[..|entries| - 1]) + entries[|entries| - 1].Size()
  }

  /** Entries `lo` up to `hi` may ride one call; a single one always may. */
  predicate Within(cfg: Config, entries: seq<Entry>, lo: nat, hi: nat) {
    && lo < hi <= |entries|
    && hi - lo <= cfg.maxRecords
    && (hi == lo + 1 || Size(entries[lo..hi]) <= cfg.maxBytes)
  }

  /** The longest chunk from `lo`. */
  predicate Longest(cfg: Config, entries: seq<Entry>, lo: nat, hi: nat) {
    Within(cfg, entries, lo, hi) && !Within(cfg, entries, lo, hi + 1)
  }

  method NextCut(cfg: Config, entries: seq<Entry>, start: nat) returns (end: nat)
    requires start < |entries| && cfg.maxRecords >= 1
    ensures Longest(cfg, entries, start, end)
  {
    end := start;
    var bytes := 0;
    while end < |entries| && end - start < cfg.maxRecords
      invariant start <= end <= |entries| && end - start <= cfg.maxRecords
      invariant bytes == Size(entries[start..end])
      invariant end > start ==> Within(cfg, entries, start, end)
    {
      assert entries[start..end + 1][..end - start] == entries[start..end];
      var n := entries[end].Size();
      if end > start && bytes + n > cfg.maxBytes {
        break;
      }
      bytes := bytes + n;
      end := end + 1;
    }
  }

  /** One chunk of a flush: which entries, the rounds it took, the number of its first call. */
  datatype Chunk = Chunk(lo: nat, hi: nat, rounds: seq<Round>, at: nat)

  ghost predicate ChunkOk(service: Service, calls: seq<seq<Entry>>, cfg: Config, entries: seq<Entry>, c: Chunk) {
    && Longest(cfg, entries, c.lo, c.hi)
    && Retries(c.hi - c.lo, c.rounds) && 0 < |c.rounds| <= MAX_PUT_ATTEMPTS
    && c.at + |c.rounds| <= |calls|
    && Carried(service, calls[..c.at + |c.rounds|], c.at, entries[c.lo..c.hi], c.rounds)
  }

  /** The chunks follow one another, in the entries and in the calls. */
  ghost predicate Consecutive(chunks: seq<Chunk>, at: nat) {
    && (chunks != [] ==> chunks[0].lo == 0 && chunks[0].at == at)
    && forall k :: 0 <= k < |chunks| - 1 ==> Follows(chunks[k], chunks[k + 1])
  }

  ghost predicate Follows(c: Chunk, d: Chunk) {
    d.lo == c.hi && d.at == c.at + |c.rounds| && Settled(c.rounds)
  }

  function EndOf(chunks: seq<Chunk>): nat {
    if chunks == [] then 0 else chunks[|chunks| - 1].hi
  }

  function CallsOf(chunks: seq<Chunk>, at: nat): nat {
    if chunks == [] then at else chunks[|chunks| - 1].at + |chunks[|chunks| - 1].rounds|
  }

  lemma CallsGrow(service: Service, calls: seq<seq<Entry>>, more: seq<seq<Entry>>, cfg: Config, entries: seq<Entry>, c: Chunk)
    requires ChunkOk(service, calls, cfg, entries, c) && calls <= more
    ensures ChunkOk(service, more, cfg, entries, c)
  {
    assert more[..c.at + |c.rounds|] == calls[..c.at + |c.rounds|];
  }

  /** `chunks` is what a flush did: the calls from number `at` on, against this service. */
  ghost predicate FlushRun(service: Service, calls: seq<seq<Entry>>, cfg: Config, entries: seq<Entry>,
                           chunks: seq<Chunk>, at: nat) {
    && (forall k :: 0 <= k < |chunks| ==> ChunkOk(service, calls, cfg, entries, chunks[k]))
    && Consecutive(chunks, at) && |calls| == CallsOf(chunks, at)
  }

  /** The state of a flush whose chunks so far are all acknowledged. */
  ghost predicate Flushed(client: Client, cfg: Config, entries: seq<Entry>, chunks: seq<Chunk>, at: nat)
    reads client
  {
    FlushRun(client.oracle, client.calls, cfg, entries, chunks, at)
  }

  ghost predicate LastSettled(chunks: seq<Chunk>) {
    chunks != [] ==> Settled(chunks[|chunks| - 1].rounds)
  }

  /** One chunk sent. */
  method SendChunk(client: Client, cfg: Config, entries: seq<Entry>, start: nat, end: nat) returns (done: bool, ghost c: Chunk)
    requires Shaped(client.oracle) && Longest(cfg, entries, start, end)
    modifies client
    ensures old(client.calls) <= client.calls && c.at == |old(client.calls)| && c.lo == start && c.hi == end
    ensures ChunkOk(client.oracle, client.calls, cfg, entries, c) && |client.calls| == c.at + |c.rounds|
    ensures done <==> Settled(c.rounds)
    ensures !done ==> GaveUpFor(client, old(client.checks), c.rounds)
    ensures client.checks >= old(client.checks)
  {
    ghost var at := |client.calls|;
    ghost var rounds;
    done, rounds := PutRecords(client, entries[start..end]);
    c := Chunk(start, end, rounds, at);
    assert client.calls[..c.at + |c.rounds|] == client.calls;
  }

  lemma ChunkAppended(service: Service, before: seq<seq<Entry>>, calls: seq<seq<Entry>>, cfg: Config, entries: seq<Entry>,
                      chunks: seq<Chunk>, at: nat, c: Chunk)
    requires forall k :: 0 <= k < |chunks| ==> ChunkOk(service, before, cfg, entries, chunks[k])
    requires Consecutive(chunks, at) && LastSettled(chunks) && before <= calls
    requires ChunkOk(service, calls, cfg, entries, c) && c.lo == EndOf(chunks) && c.at == |before| == CallsOf(chunks, at)
    ensures forall k :: 0 <= k < |chunks + [c]| ==> ChunkOk(service, calls, cfg, entries, (chunks + [c])[k])
    ensures Consecutive(chunks + [c], at)
  {
    forall k | 0 <= k < |chunks|
      ensures ChunkOk(service, calls, cfg, entries, chunks[k])
    {
      CallsGrow(service, before, calls, cfg, entries, chunks[k]);
    }
  }

  ghost predicate LastGaveUp(client: Client, since: nat, rounds: seq<Round>)
    reads client
  {
    rounds != [] && (rounds[|rounds| - 1].reply.CallFailed? || |rounds| == 5 || FoundDone(client, since))
  }

  /** Why a flush may report failure: its last chunk was given up for one of the reasons of
      putRecords, or the context was done before the next chunk, with entries left. */
  ghost predicate StoppedFor(client: Client, since: nat, entries: seq<Entry>, chunks: seq<Chunk>)
    reads client
  {
    || (EndOf(chunks) < |entries| && LastSettled(chunks) && FoundDone(client, since))
    || (!LastSettled(chunks) && LastGaveUp(client, since, chunks[|chunks| - 1].rounds))
  }

  /** Every call made belongs to one chunk, every chunk is a longest one, all chunks before the
      last were fully acknowledged, and success means exactly that the chunks cover the entries and
      the last one was acknowledged too. */
  method Flush(client: Client, cfg: Config, entries: seq<Entry>) returns (ok: bool, ghost chunks: seq<Chunk>)
    requires Shaped(client.oracle) && cfg.maxRecords >= 1
    modifies client
    ensures old(client.calls) <= client.calls
    ensures Flushed(client, cfg, entries, chunks, |old(client.calls)|)
    ensures ok <==> EndOf(chunks) == |entries| && LastSettled(chunks)
    ensures !ok ==> StoppedFor(client, old(client.checks), entries, chunks)
    ensures client.checks >= old(client.checks)
  {
    var start := 0;
    chunks := [];
    ghost var at := |client.calls|;
    while start < |entries|
      invariant start == EndOf(chunks) <= |entries|
      invariant old(client.calls) <= client.calls
      invariant Flushed(client, cfg, entries, chunks, at) && LastSettled(chunks)
      invariant client.checks >= old(client.checks)
      decreases |entries| - start
    {
      var gone := client.ContextDone();
      if gone {
        return false, chunks;
      }
      var end := NextCut(cfg, entries, start);
      ghost var before := client.calls;
      var done;
      ghost var c;
      done, c := SendChunk(client, cfg, entries, start, end);
      ChunkAppended(client.oracle, before, client.calls, cfg, entries, chunks, at, c);
      chunks := chunks + [c];
      if !done {
        return false, chunks;
      }
      start := end;
    }
    return true, chunks;
  }

  // ------------------------------------------------------------ chunk sizes

  lemma {:induction false} SizeConcat(a: seq<Entry>, b: seq<Entry>)
    ensures Size(a + b) == Size(a) + Size(b)
  {
    if b == [] {
      assert a + b == a;
    } else {
      var n := |b| - 1;
      assert (a + b)[..|a + b| - 1] == a + b[..n];
      SizeConcat(a, b[..n]);
    }
  }

  lemma SizePart(entries: seq<Entry>, lo: nat, lo': nat, hi': nat, hi: nat)
    requires lo <= lo' <= hi' <= hi <= |entries|
    ensures Size(entries[lo'..hi']) <= Size(entries[lo..hi])
  {
    assert entries[lo..hi] == entries[lo..lo'] + entries[lo'..hi'] + entries[hi'..hi];
    SizeConcat(entries[lo..lo'] + entries[lo'..hi'], entries[hi'..hi]);
    SizeConcat(entries[lo..lo'], entries[lo'..hi']);
  }

  /** With a validated configuration and records that fit the record limit, no chunk exceeds
      either call limit, key bytes counted; the single-record exception never shows. */
  lemma ChunksRespectLimits(cfg: Config, entries: seq<Entry>, compiles: string -> bool, lo: nat, hi: nat)
    requires Servable(cfg, compiles) && Within(cfg, entries, lo, hi)
    requires forall i :: 0 <= i < |entries| ==> entries[i].Size() <= cfg.maxRecordSize
    ensures 1 <= hi - lo <= cfg.maxRecords <= 500
    ensures Size(entries[lo..hi]) <= cfg.maxBytes
  {
    if hi == lo + 1 {
      assert entries[lo..hi] == [entries[lo]];
      assert [entries[lo]][..0] == [];
    }
  }

  // ------------------------------------------------------------ the greedy cut is best

  /** Cut points from 0 to the end, every piece between two of them allowed in one call. */
  ghost predicate Cuts(cfg: Config, entries: seq<Entry>, cuts: seq<nat>) {
    && cuts != [] && cuts[0] == 0 && cuts[|cuts| - 1] == |entries|
    && forall k :: 0 <= k < |cuts| - 1 ==> Within(cfg, entries, cuts[k], cuts[k + 1])
  }

  ghost predicate LongestCuts(cfg: Config, entries: seq<Entry>, cuts: seq<nat>) {
    && cuts != [] && cuts[0] == 0
    && forall k :: 0 <= k < |cuts| - 1 ==> Longest(cfg, entries, cuts[k], cuts[k + 1])
  }

  lemma WithinPart(cfg: Config, entries: seq<Entry>, lo: nat, lo': nat, hi': nat, hi: nat)
    requires Within(cfg, entries, lo, hi) && lo <= lo' < hi' <= hi
    ensures Within(cfg, entries, lo', hi')
  {
    SizePart(entries, lo, lo', hi', hi);
  }

  lemma {:induction false} GreedyLeads(cfg: Config, entries: seq<Entry>, longest: seq<nat>, cuts: seq<nat>, k: nat)
    requires LongestCuts(cfg, entries, longest) && Cuts(cfg, entries, cuts)
    requires k < |longest| && k < |cuts|
    ensures cuts[k] <= longest[k]
  {
    if k > 0 {
      GreedyLeads(cfg, entries, longest, cuts, k - 1);
      assert Longest(cfg, entries, longest[k - 1], longest[k]);
      assert Within(cfg, entries, cuts[k - 1], cuts[k]);
      if cuts[k] > longest[k] {
        WithinPart(cfg, entries, cuts[k - 1], longest[k - 1], longest[k] + 1, cuts[k]);
      }
    }
  }

  lemma CutInside(cfg: Config, entries: seq<Entry>, longest: seq<nat>, k: nat)
    requires LongestCuts(cfg, entries, longest) && k < |longest| - 1
    ensures longest[k] < |entries|
  {
    assert Longest(cfg, entries, longest[k], longest[k + 1]);
  }

  /** No way of cutting the entries into consecutive allowed calls uses fewer of them. */
  lemma GreedyIsOptimal(cfg: Config, entries: seq<Entry>, longest: seq<nat>, cuts: seq<nat>)
    requires LongestCuts(cfg, entries, longest) && Cuts(cfg, entries, cuts)
    ensures |longest| <= |cuts|
  {
    if |longest| > |cuts| {
      var k := |cuts| - 1;
      CutInside(cfg, entries, longest, k);
      GreedyLeads(cfg, entries, longest, cuts, k);
    }
  }

  /** The cut points of a flush. */
  ghost function CutPoints(chunks: seq<Chunk>): seq<nat> {
    [0] + Map(chunks, (c: Chunk) => c.hi)
  }

  lemma FlushIsOptimal(service: Service, calls: seq<seq<Entry>>, cfg: Config, entries: seq<Entry>, chunks: seq<Chunk>,
                       at: nat, cuts: seq<nat>)
    requires forall k :: 0 <= k < |chunks| ==> ChunkOk(service, calls, cfg, entries, chunks[k])
    requires Consecutive(chunks, at) && Cuts(cfg, entries, cuts)
    ensures |chunks| <= |cuts| - 1
  {
    var longest := CutPoints(chunks);
    forall k | 0 <= k < |longest| - 1
      ensures Longest(cfg, entries, longest[k], longest[k + 1])
    {
      assert ChunkOk(service, calls, cfg, entries, chunks[k]);
      if k > 0 {
        assert Follows(chunks[k - 1], chunks[k]);
      }
    }
    GreedyIsOptimal(cfg, entries, longest, cuts);
  }

  // ------------------------------------------------------------ what a successful flush delivers

  predicate InChunk(c: Chunk, e: nat) {
    c.lo <= e < c.hi
  }

  /** Chunks in order: nonempty, and each starting where the one before ends. */
  ghost predicate Tiling(chunks: seq<Chunk>) {
    && (forall k :: 0 <= k < |chunks| ==> chunks[k].lo < chunks[k].hi)
    && (chunks != [] ==> chunks[0].lo == 0)
    && (forall k :: 0 <= k < |chunks| - 1 ==> chunks[k + 1].lo == chunks[k].hi)
  }

  lemma {:induction false} TileOf(chunks: seq<Chunk>, e: nat) returns (c: nat)
    requires Tiling(chunks) && e < EndOf(chunks)
    ensures c < |chunks| && InChunk(chunks[c], e)
    ensures forall d :: 0 <= d < |chunks| && d != c ==> !InChunk(chunks[d], e)
  {
    var n := |chunks| - 1;
    TilesAscend(chunks, n);
    if e >= chunks[n].lo {
      c := n;
    } else {
      var front := chunks[..n];
      assert EndOf(front) == chunks[n].lo;
      c := TileOf(front, e);
      forall d | 0 <= d < |chunks| && d != c
        ensures !InChunk(chunks[d], e)
      {
        if d < n {
          assert front[d] == chunks[d];
        }
      }
    }
  }

  lemma {:induction false} TilesAscend(chunks: seq<Chunk>, n: nat)
    requires Tiling(chunks) && n < |chunks|
    ensures forall d :: 0 <= d < n ==> chunks[d].hi <= chunks[n].lo
  {
    if n > 0 {
      TilesAscend(chunks, n - 1);
      assert chunks[n - 1 + 1].lo == chunks[n - 1].hi;
    }
  }

  ghost predicate AckedOnce(rounds: seq<Round>, i: nat) {
    exists m :: 0 <= m < |rounds| && AckedOnlyIn(rounds, m, i)
  }

  /** Entry `e` was acknowledged in exactly one round of exactly one chunk. */
  ghost predicate DeliveredOnce(chunks: seq<Chunk>, e: nat) {
    exists c :: 0 <= c < |chunks| && OnlyInChunk(chunks, c, e) && AckedOnce(chunks[c].rounds, e - chunks[c].lo)
  }

  ghost predicate OnlyInChunk(chunks: seq<Chunk>, c: nat, e: nat)
    requires c < |chunks|
  {
    InChunk(chunks[c], e) && forall d :: 0 <= d < |chunks| && d != c ==> !InChunk(chunks[d], e)
  }

  ghost predicate TruthfulService(oracle: Service) {
    forall k: nat, rs: seq<Entry> :: Truthful(oracle(k, rs))
  }

  lemma ChunkSettled(service: Service, calls: seq<seq<Entry>>, cfg: Config, entries: seq<Entry>, chunks: seq<Chunk>, at: nat, c: nat)
    requires forall k :: 0 <= k < |chunks| ==> ChunkOk(service, calls, cfg, entries, chunks[k])
    requires Consecutive(chunks, at) && LastSettled(chunks) && c < |chunks|
    requires TruthfulService(service)
    ensures chunks[c].lo < chunks[c].hi && Settled(chunks[c].rounds) && chunks[c].rounds != []
    ensures Retries(chunks[c].hi - chunks[c].lo, chunks[c].rounds)
    ensures forall j :: 0 <= j < |chunks[c].rounds| ==> Truthful(chunks[c].rounds[j].reply)
  {
    assert ChunkOk(service, calls, cfg, entries, chunks[c]);
    if c < |chunks| - 1 {
      assert Follows(chunks[c], chunks[c + 1]);
    }
  }

  lemma ChunksTile(service: Service, calls: seq<seq<Entry>>, cfg: Config, entries: seq<Entry>, chunks: seq<Chunk>, at: nat)
    requires forall k :: 0 <= k < |chunks| ==> ChunkOk(service, calls, cfg, entries, chunks[k])
    requires Consecutive(chunks, at)
    ensures Tiling(chunks)
  {
    forall k | 0 <= k < |chunks|
      ensures chunks[k].lo < chunks[k].hi && (k < |chunks| - 1 ==> chunks[k + 1].lo == chunks[k].hi)
    {
      assert ChunkOk(service, calls, cfg, entries, chunks[k]);
      if k < |chunks| - 1 {
        assert Follows(chunks[k], chunks[k + 1]);
      }
    }
  }

  lemma ChunkDelivers(chunks: seq<Chunk>, c: nat, e: nat)
    requires c < |chunks| && OnlyInChunk(chunks, c, e)
    requires Settled(chunks[c].rounds) && chunks[c].rounds != [] && Retries(chunks[c].hi - chunks[c].lo, chunks[c].rounds)
    requires forall j :: 0 <= j < |chunks[c].rounds| ==> Truthful(chunks[c].rounds[j].reply)
    ensures DeliveredOnce(chunks, e)
  {
    AckedExactlyOnce(chunks[c].hi - chunks[c].lo, chunks[c].rounds, e - chunks[c].lo);
    assert AckedOnce(chunks[c].rounds, e - chunks[c].lo);
  }

  /** A flush that reports success has had every entry acknowledged exactly once. */
  lemma FlushDelivers(service: Service, calls: seq<seq<Entry>>, cfg: Config, entries: seq<Entry>, chunks: seq<Chunk>, at: nat, e: nat)
    requires forall k :: 0 <= k < |chunks| ==> ChunkOk(service, calls, cfg, entries, chunks[k])
    requires Consecutive(chunks, at) && LastSettled(chunks)
    requires EndOf(chunks) == |entries| && e < |entries| && TruthfulService(service)
    ensures DeliveredOnce(chunks, e)
  {
    ChunksTile(service, calls, cfg, entries, chunks, at);
    var c := TileOf(chunks, e);
    ChunkSettled(service, calls, cfg, entries, chunks, at, c);
    ChunkDelivers(chunks, c, e);
  }
}
