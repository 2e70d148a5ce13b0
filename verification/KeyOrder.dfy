/** When records of one partition key arrive in order (the promise of PartitionKeyConfig in
    exporter/awskinesisexporter/config.go), over every answer the service may give: for one
    putRecords call, and for a flush cut into many. */
module KeyOrder {
  import opened Sequences
  import opened Config
  import opened Record
  import opened Chunking

  /** No two of these records share a key. */
  ghost predicate OwnKeys(records: seq<Entry>) {
    forall i, j :: 0 <= i < j < |records| ==> records[i].key != records[j].key
  }

  ghost predicate InOrder(records: seq<Entry>, places: seq<nat>) {
    InRange(places, |records|) && KeyOrdered(records, places)
  }

  // ------------------------------------------------------------ one call with its retries

  /** What putRecords may go through over `n` records, to success or failure. */
  ghost predicate Attempts(n: nat, rounds: seq<Round>) {
    && Retries(n, rounds) && |rounds| <= MAX_PUT_ATTEMPTS
    && forall k :: 0 <= k < |rounds| ==> Truthful(rounds[k].reply)
  }

  /** Rounds each of which carries what failed in the one before. */
  ghost predicate Chained(n: nat, rounds: seq<Round>) {
    && (forall k :: 0 <= k < |rounds| ==> WellShaped(rounds[k]) && Ascending(rounds[k].sent) && InRange(rounds[k].sent, n))
    && (forall k :: 0 <= k < |rounds| - 1 ==> rounds[k].reply.Replied? && rounds[k + 1].sent == Failing(rounds[k]))
  }

  lemma RetriesChained(n: nat, rounds: seq<Round>)
    requires Retries(n, rounds)
    ensures Chained(n, rounds)
  {
    forall k | 0 <= k < |rounds|
      ensures Ascending(rounds[k].sent) && InRange(rounds[k].sent, n)
    {
      SentAscending(n, rounds, k);
    }
  }

  lemma ChainedTail(n: nat, rounds: seq<Round>)
    requires Chained(n, rounds) && rounds != []
    ensures Chained(n, rounds[1..])
  {
  }

  lemma AckedWithin(r: Round, i: nat)
    requires WellShaped(r) && Ascending(r.sent)
    ensures i in Acked(r) ==> i in r.sent && i !in Failing(r)
    ensures i in Failing(r) ==> i in r.sent
    ensures Distinct(Acked(r))
  {
    if r.reply.Replied? {
      SiftSplits(r.sent, r.reply.codes, i);
      SiftMember(r.sent, r.reply.codes, false, i);
    }
  }

  lemma {:induction false} ArrivalWithin(n: nat, rounds: seq<Round>, i: nat)
    requires Chained(n, rounds) && rounds != [] && i in Arrival(rounds)
    ensures i in rounds[0].sent
    decreases |rounds|
  {
    AckedWithin(rounds[0], i);
    if |rounds| > 1 {
      if i in Arrival(rounds[1..]) {
        ChainedTail(n, rounds);
        ArrivalWithin(n, rounds[1..], i);
      }
    } else {
      assert Arrival(rounds[1..]) == [];
    }
  }

  /** No record arrives twice. */
  lemma {:induction false} ArrivalDistinct(n: nat, rounds: seq<Round>)
    requires Chained(n, rounds)
    ensures Distinct(Arrival(rounds)) && InRange(Arrival(rounds), n)
    decreases |rounds|
  {
    if rounds != [] {
      var first, later := Acked(rounds[0]), Arrival(rounds[1..]);
      ChainedTail(n, rounds);
      ArrivalDistinct(n, rounds[1..]);
      AckedWithin(rounds[0], 0);
      AckedInRange(n, rounds[0]);
      assert |rounds| == 1 ==> rounds[1..] == [];
      forall i | i in first
        ensures i !in later
      {
        AckedWithin(rounds[0], i);
        if i in later {
          ArrivalWithin(n, rounds[1..], i);
        }
      }
      DistinctConcat(first, later);
    }
  }

  lemma DistinctConcat(a: seq<nat>, b: seq<nat>)
    requires Distinct(a) && Distinct(b) && forall i :: i in a ==> i !in b
    ensures Distinct(a + b)
  {
    forall p, q | 0 <= p < q < |a + b|
      ensures (a + b)[p] != (a + b)[q]
    {
      if p < |a| <= q {
        assert a[p] in a && b[q - |a|] in b;
      }
    }
  }

  /** Records that share no key arrive in order trivially: each comes once. */
  lemma OwnKeysInOrder(records: seq<Entry>, rounds: seq<Round>)
    requires OwnKeys(records) && Retries(|records|, rounds)
    ensures InOrder(records, Arrival(rounds))
  {
    RetriesChained(|records|, rounds);
    ArrivalDistinct(|records|, rounds);
    var places := Arrival(rounds);
    forall p, q | 0 <= p < q < |places| && records[places[p]].key == records[places[q]].key
      ensures places[p] < places[q]
    {
      assert places[p] != places[q];
    }
  }

  // ------------------------------------------------------------ the reply that reorders

  const THROTTLED := Some("ProvisionedThroughputExceededException")

  /** Record `i` of `n` throttled, the others accepted. */
  function FailAt(n: nat, i: nat): (codes: seq<Option<string>>)
    ensures |codes| == n && forall p :: 0 <= p < n ==> codes[p].Some? == (p == i)
  {
    seq(n, p => if p == i then THROTTLED else None)
  }

  function NoFailure(n: nat): (codes: seq<Option<string>>)
    ensures |codes| == n && forall p :: 0 <= p < n ==> codes[p].None?
  {
    seq(n, p => None)
  }

  /** Two calls: record `i` throttled in the first, accepted in the second. */
  function Straggler(n: nat, i: nat): seq<Round> {
    [Round(UpTo(n), Replied(Some(1), FailAt(n, i))), Round([i], Replied(Some(0), NoFailure(1)))]
  }

  lemma {:induction false} SiftFailAt(n: nat, i: nat)
    ensures Sift(UpTo(n), FailAt(n, i), true) == if i < n then [i] else []
  {
    if n > 0 {
      assert UpTo(n)[..n - 1] == UpTo(n - 1) && FailAt(n, i)[..n - 1] == FailAt(n - 1, i);
      SiftFailAt(n - 1, i);
    }
  }

  lemma SiftOne(i: nat)
    ensures Sift([i], NoFailure(1), true) == [] && Sift([i], NoFailure(1), false) == [i]
  {
    assert [i][..0] == [] && NoFailure(1)[..0] == [];
  }

  lemma StragglerRounds(n: nat, i: nat)
    requires i < n
    ensures Attempts(n, Straggler(n, i)) && Settled(Straggler(n, i))
    ensures Arrival(Straggler(n, i)) == Acked(Straggler(n, i)[0]) + [i]
  {
    var rounds := Straggler(n, i);
    SiftFailAt(n, i);
    SiftOne(i);
    assert rounds[1..] == [rounds[1]] && [rounds[1]][1..] == [];
    assert Arrival([rounds[1]]) == [i];
  }

  /** A partial failure can put any two records of one key out of order: the first is throttled, the
      others go through, the first follows, and the call is reported a success. */
  lemma PartialFailureReorders(records: seq<Entry>, i: nat, j: nat)
    requires i < j < |records| && records[i].key == records[j].key
    ensures Attempts(|records|, Straggler(|records|, i)) && Settled(Straggler(|records|, i))
    ensures !InOrder(records, Arrival(Straggler(|records|, i)))
  {
    var rounds := Straggler(|records|, i);
    StragglerRounds(|records|, i);
    var early := Acked(rounds[0]);
    SiftMember(rounds[0].sent, rounds[0].reply.codes, false, j);
    assert rounds[0].sent[j] == j && rounds[0].reply.codes[j].Some? == false;
    var p :| 0 <= p < |early| && early[p] == j;
    assert Arrival(rounds)[p] == j && Arrival(rounds)[|early|] == i;
  }

  /** Whatever a truthful service answers, the records of one putRecords call arrive in order key by
      key, in every run: exactly when no two of them share a key. */
  lemma OneCallIff(records: seq<Entry>)
    ensures (forall rounds :: Attempts(|records|, rounds) ==> InOrder(records, Arrival(rounds))) <==> OwnKeys(records)
  {
    if OwnKeys(records) {
      forall rounds | Attempts(|records|, rounds)
        ensures InOrder(records, Arrival(rounds))
      {
        OwnKeysInOrder(records, rounds);
      }
    } else {
      var i, j :| 0 <= i < j < |records| && records[i].key == records[j].key;
      PartialFailureReorders(records, i, j);
    }
  }

  // ------------------------------------------------------------ a whole flush

  /** Places of a chunk as places of the entries. */
  function Shift(places: seq<nat>, lo: nat): (r: seq<nat>)
    ensures |r| == |places| && forall p :: 0 <= p < |r| ==> r[p] == places[p] + lo
  {
    seq(|places|, p requires 0 <= p < |places| => places[p] + lo)
  }

  /** The entries in the order in which a flush had them acknowledged. */
  function FlushArrival(chunks: seq<Chunk>): seq<nat> {
    if chunks == [] then []
    else
      var c := chunks[|chunks| - 1];
      FlushArrival(chunks[..|chunks| - 1]) + Shift(Arrival(c.rounds), c.lo)
  }

  lemma ShiftOrder(entries: seq<Entry>, lo: nat, hi: nat, places: seq<nat>)
    requires lo <= hi <= |entries| && InRange(places, hi - lo)
    ensures InRange(Shift(places, lo), hi)
    ensures KeyOrdered(entries, Shift(places, lo)) <==> KeyOrdered(entries[lo..hi], places)
  {
    var part, shifted := entries[lo..hi], Shift(places, lo);
    assert forall p :: 0 <= p < |places| ==> part[places[p]] == entries[shifted[p]];
    if KeyOrdered(entries, shifted) {
      forall p, q | 0 <= p < q < |places| && part[places[p]].key == part[places[q]].key
        ensures places[p] < places[q]
      {
        assert entries[shifted[p]].key == entries[shifted[q]].key;
      }
    }
  }

  lemma EarlierChunksBefore(entries: seq<Entry>, a: seq<nat>, b: seq<nat>, lo: nat)
    requires InRange(a, |entries|) && InRange(b, |entries|) && InRange(a, lo) && forall p :: 0 <= p < |b| ==> b[p] >= lo
    ensures AllBefore(entries, a, b)
  {
  }

  /** Chunk `c` of these entries was sent as `putRecords` sends it. */
  ghost predicate Sound(entries: seq<Entry>, c: Chunk) {
    c.lo <= c.hi <= |entries| && Retries(c.hi - c.lo, c.rounds)
  }

  ghost predicate ChunkInOrder(entries: seq<Entry>, c: Chunk) {
    c.lo <= c.hi <= |entries| && InOrder(entries[c.lo..c.hi], Arrival(c.rounds))
  }

  lemma ChunkArrival(entries: seq<Entry>, c: Chunk)
    requires Sound(entries, c)
    ensures InRange(Arrival(c.rounds), c.hi - c.lo)
  {
    RetriesChained(c.hi - c.lo, c.rounds);
    ArrivalDistinct(c.hi - c.lo, c.rounds);
  }

  /** One more chunk behind what arrived so far. */
  lemma ArrivalStep(entries: seq<Entry>, before: seq<nat>, c: Chunk)
    requires Sound(entries, c) && InRange(before, c.lo)
    ensures InRange(before + Shift(Arrival(c.rounds), c.lo), c.hi)
    ensures InOrder(entries, before + Shift(Arrival(c.rounds), c.lo)) <==> InOrder(entries, before) && ChunkInOrder(entries, c)
  {
    ChunkArrival(entries, c);
    var mine := Shift(Arrival(c.rounds), c.lo);
    ShiftOrder(entries, c.lo, c.hi, Arrival(c.rounds));
    EarlierChunksBefore(entries, before, mine, c.lo);
    KeyOrderedConcat(entries, before, mine);
  }

  /** Chunks of these entries in order, each sent as putRecords sends it. */
  ghost predicate AllSound(entries: seq<Entry>, chunks: seq<Chunk>) {
    Tiling(chunks) && forall k :: 0 <= k < |chunks| ==> Sound(entries, chunks[k])
  }

  ghost predicate EachInOrder(entries: seq<Entry>, chunks: seq<Chunk>) {
    forall k :: 0 <= k < |chunks| ==> ChunkInOrder(entries, chunks[k])
  }

  /** A flush keeps the order of every key exactly when each of its chunks does: chunks never
      overtake one another. */
  lemma {:induction false} FlushOrderByChunk(entries: seq<Entry>, chunks: seq<Chunk>)
    requires AllSound(entries, chunks)
    ensures InRange(FlushArrival(chunks), EndOf(chunks)) && EndOf(chunks) <= |entries|
    ensures InOrder(entries, FlushArrival(chunks)) <==> EachInOrder(entries, chunks)
  {
    if chunks != [] {
      var front, c := chunks[..|chunks| - 1], chunks[|chunks| - 1];
      FrontEnd(chunks);
      FlushOrderByChunk(entries, front);
      ArrivalStep(entries, FlushArrival(front), c);
      LastChunk(entries, chunks);
    }
  }

  lemma FrontEnd(chunks: seq<Chunk>)
    requires Tiling(chunks) && chunks != []
    ensures EndOf(chunks[..|chunks| - 1]) == chunks[|chunks| - 1].lo && Tiling(chunks[..|chunks| - 1])
  {
    if |chunks| > 1 {
      assert chunks[|chunks| - 2 + 1].lo == chunks[|chunks| - 2].hi;
    }
  }

  lemma LastChunk(entries: seq<Entry>, chunks: seq<Chunk>)
    requires chunks != []
    ensures EachInOrder(entries, chunks) <==>
      EachInOrder(entries, chunks[..|chunks| - 1]) && ChunkInOrder(entries, chunks[|chunks| - 1])
  {
    var n := |chunks| - 1;
    if EachInOrder(entries, chunks[..n]) && ChunkInOrder(entries, chunks[n]) {
      forall k | 0 <= k <= n ensures ChunkInOrder(entries, chunks[k]) {
        if k < n {
          assert chunks[..n][k] == chunks[k];
        }
      }
    }
  }

  ghost predicate AllLongest(cfg: Config, entries: seq<Entry>, chunks: seq<Chunk>) {
    forall k :: 0 <= k < |chunks| ==> Longest(cfg, entries, chunks[k].lo, chunks[k].hi)
  }

  lemma RunIsSound(service: Service, calls: seq<seq<Entry>>, cfg: Config, entries: seq<Entry>, chunks: seq<Chunk>, at: nat)
    requires FlushRun(service, calls, cfg, entries, chunks, at)
    ensures AllSound(entries, chunks) && AllLongest(cfg, entries, chunks)
  {
    ChunksTile(service, calls, cfg, entries, chunks, at);
    forall k | 0 <= k < |chunks|
      ensures Sound(entries, chunks[k]) && Longest(cfg, entries, chunks[k].lo, chunks[k].hi)
    {
      assert ChunkOk(service, calls, cfg, entries, chunks[k]);
    }
  }

  ghost predicate ChunkNotOvertaken(entries: seq<Entry>, c: Chunk) {
    c.lo <= c.hi <= |entries| && NeverOvertaken(entries[c.lo..c.hi], c.rounds)
  }

  lemma ChunkOvertakenIff(entries: seq<Entry>, c: Chunk)
    requires Sound(entries, c) && c.rounds != [] && Settled(c.rounds)
    requires forall k :: 0 <= k < |c.rounds| ==> Truthful(c.rounds[k].reply)
    ensures ChunkInOrder(entries, c) <==> ChunkNotOvertaken(entries, c)
  {
    RetriesIsSuffix(c.hi - c.lo, c.rounds);
    OrderKeptIff(entries[c.lo..c.hi], c.rounds);
  }

  /** In a successful flush against a truthful service, records of one key arrived in order exactly
      when no reply refused a record while accepting a later one of its key. */
  lemma FlushOvertakenIff(service: Service, calls: seq<seq<Entry>>, cfg: Config, entries: seq<Entry>, chunks: seq<Chunk>, at: nat)
    requires FlushRun(service, calls, cfg, entries, chunks, at) && LastSettled(chunks) && TruthfulService(service)
    ensures InOrder(entries, FlushArrival(chunks)) <==>
      forall k :: 0 <= k < |chunks| ==> ChunkNotOvertaken(entries, chunks[k])
  {
    RunIsSound(service, calls, cfg, entries, chunks, at);
    FlushOrderByChunk(entries, chunks);
    forall k | 0 <= k < |chunks|
      ensures ChunkInOrder(entries, chunks[k]) <==> ChunkNotOvertaken(entries, chunks[k])
    {
      ChunkSettled(service, calls, cfg, entries, chunks, at, k);
      assert Sound(entries, chunks[k]);
      ChunkOvertakenIff(entries, chunks[k]);
    }
  }

  // ------------------------------------------------------------ where a flush cuts

  /** The end of the longest chunk from `lo`, when everything up to `hi` goes in. */
  function GrowChunk(cfg: Config, entries: seq<Entry>, lo: nat, hi: nat): (end: nat)
    requires Within(cfg, entries, lo, hi)
    ensures Longest(cfg, entries, lo, end)
    decreases |entries| - hi
  {
    if Within(cfg, entries, lo, hi + 1) then GrowChunk(cfg, entries, lo, hi + 1) else hi
  }

  /** The end of chunk number `k - 1`, which is where chunk number `k` begins: a flush always cuts at
      the same places, whatever the service answers. */
  function Boundary(cfg: Config, entries: seq<Entry>, k: nat): (b: nat)
    requires cfg.maxRecords >= 1
    ensures b <= |entries|
  {
    if k == 0 then 0
    else
      var lo := Boundary(cfg, entries, k - 1);
      if lo < |entries| then GrowChunk(cfg, entries, lo, lo + 1) else lo
  }

  /** No two records that go out in one call share a key. */
  ghost predicate EachCallOwnKeys(cfg: Config, entries: seq<Entry>)
    requires cfg.maxRecords >= 1
  {
    forall k: nat :: OwnKeys(CallRecords(cfg, entries, k))
  }

  /** The records of chunk number `k`. */
  function CallRecords(cfg: Config, entries: seq<Entry>, k: nat): seq<Entry>
    requires cfg.maxRecords >= 1
  {
    assert Boundary(cfg, entries, k) <= Boundary(cfg, entries, k + 1);
    entries[Boundary(cfg, entries, k)..Boundary(cfg, entries, k + 1)]
  }

  lemma LongestUnique(cfg: Config, entries: seq<Entry>, lo: nat, a: nat, b: nat)
    requires Longest(cfg, entries, lo, a) && Longest(cfg, entries, lo, b)
    ensures a == b
  {
    if a < b {
      WithinPart(cfg, entries, lo, lo, a + 1, b);
    } else if b < a {
      WithinPart(cfg, entries, lo, lo, b + 1, a);
    }
  }

  lemma BoundaryStep(cfg: Config, entries: seq<Entry>, k: nat)
    requires cfg.maxRecords >= 1
    ensures Boundary(cfg, entries, k) <= Boundary(cfg, entries, k + 1)
    ensures Boundary(cfg, entries, k) < |entries| ==> Longest(cfg, entries, Boundary(cfg, entries, k), Boundary(cfg, entries, k + 1))
  {
  }

  lemma ChunkEnd(cfg: Config, entries: seq<Entry>, lo: nat, hi: nat, k: nat)
    requires cfg.maxRecords >= 1 && lo == Boundary(cfg, entries, k) && Longest(cfg, entries, lo, hi)
    ensures hi == Boundary(cfg, entries, k + 1)
  {
    BoundaryStep(cfg, entries, k);
    LongestUnique(cfg, entries, lo, hi, Boundary(cfg, entries, k + 1));
  }

  lemma {:induction false} ChunkPlaces(cfg: Config, entries: seq<Entry>, chunks: seq<Chunk>, k: nat)
    requires cfg.maxRecords >= 1 && Tiling(chunks) && AllLongest(cfg, entries, chunks) && k < |chunks|
    ensures chunks[k].lo == Boundary(cfg, entries, k) && chunks[k].hi == Boundary(cfg, entries, k + 1)
  {
    if k > 0 {
      ChunkPlaces(cfg, entries, chunks, k - 1);
      assert chunks[k - 1 + 1].lo == chunks[k - 1].hi;
    }
    ChunkEnd(cfg, entries, chunks[k].lo, chunks[k].hi, k);
  }

  /** When no call carries a key twice, every run of the flush keeps the order of every key, complete
      or broken off, whatever the service answers. */
  lemma FlushInOrder(service: Service, calls: seq<seq<Entry>>, cfg: Config, entries: seq<Entry>, chunks: seq<Chunk>, at: nat)
    requires FlushRun(service, calls, cfg, entries, chunks, at) && cfg.maxRecords >= 1 && EachCallOwnKeys(cfg, entries)
    ensures InOrder(entries, FlushArrival(chunks))
  {
    RunIsSound(service, calls, cfg, entries, chunks, at);
    FlushOrderByChunk(entries, chunks);
    forall k | 0 <= k < |chunks| ensures ChunkInOrder(entries, chunks[k]) {
      ChunkPlaces(cfg, entries, chunks, k);
      assert Sound(entries, chunks[k]);
      assert OwnKeys(CallRecords(cfg, entries, k));
      OwnKeysInOrder(entries[chunks[k].lo..chunks[k].hi], chunks[k].rounds);
    }
  }

  // ------------------------------------------------------------ the service that reorders

  function ThrottledAnswer(bad: nat, i: nat, k: nat, n: nat): (reply: Reply)
    ensures reply.Replied? && |reply.codes| == n && Truthful(reply)
  {
    if k == bad then Replied(Some(1), FailAt(n, i)) else Replied(Some(0), NoFailure(n))
  }

  /** Throttles record `i` of call number `bad`, and nothing else. */
  function ThrottleOnce(bad: nat, i: nat): Service {
    (k: nat, rs: seq<Entry>) => ThrottledAnswer(bad, i, k, |rs|)
  }

  /** Chunk number `k` against that service. */
  function ThrottledChunk(cfg: Config, entries: seq<Entry>, bad: nat, i: nat, k: nat): Chunk
    requires cfg.maxRecords >= 1
  {
    var lo, hi := Boundary(cfg, entries, k), Boundary(cfg, entries, k + 1);
    var n := |CallRecords(cfg, entries, k)|;
    Chunk(lo, hi, if k == bad then Straggler(n, i) else [Round(UpTo(n), Replied(Some(0), NoFailure(n)))],
          if k <= bad then k else k + 1)
  }

  /** The calls the first `m` chunks make: one each, and one more for the straggler. */
  function ThrottledCalls(cfg: Config, entries: seq<Entry>, bad: nat, i: nat, m: nat): (calls: seq<seq<Entry>>)
    requires cfg.maxRecords >= 1 && i < |CallRecords(cfg, entries, bad)|
    ensures |calls| == if m <= bad then m else m + 1
  {
    if m == 0 then []
    else
      var k := m - 1;
      ThrottledCalls(cfg, entries, bad, i, k) + [CallRecords(cfg, entries, k)]
      + if k == bad then [[CallRecords(cfg, entries, bad)[i]]] else []
  }

  function ThrottledChunks(cfg: Config, entries: seq<Entry>, bad: nat, i: nat, m: nat): (chunks: seq<Chunk>)
    requires cfg.maxRecords >= 1
    ensures |chunks| == m && forall k :: 0 <= k < m ==> chunks[k] == ThrottledChunk(cfg, entries, bad, i, k)
  {
    seq(m, k requires 0 <= k < m => ThrottledChunk(cfg, entries, bad, i, k))
  }

  lemma OneCallCarried(calls: seq<seq<Entry>>, records: seq<Entry>, bad: nat, i: nat)
    requires |calls| != bad
    ensures Carried(ThrottleOnce(bad, i), calls + [records], |calls|, records,
                    [Round(UpTo(|records|), Replied(Some(0), NoFailure(|records|)))])
  {
    PickAll(records);
  }

  lemma StragglerCarried(calls: seq<seq<Entry>>, records: seq<Entry>, i: nat)
    requires i < |records|
    ensures Carried(ThrottleOnce(|calls|, i), calls + [records] + [[records[i]]], |calls|, records, Straggler(|records|, i))
  {
    var service, rounds := ThrottleOnce(|calls|, i), Straggler(|records|, i);
    var all := calls + [records] + [[records[i]]];
    PickAll(records);
    assert Pick(records, [i]) == [records[i]];
    assert all[|calls|] == records && all[|calls| + 1] == [records[i]];
    assert service(|calls|, records) == rounds[0].reply && service(|calls| + 1, [records[i]]) == rounds[1].reply;
  }

  lemma Unthrottled(n: nat)
    ensures Attempts(n, [Round(UpTo(n), Replied(Some(0), NoFailure(n)))])
    ensures Settled([Round(UpTo(n), Replied(Some(0), NoFailure(n)))])
  {
  }

  lemma CallsStep(cfg: Config, entries: seq<Entry>, bad: nat, i: nat, k: nat)
    requires cfg.maxRecords >= 1 && i < |CallRecords(cfg, entries, bad)|
    ensures ThrottledCalls(cfg, entries, bad, i, k + 1)
      == if k == bad then ThrottledCalls(cfg, entries, bad, i, k) + [CallRecords(cfg, entries, k)] + [[CallRecords(cfg, entries, k)[i]]]
         else ThrottledCalls(cfg, entries, bad, i, k) + [CallRecords(cfg, entries, k)]
  {
  }

  lemma CallsGrowBy(cfg: Config, entries: seq<Entry>, bad: nat, i: nat, k: nat)
    requires cfg.maxRecords >= 1 && i < |CallRecords(cfg, entries, bad)|
    ensures ThrottledCalls(cfg, entries, bad, i, k) <= ThrottledCalls(cfg, entries, bad, i, k + 1)
  {
    CallsStep(cfg, entries, bad, i, k);
  }

  lemma {:induction false} CallsPrefix(cfg: Config, entries: seq<Entry>, bad: nat, i: nat, k: nat, m: nat)
    requires cfg.maxRecords >= 1 && i < |CallRecords(cfg, entries, bad)| && k <= m
    ensures ThrottledCalls(cfg, entries, bad, i, k) <= ThrottledCalls(cfg, entries, bad, i, m)
  {
    if k < m {
      CallsPrefix(cfg, entries, bad, i, k, m - 1);
      CallsGrowBy(cfg, entries, bad, i, m - 1);
      PrefixTransitive(ThrottledCalls(cfg, entries, bad, i, k), ThrottledCalls(cfg, entries, bad, i, m - 1),
                       ThrottledCalls(cfg, entries, bad, i, m));
    }
  }

  lemma PrefixTransitive(a: seq<seq<Entry>>, b: seq<seq<Entry>>, c: seq<seq<Entry>>)
    requires a <= b && b <= c
    ensures a <= c
  {
  }

  lemma BadRounds(cfg: Config, entries: seq<Entry>, bad: nat, i: nat)
    requires cfg.maxRecords >= 1 && i < |CallRecords(cfg, entries, bad)|
    ensures var records := CallRecords(cfg, entries, bad);
      Carried(ThrottleOnce(bad, i), ThrottledCalls(cfg, entries, bad, i, bad + 1), bad, records, Straggler(|records|, i))
  {
    StragglerCarried(ThrottledCalls(cfg, entries, bad, i, bad), CallRecords(cfg, entries, bad), i);
    CallsStep(cfg, entries, bad, i, bad);
  }

  lemma GoodRounds(cfg: Config, entries: seq<Entry>, bad: nat, i: nat, k: nat)
    requires cfg.maxRecords >= 1 && i < |CallRecords(cfg, entries, bad)| && k != bad
    ensures var records := CallRecords(cfg, entries, k);
      Carried(ThrottleOnce(bad, i), ThrottledCalls(cfg, entries, bad, i, k + 1), if k <= bad then k else k + 1, records,
              [Round(UpTo(|records|), Replied(Some(0), NoFailure(|records|)))])
  {
    OneCallCarried(ThrottledCalls(cfg, entries, bad, i, k), CallRecords(cfg, entries, k), bad, i);
    CallsStep(cfg, entries, bad, i, k);
  }

  lemma ThrottledRounds(cfg: Config, entries: seq<Entry>, bad: nat, i: nat, k: nat)
    requires cfg.maxRecords >= 1 && i < |CallRecords(cfg, entries, bad)|
    ensures var n, c := |CallRecords(cfg, entries, k)|, ThrottledChunk(cfg, entries, bad, i, k);
      Attempts(n, c.rounds) && Settled(c.rounds) && c.rounds != []
    ensures var c := ThrottledChunk(cfg, entries, bad, i, k);
      Carried(ThrottleOnce(bad, i), ThrottledCalls(cfg, entries, bad, i, k + 1), c.at, CallRecords(cfg, entries, k), c.rounds)
  {
    var n := |CallRecords(cfg, entries, k)|;
    if k == bad {
      StragglerRounds(n, i);
      BadRounds(cfg, entries, bad, i);
    } else {
      Unthrottled(n);
      GoodRounds(cfg, entries, bad, i, k);
    }
  }

  lemma ChunkOkOf(service: Service, calls: seq<seq<Entry>>, now: seq<seq<Entry>>, cfg: Config, entries: seq<Entry>, c: Chunk)
    requires Longest(cfg, entries, c.lo, c.hi) && Attempts(c.hi - c.lo, c.rounds) && c.rounds != []
    requires now <= calls && Carried(service, now, c.at, entries[c.lo..c.hi], c.rounds)
    ensures ChunkOk(service, calls, cfg, entries, c)
  {
    assert calls[..|now|] == now;
  }

  /** Chunk number `k` is what a flush makes of that service's answers. */
  lemma ThrottledChunkOk(cfg: Config, entries: seq<Entry>, bad: nat, i: nat, k: nat, m: nat)
    requires cfg.maxRecords >= 1 && i < |CallRecords(cfg, entries, bad)| && k < m && Boundary(cfg, entries, k) < |entries|
    ensures ChunkOk(ThrottleOnce(bad, i), ThrottledCalls(cfg, entries, bad, i, m), cfg, entries,
                    ThrottledChunk(cfg, entries, bad, i, k))
    ensures Settled(ThrottledChunk(cfg, entries, bad, i, k).rounds)
  {
    var c := ThrottledChunk(cfg, entries, bad, i, k);
    CallsPrefix(cfg, entries, bad, i, k + 1, m);
    ThrottledRounds(cfg, entries, bad, i, k);
    BoundaryStep(cfg, entries, k);
    assert entries[c.lo..c.hi] == CallRecords(cfg, entries, k);
    ChunkOkOf(ThrottleOnce(bad, i), ThrottledCalls(cfg, entries, bad, i, m), ThrottledCalls(cfg, entries, bad, i, k + 1),
              cfg, entries, c);
  }

  /** How many chunks the entries make. */
  lemma {:induction false} ChunkCount(cfg: Config, entries: seq<Entry>, from: nat) returns (m: nat)
    requires cfg.maxRecords >= 1 && forall k :: 0 <= k < from ==> Boundary(cfg, entries, k) < |entries|
    ensures m >= from && Boundary(cfg, entries, m) == |entries|
    ensures forall k :: 0 <= k < m ==> Boundary(cfg, entries, k) < |entries|
    decreases |entries| - Boundary(cfg, entries, from)
  {
    if Boundary(cfg, entries, from) == |entries| {
      m := from;
    } else {
      m := ChunkCount(cfg, entries, from + 1);
    }
  }

  lemma {:induction false} BoundaryMonotone(cfg: Config, entries: seq<Entry>, k: nat, m: nat)
    requires cfg.maxRecords >= 1 && k <= m
    ensures Boundary(cfg, entries, k) <= Boundary(cfg, entries, m)
  {
    if k < m {
      BoundaryMonotone(cfg, entries, k, m - 1);
    }
  }

  /** A flush of these entries against a service that keeps to the protocol, complete or broken off. */
  ghost predicate AnyFlush(service: Service, calls: seq<seq<Entry>>, cfg: Config, entries: seq<Entry>, chunks: seq<Chunk>, at: nat) {
    Shaped(service) && TruthfulService(service) && FlushRun(service, calls, cfg, entries, chunks, at)
  }

  lemma ThrottledFollows(cfg: Config, entries: seq<Entry>, bad: nat, i: nat, k: nat)
    requires cfg.maxRecords >= 1 && i < |CallRecords(cfg, entries, bad)|
    ensures Follows(ThrottledChunk(cfg, entries, bad, i, k), ThrottledChunk(cfg, entries, bad, i, k + 1))
  {
    ThrottledRounds(cfg, entries, bad, i, k);
  }

  lemma ThrottledRun(cfg: Config, entries: seq<Entry>, bad: nat, i: nat, m: nat)
    requires cfg.maxRecords >= 1 && i < |CallRecords(cfg, entries, bad)| && bad < m
    requires forall k :: 0 <= k < m ==> Boundary(cfg, entries, k) < |entries|
    ensures FlushRun(ThrottleOnce(bad, i), ThrottledCalls(cfg, entries, bad, i, m), cfg, entries,
                     ThrottledChunks(cfg, entries, bad, i, m), 0)
    ensures LastSettled(ThrottledChunks(cfg, entries, bad, i, m))
  {
    var chunks := ThrottledChunks(cfg, entries, bad, i, m);
    forall k | 0 <= k < m
      ensures ChunkOk(ThrottleOnce(bad, i), ThrottledCalls(cfg, entries, bad, i, m), cfg, entries, chunks[k])
    {
      ThrottledChunkOk(cfg, entries, bad, i, k, m);
    }
    ThrottledConsecutive(cfg, entries, bad, i, m);
    ThrottledRounds(cfg, entries, bad, i, m - 1);
  }

  lemma ThrottledConsecutive(cfg: Config, entries: seq<Entry>, bad: nat, i: nat, m: nat)
    requires cfg.maxRecords >= 1 && i < |CallRecords(cfg, entries, bad)|
    ensures Consecutive(ThrottledChunks(cfg, entries, bad, i, m), 0)
  {
    var chunks := ThrottledChunks(cfg, entries, bad, i, m);
    forall k | 0 <= k < m - 1 ensures Follows(chunks[k], chunks[k + 1]) {
      ThrottledFollows(cfg, entries, bad, i, k);
    }
  }

  lemma ThrottledOutOfOrder(cfg: Config, entries: seq<Entry>, bad: nat, i: nat, j: nat, m: nat)
    requires cfg.maxRecords >= 1 && bad < m && i < j < |CallRecords(cfg, entries, bad)|
    requires CallRecords(cfg, entries, bad)[i].key == CallRecords(cfg, entries, bad)[j].key
    requires AllSound(entries, ThrottledChunks(cfg, entries, bad, i, m))
    ensures !InOrder(entries, FlushArrival(ThrottledChunks(cfg, entries, bad, i, m)))
  {
    var chunks := ThrottledChunks(cfg, entries, bad, i, m);
    FlushOrderByChunk(entries, chunks);
    PartialFailureReorders(CallRecords(cfg, entries, bad), i, j);
    assert !ChunkInOrder(entries, chunks[bad]);
  }

  lemma CallInside(cfg: Config, entries: seq<Entry>, bad: nat)
    requires cfg.maxRecords >= 1 && CallRecords(cfg, entries, bad) != []
    ensures forall k :: 0 <= k <= bad ==> Boundary(cfg, entries, k) < |entries|
  {
    forall k | 0 <= k <= bad ensures Boundary(cfg, entries, k) < |entries| {
      BoundaryMonotone(cfg, entries, k, bad);
    }
  }

  lemma ThrottleOnceLawful(bad: nat, i: nat)
    ensures Shaped(ThrottleOnce(bad, i)) && TruthfulService(ThrottleOnce(bad, i))
  {
    var service := ThrottleOnce(bad, i);
    forall k: nat, rs: seq<Entry>
      ensures service(k, rs).Replied? && |service(k, rs).codes| == |rs| && Truthful(service(k, rs))
    {
      assert service(k, rs) == ThrottledAnswer(bad, i, k, |rs|);
    }
  }

  lemma ReorderedRun(cfg: Config, entries: seq<Entry>, bad: nat, i: nat, j: nat, m: nat)
    requires cfg.maxRecords >= 1 && bad < m && i < j < |CallRecords(cfg, entries, bad)|
    requires CallRecords(cfg, entries, bad)[i].key == CallRecords(cfg, entries, bad)[j].key
    requires forall k :: 0 <= k < m ==> Boundary(cfg, entries, k) < |entries|
    ensures AnyFlush(ThrottleOnce(bad, i), ThrottledCalls(cfg, entries, bad, i, m), cfg, entries,
                     ThrottledChunks(cfg, entries, bad, i, m), 0)
    ensures LastSettled(ThrottledChunks(cfg, entries, bad, i, m))
    ensures !InOrder(entries, FlushArrival(ThrottledChunks(cfg, entries, bad, i, m)))
  {
    ThrottleOnceLawful(bad, i);
    ThrottledRun(cfg, entries, bad, i, m);
    RunIsSound(ThrottleOnce(bad, i), ThrottledCalls(cfg, entries, bad, i, m), cfg, entries,
               ThrottledChunks(cfg, entries, bad, i, m), 0);
    ThrottledOutOfOrder(cfg, entries, bad, i, j, m);
  }

  /** Two records of one key in one call, and one throttled reply: the flush succeeds, and has put
      them out of order. */
  lemma FlushReorders(cfg: Config, entries: seq<Entry>, bad: nat)
    returns (service: Service, calls: seq<seq<Entry>>, chunks: seq<Chunk>)
    requires cfg.maxRecords >= 1 && !OwnKeys(CallRecords(cfg, entries, bad))
    ensures AnyFlush(service, calls, cfg, entries, chunks, 0)
    ensures EndOf(chunks) == |entries| && LastSettled(chunks)
    ensures !InOrder(entries, FlushArrival(chunks))
  {
    var i, j :| 0 <= i < j < |CallRecords(cfg, entries, bad)|
      && CallRecords(cfg, entries, bad)[i].key == CallRecords(cfg, entries, bad)[j].key;
    CallInside(cfg, entries, bad);
    var m := ChunkCount(cfg, entries, bad + 1);
    ReorderedRun(cfg, entries, bad, i, j, m);
    service, calls, chunks := ThrottleOnce(bad, i), ThrottledCalls(cfg, entries, bad, i, m), ThrottledChunks(cfg, entries, bad, i, m);
    assert chunks[m - 1].hi == Boundary(cfg, entries, m - 1 + 1);
  }

  /** What an exporter can promise about one flush. Against every service that answers one code a
      record and reports its failures, records of one key arrive in the order given, however the
      flush ends: exactly when no call carries two records of one key. */
  lemma FlushOrderIff(cfg: Config, entries: seq<Entry>)
    requires cfg.maxRecords >= 1
    ensures (forall service: Service, calls, chunks, at :: AnyFlush(service, calls, cfg, entries, chunks, at) ==>
        InOrder(entries, FlushArrival(chunks)))
      <==> EachCallOwnKeys(cfg, entries)
  {
    if EachCallOwnKeys(cfg, entries) {
      forall service: Service, calls, chunks, at | AnyFlush(service, calls, cfg, entries, chunks, at)
        ensures InOrder(entries, FlushArrival(chunks))
      {
        FlushInOrder(service, calls, cfg, entries, chunks, at);
      }
    } else {
      var bad: nat :| !OwnKeys(CallRecords(cfg, entries, bad));
      var service, calls, chunks := FlushReorders(cfg, entries, bad);
      assert AnyFlush(service, calls, cfg, entries, chunks, 0);
    }
  }
}
