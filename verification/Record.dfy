/** Chunked PutRecords calls with in-place retry: exporter/awskinesisexporter/record.go. */
module Record {
  import opened Sequences
  import opened Oversize

  const MAX_PUT_ATTEMPTS := 5

  datatype Entry = Entry(data: Bytes, key: string)
  {
    function Size(): nat { |data| + |key| }
  }

  /** What PutRecords answers: an error, or a failure count with one code a record. */
  datatype Reply = CallFailed | Replied(failedCount: Option<nat>, codes: seq<Option<string>>)

  /** The service: an answer to each call, by its number and the records it carries. */
  type Service = (nat, seq<Entry>) -> Reply

  predicate AllClear(reply: Reply) {
    reply.Replied? && (reply.failedCount.None? || reply.failedCount.value == 0)
  }

  /** A reply has one code a record. */
  ghost predicate Shaped(oracle: Service) {
    forall k: nat, rs: seq<Entry> :: oracle(k, rs).Replied? ==> |oracle(k, rs).codes| == |rs|
  }

  /** A reply that counts no failures carries no failure code. */
  ghost predicate Truthful(reply: Reply) {
    AllClear(reply) ==> forall p :: 0 <= p < |reply.codes| ==> reply.codes[p].None?
  }

  // ------------------------------------------------------------ the retry protocol

  /** One PutRecords call: the places, in the original list, of the records it carried. */
  datatype Round = Round(sent: seq<nat>, reply: Reply)

  ghost predicate WellShaped(r: Round) {
    r.reply.Replied? ==> |r.reply.codes| == |r.sent|
  }

  function Pick(records: seq<Entry>, places: seq<nat>): (out: seq<Entry>)
    requires forall p :: 0 <= p < |places| ==> places[p] < |records|
    ensures |out| == |places|
  {
    seq(|places|, p requires 0 <= p < |places| => records[places[p]])
  }

  /** The places whose code is (not) a failure, in order. */
  function Sift(sent: seq<nat>, codes: seq<Option<string>>, failing: bool): seq<nat>
    requires |codes| == |sent|
  {
    if sent == [] then []
    else
      var n := |sent| - 1;
      Sift(sent[..n], codes[..n], failing) + if codes[n].Some? == failing then [sent[n]] else []
  }

  function Failing(r: Round): seq<nat> {
    if r.reply.CallFailed? || |r.reply.codes| != |r.sent| then [] else Sift(r.sent, r.reply.codes, true)
  }

  function Acked(r: Round): seq<nat> {
    if r.reply.CallFailed? || |r.reply.codes| != |r.sent| then [] else Sift(r.sent, r.reply.codes, false)
  }

  ghost predicate Ascending(places: seq<nat>) {
    forall p, q :: 0 <= p < q < |places| ==> places[p] < places[q]
  }

  function UpTo(n: nat): (r: seq<nat>)
    ensures |r| == n && forall p :: 0 <= p < n ==> r[p] == p
  {
    seq(n, p => p)
  }

  /** A run of rounds: everything first, then each time exactly what failed before. */
  ghost predicate Retries(n: nat, rounds: seq<Round>) {
    && (forall k :: 0 <= k < |rounds| ==> WellShaped(rounds[k]))
    && (rounds != [] ==> rounds[0].sent == UpTo(n))
    && (forall k :: 0 <= k < |rounds| - 1 ==> rounds[k].reply.Replied? && rounds[k + 1].sent == Failing(rounds[k]))
  }

  /** The run ends with a reply that leaves nothing to send. */
  ghost predicate Settled(rounds: seq<Round>) {
    rounds != [] ==> Done(rounds[|rounds| - 1])
  }

  predicate Done(last: Round) {
    last.reply.Replied? && (AllClear(last.reply) || Failing(last) == [])
  }

  lemma {:induction false} SiftMember(sent: seq<nat>, codes: seq<Option<string>>, failing: bool, i: nat)
    requires |codes| == |sent| && Ascending(sent)
    ensures i in Sift(sent, codes, failing) <==> exists p :: 0 <= p < |sent| && sent[p] == i && codes[p].Some? == failing
    ensures Ascending(Sift(sent, codes, failing))
  {
    if sent != [] {
      var n := |sent| - 1;
      SiftMember(sent[..n], codes[..n], failing, i);
      SiftFrom(sent[..n], codes[..n], failing);
      assert Sift(sent, codes, failing) == Sift(sent[..n], codes[..n], failing) + if codes[n].Some? == failing then [sent[n]] else [];
      if i in Sift(sent[..n], codes[..n], failing) {
        var p :| 0 <= p < n && sent[..n][p] == i && codes[..n][p].Some? == failing;
        assert sent[p] == i && codes[p].Some? == failing;
      }
    }
  }

  lemma {:induction false} SiftFrom(sent: seq<nat>, codes: seq<Option<string>>, failing: bool)
    requires |codes| == |sent|
    ensures forall p :: 0 <= p < |Sift(sent, codes, failing)| ==> Sift(sent, codes, failing)[p] in sent
  {
    if sent != [] {
      SiftFrom(sent[..|sent| - 1], codes[..|sent| - 1], failing);
    }
  }

  /** Of the places sent, each is either acknowledged or failing, never both. */
  lemma SiftSplits(sent: seq<nat>, codes: seq<Option<string>>, i: nat)
    requires |codes| == |sent| && Ascending(sent)
    ensures i in sent <==> i in Sift(sent, codes, true) || i in Sift(sent, codes, false)
    ensures !(i in Sift(sent, codes, true) && i in Sift(sent, codes, false))
  {
    SiftMember(sent, codes, true, i);
    SiftMember(sent, codes, false, i);
    if i in sent {
      var p :| 0 <= p < |sent| && sent[p] == i;
      assert codes[p].Some? == true || codes[p].Some? == false;
    }
  }

  lemma {:induction false} SentAscending(n: nat, rounds: seq<Round>, k: nat)
    requires Retries(n, rounds) && k < |rounds|
    ensures Ascending(rounds[k].sent)
    ensures forall p :: 0 <= p < |rounds[k].sent| ==> rounds[k].sent[p] < n
  {
    if k > 0 {
      SentAscending(n, rounds, k - 1);
      var before := rounds[k - 1];
      SiftMember(before.sent, before.reply.codes, true, 0);
      SiftFrom(before.sent, before.reply.codes, true);
    }
  }

  lemma {:induction false} SentShrinks(n: nat, rounds: seq<Round>, k: nat, m: nat, i: nat)
    requires Retries(n, rounds) && k <= m < |rounds| && i in rounds[m].sent
    ensures i in rounds[k].sent
    decreases m - k
  {
    if k < m {
      SentAscending(n, rounds, m - 1);
      SiftSplits(rounds[m - 1].sent, rounds[m - 1].reply.codes, i);
      SentShrinks(n, rounds, k, m - 1, i);
    }
  }

  /** A record once acknowledged is in no later call. */
  lemma NeverResent(n: nat, rounds: seq<Round>, k: nat, m: nat, i: nat)
    requires Retries(n, rounds) && k < m < |rounds| && i in Acked(rounds[k])
    ensures i !in rounds[m].sent
  {
    SentAscending(n, rounds, k);
    SiftSplits(rounds[k].sent, rounds[k].reply.codes, i);
    if i in rounds[m].sent {
      SentShrinks(n, rounds, k + 1, m, i);
    }
  }

  lemma DoneAcks(last: Round, i: nat)
    requires Done(last) && WellShaped(last) && Truthful(last.reply) && Ascending(last.sent) && i in last.sent
    ensures i in Acked(last)
  {
    SiftSplits(last.sent, last.reply.codes, i);
    SiftMember(last.sent, last.reply.codes, true, i);
  }

  lemma {:induction false} AckedFrom(n: nat, rounds: seq<Round>, k: nat, i: nat) returns (m: nat)
    requires Retries(n, rounds) && Settled(rounds) && k < |rounds| && i in rounds[k].sent
    requires forall j :: 0 <= j < |rounds| ==> Truthful(rounds[j].reply)
    ensures k <= m < |rounds| && i in Acked(rounds[m])
    decreases |rounds| - k
  {
    SentAscending(n, rounds, k);
    SiftSplits(rounds[k].sent, rounds[k].reply.codes, i);
    if k == |rounds| - 1 {
      DoneAcks(rounds[k], i);
    }
    if i in Acked(rounds[k]) {
      return k;
    }
    m := AckedFrom(n, rounds, k + 1, i);
  }

  ghost predicate AckedOnlyIn(rounds: seq<Round>, m: nat, i: nat)
    requires m < |rounds|
  {
    i in Acked(rounds[m]) && forall k :: 0 <= k < |rounds| && k != m ==> i !in Acked(rounds[k])
  }

  /** When putRecords reports success, every record was acknowledged in exactly one call. */
  lemma AckedExactlyOnce(n: nat, rounds: seq<Round>, i: nat)
    requires Retries(n, rounds) && Settled(rounds) && rounds != [] && i < n
    requires forall j :: 0 <= j < |rounds| ==> Truthful(rounds[j].reply)
    ensures exists m :: 0 <= m < |rounds| && AckedOnlyIn(rounds, m, i)
  {
    assert UpTo(n)[i] == i;
    var m := AckedFrom(n, rounds, 0, i);
    OnlyOne(n, rounds, m, i);
  }

  lemma OnlyOne(n: nat, rounds: seq<Round>, m: nat, i: nat)
    requires Retries(n, rounds) && m < |rounds| && i in Acked(rounds[m])
    ensures AckedOnlyIn(rounds, m, i)
  {
    forall k | 0 <= k < |rounds| && k != m
      ensures i !in Acked(rounds[k])
    {
      if i in Acked(rounds[k]) {
        SentAscending(n, rounds, k);
        SentAscending(n, rounds, m);
        SiftSplits(rounds[k].sent, rounds[k].reply.codes, i);
        SiftSplits(rounds[m].sent, rounds[m].reply.codes, i);
        NeverResent(n, rounds, if k < m then k else m, if k < m then m else k, i);
      }
    }
  }

  /** A record goes out again in the next call exactly when its place in the reply holds an error code. */
  lemma ResentIff(n: nat, rounds: seq<Round>, k: nat, p: nat)
    requires Retries(n, rounds) && k + 1 < |rounds| && p < |rounds[k].sent|
    ensures |rounds[k].reply.codes| == |rounds[k].sent|
    ensures rounds[k].sent[p] in rounds[k + 1].sent <==> rounds[k].reply.codes[p].Some?
  {
    SentAscending(n, rounds, k);
    SiftMember(rounds[k].sent, rounds[k].reply.codes, true, rounds[k].sent[p]);
  }

  /** The run is settled exactly when its last call was answered with no failure counted, or with no error
      code for any of its records. */
  lemma SettledMeans(n: nat, rounds: seq<Round>)
    requires Retries(n, rounds) && rounds != []
    ensures var last := rounds[|rounds| - 1].reply;
      Settled(rounds) <==>
        && last.Replied?
        && (last.failedCount.None? || last.failedCount.value == 0 || forall p :: 0 <= p < |last.codes| ==> last.codes[p].None?)
  {
    var last := rounds[|rounds| - 1];
    SentAscending(n, rounds, |rounds| - 1);
    if last.reply.Replied? {
      NothingFails(last);
    }
  }

  lemma NothingFails(r: Round)
    requires r.reply.Replied? && WellShaped(r) && Ascending(r.sent)
    ensures Failing(r) == [] <==> forall p :: 0 <= p < |r.reply.codes| ==> r.reply.codes[p].None?
  {
    if p :| 0 <= p < |r.sent| && r.reply.codes[p].Some? {
      SiftMember(r.sent, r.reply.codes, true, r.sent[p]);
    }
    if Failing(r) != [] {
      SiftMember(r.sent, r.reply.codes, true, Failing(r)[0]);
    }
  }

  // ------------------------------------------------------------ putRecords

  /** The Kinesis client and the request context: arbitrary answers, a log of the calls made. */
  class Client {
    const oracle: Service
    const cancelled: nat -> bool
    var calls: seq<seq<Entry>>
    var checks: nat

    constructor (oracle: Service, cancelled: nat -> bool)
      ensures calls == [] && this.oracle == oracle && this.cancelled == cancelled
    {
      this.oracle, this.cancelled := oracle, cancelled;
      calls, checks := [], 0;
    }

    /** The context was not done at any of the `n` looks from look `since` on. */
    ghost predicate Alive(since: nat, n: int) {
      forall k: nat :: since <= k < since + n ==> !cancelled(k)
    }

    lemma AliveLonger(since: nat, n: nat)
      requires Alive(since, n) && !cancelled(since + n)
      ensures Alive(since, n + 1)
    {
    }

    lemma AliveBefore(since: nat, n: nat, m: int)
      requires Alive(since, n) && m <= n
      ensures Alive(since, m)
    {
    }

    method Send(records: seq<Entry>) returns (reply: Reply)
      modifies this`calls
      ensures calls == old(calls) + [records]
      ensures reply == oracle(|old(calls)|, records)
    {
      reply := oracle(|calls|, records);
      calls := calls + [records];
    }

    method ContextDone() returns (done: bool)
      modifies this`checks
      ensures checks == old(checks) + 1 && done == cancelled(old(checks))
    {
      done := cancelled(checks);
      checks := checks + 1;
    }
  }

  ghost predicate InRange(places: seq<nat>, n: nat) {
    forall p :: 0 <= p < |places| ==> places[p] < n
  }

  /** Calls number `start` on are the rounds: these records, and the service's answer to them. */
  ghost predicate Carried(oracle: Service, calls: seq<seq<Entry>>, start: nat,
                          records: seq<Entry>, rounds: seq<Round>) {
    && |calls| == start + |rounds|
    && forall k :: 0 <= k < |rounds| ==>
      && InRange(rounds[k].sent, |records|)
      && calls[start + k] == Pick(records, rounds[k].sent)
      && rounds[k].reply == oracle(start + k, calls[start + k])
  }

  /** The records to send again: those whose result carries an error code, in order. */
  method Residue(records: seq<Entry>, attempt: seq<Entry>, codes: seq<Option<string>>, ghost sent: seq<nat>)
    returns (retry: seq<Entry>)
    requires InRange(sent, |records|) && attempt == Pick(records, sent) && |codes| == |sent|
    ensures InRange(Sift(sent, codes, true), |records|) && retry == Pick(records, Sift(sent, codes, true))
  {
    retry := [];
    for i := 0 to |codes|
      invariant InRange(Sift(sent[..i], codes[..i], true), |records|)
      invariant retry == Pick(records, Sift(sent[..i], codes[..i], true))
    {
      assert sent[..i + 1][..i] == sent[..i] && codes[..i + 1][..i] == codes[..i];
      if codes[i].Some? {
        retry := retry + [attempt[i]];
      }
    }
    assert sent[..|codes|] == sent && codes[..|codes|] == codes;
  }

  lemma PickAll(records: seq<Entry>)
    ensures Pick(records, UpTo(|records|)) == records
  {
  }

  /** What the next round has to carry. */
  function NextSent(n: nat, rounds: seq<Round>): seq<nat> {
    if rounds == [] then UpTo(n) else Failing(rounds[|rounds| - 1])
  }

  predicate Answered(rounds: seq<Round>) {
    rounds == [] || rounds[|rounds| - 1].reply.Replied?
  }

  lemma RetriesSnoc(n: nat, rounds: seq<Round>, r: Round)
    requires Retries(n, rounds) && Answered(rounds) && WellShaped(r) && r.sent == NextSent(n, rounds)
    ensures Retries(n, rounds + [r])
  {
  }

  lemma CarriedSnoc(oracle: Service, calls: seq<seq<Entry>>, start: nat,
                    records: seq<Entry>, rounds: seq<Round>, r: Round)
    requires Carried(oracle, calls, start, records, rounds) && InRange(r.sent, |records|)
    requires r.reply == oracle(|calls|, Pick(records, r.sent))
    ensures Carried(oracle, calls + [Pick(records, r.sent)], start, records, rounds + [r])
  {
  }

  datatype Verdict = Delivered | GaveUp | Again(retry: seq<Entry>)

  /** One pass of the retry loop. */
  method Try(client: Client, records: seq<Entry>, attempt: seq<Entry>, ghost start: nat, ghost before: seq<Round>)
    returns (verdict: Verdict, ghost rounds: seq<Round>)
    requires Shaped(client.oracle)
    requires InRange(NextSent(|records|, before), |records|) && attempt == Pick(records, NextSent(|records|, before))
    requires Retries(|records|, before) && Answered(before)
    requires Carried(client.oracle, client.calls, start, records, before)
    modifies client`calls
    ensures |rounds| == |before| + 1 && Retries(|records|, rounds)
    ensures Carried(client.oracle, client.calls, start, records, rounds)
    ensures client.calls == old(client.calls) + [attempt]
    ensures verdict.Delivered? <==> Done(rounds[|rounds| - 1])
    ensures verdict.GaveUp? <==> rounds[|rounds| - 1].reply.CallFailed?
    ensures verdict.Again? ==> Answered(rounds) && InRange(NextSent(|records|, rounds), |records|)
    ensures verdict.Again? ==> verdict.retry == Pick(records, NextSent(|records|, rounds))
  {
    ghost var sent := NextSent(|records|, before);
    var reply := client.Send(attempt);
    ghost var round := Round(sent, reply);
    RetriesSnoc(|records|, before, round);
    CarriedSnoc(client.oracle, old(client.calls), start, records, before, round);
    rounds := before + [round];
    if reply.CallFailed? {
      return GaveUp, rounds;
    }
    if AllClear(reply) {
      return Delivered, rounds;
    }
    var retry := Residue(records, attempt, reply.codes, sent);
    return if |retry| == 0 then Delivered else Again(retry), rounds;
  }

  /** The last time this client looked, since check number `since`, its context was done. */
  ghost predicate FoundDone(client: Client, since: nat)
    reads client
  {
    client.checks > since && client.cancelled(client.checks - 1)
  }

  /** Why a run of rounds may end short of success: the call itself failed, the fifth attempt left
      records over, or the context was done at the wait after the last round. */
  ghost predicate GaveUpFor(client: Client, since: nat, rounds: seq<Round>)
    reads client
  {
    && rounds != []
    && (|| rounds[|rounds| - 1].reply.CallFailed?
        || |rounds| == 5
        || (client.checks == since + |rounds| && FoundDone(client, since)))
  }

  /** Retries until everything is acknowledged, and gives up for one of three reasons only. The
      context is looked at once after each round that leaves records over, the fifth excepted. */
  method PutRecords(client: Client, records: seq<Entry>) returns (ok: bool, ghost rounds: seq<Round>)
    requires Shaped(client.oracle)
    modifies client
    ensures Retries(|records|, rounds) && |rounds| <= MAX_PUT_ATTEMPTS
    ensures Carried(client.oracle, client.calls, |old(client.calls)|, records, rounds)
    ensures old(client.calls) <= client.calls
    ensures rounds == [] <==> records == []
    ensures ok <==> Settled(rounds)
    ensures !ok ==> GaveUpFor(client, old(client.checks), rounds)
    ensures client.Alive(old(client.checks), |rounds| - 1)
    ensures ok ==> client.checks == old(client.checks) + if rounds == [] then 0 else |rounds| - 1
    ensures client.checks >= old(client.checks)
  {
    var attempt := records;
    rounds := [];
    PickAll(records);
    if |attempt| == 0 {
      return true, rounds;
    }
    ghost var start, since := |client.calls|, client.checks;
    var try_ := 0;
    while true
      invariant try_ == |rounds| < MAX_PUT_ATTEMPTS
      invariant InRange(NextSent(|records|, rounds), |records|) && attempt == Pick(records, NextSent(|records|, rounds))
      invariant Retries(|records|, rounds) && Answered(rounds)
      invariant Carried(client.oracle, client.calls, start, records, rounds)
      invariant old(client.calls) <= client.calls
      invariant client.checks == since + try_ && client.Alive(since, try_)
      decreases MAX_PUT_ATTEMPTS - try_
    {
      var verdict: Verdict;
      verdict, rounds := Try(client, records, attempt, start, rounds);
      client.AliveBefore(since, try_, |rounds| - 1);
      if verdict.Delivered? {
        return true, rounds;
      }
      if verdict.GaveUp? || try_ + 1 >= MAX_PUT_ATTEMPTS {
        return false, rounds;
      }
      var gone := client.ContextDone();
      if gone {
        return false, rounds;
      }
      client.AliveLonger(since, try_);
      attempt := verdict.retry;
      try_ := try_ + 1;
    }
  }

  // ------------------------------------------------------------ order of arrival

  /** The places in the order in which their records were acknowledged. */
  function Arrival(rounds: seq<Round>): seq<nat> {
    if rounds == [] then [] else Acked(rounds[0]) + Arrival(rounds[1..])
  }

  /** Records of one key arrive in the order they were given. */
  ghost predicate KeyOrdered(records: seq<Entry>, places: seq<nat>)
    requires InRange(places, |records|)
  {
    forall p, q :: 0 <= p < q < |places| && records[places[p]].key == records[places[q]].key ==> places[p] < places[q]
  }

  /** In no reply is a record refused while a later one of its key is accepted. */
  ghost predicate NoOvertaking(records: seq<Entry>, r: Round)
    requires InRange(Failing(r), |records|) && InRange(Acked(r), |records|)
  {
    forall f, a :: f in Failing(r) && a in Acked(r) && records[f].key == records[a].key ==> a < f
  }

  lemma AckedInRange(n: nat, r: Round)
    requires InRange(r.sent, n)
    ensures InRange(Failing(r), n) && InRange(Acked(r), n)
  {
    if r.reply.Replied? && |r.reply.codes| == |r.sent| {
      SiftFrom(r.sent, r.reply.codes, true);
      SiftFrom(r.sent, r.reply.codes, false);
    }
  }

  ghost predicate AllBefore(records: seq<Entry>, a: seq<nat>, b: seq<nat>)
    requires InRange(a, |records|) && InRange(b, |records|)
  {
    forall i, j :: i in a && j in b && records[i].key == records[j].key ==> i < j
  }

  lemma KeyOrderedConcat(records: seq<Entry>, a: seq<nat>, b: seq<nat>)
    requires InRange(a + b, |records|) && InRange(a, |records|) && InRange(b, |records|)
    ensures KeyOrdered(records, a + b) <==> KeyOrdered(records, a) && KeyOrdered(records, b) && AllBefore(records, a, b)
  {
    if KeyOrdered(records, a + b) {
      assert forall p :: 0 <= p < |b| ==> (a + b)[|a| + p] == b[p];
      assert forall p :: 0 <= p < |a| ==> (a + b)[p] == a[p];
    }
  }

  /** A run from some round on, ending in success. */
  ghost predicate Suffix(n: nat, rounds: seq<Round>) {
    && rounds != [] && Done(rounds[|rounds| - 1])
    && (forall k :: 0 <= k < |rounds| ==> WellShaped(rounds[k]) && Truthful(rounds[k].reply) && InRange(rounds[k].sent, n))
    && (forall k :: 0 <= k < |rounds| ==> Ascending(rounds[k].sent))
    && (forall k :: 0 <= k < |rounds| - 1 ==> rounds[k].reply.Replied? && rounds[k + 1].sent == Failing(rounds[k]))
  }

  lemma SuffixTail(n: nat, rounds: seq<Round>)
    requires Suffix(n, rounds) && |rounds| > 1
    ensures Suffix(n, rounds[1..]) && rounds[1..][0].sent == Failing(rounds[0])
  {
  }

  lemma {:induction false} ArrivalMember(n: nat, rounds: seq<Round>, i: nat)
    requires Suffix(n, rounds)
    ensures i in Arrival(rounds) <==> i in rounds[0].sent
    decreases |rounds|
  {
    var r := rounds[0];
    if r.reply.Replied? {
      SiftSplits(r.sent, r.reply.codes, i);
      SiftFrom(r.sent, r.reply.codes, false);
    }
    if |rounds| == 1 {
      assert Arrival(rounds[1..]) == [];
      if i in r.sent {
        DoneAcks(r, i);
      }
    } else {
      SuffixTail(n, rounds);
      ArrivalMember(n, rounds[1..], i);
    }
  }

  lemma NothingFailing(r: Round)
    requires Done(r) && WellShaped(r) && Truthful(r.reply) && Ascending(r.sent)
    ensures Failing(r) == []
  {
    if Failing(r) != [] {
      SiftMember(r.sent, r.reply.codes, true, Failing(r)[0]);
    }
  }

  lemma ArrivalInRange(n: nat, rounds: seq<Round>)
    requires forall k :: 0 <= k < |rounds| ==> InRange(rounds[k].sent, n)
    ensures InRange(Arrival(rounds), n)
    decreases |rounds|
  {
    if rounds != [] {
      AckedInRange(n, rounds[0]);
      ArrivalInRange(n, rounds[1..]);
    }
  }

  ghost predicate NeverOvertaken(records: seq<Entry>, rounds: seq<Round>) {
    forall k :: 0 <= k < |rounds| ==>
      InRange(Failing(rounds[k]), |records|) && InRange(Acked(rounds[k]), |records|) && NoOvertaking(records, rounds[k])
  }

  lemma AckedKeyOrdered(records: seq<Entry>, r: Round)
    requires Ascending(r.sent) && InRange(r.sent, |records|)
    ensures InRange(Acked(r), |records|) && KeyOrdered(records, Acked(r))
  {
    AckedInRange(|records|, r);
    if r.reply.Replied? && |r.reply.codes| == |r.sent| {
      SiftMember(r.sent, r.reply.codes, false, 0);
    }
  }

  lemma AllBeforeSame(records: seq<Entry>, a: seq<nat>, b: seq<nat>, c: seq<nat>)
    requires InRange(a, |records|) && InRange(b, |records|) && InRange(c, |records|)
    requires forall j :: j in b <==> j in c
    ensures AllBefore(records, a, b) <==> AllBefore(records, a, c)
  {
  }

  lemma OvertakingHead(records: seq<Entry>, rounds: seq<Round>)
    requires Suffix(|records|, rounds) && |rounds| > 1
    requires InRange(Failing(rounds[0]), |records|) && InRange(Acked(rounds[0]), |records|)
    requires InRange(Arrival(rounds[1..]), |records|)
    ensures NoOvertaking(records, rounds[0]) <==> AllBefore(records, Acked(rounds[0]), Arrival(rounds[1..]))
  {
    SuffixTail(|records|, rounds);
    forall j
      ensures j in Arrival(rounds[1..]) <==> j in Failing(rounds[0])
    {
      ArrivalMember(|records|, rounds[1..], j);
    }
    AllBeforeSame(records, Acked(rounds[0]), Arrival(rounds[1..]), Failing(rounds[0]));
  }

  lemma NeverOvertakenTail(records: seq<Entry>, rounds: seq<Round>)
    requires rounds != [] && InRange(Failing(rounds[0]), |records|) && InRange(Acked(rounds[0]), |records|)
    ensures NeverOvertaken(records, rounds) <==> NoOvertaking(records, rounds[0]) && NeverOvertaken(records, rounds[1..])
  {
    if NoOvertaking(records, rounds[0]) && NeverOvertaken(records, rounds[1..]) {
      forall k | 0 <= k < |rounds|
        ensures InRange(Failing(rounds[k]), |records|) && InRange(Acked(rounds[k]), |records|)
        ensures NoOvertaking(records, rounds[k])
      {
        if k > 0 {
          assert rounds[k] == rounds[1..][k - 1];
        }
      }
    }
  }

  /** After retries, records of one key have arrived in order exactly when no reply refused a
      record while accepting a later one of its key. */
  lemma {:induction false} OrderKeptIff(records: seq<Entry>, rounds: seq<Round>)
    requires Suffix(|records|, rounds)
    ensures InRange(Arrival(rounds), |records|)
    ensures KeyOrdered(records, Arrival(rounds)) <==> NeverOvertaken(records, rounds)
    decreases |rounds|
  {
    var n, r := |records|, rounds[0];
    ArrivalInRange(n, rounds);
    AckedInRange(n, r);
    AckedKeyOrdered(records, r);
    if |rounds| == 1 {
      NothingFailing(r);
      assert Arrival(rounds) == Acked(r);
    } else {
      SuffixTail(n, rounds);
      ArrivalInRange(n, rounds[1..]);
      OrderKeptIff(records, rounds[1..]);
      KeyOrderedConcat(records, Acked(r), Arrival(rounds[1..]));
      OvertakingHead(records, rounds);
      NeverOvertakenTail(records, rounds);
    }
  }

  lemma RetriesIsSuffix(n: nat, rounds: seq<Round>)
    requires Retries(n, rounds) && Settled(rounds) && rounds != []
    requires forall k :: 0 <= k < |rounds| ==> Truthful(rounds[k].reply)
    ensures Suffix(n, rounds)
  {
    forall k | 0 <= k < |rounds|
      ensures Ascending(rounds[k].sent) && InRange(rounds[k].sent, n)
    {
      SentAscending(n, rounds, k);
    }
  }
}
