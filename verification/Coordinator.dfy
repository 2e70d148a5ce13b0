/** One worker's coordinator: coordinator.go and shard_discovery.go. */
module Coordinator {
  import opened Sequences
  import opened LeaseStore
  import opened Taker
  import opened TakerLemmas
  import opened Discovery

  const REAP_THRESHOLD := 3

  type Absences = map<string, nat>

  function Missing(absent: Absences, s: string): nat {
    if s in absent then absent[s] else 0
  }

  /** What a cleanup pass reads and writes. */
  datatype Books = Books(absent: Absences, observed: Observations, table: Table)

  /** A row some owner was still heartbeating when this worker last looked. */
  predicate StillBeating(l: Lease, observed: Observations, now: nat, leaseDuration: nat) {
    && l.owner != "" && l.shardId in observed && observed[l.shardId].counter == l.counter
    && now - observed[l.shardId].seenAt < leaseDuration
  }

  /** The rows a cleanup pass tries to delete. */
  predicate Reapable(l: Lease, b: Books, live: set<string>, active: set<string>, now: nat, leaseDuration: nat) {
    && l.shardId !in live && l.checkpoint == SHARD_END
    && l.shardId !in active && Missing(b.absent, l.shardId) + 1 >= REAP_THRESHOLD
    && !StillBeating(l, b.observed, now, leaseDuration)
  }

  /** One row of a cleanup pass. */
  function CleanRow(b: Books, l: Lease, live: set<string>, active: set<string>, now: nat, leaseDuration: nat): Books {
    var s := l.shardId;
    if s in live then b.(absent := b.absent - {s})
    else if l.checkpoint != SHARD_END then b
    else
      var counted := b.(absent := b.absent[s := Missing(b.absent, s) + 1]);
      if !Reapable(l, b, live, active, now, leaseDuration) then counted
      else
        var (table', error) := Apply(b.table, Delete(s, l.counter));
        if error.Some? then counted
        else Books(b.absent - {s}, b.observed - {s}, table')
  }

  /** A write this worker sent to the store, and the table it met there. */
  datatype Sent = Sent(call: Call, found: Table)

  /** The write removed the row of `s`. */
  predicate Deletes(e: Sent, s: string) {
    e.call.Delete? && e.call.shardId == s && s in e.found && s !in Apply(e.found, e.call).0
  }

  /** The write a cleanup pass makes for one row, if any. */
  function CleanCall(b: Books, l: Lease, live: set<string>, active: set<string>, now: nat, leaseDuration: nat): seq<Sent> {
    if Reapable(l, b, live, active, now, leaseDuration) then [Sent(Delete(l.shardId, l.counter), b.table)] else []
  }

  /** The books before the last listed row has its turn. `founds` are the tables the rows meet:
      anybody may write between two of them. */
  function BeforeLast(b: Books, leases: seq<Lease>, founds: seq<Table>, live: set<string>, active: set<string>,
                      now: nat, leaseDuration: nat): Books
    requires |founds| == |leases| > 0
    decreases |leases|, 0
  {
    var n := |leases| - 1;
    Cleaned(b, leases[..n], founds[..n], live, active, now, leaseDuration).(table := founds[n])
  }

  /** A whole cleanup pass, row by row. */
  function Cleaned(b: Books, leases: seq<Lease>, founds: seq<Table>, live: set<string>, active: set<string>,
                   now: nat, leaseDuration: nat): Books
    requires |founds| == |leases|
    decreases |leases|, 1
  {
    if leases == [] then b
    else
      var before := BeforeLast(b, leases, founds, live, active, now, leaseDuration);
      CleanRow(before, leases[|leases| - 1], live, active, now, leaseDuration)
  }

  /** The writes of a whole cleanup pass, in order. */
  function CleanCalls(b: Books, leases: seq<Lease>, founds: seq<Table>, live: set<string>, active: set<string>,
                      now: nat, leaseDuration: nat): seq<Sent>
    requires |founds| == |leases|
  {
    if leases == [] then []
    else
      var n := |leases| - 1;
      CleanCalls(b, leases[..n], founds[..n], live, active, now, leaseDuration)
      + CleanCall(BeforeLast(b, leases, founds, live, active, now, leaseDuration), leases[n], live, active, now, leaseDuration)
  }

  /** Rows are independent: the notes about shard `s` are touched by its own row only. */
  lemma {:induction false} OtherRowsUntouched(b: Books, leases: seq<Lease>, founds: seq<Table>, live: set<string>,
                                              active: set<string>, now: nat, leaseDuration: nat, s: string)
    requires |founds| == |leases| && forall i :: 0 <= i < |leases| ==> leases[i].shardId != s
    ensures var b' := Cleaned(b, leases, founds, live, active, now, leaseDuration);
      && (s in b'.absent <==> s in b.absent) && (s in b.absent ==> b'.absent[s] == b.absent[s])
      && (s in b'.observed <==> s in b.observed) && (s in b.observed ==> b'.observed[s] == b.observed[s])
  {
    if leases != [] {
      var n := |leases| - 1;
      OtherRowsUntouched(b, leases[..n], founds[..n], live, active, now, leaseDuration, s);
    }
  }

  /** A cleanup pass must try to delete this row: completed, not listed as a live shard, not polled
      here, absent for the third time or more, and nobody heartbeating it. */
  predicate Due(l: Lease, missed: nat, observed: Observations, live: set<string>, polled: set<string>, now: nat, leaseDuration: nat) {
    && l.checkpoint == "SHARD_END" && l.shardId !in live && l.shardId !in polled && missed + 1 >= 3
    && (l.owner == "" || l.shardId !in observed || observed[l.shardId].counter != l.counter
        || observed[l.shardId].seenAt + leaseDuration <= now)
  }

  /** The store lets a delete of the row of `s` at `counter` pass. */
  predicate LetsGo(found: Table, s: string, counter: int) {
    s in found ==> found[s].counter == counter
  }

  /** One row's turn told by the row: its shard's absence count goes up by one exactly when the shard is
      completed and missing, a due row is deleted at its listed counter, and only a delete that passed
      makes this worker forget the shard. */
  ghost predicate RowTold(l: Lease, before: Books, after: Books, calls: seq<Sent>, live: set<string>, polled: set<string>,
                          now: nat, leaseDuration: nat)
  {
    var s, missed := l.shardId, Missing(before.absent, l.shardId);
    if s in live then
      s !in after.absent && SameNote(before, after, s) && NoDelete(calls, s)
    else if !Due(l, missed, before.observed, live, polled, now, leaseDuration) then
      && Missing(after.absent, s) == (if l.checkpoint == "SHARD_END" then missed + 1 else missed)
      && SameNote(before, after, s) && NoDelete(calls, s)
    else
      exists found :: Sent(Delete(s, l.counter), found) in calls
        && if LetsGo(found, s, l.counter) then s !in after.absent && s !in after.observed
           else Missing(after.absent, s) == missed + 1 && SameNote(before, after, s)
  }

  ghost predicate NoDelete(calls: seq<Sent>, s: string) {
    forall e :: e in calls ==> !(e.call.Delete? && e.call.shardId == s)
  }

  /** The two books hold the same observation of `s`, if any. */
  predicate SameNote(b: Books, b': Books, s: string) {
    (s in b'.observed <==> s in b.observed) && (s in b.observed ==> b'.observed[s] == b.observed[s])
  }

  lemma RowToldByTurn(b: Books, l: Lease, live: set<string>, active: set<string>, now: nat, leaseDuration: nat)
    ensures RowTold(l, b, CleanRow(b, l, live, active, now, leaseDuration), CleanCall(b, l, live, active, now, leaseDuration),
                    live, active, now, leaseDuration)
  {
    if Due(l, Missing(b.absent, l.shardId), b.observed, live, active, now, leaseDuration) {
      assert Sent(Delete(l.shardId, l.counter), b.table) in CleanCall(b, l, live, active, now, leaseDuration);
    }
  }

  /** The writes of a pass over other rows are about other shards. */
  lemma {:induction false} OtherRowsUnsent(b: Books, leases: seq<Lease>, founds: seq<Table>, live: set<string>,
                                           active: set<string>, now: nat, leaseDuration: nat, s: string)
    requires |founds| == |leases| && forall i :: 0 <= i < |leases| ==> leases[i].shardId != s
    ensures forall e :: e in CleanCalls(b, leases, founds, live, active, now, leaseDuration) ==> e.call.Target() != s
  {
    if leases != [] {
      var n := |leases| - 1;
      OtherRowsUnsent(b, leases[..n], founds[..n], live, active, now, leaseDuration, s);
    }
  }

  /** The turn of another shard's row makes no difference. */
  lemma OtherTurn(l: Lease, b: Books, mid: Books, other: Lease, calls: seq<Sent>, live: set<string>, active: set<string>,
                  now: nat, leaseDuration: nat)
    requires RowTold(l, b, mid, calls, live, active, now, leaseDuration) && other.shardId != l.shardId
    ensures RowTold(l, b, CleanRow(mid, other, live, active, now, leaseDuration),
                    calls + CleanCall(mid, other, live, active, now, leaseDuration), live, active, now, leaseDuration)
  {
    var more := CleanCall(mid, other, live, active, now, leaseDuration);
    assert forall e :: e in calls ==> e in calls + more;
    assert forall e :: e in calls + more ==> e in calls || e in more;
  }

  /** A whole pass treats each listed shard as its own row says. */
  lemma {:induction false} CleanedShard(b: Books, leases: seq<Lease>, founds: seq<Table>, live: set<string>,
                                        active: set<string>, now: nat, leaseDuration: nat, l: Lease)
    requires |founds| == |leases| && DistinctShards(leases) && l in leases
    ensures RowTold(l, b, Cleaned(b, leases, founds, live, active, now, leaseDuration),
                    CleanCalls(b, leases, founds, live, active, now, leaseDuration), live, active, now, leaseDuration)
  {
    var n := |leases| - 1;
    if leases[n] == l {
      OtherRowsUntouched(b, leases[..n], founds[..n], live, active, now, leaseDuration, l.shardId);
      OtherRowsUnsent(b, leases[..n], founds[..n], live, active, now, leaseDuration, l.shardId);
      RowToldByTurn(BeforeLast(b, leases, founds, live, active, now, leaseDuration), l, live, active, now, leaseDuration);
    } else {
      assert l in leases[..n] && leases[n].shardId != l.shardId;
      CleanedShard(b, leases[..n], founds[..n], live, active, now, leaseDuration, l);
      var before := BeforeLast(b, leases, founds, live, active, now, leaseDuration);
      OtherTurn(l, b, before, leases[n], CleanCalls(b, leases[..n], founds[..n], live, active, now, leaseDuration),
                live, active, now, leaseDuration);
    }
  }

  /** Every write of a pass is the delete of a listed row at its listed counter, and that row was
      reapable by what was noted before the pass. */
  lemma {:induction false} CleanCallsFrom(b: Books, leases: seq<Lease>, founds: seq<Table>, live: set<string>,
                                          active: set<string>, now: nat, leaseDuration: nat, e: Sent)
    returns (l: Lease)
    requires |founds| == |leases| && DistinctShards(leases)
    requires e in CleanCalls(b, leases, founds, live, active, now, leaseDuration)
    ensures l in leases && e.call == Delete(l.shardId, l.counter) && Reapable(l, b, live, active, now, leaseDuration)
  {
    var n := |leases| - 1;
    if e in CleanCalls(b, leases[..n], founds[..n], live, active, now, leaseDuration) {
      l := CleanCallsFrom(b, leases[..n], founds[..n], live, active, now, leaseDuration, e);
    } else {
      l := leases[n];
      OtherRowsUntouched(b, leases[..n], founds[..n], live, active, now, leaseDuration, l.shardId);
    }
  }

  // ------------------------------------------------------------ whole passes

  /** What one reconcile pass saw: the listed table, and whether and against which live
      shards it cleaned up. */
  datatype PassView = PassView(t: Table, cleaning: bool, live: set<string>)

  /** The pass counted `s` as absent. */
  predicate CountsAbsent(v: PassView, s: string) {
    v.cleaning && s in v.t && s !in v.live && v.t[s].checkpoint == SHARD_END
  }

  /** The pass resets the count: the row is gone, or the shard is live. */
  predicate ResetsAbsence(v: PassView, s: string) {
    s !in v.t || (v.cleaning && s in v.live)
  }

  /** The highest absence count `s` can have after these passes. */
  function Streak(views: seq<PassView>, s: string): nat {
    if views == [] then 0
    else
      var v, before := views[|views| - 1], Streak(views[..|views| - 1], s);
      if ResetsAbsence(v, s) then 0 else if CountsAbsent(v, s) then before + 1 else before
  }

  function Absent(views: seq<PassView>, s: string): nat {
    if views == [] then 0 else Absent(views[..|views| - 1], s) + if CountsAbsent(views[|views| - 1], s) then 1 else 0
  }

  /** A streak of `k` is `k` passes that missed the shard, with none in between that saw it
      live or found its row gone. */
  lemma {:induction false} StreakMeansSustained(views: seq<PassView>, s: string) returns (from: nat)
    ensures from <= |views|
    ensures forall m :: from <= m < |views| ==> !ResetsAbsence(views[m], s)
    ensures Absent(views[from..], s) == Streak(views, s)
  {
    if views == [] {
      from := 0;
    } else {
      var n := |views| - 1;
      if ResetsAbsence(views[n], s) {
        from := n + 1;
        assert views[from..] == [];
      } else {
        from := StreakMeansSustained(views[..n], s);
        assert views[from..][..|views[from..]| - 1] == views[..n][from..];
      }
    }
  }

  /** The entries of `m` whose key is one of `ids`; the others are deleted one by one. */
  method Pruned<V>(m: map<string, V>, ids: set<string>) returns (r: map<string, V>)
    ensures r == map s | s in m && s in ids :: m[s]
  {
    r := m;
    var pending := m.Keys;
    while pending != {}
      invariant pending <= m.Keys
      invariant r == map s | s in m && (s in ids || s in pending) :: m[s]
      decreases pending
    {
      var s :| s in pending;
      pending := pending - {s};
      if s !in ids {
        r := r - {s};
      }
    }
  }

  lemma IdsAreKeys(leases: seq<Lease>, t: Table)
    requires Enumerates(leases, t)
    ensures (set k | 0 <= k < |leases| :: leases[k].shardId) == t.Keys
    ensures DistinctShards(leases)
  {
    forall s | s in t ensures s in set k | 0 <= k < |leases| :: leases[k].shardId {
      var k :| 0 <= k < |leases| && leases[k] == t[s];
    }
  }

  method Listed(leases: seq<Lease>, s: string) returns (row: Option<Lease>)
    ensures row.Some? ==> row.value in leases && row.value.shardId == s
    ensures row.None? ==> forall l :: l in leases ==> l.shardId != s
  {
    for i := 0 to |leases|
      invariant forall k :: 0 <= k < i ==> leases[k].shardId != s
    {
      if leases[i].shardId == s {
        return Some(leases[i]);
      }
    }
    return None;
  }

  /** The shard was missing in at least three of these passes, and none of them since the first such
      one saw it live or found its row gone. */
  ghost predicate SustainedAbsence(views: seq<PassView>, s: string) {
    exists from: nat :: AbsentSince(views, s, from)
  }

  ghost predicate AbsentSince(views: seq<PassView>, s: string, from: nat) {
    && from <= |views| && Absent(views[from..], s) >= 3
    && forall m :: from <= m < |views| ==> s in views[m].t && (views[m].cleaning ==> s !in views[m].live)
  }

  lemma StreakSustained(views: seq<PassView>, s: string)
    requires Streak(views, s) >= REAP_THRESHOLD
    ensures SustainedAbsence(views, s)
  {
    var from := StreakMeansSustained(views, s);
    assert AbsentSince(views, s, from);
  }

  /** A pass keeps absence counts within what the passes justify, whatever others write meanwhile. */
  lemma PassEffect(views: seq<PassView>, view: PassView, leases: seq<Lease>, founds: seq<Table>, b: Books, b': Books,
                   active: set<string>, now: nat, leaseDuration: nat)
    requires Enumerates(leases, view.t) && |founds| == |leases|
    requires forall s :: Missing(b.absent, s) <= Streak(views, s)
    requires b.absent.Keys <= view.t.Keys
    requires b' == if view.cleaning then Cleaned(b, leases, founds, view.live, active, now, leaseDuration) else b
    ensures forall s :: Missing(b'.absent, s) <= Streak(views + [view], s)
  {
    forall s
      ensures Missing(b'.absent, s) <= Streak(views + [view], s)
    {
      ShardPassEffect(views, view, leases, founds, b, b', active, now, leaseDuration, s);
    }
  }

  lemma ShardPassEffect(views: seq<PassView>, view: PassView, leases: seq<Lease>, founds: seq<Table>, b: Books, b': Books,
                        active: set<string>, now: nat, leaseDuration: nat, s: string)
    requires Enumerates(leases, view.t) && |founds| == |leases|
    requires Missing(b.absent, s) <= Streak(views, s) && b.absent.Keys <= view.t.Keys
    requires b' == if view.cleaning then Cleaned(b, leases, founds, view.live, active, now, leaseDuration) else b
    ensures Missing(b'.absent, s) <= Streak(views + [view], s)
  {
    assert (views + [view])[..|views|] == views;
    if view.cleaning {
      if s in view.t {
        CleanedShard(b, leases, founds, view.live, active, now, leaseDuration, view.t[s]);
      } else {
        OtherRowsUntouched(b, leases, founds, view.live, active, now, leaseDuration, s);
      }
    }
  }

  /** What makes a write of a cleanup pass safe. A row it removed was listed at SHARD_END and still at
      the listed counter; the shard was not polled here, not live, and had been missing in at least
      three passes, with none in between that saw it live or found no row. */
  ghost predicate ReapedSafely(e: Sent, t: Table, polled: set<string>, live: set<string>, views: seq<PassView>) {
    forall s :: Deletes(e, s) ==>
      && s in t && t[s].checkpoint == SHARD_END && e.found[s].counter == t[s].counter
      && s !in polled && s !in live && SustainedAbsence(views, s)
  }

  /** Reaping is safe from blips and from races: whatever other workers write between the listing and
      each delete. */
  lemma ReapIsSafe(views: seq<PassView>, view: PassView, leases: seq<Lease>, founds: seq<Table>, b: Books,
                   active: set<string>, now: nat, leaseDuration: nat, e: Sent)
    requires Enumerates(leases, view.t) && |founds| == |leases| && view.cleaning
    requires forall s :: Missing(b.absent, s) <= Streak(views, s)
    requires e in CleanCalls(b, leases, founds, view.live, active, now, leaseDuration)
    ensures ReapedSafely(e, view.t, active, view.live, views + [view])
    ensures e.call.Target() !in active
  {
    IdsAreKeys(leases, view.t);
    var l := CleanCallsFrom(b, leases, founds, view.live, active, now, leaseDuration, e);
    assert (views + [view])[..|views|] == views;
    assert CountsAbsent(view, l.shardId);
    StreakSustained(views + [view], l.shardId);
  }

  /** Unless the row was deleted and created again in between, the row removed is the very row listed:
      it was at SHARD_END when it went. */
  lemma RemovedAsListed(e: Sent, t: Table, calls: seq<Call>, s: string, polled: set<string>, live: set<string>, views: seq<PassView>)
    requires Deletes(e, s) && ReapedSafely(e, t, polled, live, views)
    requires NeverDeleted(t, calls, s) && e.found == Run(t, calls)
    ensures e.found[s] == t[s] && e.found[s].checkpoint == SHARD_END
  {
    SameCounterSameRow(t, calls, s);
  }

  /** What a pass does about completed and missing shards: every listed row has its turn, or, when
      discovery failed or found nothing, no row is deleted and no count moves. */
  ghost predicate SweepTold(leases: seq<Lease>, before: Books, after: Books, calls: seq<Sent>, cleaning: bool, live: set<string>,
                            polled: set<string>, now: nat, leaseDuration: nat)
  {
    if cleaning then forall l :: l in leases ==> RowTold(l, before, after, calls, live, polled, now, leaseDuration)
    else forall l :: l in leases ==>
      && Missing(after.absent, l.shardId) == Missing(before.absent, l.shardId)
      && SameNote(before, after, l.shardId) && NoDelete(calls, l.shardId)
  }

  lemma PassTold(leases: seq<Lease>, founds: seq<Table>, b: Books, b': Books, calls: seq<Sent>, view: PassView,
                 active: set<string>, now: nat, leaseDuration: nat)
    requires |founds| == |leases| && Enumerates(leases, view.t)
    requires if view.cleaning
      then b' == Cleaned(b, leases, founds, view.live, active, now, leaseDuration)
        && calls == CleanCalls(b, leases, founds, view.live, active, now, leaseDuration)
      else b'.absent == b.absent && b'.observed == b.observed && calls == []
    ensures SweepTold(leases, b.(table := map[]), b'.(table := map[]), calls, view.cleaning, view.live, active, now, leaseDuration)
  {
    IdsAreKeys(leases, view.t);
    forall l | l in leases && view.cleaning
      ensures RowTold(l, b.(table := map[]), b'.(table := map[]), calls, view.live, active, now, leaseDuration)
    {
      CleanedShard(b, leases, founds, view.live, active, now, leaseDuration, l);
    }
  }

  /** Claims sent before the rows have their turn, and notes about unlisted shards, make no difference. */
  lemma SweepToldAfterClaims(leases: seq<Lease>, before: Books, noted: Books, after: Books, claims: seq<Sent>, calls: seq<Sent>,
                             cleaning: bool, live: set<string>, polled: set<string>, now: nat, leaseDuration: nat)
    requires SweepTold(leases, noted, after, calls, cleaning, live, polled, now, leaseDuration)
    requires forall e :: e in claims ==> !e.call.Delete?
    requires forall l :: l in leases ==> Missing(noted.absent, l.shardId) == Missing(before.absent, l.shardId)
    requires noted.observed == before.observed
    ensures SweepTold(leases, before, after, claims + calls, cleaning, live, polled, now, leaseDuration)
  {
    forall l | l in leases && cleaning
      ensures RowTold(l, before, after, claims + calls, live, polled, now, leaseDuration)
    {
      RowToldAfterClaims(l, before, noted, after, claims, calls, live, polled, now, leaseDuration);
    }
  }

  lemma RowToldAfterClaims(l: Lease, before: Books, noted: Books, after: Books, claims: seq<Sent>, calls: seq<Sent>,
                           live: set<string>, polled: set<string>, now: nat, leaseDuration: nat)
    requires RowTold(l, noted, after, calls, live, polled, now, leaseDuration)
    requires forall e :: e in claims ==> !e.call.Delete?
    requires Missing(noted.absent, l.shardId) == Missing(before.absent, l.shardId)
    requires noted.observed == before.observed
    ensures RowTold(l, before, after, claims + calls, live, polled, now, leaseDuration)
  {
    if l.shardId !in live && Due(l, Missing(noted.absent, l.shardId), noted.observed, live, polled, now, leaseDuration) {
      var found :| Sent(Delete(l.shardId, l.counter), found) in calls
        && if LetsGo(found, l.shardId, l.counter) then l.shardId !in after.absent && l.shardId !in after.observed
           else Missing(after.absent, l.shardId) == Missing(noted.absent, l.shardId) + 1 && SameNote(noted, after, l.shardId);
      assert Sent(Delete(l.shardId, l.counter), found) in claims + calls;
    }
  }

  /** The pollers running for some of `shards`. */
  function PollersOf(active: map<string, nat>, shards: seq<string>): set<nat> {
    set s | s in shards && s in active :: active[s]
  }

  class Coordinator {
    const store: MemoryStore
    const workerId: string
    const leaseDuration: nat
    var active: map<string, nat>       // shard -> poller being run
    var draining: set<nat>             // pollers told to drain
    var nextPoller: nat
    var observed: Observations
    var absent: Absences
    var liveShards: set<string>
    var stopped: bool
    ghost var views: seq<PassView>     // every pass so far
    ghost var sent: seq<Sent>          // every write so far

    /** Absence counts never exceed what the passes justify. */
    ghost predicate Valid()
      reads this
    {
      && workerId != ""
      && (forall s :: Missing(absent, s) <= Streak(views, s))
      && Numbered()
    }

    /** Every running poller has a number of its own. */
    ghost predicate Numbered()
      reads this
    {
      && (forall s :: s in active ==> active[s] < nextPoller)
      && (forall s, r :: s in active && r in active && active[s] == active[r] ==> s == r)
    }

    constructor (store: MemoryStore, workerId: string, leaseDuration: nat)
      requires workerId != ""
      ensures Valid() && active == map[] && !stopped && this.store == store && views == [] && sent == []
    {
      this.store := store;
      this.workerId := workerId;
      this.leaseDuration := leaseDuration;
      active, draining, nextPoller := map[], {}, 0;
      observed, absent, liveShards, stopped := map[], map[], {}, false;
      views, sent := [], [];
    }

    /** Other workers may use the store between any two calls. */
    method OthersAct()
      requires KeyedById(store.leases)
      modifies store
      ensures KeyedById(store.leases)
    {
    }

    /** discoverShards after a successful listing: a row for every listed shard, whatever others do to
        the table meanwhile. */
    method RecordDiscovery(shards: seq<(string, seq<string>)>)
      requires KeyedById(store.leases)
      modifies store, this`liveShards, this`sent
      ensures KeyedById(store.leases)
      ensures liveShards == set i | 0 <= i < |shards| :: shards[i].0
      ensures |sent| == |old(sent)| + |shards| && old(sent) <= sent
      ensures forall i :: 0 <= i < |shards| ==> sent[|old(sent)| + i].call == Ensure(shards[i].0, shards[i].1)
    {
      var live: set<string> := {};
      for i := 0 to |shards|
        invariant live == set k | 0 <= k < i :: shards[k].0
        invariant KeyedById(store.leases)
        invariant |sent| == |old(sent)| + i && old(sent) <= sent
        invariant forall k :: 0 <= k < i ==> sent[|old(sent)| + k].call == Ensure(shards[k].0, shards[k].1)
      {
        live := live + {shards[i].0};
        OthersAct();
        EnsureOne(shards[i].0, shards[i].1);
      }
      liveShards := live;
    }

    method EnsureOne(shardId: string, parentIds: seq<string>)
      requires KeyedById(store.leases)
      modifies store, this`sent
      ensures KeyedById(store.leases) && sent == old(sent) + [Sent(Ensure(shardId, parentIds), old(store.leases))]
      ensures store.leases.Keys == old(store.leases).Keys + {shardId}
      ensures forall s :: s in old(store.leases) ==> s in store.leases && store.leases[s] == old(store.leases)[s]
      ensures shardId !in old(store.leases) ==> store.leases[shardId] == Lease(shardId, "", 0, "TRIM_HORIZON", parentIds)
    {
      sent := sent + [Sent(Ensure(shardId, parentIds), store.leases)];
      store.EnsureRow(shardId, parentIds);
    }

    /** refreshObservations: note changed counters, then prune what is gone. */
    method RefreshObservations(leases: seq<Lease>, now: nat, ghost t: Table)
      requires Enumerates(leases, t)
      modifies this`observed, this`absent
      ensures observed == Refreshed(old(observed), t, now)
      ensures absent == map s | s in old(absent) && s in t :: old(absent)[s]
    {
      var ids := NoteCounters(leases, now);
      IdsAreKeys(leases, t);
      forall s | s in t ensures s in observed && observed[s] == Noted(old(observed), t[s], now) {
        var k :| 0 <= k < |leases| && leases[k] == t[s];
      }
      observed := Pruned(observed, ids);
      absent := Pruned(absent, ids);
    }

    function Noted(observed: Observations, l: Lease, now: nat): Observation {
      if l.shardId in observed && observed[l.shardId].counter == l.counter then observed[l.shardId]
      else Observation(l.counter, now)
    }

    method NoteCounters(leases: seq<Lease>, now: nat) returns (ids: set<string>)
      requires DistinctShards(leases)
      modifies this`observed
      ensures ids == set k | 0 <= k < |leases| :: leases[k].shardId
      ensures forall k :: 0 <= k < |leases| ==>
        leases[k].shardId in observed && observed[leases[k].shardId] == Noted(old(observed), leases[k], now)
    {
      ids := {};
      for i := 0 to |leases|
        invariant ids == set k | 0 <= k < i :: leases[k].shardId
        invariant forall k :: 0 <= k < i ==>
          leases[k].shardId in observed && observed[leases[k].shardId] == Noted(old(observed), leases[k], now)
        invariant forall k :: i <= k < |leases| ==>
          Noted(observed, leases[k], now) == Noted(old(observed), leases[k], now)
      {
        var l := leases[i];
        if l.shardId !in observed || observed[l.shardId].counter != l.counter {
          observed := observed[l.shardId := Observation(l.counter, now)];
        }
        ids := ids + {l.shardId};
      }
    }

    /** cleanupOrphans: the loop over the listed rows. `founds` are the tables the rows met. */
    method CleanupOrphans(leases: seq<Lease>, now: nat) returns (ghost founds: seq<Table>)
      requires KeyedById(store.leases)
      modifies this`absent, this`observed, this`sent, store
      ensures KeyedById(store.leases) && |founds| == |leases|
      ensures var b := old(Books(absent, observed, store.leases));
        if liveShards == {} then Books(absent, observed, store.leases) == b && sent == old(sent)
        else
          && Books(absent, observed, store.leases) == Cleaned(b, leases, founds, liveShards, active.Keys, now, leaseDuration)
          && sent == old(sent) + CleanCalls(b, leases, founds, liveShards, active.Keys, now, leaseDuration)
    {
      var live := liveShards;
      if live == {} {
        founds := seq(|leases|, _ => map[]);
        return;
      }
      founds := [];
      ghost var b := Books(absent, observed, store.leases);
      for i := 0 to |leases|
        invariant KeyedById(store.leases) && |founds| == i
        invariant Books(absent, observed, store.leases) ==
          Cleaned(b, leases[..i], founds, live, active.Keys, now, leaseDuration)
        invariant sent == old(sent) + CleanCalls(b, leases[..i], founds, live, active.Keys, now, leaseDuration)
      {
        assert leases[..i + 1][..i] == leases[..i];
        ghost var found := CleanOne(leases[i], live, now);
        assert (founds + [found])[..i] == founds;
        founds := founds + [found];
      }
      assert leases[..|leases|] == leases;
    }

    /** The body of the loop. `found` is the table at its store call. */
    method CleanOne(l: Lease, live: set<string>, now: nat) returns (ghost found: Table)
      requires KeyedById(store.leases)
      modifies this`absent, this`observed, this`sent, store
      ensures KeyedById(store.leases)
      ensures var b := Books(old(absent), old(observed), found);
        && Books(absent, observed, store.leases) == CleanRow(b, l, live, active.Keys, now, leaseDuration)
        && sent == old(sent) + CleanCall(b, l, live, active.Keys, now, leaseDuration)
    {
      OthersAct();
      found := store.leases;
      if l.shardId in live {
        absent := absent - {l.shardId};
        return;
      }
      if l.checkpoint != SHARD_END {
        return;
      }
      var absentFor := (if l.shardId in absent then absent[l.shardId] else 0) + 1;
      absent := absent[l.shardId := absentFor];
      if l.shardId in active || absentFor < REAP_THRESHOLD {
        return;
      }
      if l.owner != "" && l.shardId in observed && observed[l.shardId].counter == l.counter
        && now - observed[l.shardId].seenAt < leaseDuration
      {
        return;
      }
      sent := sent + [Sent(Delete(l.shardId, l.counter), store.leases)];
      var error := store.DeleteRow(l.shardId, l.counter);
      if error.Some? {
        return;
      }
      observed := observed - {l.shardId};
      absent := absent - {l.shardId};
    }

    /** The fresh map of reconcile: owners seen heartbeating within the lease duration. */
    method FreshOf(leases: seq<Lease>, now: nat, ghost t: Table) returns (freshIds: set<string>)
      requires Enumerates(leases, t)
      ensures freshIds == FreshShards(observed, t, now, leaseDuration)
    {
      freshIds := {};
      for i := 0 to |leases|
        invariant freshIds == set k | 0 <= k < i && leases[k].owner != "" && leases[k].shardId in observed
          && now - observed[leases[k].shardId].seenAt < leaseDuration :: leases[k].shardId
      {
        var l := leases[i];
        if l.owner != "" && l.shardId in observed && now - observed[l.shardId].seenAt < leaseDuration {
          freshIds := freshIds + {l.shardId};
        }
      }
      forall s | s in FreshShards(observed, t, now, leaseDuration) ensures s in freshIds {
        var k :| 0 <= k < |leases| && leases[k] == t[s];
      }
    }

    /** tryAcquire and startPoller: claim the listed row unless a poller already runs here, in which
        case nothing is sent; a claim that races shutdown is handed straight back. `found` and
        `later` are the tables the two writes meet. */
    method TryAcquire(l: Lease) returns (ghost found: Table, ghost later: Table)
      requires workerId != "" && KeyedById(store.leases)
      modifies store, this`active, this`nextPoller, this`sent
      ensures KeyedById(store.leases) && KeyedById(found)
      ensures l.shardId in old(active) ==> store.leases == old(store.leases) && sent == old(sent)
      ensures l.shardId in old(active) ==> active == old(active) && nextPoller == old(nextPoller)
      ensures l.shardId !in old(active) ==>
        var claim := Acquire(l.shardId, workerId, l.counter);
        var (taken, error) := Apply(found, claim);
        if error.Some? then
          store.leases == found && sent == old(sent) + [Sent(claim, found)] && active == old(active) && nextPoller == old(nextPoller)
        else if stopped then
          && sent == old(sent) + [Sent(claim, found), Sent(Release(taken[l.shardId]), later)]
          && store.leases == Apply(later, Release(taken[l.shardId])).0 && active == old(active) && nextPoller == old(nextPoller)
        else
          && store.leases == taken && sent == old(sent) + [Sent(claim, found)]
          && active == old(active)[l.shardId := old(nextPoller)] && nextPoller == old(nextPoller) + 1
      ensures l.shardId !in old(active) ==>
        |old(sent)| < |sent| && ClaimAt(sent, |old(sent)|, workerId, l.shardId, l.counter, active.Keys, stopped)
    {
      found, later := store.leases, store.leases;
      if l.shardId in active {
        return;
      }
      OthersAct();
      found := store.leases;
      sent := sent + [Sent(Acquire(l.shardId, workerId, l.counter), found)];
      var taken := store.AcquireLease(l.shardId, workerId, l.counter);
      if taken.Err? {
        return;
      }
      if stopped {
        OthersAct();
        later := store.leases;
        sent := sent + [Sent(Release(taken.value), later)];
        var error := store.ReleaseLease(taken.value);
        return;
      }
      active := active[l.shardId := nextPoller];
      nextPoller := nextPoller + 1;
    }

    /** Exactly the pollers of `shards` joined those told to drain. */
    static ghost predicate DrainsFor(before: set<nat>, after: set<nat>, active: map<string, nat>, shards: seq<string>) {
      && (forall s :: s in shards && s in active ==> active[s] in after)
      && (forall p :: p in before ==> p in after)
      && (forall p :: p in after && p !in before ==> exists s :: s in shards && s in active && active[s] == p)
    }

    /** releasePoller for every surplus shard: drain, never cancel. */
    method ReleasePollers(shards: seq<string>)
      modifies this`draining
      ensures draining == old(draining) + PollersOf(active, shards)
      ensures DrainsFor(old(draining), draining, active, shards)
    {
      for i := 0 to |shards|
        invariant draining == old(draining) + PollersOf(active, shards[..i])
      {
        assert shards[..i + 1] == shards[..i] + [shards[i]];
        if shards[i] in active {
          draining := draining + {active[shards[i]]};
        }
      }
      assert shards[..|shards|] == shards;
    }

    /** A write that carries out a plan: a claim at the listed counter, or the release that hands a
        claim back, for a shard the plan names and this worker does not poll. */
    static ghost predicate Claimed(e: Sent, plan: PlanResult, leases: seq<Lease>, polled: set<string>) {
      && (e.call.Acquire? || e.call.Release?)
      && (e.call.Target() in plan.acquire || e.call.Target() == plan.steal) && e.call.Target() !in polled
      && (e.call.Acquire? ==> exists l :: l in leases && l.shardId == e.call.shardId && l.counter == e.call.expected)
    }

    /** Among the writes since `start` is a claim of `s` at `counter`. If the row was still there at that
        counter, a poller of `s` runs here now; once shutdown began, the claim was handed straight back
        instead. */
    static ghost predicate Attempted(log: seq<Sent>, start: nat, who: string, s: string, counter: int,
                                     polled: set<string>, stopped: bool)
    {
      exists k :: start <= k < |log| && ClaimAt(log, k, who, s, counter, polled, stopped)
    }

    static ghost predicate ClaimAt(log: seq<Sent>, k: nat, who: string, s: string, counter: int, polled: set<string>, stopped: bool)
      requires k < |log|
    {
      && log[k].call == Acquire(s, who, counter)
      && (s in log[k].found && log[k].found[s].counter == counter ==>
            if stopped then HandedBack(log, k + 1, log[k].found[s].(owner := who, counter := counter + 1)) else s in polled)
    }

    static ghost predicate HandedBack(log: seq<Sent>, k: nat, row: Lease) {
      k < |log| && log[k].call == Release(row)
    }

    static lemma StillAttempted(log: seq<Sent>, log': seq<Sent>, start: nat, who: string, s: string, counter: int,
                                polled: set<string>, polled': set<string>, stopped: bool)
      requires Attempted(log, start, who, s, counter, polled, stopped) && log <= log' && polled <= polled'
      ensures Attempted(log', start, who, s, counter, polled', stopped)
    {
      var k :| start <= k < |log| && ClaimAt(log, k, who, s, counter, polled, stopped);
      assert ClaimAt(log', k, who, s, counter, polled', stopped);
    }

    /** The plan asks for this shard. */
    static predicate Wanted(plan: PlanResult, s: string) {
      s in plan.acquire || (s == plan.steal && plan.steal != "")
    }

    /** Every shard the plan asks for that is listed, and was not polled before, was attempted. */
    static ghost predicate AllAttempted(log: seq<Sent>, start: nat, who: string, plan: PlanResult, t: Table, before: set<string>,
                                        polled: set<string>, stopped: bool)
    {
      forall s :: Wanted(plan, s) && s in t && s !in before ==> Attempted(log, start, who, s, t[s].counter, polled, stopped)
    }

    static lemma StillAllAttempted(log: seq<Sent>, log': seq<Sent>, start: nat, who: string, plan: PlanResult, t: Table,
                                   before: set<string>, polled: set<string>, stopped: bool)
      requires AllAttempted(log, start, who, plan, t, before, polled, stopped) && log <= log'
      ensures AllAttempted(log', start, who, plan, t, before, polled, stopped)
    {
      forall s | Wanted(plan, s) && s in t && s !in before
        ensures Attempted(log', start, who, s, t[s].counter, polled, stopped)
      {
        StillAttempted(log, log', start, who, s, t[s].counter, polled, polled, stopped);
      }
    }

    /** Every listed shard of `claims` that was not polled before was attempted. */
    static ghost predicate ClaimsAttempted(log: seq<Sent>, start: nat, who: string, claims: seq<string>, t: Table,
                                           before: set<string>, polled: set<string>, stopped: bool)
    {
      forall s :: s in claims && s in t && s !in before ==> Attempted(log, start, who, s, t[s].counter, polled, stopped)
    }

    static lemma OneMoreAttempted(log: seq<Sent>, log': seq<Sent>, start: nat, who: string, claims: seq<string>, i: nat, t: Table,
                                  before: set<string>, polled: set<string>, polled': set<string>, stopped: bool)
      requires i < |claims| && log <= log' && polled <= polled'
      requires ClaimsAttempted(log, start, who, claims[..i], t, before, polled, stopped)
      requires claims[i] in t && claims[i] !in before && claims[i] !in claims[..i] ==>
        Attempted(log', start, who, claims[i], t[claims[i]].counter, polled', stopped)
      ensures ClaimsAttempted(log', start, who, claims[..i + 1], t, before, polled', stopped)
    {
      forall s | s in claims[..i + 1] && s in t && s !in before
        ensures Attempted(log', start, who, s, t[s].counter, polled', stopped)
      {
        if s in claims[..i] {
          StillAttempted(log, log', start, who, s, t[s].counter, polled, polled', stopped);
        } else {
          assert s == claims[i];
        }
      }
    }

    /** One claim of the plan, on the row as listed. */
    method ClaimNext(s: string, leases: seq<Lease>, ghost plan: PlanResult, ghost t: Table, ghost before: set<string>)
      requires workerId != "" && KeyedById(store.leases) && Enumerates(leases, t) && Numbered()
      requires (s in plan.acquire || s == plan.steal) && before <= active.Keys
      modifies store, this`active, this`nextPoller, this`sent
      ensures KeyedById(store.leases) && Numbered() && old(sent) <= sent
      ensures stopped ==> active == old(active)
      ensures forall r :: r in old(active) ==> r in active && active[r] == old(active)[r]
      ensures forall r :: r in active && r !in old(active) ==> r == s
      ensures forall k :: |old(sent)| <= k < |sent| ==> Claimed(sent[k], plan, leases, before)
      ensures s in t && s !in old(active) ==> Attempted(sent, |old(sent)|, workerId, s, t[s].counter, active.Keys, stopped)
    {
      var row := Listed(leases, s);
      if row.Some? {
        ghost var found, later := TryAcquire(row.value);
      }
    }

    /** The claims of a plan, in order, then the steal: every one of them is attempted. */
    method CarryOut(plan: PlanResult, leases: seq<Lease>, ghost t: Table)
      requires workerId != "" && KeyedById(store.leases) && Enumerates(leases, t) && Numbered()
      modifies store, this`active, this`nextPoller, this`sent
      ensures KeyedById(store.leases) && Numbered() && old(sent) <= sent
      ensures stopped ==> active == old(active)
      ensures forall s :: s in old(active) ==> s in active && active[s] == old(active)[s]
      ensures forall s :: s in active && s !in old(active) ==> s in plan.acquire || s == plan.steal
      ensures forall k :: |old(sent)| <= k < |sent| ==> Claimed(sent[k], plan, leases, old(active).Keys)
      ensures AllAttempted(sent, |old(sent)|, workerId, plan, t, old(active).Keys, active.Keys, stopped)
    {
      var claims := plan.acquire + if plan.steal != "" then [plan.steal] else [];
      for i := 0 to |claims|
        invariant KeyedById(store.leases) && Numbered() && old(sent) <= sent
        invariant stopped ==> active == old(active)
        invariant forall s :: s in old(active) ==> s in active && active[s] == old(active)[s]
        invariant forall s :: s in active && s !in old(active) ==> s in claims[..i]
        invariant forall k :: |old(sent)| <= k < |sent| ==> Claimed(sent[k], plan, leases, old(active).Keys)
        invariant ClaimsAttempted(sent, |old(sent)|, workerId, claims[..i], t, old(active).Keys, active.Keys, stopped)
      {
        ghost var log, polled := sent, active.Keys;
        ClaimNext(claims[i], leases, plan, t, old(active).Keys);
        OneMoreAttempted(log, sent, |old(sent)|, workerId, claims, i, t, old(active).Keys, polled, active.Keys, stopped);
      }
      assert claims[..|claims|] == claims;
      assert plan.steal != "" ==> claims[|plan.acquire|] == plan.steal;
    }

    /** Running pollers stay, and a pass adds one only for a shard it planned to claim, and only
        before shutdown. */
    static ghost predicate OnlyClaimsAdded(before: map<string, nat>, after: map<string, nat>, plan: PlanResult, stopped: bool) {
      && (forall s :: s in before ==> s in after && after[s] == before[s])
      && (forall s :: s in after && s !in before ==> !stopped && (s in plan.acquire || s == plan.steal))
    }

    /** The plan `plan` is Taker's, for this listing of table `t` at `now`. */
    ghost predicate Planned(plan: PlanResult, leases: seq<Lease>, t: Table, was: Observations, polling: set<string>, now: nat) {
      && Enumerates(leases, t)
      && IsPlan(PlanInput(leases, workerId, FreshShards(Refreshed(was, t, now), t, now, leaseDuration),
                          DrainedShards(t), polling), plan)
    }

    /** Every write this pass made so far since `start` carries out the plan or reaps safely, and none
        is about a shard polled when the pass began. */
    ghost predicate WritesOk(start: nat, plan: PlanResult, leases: seq<Lease>, t: Table, polled: set<string>)
      reads this
    {
      && start <= |sent|
      && forall k :: start <= k < |sent| ==>
        && sent[k].call.Target() !in polled
        && (Claimed(sent[k], plan, leases, polled) || ReapedSafely(sent[k], t, active.Keys, liveShards, views))
    }

    /** reconcile: list, observe, plan, release, claim, clean up. Other workers may write after the
        listing and between any two of this worker's writes. A steal that names a shard polled here
        changes nothing: no write of the pass is about such a shard, and its poller stays. */
    method Reconcile(now: nat, discoveryOK: bool) returns (plan: PlanResult, leases: seq<Lease>)
      requires Valid() && KeyedById(store.leases)
      modifies store, this
      ensures Valid() && stopped == old(stopped) && KeyedById(store.leases)
      ensures Planned(plan, leases, old(store.leases), old(observed), old(active).Keys, now)
      ensures DrainsFor(old(draining), draining, old(active), plan.release)
      ensures OnlyClaimsAdded(old(active), active, plan, stopped)
      ensures old(sent) <= sent && WritesOk(|old(sent)|, plan, leases, old(store.leases), old(active).Keys)
      ensures forall s :: Wanted(plan, s) ==> s in old(store.leases)
      ensures AllAttempted(sent, |old(sent)|, workerId, plan, old(store.leases), old(active).Keys, active.Keys, stopped)
      ensures liveShards == old(liveShards)
      ensures SweepTold(leases, Books(old(absent), Refreshed(old(observed), old(store.leases), now), map[]),
                        Books(absent, observed, map[]), sent[|old(sent)|..], discoveryOK && liveShards != {}, liveShards,
                        active.Keys, now, leaseDuration)
    {
      ghost var t, was := store.leases, Books(absent, Refreshed(observed, store.leases, now), map[]);
      plan, leases := Decide(now);
      Act(plan, leases, discoveryOK, now, t, was);
    }

    /** `was` holds what is noted now about the listed shards. */
    ghost predicate NotedAs(leases: seq<Lease>, was: Books)
      reads this
    {
      observed == was.observed && forall l :: l in leases ==> Missing(absent, l.shardId) == Missing(was.absent, l.shardId)
    }

    static lemma WantedIsListed(plan: PlanResult, in_: PlanInput, t: Table)
      requires IsPlan(in_, plan) && Enumerates(in_.leases, t)
      ensures forall s :: Wanted(plan, s) ==> s in t
    {
      forall s | Wanted(plan, s) ensures s in t {
        if s in plan.acquire {
          var l := AcquireGate(in_, plan, s);
        } else {
          IdsAreKeys(in_.leases, t);
          var l := StealGate(in_, plan);
        }
      }
    }

    /** The acting half of reconcile, on a listing of `t`, whatever the table is by now. */
    method Act(plan: PlanResult, leases: seq<Lease>, discoveryOK: bool, now: nat, ghost t: Table, ghost was: Books)
      requires Valid() && KeyedById(store.leases)
      requires Enumerates(leases, t) && absent.Keys <= t.Keys && NotedAs(leases, was)
      modifies store, this
      ensures Valid() && stopped == old(stopped) && KeyedById(store.leases)
      ensures DrainsFor(old(draining), draining, old(active), plan.release)
      ensures OnlyClaimsAdded(old(active), active, plan, stopped)
      ensures old(sent) <= sent && WritesOk(|old(sent)|, plan, leases, t, old(active).Keys)
      ensures AllAttempted(sent, |old(sent)|, workerId, plan, t, old(active).Keys, active.Keys, stopped)
      ensures liveShards == old(liveShards)
      ensures SweepTold(leases, was, Books(absent, observed, map[]), sent[|old(sent)|..], discoveryOK && liveShards != {},
                        liveShards, active.Keys, now, leaseDuration)
    {
      Execute(plan, leases, t);
      ghost var log, noted := sent, Books(absent, observed, map[]);
      Sweep(leases, discoveryOK, now, t);
      StillAllAttempted(log, sent, |old(sent)|, workerId, plan, t, old(active).Keys, active.Keys, stopped);
      SweepToldAfterClaims(leases, was, noted, Books(absent, observed, map[]), log[|old(sent)|..], sent[|log|..],
                           discoveryOK && liveShards != {}, liveShards, active.Keys, now, leaseDuration);
      assert log[|old(sent)|..] + sent[|log|..] == sent[|old(sent)|..];
    }

    /** The plan carried out: drain the surplus, then claim. */
    method Execute(plan: PlanResult, leases: seq<Lease>, ghost t: Table)
      requires Valid() && KeyedById(store.leases) && Enumerates(leases, t)
      modifies store, this`active, this`nextPoller, this`draining, this`sent
      ensures Valid() && KeyedById(store.leases)
      ensures DrainsFor(old(draining), draining, old(active), plan.release)
      ensures OnlyClaimsAdded(old(active), active, plan, stopped)
      ensures old(sent) <= sent
      ensures forall k :: |old(sent)| <= k < |sent| ==> Claimed(sent[k], plan, leases, old(active).Keys)
      ensures AllAttempted(sent, |old(sent)|, workerId, plan, t, old(active).Keys, active.Keys, stopped)
    {
      ReleasePollers(plan.release);
      CarryOut(plan, leases, t);
    }

    /** The snapshot half of reconcile. */
    method Decide(now: nat) returns (plan: PlanResult, leases: seq<Lease>)
      requires Valid() && KeyedById(store.leases)
      modifies this`observed, this`absent
      ensures Valid() && absent.Keys <= store.leases.Keys
      ensures NotedAs(leases, Books(old(absent), Refreshed(old(observed), store.leases, now), map[]))
      ensures Planned(plan, leases, store.leases, old(observed), active.Keys, now)
      ensures forall s :: Wanted(plan, s) ==> s in store.leases
    {
      leases := ListAndNote(now);
      plan := PlanOn(leases, now, store.leases);
      WantedIsListed(plan, PlanInput(leases, workerId, FreshShards(observed, store.leases, now, leaseDuration),
                                     DrainedShards(store.leases), active.Keys), store.leases);
    }

    method ListAndNote(now: nat) returns (leases: seq<Lease>)
      requires Valid() && KeyedById(store.leases)
      modifies this`observed, this`absent
      ensures Valid() && absent == map s | s in old(absent) && s in store.leases :: old(absent)[s]
      ensures Enumerates(leases, store.leases) && observed == Refreshed(old(observed), store.leases, now)
    {
      leases := store.List();
      RefreshObservations(leases, now, store.leases);
    }

    /** The planner's input assembled from one listing. */
    method PlanOn(leases: seq<Lease>, now: nat, ghost t: Table) returns (plan: PlanResult)
      requires Enumerates(leases, t)
      ensures IsPlan(PlanInput(leases, workerId, FreshShards(observed, t, now, leaseDuration), DrainedShards(t), active.Keys), plan)
    {
      var freshIds := FreshOf(leases, now, t);
      var drained := DrainedOf(leases, t);
      plan := Plan(PlanInput(leases, workerId, freshIds, drained, active.Keys));
    }

    /** The cleanup half, recorded as one more pass. */
    method Sweep(leases: seq<Lease>, discoveryOK: bool, now: nat, ghost t: Table)
      requires Valid() && KeyedById(store.leases) && Enumerates(leases, t) && absent.Keys <= t.Keys
      modifies store, this`absent, this`observed, this`views, this`sent
      ensures Valid() && KeyedById(store.leases)
      ensures old(sent) <= sent
      ensures forall k :: |old(sent)| <= k < |sent| ==>
        sent[k].call.Target() !in active && ReapedSafely(sent[k], t, active.Keys, liveShards, views)
      ensures SweepTold(leases, Books(old(absent), old(observed), map[]), Books(absent, observed, map[]), sent[|old(sent)|..],
                        discoveryOK && liveShards != {}, liveShards, active.Keys, now, leaseDuration)
    {
      ghost var b := Books(absent, observed, store.leases);
      ghost var view := PassView(t, discoveryOK && liveShards != {}, liveShards);
      ghost var founds: seq<Table> := seq(|leases|, _ => map[]);
      if discoveryOK {
        founds := CleanupOrphans(leases, now);
      }
      PassEffect(views, view, leases, founds, b, Books(absent, observed, store.leases), active.Keys, now, leaseDuration);
      forall k | |old(sent)| <= k < |sent|
        ensures sent[k].call.Target() !in active && ReapedSafely(sent[k], t, active.Keys, liveShards, views + [view])
      {
        ReapIsSafe(views, view, leases, founds, b, active.Keys, now, leaseDuration, sent[k]);
      }
      PassTold(leases, founds, b, Books(absent, observed, store.leases), sent[|old(sent)|..], view, active.Keys, now, leaseDuration);
      views := views + [view];
    }

    /** drainAndStop: from here on no poller is added, and every running one drains. */
    method DrainAndStop()
      modifies this`stopped, this`draining
      ensures stopped && draining == old(draining) + set s | s in active :: active[s]
    {
      stopped := true;
      var pending := active.Keys;
      while pending != {}
        invariant stopped && pending <= active.Keys
        invariant draining == old(draining) + set s | s in active && s !in pending :: active[s]
        decreases pending
      {
        var s :| s in pending;
        pending := pending - {s};
        draining := draining + {active[s]};
      }
    }
  }

  /** parentsDrained: a parent that has no row counts as drained. */
  method ParentsDone(parents: seq<string>, checkpoints: map<string, string>, ghost t: Table) returns (ok: bool)
    requires checkpoints == map s | s in t :: t[s].checkpoint
    ensures ok <==> forall p :: p in parents && p in t ==> t[p].checkpoint == "SHARD_END"
  {
    for j := 0 to |parents|
      invariant forall k :: 0 <= k < j && parents[k] in t ==> t[parents[k]].checkpoint == "SHARD_END"
    {
      if parents[j] in checkpoints && checkpoints[parents[j]] != SHARD_END {
        return false;
      }
    }
    return true;
  }

  /** The drained map of reconcile. */
  method DrainedOf(leases: seq<Lease>, ghost t: Table) returns (drained: set<string>)
    requires Enumerates(leases, t)
    ensures drained == DrainedShards(t)
    ensures forall s :: s in drained <==> s in t && forall p :: p in t[s].parentIds && p in t ==> t[p].checkpoint == "SHARD_END"
  {
    var checkpoints := IndexCheckpoints(leases, t);
    drained := {};
    for i := 0 to |leases|
      invariant drained == set k | 0 <= k < i && ParentsDrained(leases[k], t) :: leases[k].shardId
    {
      var ok := ParentsDone(leases[i].parentIds, checkpoints, t);
      if ok {
        drained := drained + {leases[i].shardId};
      }
    }
    forall s | s in DrainedShards(t) ensures s in drained {
      var k :| 0 <= k < |leases| && leases[k] == t[s];
    }
  }

  method IndexCheckpoints(leases: seq<Lease>, ghost t: Table) returns (out: map<string, string>)
    requires Enumerates(leases, t)
    ensures out == map s | s in t :: t[s].checkpoint
  {
    out := map[];
    for i := 0 to |leases|
      invariant forall s :: s in out <==> exists k :: 0 <= k < i && leases[k].shardId == s
      invariant forall s :: s in out ==> s in t && out[s] == t[s].checkpoint
    {
      out := out[leases[i].shardId := leases[i].checkpoint];
    }
    forall s | s in t ensures s in out {
      var k :| 0 <= k < |leases| && leases[k] == t[s];
    }
  }
}
