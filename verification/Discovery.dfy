/** What a reconcile pass reads off a table snapshot: shard_discovery.go and the
    snapshot part of coordinator.go's reconcile. */
module Discovery {
  import opened LeaseStore

  datatype Observation = Observation(counter: int, seenAt: nat)

  type Observations = map<string, Observation>

  /** refreshObservations: a counter that changed is seen now, rows that are gone are
      forgotten. */
  function Refreshed(observed: Observations, t: Table, now: nat): Observations {
    map s | s in t ::
      if s in observed && observed[s].counter == t[s].counter then observed[s]
      else Observation(t[s].counter, now)
  }

  /** The shards whose owner was seen heartbeating within `leaseDuration`. */
  function FreshShards(observed: Observations, t: Table, now: nat, leaseDuration: nat): set<string> {
    set s | s in t && t[s].owner != "" && s in observed && now - observed[s].seenAt < leaseDuration
  }

  /** parentsDrained: every parent that has a row is at SHARD_END. */
  predicate ParentsDrained(l: Lease, t: Table) {
    forall p | p in l.parentIds :: p in t ==> t[p].checkpoint == SHARD_END
  }

  function DrainedShards(t: Table): set<string> {
    set s | s in t && ParentsDrained(t[s], t)
  }

  // ------------------------------------------------------------ what an observation means

  /** One listing of the table, and when it was made. */
  datatype Listing = Listing(table: Table, at: nat)

  /** What a worker that started with no observations has noted after these listings. */
  function ObservedAfter(history: seq<Listing>): Observations {
    if history == [] then map[]
    else Refreshed(ObservedAfter(history[..|history| - 1]), history[|history| - 1].table, history[|history| - 1].at)
  }

  predicate Shows(l: Listing, s: string, counter: int) {
    s in l.table && l.table[s].counter == counter
  }

  /** Since listing `k`, and not before it, every listing showed `s` at this counter. */
  predicate ShownSince(history: seq<Listing>, s: string, counter: int, k: nat) {
    && k < |history| && (forall m :: k <= m < |history| ==> Shows(history[m], s, counter))
    && (k > 0 ==> !Shows(history[k - 1], s, counter))
  }

  /** A counter counts as seen when it was first listed in the unbroken run of listings that show it; an
      owned row is fresh exactly when that is less than the lease duration ago. */
  lemma {:induction false} FreshMeans(history: seq<Listing>, s: string, leaseDuration: nat) returns (k: nat)
    requires history != [] && s in history[|history| - 1].table
    ensures var last := history[|history| - 1]; var row := last.table[s];
      && ShownSince(history, s, row.counter, k)
      && s in ObservedAfter(history) && ObservedAfter(history)[s] == Observation(row.counter, history[k].at)
      && (s in FreshShards(ObservedAfter(history), last.table, last.at, leaseDuration) <==>
            row.owner != "" && last.at - history[k].at < leaseDuration)
  {
    var n := |history| - 1;
    var counter := history[n].table[s].counter;
    if n > 0 && Shows(history[n - 1], s, counter) {
      k := FreshMeans(history[..n], s, leaseDuration);
      assert ShownSince(history[..n], s, counter, k);
    } else {
      k := n;
      NotNoted(history[..n], s, counter);
    }
  }

  /** A counter the last listing did not show is not noted. */
  lemma {:induction false} NotNoted(history: seq<Listing>, s: string, counter: int)
    requires history != [] ==> !Shows(history[|history| - 1], s, counter)
    ensures s in ObservedAfter(history) ==> ObservedAfter(history)[s].counter != counter
  {
  }
}
