/** The DynamoDB lease table and its refinement of the in-memory one: internal/lease/dynamodb.go. */
module DynamoStore {
  import opened Sequences
  import opened LeaseStore

  const LEASE_KEY := "leaseKey"
  const LEASE_OWNER := "leaseOwner"
  const LEASE_COUNTER := "leaseCounter"
  const CHECKPOINT := "checkpoint"
  const PARENTS := "parentShardId"

  datatype Attribute = S(text: string) | N(number: int) | SS(members: set<string>)

  type Item = map<string, Attribute>

  /** Condition expressions; an absent attribute equals nothing. */
  datatype Condition =
    | Equals(name: string, value: Attribute)
    | NotExists(name: string)
    | Both(left: Condition, right: Condition)

  datatype Action = Set(name: string, value: Attribute) | Remove(name: string)

  predicate Holds(c: Condition, item: Item) {
    match c
    case Equals(name, value) => name in item && item[name] == value
    case NotExists(name) => name !in item
    case Both(left, right) => Holds(left, item) && Holds(right, item)
  }

  function Updated(item: Item, actions: seq<Action>): Item {
    if actions == [] then item
    else
      var before := Updated(item, actions[..|actions| - 1]);
      match actions[|actions| - 1]
      case Set(name, value) => before[name := value]
      case Remove(name) => before - {name}
  }

  lemma UpdatedOne(item: Item, a: Action)
    ensures Updated(item, [a]) == if a.Set? then item[a.name := a.value] else item - {a.name}
  {
    assert [a][..0] == [];
  }

  lemma UpdatedTwo(item: Item, a: Action, b: Action)
    requires a.Set?
    ensures var first := item[a.name := a.value];
      Updated(item, [a, b]) == if b.Set? then first[b.name := b.value] else first - {b.name}
  {
    assert [a, b][..1] == [a];
    UpdatedOne(item, a);
  }

  // ------------------------------------------------------------ rows

  /** What a lease says when the order of its parents is not looked at. */
  datatype Row = Row(shardId: string, owner: string, counter: int, checkpoint: string, parents: set<string>)

  function View(l: Lease): Row {
    Row.Row(l.shardId, l.owner, l.counter, l.checkpoint, set p | p in l.parentIds)
  }

  function Marshal(l: Lease): Item {
    var item := map[LEASE_KEY := S(l.shardId), LEASE_COUNTER := N(l.counter), CHECKPOINT := S(l.checkpoint)];
    var owned := if l.owner != "" then item[LEASE_OWNER := S(l.owner)] else item;
    if |l.parentIds| > 0 then owned[PARENTS := SS(set p | p in l.parentIds)] else owned
  }

  function Text(item: Item, name: string): Option<string> {
    if name in item && item[name].S? then Some(item[name].text) else None
  }

  function Or(text: Option<string>, otherwise: string): string {
    if text.Some? then text.value else otherwise
  }

  function Counter(item: Item): int {
    if LEASE_COUNTER in item && item[LEASE_COUNTER].N? then item[LEASE_COUNTER].number else 0
  }

  /** The pieces of `s` between its separators; always at least one. */
  function Split(s: string, separator: char): (parts: seq<string>)
    ensures |parts| > 0
  {
    if s == "" then [""]
    else
      var n := |s| - 1;
      var parts := Split(s[..n], separator);
      if s[n] == separator then parts + [""] else parts[|parts| - 1 := parts[|parts| - 1] + [s[n]]]
  }

  function Join(parts: seq<string>, separator: char): string {
    if parts == [] then ""
    else if |parts| == 1 then parts[0]
    else Join(parts[..|parts| - 1], separator) + [separator] + parts[|parts| - 1]
  }

  lemma {:induction false} SplitAppend(s: string, tail: string, separator: char)
    requires separator !in tail
    ensures Split(s + tail, separator)
      == var parts := Split(s, separator); parts[|parts| - 1 := parts[|parts| - 1] + tail]
  {
    var parts := Split(s, separator);
    if tail == "" {
      assert s + tail == s && parts[|parts| - 1] + tail == parts[|parts| - 1];
    } else {
      var n := |tail| - 1;
      assert (s + tail)[..|s + tail| - 1] == s + tail[..n];
      SplitAppend(s, tail[..n], separator);
      assert parts[|parts| - 1] + tail[..n] + [tail[n]] == parts[|parts| - 1] + tail;
    }
  }

  /** Reading a comma-joined parent list of an older row gives back the list that was joined. */
  lemma {:induction false} LegacyRoundTrip(parts: seq<string>, separator: char)
    requires parts != [] && forall k :: 0 <= k < |parts| ==> separator !in parts[k]
    ensures Split(Join(parts, separator), separator) == parts
  {
    var n := |parts| - 1;
    if n == 0 {
      SplitAppend("", parts[0], separator);
      assert "" + parts[0] == parts[0];
    } else {
      var head := Join(parts[..n], separator);
      LegacyRoundTrip(parts[..n], separator);
      assert (head + [separator])[..|head|] == head;
      SplitAppend(head + [separator], parts[n], separator);
      assert "" + parts[n] == parts[n];
    }
  }

  function Parents(item: Item): set<string> {
    if PARENTS !in item then {}
    else match item[PARENTS]
      case SS(members) => members
      case S(text) => if text == "" then {} else set p | p in Split(text, ',')
      case N(_) => {}
  }

  function Decode(item: Item): Option<Row> {
    var key := Text(item, LEASE_KEY);
    if key.None? then None
    else Some(Row.Row(key.value, Or(Text(item, LEASE_OWNER), ""), Counter(item),
                  Or(Text(item, CHECKPOINT), ""), Parents(item)))
  }

  method ToSequence(members: set<string>) returns (out: seq<string>)
    ensures (set p | p in out) == members && Distinct(out)
  {
    out := [];
    var pending := members;
    while pending != {}
      invariant pending <= members && Distinct(out)
      invariant forall p :: p in out <==> p in members && p !in pending
      decreases pending
    {
      var p :| p in pending;
      pending := pending - {p};
      out := out + [p];
    }
  }

  /** Only a row without its key is refused; every other absent column has a default. */
  method Unmarshal(m: Item) returns (r: Option<Lease>)
    ensures r.None? <==> Decode(m).None?
    ensures r.Some? ==> View(r.value) == Decode(m).value
    ensures r.None? <==> LEASE_KEY !in m || !m[LEASE_KEY].S?
  {
    var key := Text(m, LEASE_KEY);
    if key.None? {
      return None;
    }
    var l := Lease(key.value, "", 0, "", []);
    var owner := Text(m, LEASE_OWNER);
    if owner.Some? {
      l := l.(owner := owner.value);
    }
    var checkpoint := Text(m, CHECKPOINT);
    if checkpoint.Some? {
      l := l.(checkpoint := checkpoint.value);
    }
    if LEASE_COUNTER in m && m[LEASE_COUNTER].N? {
      l := l.(counter := m[LEASE_COUNTER].number);
    }
    if PARENTS in m {
      match m[PARENTS] {
        case SS(members) =>
          var ids := ToSequence(members);
          l := l.(parentIds := ids);
        case S(text) =>
          if text != "" {
            l := l.(parentIds := Split(text, ','));
          }
        case N(_) =>
      }
    }
    return Some(l);
  }

  /** Marshalling loses nothing but the order and repetition of the parents. */
  lemma MarshalRoundTrip(l: Lease)
    ensures Decode(Marshal(l)) == Some(View(l))
    ensures WellKept(Marshal(l), l.shardId)
  {
    if |l.parentIds| == 0 {
      assert View(l).parents == {};
    }
  }

  // ------------------------------------------------------------ refinement

  /** A row as this store writes it: keyed, counted, and with an owner column only when owned. */
  predicate WellKept(item: Item, key: string) {
    && Text(item, LEASE_KEY) == Some(key)
    && LEASE_COUNTER in item && item[LEASE_COUNTER].N?
    && (LEASE_OWNER in item ==> item[LEASE_OWNER].S? && item[LEASE_OWNER].text != "")
  }

  predicate Keeps(item: Item, key: string, l: Lease) {
    WellKept(item, key) && Decode(item) == Some(View(l))
  }

  /** The items and the memory table say the same, row by row. */
  ghost predicate Stored(items: map<string, Item>, t: Table) {
    items.Keys == t.Keys && forall s :: s in t ==> Keeps(items[s], s, t[s])
  }

  /** The calls that write through UpdateItem. */
  predicate Updates(call: Call) {
    call.Acquire? || call.Heartbeat? || call.Checkpoint? || call.Release?
  }

  /** The owner the caller claims to be; empty is nobody. */
  function Claimant(call: Call): string
    requires Updates(call)
  {
    match call
    case Acquire(_, owner, _) => owner
    case Heartbeat(l) => l.owner
    case Checkpoint(l, _) => l.owner
    case Release(l) => l.owner
  }

  function OwnerCounterCondition(l: Lease): Condition {
    Both(Equals(LEASE_OWNER, S(l.owner)), Equals(LEASE_COUNTER, N(l.counter)))
  }

  function ConditionOf(call: Call): Condition
    requires Updates(call)
  {
    match call
    case Acquire(_, _, expected) => Equals(LEASE_COUNTER, N(expected))
    case Heartbeat(l) => OwnerCounterCondition(l)
    case Checkpoint(l, _) => OwnerCounterCondition(l)
    case Release(l) => OwnerCounterCondition(l)
  }

  function ActionsOf(call: Call): seq<Action>
    requires Updates(call)
  {
    match call
    case Acquire(_, owner, expected) => [Set(LEASE_OWNER, S(owner)), Set(LEASE_COUNTER, N(expected + 1))]
    case Heartbeat(l) => [Set(LEASE_COUNTER, N(l.counter + 1))]
    case Checkpoint(l, seqNo) => [Set(CHECKPOINT, S(seqNo)), Set(LEASE_COUNTER, N(l.counter + 1))]
    case Release(l) => [Set(LEASE_COUNTER, N(l.counter + 1)), Remove(LEASE_OWNER)]
  }

  /** What a condition sees at `key`: the item, or no attributes at all. */
  function Seen(items: map<string, Item>, key: string): Item {
    if key in items then items[key] else map[]
  }

  /** The DynamoDB fence passes exactly when the memory fence does and the claimant is somebody. */
  lemma FenceAgrees(items: map<string, Item>, t: Table, call: Call)
    requires Stored(items, t) && Updates(call)
    ensures call.Acquire? ==> (Holds(ConditionOf(call), Seen(items, call.Target()))
      <==> call.shardId in t && t[call.shardId].counter == call.expected)
    ensures !call.Acquire? ==> (Holds(ConditionOf(call), Seen(items, call.Target()))
      <==> Fenced(t, call.lease) && call.lease.owner != "")
  {
    var s := call.Target();
    if s in t {
      assert Keeps(items[s], s, t[s]);
    }
  }

  /** The row a successful call leaves in the memory table. */
  function NewRow(row: Lease, call: Call): Lease
    requires Updates(call)
  {
    match call
    case Acquire(_, owner, _) => AcquiredRow(row, owner)
    case Heartbeat(_) => HeartbeatRow(row)
    case Checkpoint(_, seqNo) => CheckpointRow(row, seqNo)
    case Release(_) => ReleasedRow(row)
  }

  lemma ApplyIsNewRow(t: Table, call: Call)
    requires Updates(call) && Apply(t, call).1.None?
    ensures call.Target() in t && Apply(t, call).0 == t[call.Target() := NewRow(t[call.Target()], call)]
  {
  }

  lemma WriteKeeps(item: Item, row: Lease, call: Call)
    requires Updates(call) && Keeps(item, call.Target(), row) && Claimant(call) != ""
    requires Holds(ConditionOf(call), item)
    ensures Keeps(Updated(item, ActionsOf(call)), call.Target(), NewRow(row, call))
  {
    var actions := ActionsOf(call);
    if |actions| == 1 {
      UpdatedOne(item, actions[0]);
    } else {
      UpdatedTwo(item, actions[0], actions[1]);
    }
  }

  lemma StoredWrite(items: map<string, Item>, t: Table, s: string, item: Item, row: Lease)
    requires Stored(items, t) && Keeps(item, s, row)
    ensures Stored(items[s := item], t[s := row])
  {
  }

  /** One UpdateItem and one memory call: both go through or neither does, and they leave the
      same table. */
  lemma WriteRefines(items: map<string, Item>, t: Table, call: Call)
    requires Stored(items, t) && Updates(call) && Claimant(call) != ""
    ensures Holds(ConditionOf(call), Seen(items, call.Target())) <==> Apply(t, call).1.None?
    ensures Apply(t, call).1.None? ==> call.Target() in items
    ensures Apply(t, call).1.None? ==>
      Stored(items[call.Target() := Updated(items[call.Target()], ActionsOf(call))], Apply(t, call).0)
  {
    var s := call.Target();
    FenceAgrees(items, t, call);
    if Apply(t, call).1.None? {
      ApplyIsNewRow(t, call);
      WriteKeeps(items[s], t[s], call);
      StoredWrite(items, t, s, Updated(items[s], ActionsOf(call)), NewRow(t[s], call));
    }
  }

  /** A handle that names nobody as its owner. */
  predicate ByNobody(call: Call) {
    (call.Heartbeat? || call.Checkpoint? || call.Release?) && call.lease.owner == ""
  }

  /** The effect of a DynamoDB call in terms of the memory table: the memory store's own,
      except that a handle nobody owns is always refused. */
  function Effect(t: Table, call: Call): (Table, Option<StoreError>) {
    if ByNobody(call) then (t, Some(FenceError(t, call.lease))) else Apply(t, call)
  }

  function Effects(t: Table, calls: seq<Call>): Table {
    if calls == [] then t else Effect(Effects(t, calls[..|calls| - 1]), calls[|calls| - 1]).0
  }

  /** A row another program wrote without a counter lists as counter 0, yet no Acquire,
      Heartbeat, Checkpoint or Release of it can succeed at any counter. */
  lemma UncountedRowIsStuck(item: Item, call: Call)
    requires LEASE_COUNTER !in item && Updates(call)
    ensures Decode(item).Some? ==> Decode(item).value.counter == 0
    ensures !Holds(ConditionOf(call), item)
  {
  }

  /** The items after the service has carried out the write of `call`. */
  function Sent(items: map<string, Item>, call: Call): map<string, Item> {
    var s := call.Target();
    match call
    case Ensure(_, parents) => if s in items then items else items[s := Marshal(FreshRow(s, parents))]
    case Delete(_, expected) =>
      if Holds(Equals(LEASE_COUNTER, N(expected)), Seen(items, s)) then items - {s} else items
    case _ =>
      if call.Acquire? && call.owner == "" then items
      else if Holds(ConditionOf(call), Seen(items, s)) then items[s := Updated(Seen(items, s), ActionsOf(call))]
      else items
  }

  lemma EnsureRefines(items: map<string, Item>, t: Table, call: Call)
    requires Stored(items, t) && call.Ensure?
    ensures Stored(Sent(items, call), Apply(t, call).0)
  {
    MarshalRoundTrip(FreshRow(call.shardId, call.parentIds));
  }

  lemma DeleteRefines(items: map<string, Item>, t: Table, call: Call)
    requires Stored(items, t) && call.Delete?
    ensures Stored(Sent(items, call), Apply(t, call).0)
    ensures Holds(Equals(LEASE_COUNTER, N(call.expected)), Seen(items, call.shardId))
      <==> call.shardId in t && t[call.shardId].counter == call.expected
  {
    var s := call.shardId;
    if s in t {
      assert Keeps(items[s], s, t[s]);
    }
  }

  lemma SentRefines(items: map<string, Item>, t: Table, call: Call)
    requires Stored(items, t)
    ensures Stored(Sent(items, call), Effect(t, call).0)
  {
    if call.Ensure? {
      EnsureRefines(items, t, call);
    } else if call.Delete? {
      DeleteRefines(items, t, call);
    } else if Claimant(call) != "" {
      WriteRefines(items, t, call);
    } else if !call.Acquire? {
      FenceAgrees(items, t, call);
    }
  }

  lemma NobodyFencedOut(items: map<string, Item>, t: Table, call: Call)
    requires Stored(items, t) && ByNobody(call) && Fenced(t, call.lease)
    ensures Sent(items, call) == items && !Stored(items, Apply(t, call).0)
  {
    FenceAgrees(items, t, call);
    var s := call.lease.shardId;
    assert Keeps(items[s], s, t[s]);
  }

  /** Started in agreement, the two stores part on one family of calls only: a handle nobody owns,
      presented while its row is unowned at that counter. The memory store writes and DynamoDB does
      not; after every other call the items and the memory table agree again. */
  lemma StoresDifferOnlyForNobody(items: map<string, Item>, t: Table, call: Call)
    requires Stored(items, t)
    ensures Stored(Sent(items, call), Apply(t, call).0) <==> !(ByNobody(call) && Fenced(t, call.lease))
  {
    if ByNobody(call) && Fenced(t, call.lease) {
      NobodyFencedOut(items, t, call);
    } else {
      SentRefines(items, t, call);
    }
  }

  // ------------------------------------------------------------ the parent column

  /** The parent column as it is stored: none, a string set, or the older comma-joined string. */
  function ParentColumn(item: Item): Option<Attribute> {
    if PARENTS in item then Some(item[PARENTS]) else None
  }

  lemma UpdateKeepsParents(item: Item, call: Call)
    requires Updates(call)
    ensures ParentColumn(Updated(item, ActionsOf(call))) == ParentColumn(item)
  {
    var actions := ActionsOf(call);
    if |actions| == 1 {
      UpdatedOne(item, actions[0]);
    } else {
      UpdatedTwo(item, actions[0], actions[1]);
    }
  }

  lemma AbsentRefuses(call: Call)
    requires Updates(call)
    ensures !Holds(ConditionOf(call), map[])
  {
  }

  /** No call touches the parent column of a row that is there; a column is written only when Ensure
      creates the row, and then never in the older form. */
  lemma ParentsWrittenOnce(items: map<string, Item>, call: Call, s: string)
    requires s in Sent(items, call)
    ensures s in items ==> ParentColumn(Sent(items, call)[s]) == ParentColumn(items[s])
    ensures s !in items ==> call.Ensure? && call.shardId == s
    ensures s !in items && ParentColumn(Sent(items, call)[s]).Some? ==> ParentColumn(Sent(items, call)[s]).value.SS?
  {
    if Updates(call) {
      UpdateKeepsParents(Seen(items, s), call);
      AbsentRefuses(call);
    }
  }

  function AllSent(items: map<string, Item>, calls: seq<Call>): map<string, Item> {
    if calls == [] then items else Sent(AllSent(items, calls[..|calls| - 1]), calls[|calls| - 1])
  }

  /** The row of `s` is there before and after each of the calls. */
  ghost predicate Survives(items: map<string, Item>, calls: seq<Call>, s: string) {
    forall k :: 0 <= k <= |calls| ==> s in AllSent(items, calls[..k])
  }

  /** So rows never migrate: however often a row is rewritten, a comma-joined parent column stays one
      until the row is deleted. */
  lemma {:induction false} ParentsNeverMigrate(items: map<string, Item>, calls: seq<Call>, s: string)
    requires Survives(items, calls, s)
    ensures s in items && s in AllSent(items, calls)
    ensures ParentColumn(AllSent(items, calls)[s]) == ParentColumn(items[s])
  {
    assert calls[..|calls|] == calls && calls[..0] == [];
    assert s in AllSent(items, calls[..0]);
    if calls != [] {
      var front := calls[..|calls| - 1];
      forall k | 0 <= k <= |front| ensures s in AllSent(items, front[..k]) {
        assert front[..k] == calls[..k];
      }
      ParentsNeverMigrate(items, front, s);
      ParentsWrittenOnce(AllSent(items, front), calls[|calls| - 1], s);
    }
  }

  // ------------------------------------------------------------ the client

  datatype Reply = Done(attributes: Item) | ConditionFailed | Broken

  datatype Failure = Refused(error: StoreError) | Transport | Malformed

  datatype Answer = Granted(lease: Lease) | Failed(failure: Failure)

  /** What a row-returning call may answer, when it wrote at table `t`, `others` are the calls of
      other workers that took effect before its follow-up read, and `now` is the table at the end. */
  ghost predicate Answers(t: Table, call: Call, others: seq<Call>, now: Table, answer: Answer) {
    var s := call.Target();
    var (t', error) := Effect(t, call);
    match answer
    case Granted(l) => error.None? && now == t' && s in now && View(l) == View(now[s])
    case Failed(Refused(e)) =>
      if error == Some(EmptyOwner) then e == EmptyOwner && now == t
      else error.Some? && now == Effects(t, others) && e == (if s in now then LeaseConflict else LeaseNotFound)
    case Failed(Transport) => now == t || now == t' || (error.Some? && now == Effects(t, others))
    case Failed(Malformed) => false
  }

  /** A refused write may report a failed read, or the row as the read found it. */
  lemma RefusalAnswers(t: Table, call: Call, others: seq<Call>)
    requires Updates(call) && (call.Acquire? ==> call.owner != "") && Effect(t, call).1.Some?
    ensures var now := Effects(t, others);
      && Answers(t, call, others, now, Failed(Transport))
      && Answers(t, call, others, now, Failed(Refused(if call.Target() in now then LeaseConflict else LeaseNotFound)))
  {
  }

  /** With nobody interfering between the write and the read, and a handle somebody owns,
      every answer that came back at all is the memory store's. */
  lemma QuietAnswersAreMemorys(t: Table, call: Call, now: Table, answer: Answer)
    requires Updates(call) && !ByNobody(call) && Answers(t, call, [], now, answer)
    requires !(answer.Failed? && answer.failure.Transport?)
    ensures now == Apply(t, call).0
    ensures answer.Failed? ==> answer.failure == Refused(Apply(t, call).1.value) && Apply(t, call).1.Some?
    ensures answer.Granted? ==> Apply(t, call).1.None? && View(answer.lease) == View(now[call.Target()])
  {
  }

  /** The condition of a delete fails: no such row, or one at another counter. */
  predicate Refuses(t: Table, shardId: string, expectedCounter: int) {
    shardId in t ==> t[shardId].counter != expectedCounter
  }

  class Store {
    var items: map<string, Item>
    ghost var rows: Table

    ghost predicate Valid()
      reads this
    {
      Stored(items, rows)
    }

    constructor ()
      ensures Valid() && rows == map[]
    {
      items := map[];
      rows := map[];
    }

    // The service: each request is one atomic step, and an answer may be lost.

    method PutItem(key: string, item: Item, condition: Condition) returns (reply: Reply)
      modifies this`items
      ensures reply.ConditionFailed? ==> !Holds(condition, Seen(old(items), key))
      ensures reply.Done? ==> Holds(condition, Seen(old(items), key))
      ensures !reply.ConditionFailed? && items != old(items) ==>
        Holds(condition, Seen(old(items), key)) && items == old(items)[key := item]
      ensures reply.Done? ==> items == old(items)[key := item]
      ensures reply.ConditionFailed? ==> items == old(items)
    {
      if * {
        return Broken;
      }
      if !Holds(condition, Seen(items, key)) {
        return ConditionFailed;
      }
      items := items[key := item];
      if * {
        return Broken;
      }
      return Done(map[]);
    }

    method UpdateItem(key: string, actions: seq<Action>, condition: Condition) returns (reply: Reply)
      modifies this`items
      ensures reply.ConditionFailed? ==> !Holds(condition, Seen(old(items), key)) && items == old(items)
      ensures var base := if key in old(items) then old(items)[key] else map[LEASE_KEY := S(key)];
        var written := old(items)[key := Updated(base, actions)];
        && (reply.Done? ==> Holds(condition, Seen(old(items), key)) && items == written && reply.attributes == items[key])
        && (reply.Broken? && items != old(items) ==> Holds(condition, Seen(old(items), key)) && items == written)
    {
      if * {
        return Broken;
      }
      if !Holds(condition, Seen(items, key)) {
        return ConditionFailed;
      }
      var base := if key in items then items[key] else map[LEASE_KEY := S(key)];
      items := items[key := Updated(base, actions)];
      if * {
        return Broken;
      }
      return Done(items[key]);
    }

    method DeleteItem(key: string, condition: Condition) returns (reply: Reply)
      modifies this`items
      ensures reply.ConditionFailed? ==> !Holds(condition, Seen(old(items), key)) && items == old(items)
      ensures reply.Done? ==> Holds(condition, Seen(old(items), key)) && items == old(items) - {key}
      ensures reply.Broken? && items != old(items) ==>
        Holds(condition, Seen(old(items), key)) && items == old(items) - {key}
    {
      if * {
        return Broken;
      }
      if !Holds(condition, Seen(items, key)) {
        return ConditionFailed;
      }
      items := items - {key};
      if * {
        return Broken;
      }
      return Done(map[]);
    }

    /** Writes of other workers reach the table. */
    method OthersAct(others: seq<Call>)
      requires Valid()
      modifies this
      ensures Valid() && rows == Effects(old(rows), others)
    {
      for k := 0 to |others|
        invariant Valid() && rows == Effects(old(rows), others[..k])
      {
        SentRefines(items, rows, others[k]);
        items := Sent(items, others[k]);
        rows := Effect(rows, others[k]).0;
        assert others[..k + 1][..k] == others[..k];
      }
      assert others[..|others|] == others;
    }

    /** A consistent read, after whatever the others did since the failed write. */
    method RowExists(shardId: string, others: seq<Call>) returns (exists_: Option<bool>)
      requires Valid()
      modifies this
      ensures Valid() && rows == Effects(old(rows), others)
      ensures exists_.Some? ==> exists_.value == (shardId in rows)
    {
      OthersAct(others);
      if * {
        return None;
      }
      var item := Seen(items, shardId);
      if shardId in rows {
        assert Keeps(items[shardId], shardId, rows[shardId]);
        assert LEASE_KEY in item;
      }
      return Some(|item| > 0);
    }

    /** The conditional write, and its effect on the memory table. */
    method Write(shardId: string, actions: seq<Action>, condition: Condition, ghost call: Call) returns (reply: Reply)
      requires Valid()
      requires Updates(call) && (call.Acquire? ==> call.owner != "")
      requires shardId == call.Target() && actions == ActionsOf(call) && condition == ConditionOf(call)
      modifies this
      ensures Valid()
      ensures reply.ConditionFailed? ==> rows == old(rows) && Effect(old(rows), call).1.Some?
      ensures reply.Broken? ==> rows == old(rows) || rows == Effect(old(rows), call).0
      ensures reply.Done? ==> rows == Effect(old(rows), call).0 && Effect(old(rows), call).1.None?
      ensures reply.Done? ==> shardId in rows && Decode(reply.attributes) == Some(View(rows[shardId]))
    {
      SentRefines(items, rows, call);
      FenceAgrees(items, rows, call);
      ghost var before := items;
      reply := UpdateItem(shardId, actions, condition);
      if items != before {
        assert items == Sent(before, call);
        rows := Effect(rows, call).0;
      }
    }

    method Update(shardId: string, actions: seq<Action>, condition: Condition, others: seq<Call>, ghost call: Call)
      returns (r: Answer)
      requires Valid()
      requires Updates(call) && (call.Acquire? ==> call.owner != "")
      requires shardId == call.Target() && actions == ActionsOf(call) && condition == ConditionOf(call)
      modifies this
      ensures Valid() && Answers(old(rows), call, others, rows, r)
    {
      ghost var t := rows;
      var reply := Write(shardId, actions, condition, call);
      match reply {
        case ConditionFailed =>
          var found := RowExists(shardId, others);
          RefusalAnswers(t, call, others);
          return if found.None? then Failed(Transport)
            else Failed(Refused(if found.value then LeaseConflict else LeaseNotFound));
        case Broken =>
          return Failed(Transport);
        case Done(attributes) =>
          var l := Unmarshal(attributes);
          return if l.None? then Failed(Malformed) else Granted(l.value);
      }
    }

    method AcquireLease(shardId: string, owner: string, expectedCounter: int, others: seq<Call>) returns (r: Answer)
      requires Valid()
      modifies this
      ensures Valid() && Answers(old(rows), Acquire(shardId, owner, expectedCounter), others, rows, r)
    {
      if owner == "" {
        return Failed(Refused(EmptyOwner));
      }
      var actions := [Set(LEASE_OWNER, S(owner)), Set(LEASE_COUNTER, N(expectedCounter + 1))];
      var condition := Equals(LEASE_COUNTER, N(expectedCounter));
      r := Update(shardId, actions, condition, others, Acquire(shardId, owner, expectedCounter));
    }

    method HeartbeatLease(lease: Lease, others: seq<Call>) returns (r: Answer)
      requires Valid()
      modifies this
      ensures Valid() && Answers(old(rows), Heartbeat(lease), others, rows, r)
    {
      var actions := [Set(LEASE_COUNTER, N(lease.counter + 1))];
      r := Update(lease.shardId, actions, OwnerCounterCondition(lease), others, Heartbeat(lease));
    }

    method CheckpointLease(lease: Lease, seqNo: string, others: seq<Call>) returns (r: Answer)
      requires Valid()
      modifies this
      ensures Valid() && Answers(old(rows), Checkpoint(lease, seqNo), others, rows, r)
    {
      var actions := [Set(CHECKPOINT, S(seqNo)), Set(LEASE_COUNTER, N(lease.counter + 1))];
      r := Update(lease.shardId, actions, OwnerCounterCondition(lease), others, Checkpoint(lease, seqNo));
    }

    method ReleaseLease(lease: Lease, others: seq<Call>) returns (failure: Option<Failure>)
      requires Valid()
      modifies this
      ensures Valid()
      ensures failure.None? ==> Apply(old(rows), Release(lease)) == (rows, None)
      ensures failure.Some? ==> Answers(old(rows), Release(lease), others, rows, Failed(failure.value))
    {
      var actions := [Set(LEASE_COUNTER, N(lease.counter + 1)), Remove(LEASE_OWNER)];
      var r := Update(lease.shardId, actions, OwnerCounterCondition(lease), others, Release(lease));
      failure := if r.Failed? then Some(r.failure) else None;
    }

    /** A failed condition means the row is there, which is what was asked for. */
    method EnsureRow(shardId: string, parentIds: seq<string>) returns (failure: Option<Failure>)
      requires Valid()
      modifies this
      ensures Valid()
      ensures failure.None? ==> rows == Apply(old(rows), Ensure(shardId, parentIds)).0 && shardId in rows
      ensures failure.Some? ==> failure.value.Transport?
      ensures rows in {old(rows), Apply(old(rows), Ensure(shardId, parentIds)).0}
    {
      ghost var before := items;
      SentRefines(items, rows, Ensure(shardId, parentIds));
      var fresh_ := Lease(shardId, "", 0, TRIM_HORIZON, parentIds);
      var reply := PutItem(shardId, Marshal(fresh_), NotExists(LEASE_KEY));
      if shardId in rows {
        assert Keeps(before[shardId], shardId, rows[shardId]);
      }
      if items != before {
        rows := Apply(rows, Ensure(shardId, parentIds)).0;
      }
      return if reply.Broken? then Some(Transport) else None;
    }

    /** Deleting a row that is gone succeeds; a conflict is reported only for a row that was there
        when it was looked at, and then nothing was deleted. */
    method DeleteRow(shardId: string, expectedCounter: int, others: seq<Call>) returns (failure: Option<Failure>)
      requires Valid()
      modifies this
      ensures Valid()
      ensures failure.None? ==> shardId !in rows
      ensures failure.None? && Refuses(old(rows), shardId, expectedCounter) ==> rows == Effects(old(rows), others)
      ensures failure.None? && !Refuses(old(rows), shardId, expectedCounter) ==> rows == old(rows) - {shardId}
      ensures failure.Some? && failure.value.Refused? ==> failure.value.error == LeaseConflict && shardId in rows
      ensures failure.Some? && failure.value.Refused? ==> Refuses(old(rows), shardId, expectedCounter)
      ensures failure.Some? && failure.value.Refused? ==> rows == Effects(old(rows), others)
      ensures failure == Some(Transport) && Refuses(old(rows), shardId, expectedCounter) ==>
        rows in {old(rows), Effects(old(rows), others)}
      ensures failure == Some(Transport) && !Refuses(old(rows), shardId, expectedCounter) ==>
        rows in {old(rows), old(rows) - {shardId}}
      ensures failure != Some(Malformed)
    {
      ghost var before := items;
      SentRefines(items, rows, Delete(shardId, expectedCounter));
      DeleteRefines(items, rows, Delete(shardId, expectedCounter));
      var reply := DeleteItem(shardId, Equals(LEASE_COUNTER, N(expectedCounter)));
      if items != before {
        rows := Apply(rows, Delete(shardId, expectedCounter)).0;
      }
      if reply.ConditionFailed? {
        var found := RowExists(shardId, others);
        if found.None? {
          return Some(Transport);
        }
        return if found.value then Some(Refused(LeaseConflict)) else None;
      }
      return if reply.Broken? then Some(Transport) else None;
    }
  }
}
