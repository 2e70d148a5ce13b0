/** The recovery chain for a batch too big for one record: exporter/awskinesisexporter/oversize.go. */
module Oversize {
  import opened Sequences
  import opened Config

  type Bytes = seq<bv8>

  const MARSHAL_ERROR := "marshal_error"
  const COMPRESS_ERROR := "compress_error"
  const MAX_ATTEMPTS := "max_attempts"
  const IRREDUCIBLE := "irreducible"
  const REJECTED := "reject_policy"
  const EXHAUSTED := "chain_exhausted"

  /** One signal's adapter together with the exporter's limits. `leaves` names what a batch
      holds: its items, each as the truncation policy would leave it. */
  datatype Pipeline<!T, +K> = Pipeline(
    cfg: Config,
    marshal: T -> Option<Bytes>,
    compress: Bytes -> Option<Bytes>,
    split: T -> Option<(T, T)>,
    truncate: Option<(T, int) -> (T, nat)>,
    leaves: T -> seq<K>)
  {
    function Items(b: T): nat { |leaves(b)| }
  }

  /** The signal adapters' promise: splitting and truncating keep every leaf, in order. */
  ghost predicate Lawful<T(!new), K>(x: Pipeline<T, K>) {
    && (forall b: T :: x.split(b).Some? ==> x.leaves(x.split(b).value.0) + x.leaves(x.split(b).value.1) == x.leaves(b))
    && (x.truncate.Some? ==> forall b: T :: x.leaves(Truncated(x, b)) == x.leaves(b))
  }

  function Truncated<T, K>(x: Pipeline<T, K>, b: T): T
    requires x.truncate.Some?
  {
    x.truncate.value(b, x.cfg.maxAttributeValueBytes).0
  }

  // ------------------------------------------------------------ drops

  datatype Drop = Drop(count: nat, reason: string)

  function CountFor(drops: seq<Drop>, reason: string): nat {
    if drops == [] then 0
    else
      var last := drops[|drops| - 1];
      CountFor(drops[..|drops| - 1], reason) + if last.reason == reason then last.count else 0
  }

  function Total(drops: seq<Drop>): nat {
    if drops == [] then 0 else Total(drops[..|drops| - 1]) + drops[|drops| - 1].count
  }

  /** One entry a reason, none of them empty. */
  ghost predicate Coalesced(drops: seq<Drop>) {
    && (forall i :: 0 <= i < |drops| ==> drops[i].count > 0)
    && (forall i, j :: 0 <= i < j < |drops| ==> drops[i].reason != drops[j].reason)
  }

  lemma DropsSnoc(drops: seq<Drop>, d: Drop, reason: string)
    ensures CountFor(drops + [d], reason) == CountFor(drops, reason) + if d.reason == reason then d.count else 0
    ensures Total(drops + [d]) == Total(drops) + d.count
  {
    assert (drops + [d])[..|drops|] == drops;
  }

  lemma {:induction false} Bumped(drops: seq<Drop>, i: nat, count: nat, reason: string)
    requires i < |drops|
    ensures var bigger := drops[i := Drop(drops[i].count + count, drops[i].reason)];
      && CountFor(bigger, reason) == CountFor(drops, reason) + (if drops[i].reason == reason then count else 0)
      && Total(bigger) == Total(drops) + count
  {
    var bigger := drops[i := Drop(drops[i].count + count, drops[i].reason)];
    var n := |drops| - 1;
    if i == n {
      assert bigger[..n] == drops[..n];
    } else {
      assert bigger[..n] == drops[..n][i := Drop(drops[i].count + count, drops[i].reason)];
      Bumped(drops[..n], i, count, reason);
    }
  }

  method AddReason(drops: seq<Drop>, count: nat, reason: string) returns (out: seq<Drop>)
    requires Coalesced(drops)
    ensures Coalesced(out) && Total(out) == Total(drops) + count
    ensures forall r :: CountFor(out, r) == CountFor(drops, r) + if r == reason then count else 0
  {
    if count == 0 {
      return drops;
    }
    for i := 0 to |drops|
      invariant forall k :: 0 <= k < i ==> drops[k].reason != reason
    {
      if drops[i].reason == reason {
        Bumped(drops, i, count, reason);
        forall r {
          Bumped(drops, i, count, r);
        }
        return drops[i := Drop(drops[i].count + count, reason)];
      }
    }
    DropsSnoc(drops, Drop(count, reason), reason);
    forall r {
      DropsSnoc(drops, Drop(count, reason), r);
    }
    return drops + [Drop(count, reason)];
  }

  /** Merging is additive, reason by reason and in total. */
  method Merge(drops: seq<Drop>, others: seq<Drop>) returns (out: seq<Drop>)
    requires Coalesced(drops)
    ensures Coalesced(out) && Total(out) == Total(drops) + Total(others)
    ensures forall r :: CountFor(out, r) == CountFor(drops, r) + CountFor(others, r)
  {
    out := drops;
    for i := 0 to |others|
      invariant Coalesced(out) && Total(out) == Total(drops) + Total(others[..i])
      invariant forall r :: CountFor(out, r) == CountFor(drops, r) + CountFor(others[..i], r)
    {
      forall r {
        DropsSnoc(others[..i], others[i], r);
      }
      assert others[..i + 1] == others[..i] + [others[i]];
      out := AddReason(out, others[i].count, others[i].reason);
    }
    assert others[..|others|] == others;
  }

  // ------------------------------------------------------------ where a batch ends up

  /** One attempt to make a record of a batch. */
  datatype Attempt = Fits(payload: Bytes) | TooBig | Failed(reason: string)

  function TryEncode<T, K>(x: Pipeline<T, K>, b: T): Attempt {
    var raw := x.marshal(b);
    if raw.None? then Failed(MARSHAL_ERROR)
    else
      var payload := x.compress(raw.value);
      if payload.None? then Failed(COMPRESS_ERROR)
      else if |payload.value| + x.cfg.KeyOverhead() <= x.cfg.maxRecordSize then Fits(payload.value)
      else TooBig
  }

  /** An encoding error ends the matter, unless there is nothing in the batch to lose. */
  predicate Fatal<T, K>(x: Pipeline<T, K>, b: T) {
    TryEncode(x, b).Failed? && x.Items(b) > 0
  }

  /** A part of the batch and its fate. */
  datatype Piece<T> = Shipped(batch: T, payload: Bytes) | Dropped(batch: T, reason: string)

  function SplitPieces<T, K>(x: Pipeline<T, K>, b: T, depth: nat): seq<Piece<T>>
    decreases x.cfg.maxAttempts - depth
  {
    var attempt := TryEncode(x, b);
    if Fatal(x, b) then [Dropped(b, attempt.reason)]
    else if attempt.Fits? then [Shipped(b, attempt.payload)]
    else if depth >= x.cfg.maxAttempts then [Dropped(b, MAX_ATTEMPTS)]
    else if x.split(b).None? then [Dropped(b, IRREDUCIBLE)]
    else SplitPieces(x, x.split(b).value.0, depth + 1) + SplitPieces(x, x.split(b).value.1, depth + 1)
  }

  /** The chain from `policies` on, for a batch already found too big. */
  function ChainFrom<T, K>(x: Pipeline<T, K>, policies: seq<string>, b: T): seq<Piece<T>> {
    if policies == [] then [Dropped(b, EXHAUSTED)]
    else if policies[0] == SPLIT_HALF then SplitPieces(x, b, 0)
    else if policies[0] == REJECT then [Dropped(b, REJECTED)]
    else if policies[0] != TRUNCATE || x.truncate.None? then ChainFrom(x, policies[1..], b)
    else
      var (trimmed, changed) := x.truncate.value(b, x.cfg.maxAttributeValueBytes);
      if changed == 0 || Fatal(x, trimmed) then ChainFrom(x, policies[1..], b)
      else if TryEncode(x, trimmed).Fits? then [Shipped(trimmed, TryEncode(x, trimmed).payload)]
      else ChainFrom(x, policies[1..], trimmed)
  }

  function Chain<T, K>(x: Pipeline<T, K>, b: T): seq<Piece<T>> {
    var attempt := TryEncode(x, b);
    if Fatal(x, b) then [Dropped(b, attempt.reason)]
    else if attempt.Fits? then [Shipped(b, attempt.payload)]
    else ChainFrom(x, x.cfg.policies, b)
  }

  lemma SplitNotEmpty<T, K>(x: Pipeline<T, K>, b: T, depth: nat)
    ensures SplitPieces(x, b, depth) != []
    decreases x.cfg.maxAttempts - depth
  {
    if depth < x.cfg.maxAttempts && x.split(b).Some? {
      SplitNotEmpty(x, x.split(b).value.0, depth + 1);
    }
  }

  /** The batch is given up whole, because of an encoding error. */
  predicate LostToEncoder<T(==), K>(x: Pipeline<T, K>, b: T, pieces: seq<Piece<T>>) {
    pieces == [Dropped(b, MARSHAL_ERROR)] || pieces == [Dropped(b, COMPRESS_ERROR)]
  }

  lemma {:induction false} PoliciesLoseOnlyFatal<T, K>(x: Pipeline<T, K>, policies: seq<string>, b: T, origin: T)
    requires !Fatal(x, origin) && (b != origin ==> !Fatal(x, b))
    ensures !LostToEncoder(x, origin, ChainFrom(x, policies, b))
  {
    if policies == [] || policies[0] == REJECT {
    } else if policies[0] == SPLIT_HALF {
      SplitLabels(x, b, 0, origin);
    } else if policies[0] != TRUNCATE || x.truncate.None? {
      PoliciesLoseOnlyFatal(x, policies[1..], b, origin);
    } else {
      var (trimmed, changed) := x.truncate.value(b, x.cfg.maxAttributeValueBytes);
      if changed == 0 || Fatal(x, trimmed) {
        PoliciesLoseOnlyFatal(x, policies[1..], b, origin);
      } else if !TryEncode(x, trimmed).Fits? {
        PoliciesLoseOnlyFatal(x, policies[1..], trimmed, origin);
      }
    }
  }

  lemma SplitLabels<T, K>(x: Pipeline<T, K>, b: T, depth: nat, origin: T)
    requires !Fatal(x, origin) && (b != origin ==> !Fatal(x, b))
    ensures !LostToEncoder(x, origin, SplitPieces(x, b, depth))
  {
    assert !Fatal(x, b);
    if !TryEncode(x, b).Fits? && depth < x.cfg.maxAttempts && x.split(b).Some? {
      SplitNotEmpty(x, x.split(b).value.0, depth + 1);
      SplitNotEmpty(x, x.split(b).value.1, depth + 1);
      assert |SplitPieces(x, b, depth)| >= 2;
    }
  }

  /** An encoding error ends the chain at once exactly when there is something to lose: with items in
      the batch it is dropped whole under that label, without any the chain goes on as for a batch that
      is too big. */
  lemma EncodingErrorIsFinalIff<T, K>(x: Pipeline<T, K>, b: T)
    ensures LostToEncoder(x, b, Chain(x, b)) <==> TryEncode(x, b).Failed? && x.Items(b) > 0
    ensures TryEncode(x, b).Failed? && x.Items(b) == 0 ==> Chain(x, b) == ChainFrom(x, x.cfg.policies, b)
  {
    if !Fatal(x, b) && !TryEncode(x, b).Fits? {
      PoliciesLoseOnlyFatal(x, x.cfg.policies, b, b);
    }
  }

  /** A batch of two states, neither with items: the whole one cannot be marshalled, the truncated one
      can. */
  function HollowPipeline(cfg: Config): Pipeline<bool, nat> {
    Pipeline(cfg, (trimmed: bool) => if trimmed then Some([]) else None, (raw: Bytes) => Some(raw),
             (b: bool) => None, Some((b: bool, max: int) => (true, 1)), (b: bool) => [])
  }

  /** The marshaller fails on a batch without items, and the chain goes on to ship it truncated. */
  lemma HollowBatchShips(cfg: Config)
    requires cfg.policies == [TRUNCATE] && cfg.KeyOverhead() <= cfg.maxRecordSize
    ensures var x := HollowPipeline(cfg);
      Lawful(x) && TryEncode(x, false) == Failed(MARSHAL_ERROR) && Chain(x, false) == [Shipped(true, [])]
  {
  }

  function Payloads<T>(pieces: seq<Piece<T>>): seq<Bytes> {
    if pieces == [] then []
    else
      var last := pieces[|pieces| - 1];
      Payloads(pieces[..|pieces| - 1]) + if last.Shipped? then [last.payload] else []
  }

  function DroppedFor<T, K>(x: Pipeline<T, K>, pieces: seq<Piece<T>>, reason: string): nat {
    if pieces == [] then 0
    else
      var last := pieces[|pieces| - 1];
      DroppedFor(x, pieces[..|pieces| - 1], reason)
      + if last.Dropped? && last.reason == reason then x.Items(last.batch) else 0
  }

  function DroppedItems<T, K>(x: Pipeline<T, K>, pieces: seq<Piece<T>>): nat {
    if pieces == [] then 0
    else
      var last := pieces[|pieces| - 1];
      DroppedItems(x, pieces[..|pieces| - 1]) + if last.Dropped? then x.Items(last.batch) else 0
  }

  /** The leaves of the pieces, one after the other. */
  function PieceLeaves<T, K>(x: Pipeline<T, K>, pieces: seq<Piece<T>>): seq<K> {
    if pieces == [] then []
    else PieceLeaves(x, pieces[..|pieces| - 1]) + x.leaves(pieces[|pieces| - 1].batch)
  }

  function ShippedItems<T, K>(x: Pipeline<T, K>, pieces: seq<Piece<T>>): nat {
    if pieces == [] then 0
    else
      var last := pieces[|pieces| - 1];
      ShippedItems(x, pieces[..|pieces| - 1]) + if last.Shipped? then x.Items(last.batch) else 0
  }

  lemma {:induction false} PayloadsConcat<T>(p: seq<Piece<T>>, q: seq<Piece<T>>)
    ensures Payloads(p + q) == Payloads(p) + Payloads(q)
  {
    if q == [] {
      assert p + q == p;
    } else {
      var front, last := q[..|q| - 1], q[|q| - 1];
      assert (p + q)[..|p + q| - 1] == p + front;
      PayloadsConcat(p, front);
      ConcatAssociates(Payloads(p), Payloads(front), if last.Shipped? then [last.payload] else []);
    }
  }

  lemma {:induction false} PieceLeavesConcat<T, K>(x: Pipeline<T, K>, p: seq<Piece<T>>, q: seq<Piece<T>>)
    ensures PieceLeaves(x, p + q) == PieceLeaves(x, p) + PieceLeaves(x, q)
  {
    if q == [] {
      assert p + q == p;
    } else {
      var front, last := q[..|q| - 1], q[|q| - 1];
      assert (p + q)[..|p + q| - 1] == p + front;
      PieceLeavesConcat(x, p, front);
      ConcatAssociates(PieceLeaves(x, p), PieceLeaves(x, front), x.leaves(last.batch));
    }
  }

  lemma {:induction false} DroppedConcat<T, K>(x: Pipeline<T, K>, p: seq<Piece<T>>, q: seq<Piece<T>>, reason: string)
    ensures DroppedFor(x, p + q, reason) == DroppedFor(x, p, reason) + DroppedFor(x, q, reason)
    ensures DroppedItems(x, p + q) == DroppedItems(x, p) + DroppedItems(x, q)
  {
    if q == [] {
      assert p + q == p;
    } else {
      var front := q[..|q| - 1];
      assert (p + q)[..|p + q| - 1] == p + front;
      DroppedConcat(x, p, front, reason);
    }
  }

  lemma PiecesConcat<T, K>(x: Pipeline<T, K>, p: seq<Piece<T>>, q: seq<Piece<T>>, reason: string)
    ensures Payloads(p + q) == Payloads(p) + Payloads(q)
    ensures PieceLeaves(x, p + q) == PieceLeaves(x, p) + PieceLeaves(x, q)
    ensures DroppedFor(x, p + q, reason) == DroppedFor(x, p, reason) + DroppedFor(x, q, reason)
    ensures DroppedItems(x, p + q) == DroppedItems(x, p) + DroppedItems(x, q)
  {
    PayloadsConcat(p, q);
    PieceLeavesConcat(x, p, q);
    DroppedConcat(x, p, q, reason);
  }

  lemma PieceOne<T, K>(x: Pipeline<T, K>, p: Piece<T>, reason: string)
    ensures Payloads([p]) == if p.Shipped? then [p.payload] else []
    ensures PieceLeaves(x, [p]) == x.leaves(p.batch)
    ensures DroppedFor(x, [p], reason) == if p.Dropped? && p.reason == reason then x.Items(p.batch) else 0
    ensures DroppedItems(x, [p]) == if p.Dropped? then x.Items(p.batch) else 0
  {
    assert [p][..0] == [];
  }

  /** What a packer has to hand back for `pieces`: the payloads in order, and the losses by reason. */
  ghost predicate Accounts<T, K>(x: Pipeline<T, K>, pieces: seq<Piece<T>>, payloads: seq<Bytes>, drops: seq<Drop>) {
    && payloads == Payloads(pieces)
    && Coalesced(drops) && Total(drops) == DroppedItems(x, pieces)
    && forall r :: CountFor(drops, r) == DroppedFor(x, pieces, r)
  }

  method One(count: nat, reason: string) returns (drops: seq<Drop>)
    ensures Coalesced(drops) && Total(drops) == count
    ensures forall r :: CountFor(drops, r) == if r == reason then count else 0
  {
    drops := AddReason([], count, reason);
  }

  lemma OneAccounts<T, K>(x: Pipeline<T, K>, p: Piece<T>, drops: seq<Drop>)
    requires p.Dropped? && Coalesced(drops) && Total(drops) == x.Items(p.batch)
    requires forall r :: CountFor(drops, r) == if r == p.reason then x.Items(p.batch) else 0
    ensures Accounts(x, [p], [], drops)
  {
    PieceOne(x, p, p.reason);
    forall r {
      PieceOne(x, p, r);
    }
  }

  lemma ShippedAccounts<T, K>(x: Pipeline<T, K>, p: Piece<T>)
    requires p.Shipped?
    ensures Accounts(x, [p], [p.payload], [])
  {
    PieceOne(x, p, "");
    forall r {
      PieceOne(x, p, r);
    }
  }

  lemma JoinAccounts<T, K>(x: Pipeline<T, K>, p: seq<Piece<T>>, q: seq<Piece<T>>, pa: seq<Bytes>, pb: seq<Bytes>,
                           da: seq<Drop>, db: seq<Drop>, drops: seq<Drop>)
    requires Accounts(x, p, pa, da) && Accounts(x, q, pb, db)
    requires Coalesced(drops) && Total(drops) == Total(da) + Total(db)
    requires forall r :: CountFor(drops, r) == CountFor(da, r) + CountFor(db, r)
    ensures Accounts(x, p + q, pa + pb, drops)
  {
    forall r
      ensures CountFor(drops, r) == DroppedFor(x, p + q, r)
    {
      PiecesConcat(x, p, q, r);
    }
    PiecesConcat(x, p, q, "");
  }

  method PackSplit<T, K>(x: Pipeline<T, K>, b: T, depth: nat) returns (payloads: seq<Bytes>, drops: seq<Drop>)
    ensures Accounts(x, SplitPieces(x, b, depth), payloads, drops)
    decreases x.cfg.maxAttempts - depth
  {
    var attempt := TryEncode(x, b);
    if attempt.Failed? && x.Items(b) > 0 {
      drops := One(x.Items(b), attempt.reason);
      OneAccounts(x, Dropped(b, attempt.reason), drops);
      return [], drops;
    }
    if attempt.Fits? {
      ShippedAccounts(x, Shipped(b, attempt.payload));
      return [attempt.payload], [];
    }
    if depth >= x.cfg.maxAttempts {
      drops := One(x.Items(b), MAX_ATTEMPTS);
      OneAccounts(x, Dropped(b, MAX_ATTEMPTS), drops);
      return [], drops;
    }
    var halves := x.split(b);
    if halves.None? {
      drops := One(x.Items(b), IRREDUCIBLE);
      OneAccounts(x, Dropped(b, IRREDUCIBLE), drops);
      return [], drops;
    }
    var pa, da := PackSplit(x, halves.value.0, depth + 1);
    var pb, db := PackSplit(x, halves.value.1, depth + 1);
    drops := Merge(da, db);
    JoinAccounts(x, SplitPieces(x, halves.value.0, depth + 1), SplitPieces(x, halves.value.1, depth + 1),
      pa, pb, da, db, drops);
    payloads := pa + pb;
  }

  method PackChain<T, K>(x: Pipeline<T, K>, b: T) returns (payloads: seq<Bytes>, drops: seq<Drop>)
    ensures Accounts(x, Chain(x, b), payloads, drops)
  {
    var attempt := TryEncode(x, b);
    if attempt.Failed? && x.Items(b) > 0 {
      drops := One(x.Items(b), attempt.reason);
      OneAccounts(x, Dropped(b, attempt.reason), drops);
      return [], drops;
    }
    if attempt.Fits? {
      ShippedAccounts(x, Shipped(b, attempt.payload));
      return [attempt.payload], [];
    }
    var current := b;
    var policies := x.cfg.policies;
    for i := 0 to |policies|
      invariant Chain(x, b) == ChainFrom(x, policies[i..], current)
    {
      assert policies[i..][1..] == policies[i + 1..];
      if policies[i] == TRUNCATE {
        if x.truncate.None? {
          continue;
        }
        var (trimmed, n) := x.truncate.value(current, x.cfg.maxAttributeValueBytes);
        if n == 0 {
          continue;
        }
        var again := TryEncode(x, trimmed);
        if again.Failed? && x.Items(trimmed) > 0 {
          continue;
        }
        if again.Fits? {
          ShippedAccounts(x, Shipped(trimmed, again.payload));
          return [again.payload], [];
        }
        current := trimmed;
      } else if policies[i] == SPLIT_HALF {
        payloads, drops := PackSplit(x, current, 0);
        return;
      } else if policies[i] == REJECT {
        drops := One(x.Items(current), REJECTED);
        OneAccounts(x, Dropped(current, REJECTED), drops);
        return [], drops;
      }
    }
    drops := One(x.Items(current), EXHAUSTED);
    OneAccounts(x, Dropped(current, EXHAUSTED), drops);
    return [], drops;
  }

  // ------------------------------------------------------------ what the chain guarantees

  lemma {:induction false} SplitConserves<T(!new), K>(x: Pipeline<T, K>, b: T, depth: nat)
    requires Lawful(x)
    ensures PieceLeaves(x, SplitPieces(x, b, depth)) == x.leaves(b)
    decreases x.cfg.maxAttempts - depth
  {
    var pieces := SplitPieces(x, b, depth);
    if Fatal(x, b) || TryEncode(x, b).Fits? || depth >= x.cfg.maxAttempts || x.split(b).None? {
      PieceOne(x, pieces[0], "");
    } else {
      var (a, c) := x.split(b).value;
      SplitConserves(x, a, depth + 1);
      SplitConserves(x, c, depth + 1);
      PiecesConcat(x, SplitPieces(x, a, depth + 1), SplitPieces(x, c, depth + 1), "");
    }
  }

  lemma {:induction false} ChainFromConserves<T(!new), K>(x: Pipeline<T, K>, policies: seq<string>, b: T)
    requires Lawful(x)
    ensures PieceLeaves(x, ChainFrom(x, policies, b)) == x.leaves(b)
    decreases |policies|
  {
    if policies == [] {
      PieceOne(x, Dropped(b, EXHAUSTED), "");
    } else if policies[0] == SPLIT_HALF {
      SplitConserves(x, b, 0);
    } else if policies[0] == REJECT {
      PieceOne(x, Dropped(b, REJECTED), "");
    } else {
      ChainFromConserves(x, policies[1..], b);
      if x.truncate.Some? {
        var trimmed := Truncated(x, b);
        ChainFromConserves(x, policies[1..], trimmed);
        if TryEncode(x, trimmed).Fits? {
          PieceOne(x, Shipped(trimmed, TryEncode(x, trimmed).payload), "");
        }
      }
    }
  }

  /** Whatever the encoder and the policies do, each leaf of the batch is in exactly one piece,
      shipped or dropped, and the pieces keep the order of the batch. */
  lemma ChainConserves<T(!new), K>(x: Pipeline<T, K>, b: T)
    requires Lawful(x)
    ensures PieceLeaves(x, Chain(x, b)) == x.leaves(b)
  {
    if Fatal(x, b) || TryEncode(x, b).Fits? {
      PieceOne(x, Chain(x, b)[0], "");
    } else {
      ChainFromConserves(x, x.cfg.policies, b);
    }
  }

  lemma {:induction false} ItemsAddUp<T, K>(x: Pipeline<T, K>, pieces: seq<Piece<T>>)
    ensures ShippedItems(x, pieces) + DroppedItems(x, pieces) == |PieceLeaves(x, pieces)|
  {
    if pieces != [] {
      ItemsAddUp(x, pieces[..|pieces| - 1]);
    }
  }

  /** The items shipped and the drops reported add up to the items of the batch. */
  lemma NothingUnaccounted<T(!new), K>(x: Pipeline<T, K>, b: T, payloads: seq<Bytes>, drops: seq<Drop>)
    requires Lawful(x) && Accounts(x, Chain(x, b), payloads, drops)
    ensures ShippedItems(x, Chain(x, b)) + Total(drops) == x.Items(b)
  {
    ChainConserves(x, b);
    ItemsAddUp(x, Chain(x, b));
  }

  /** A piece says what happened: a shipped one is the encoding of its batch and within the record
      limit; a dropped one could not be shipped whole, and its label is the true reason. */
  ghost predicate Honest<T, K>(x: Pipeline<T, K>, p: Piece<T>) {
    match p
    case Shipped(b, payload) => TryEncode(x, b) == Fits(payload)
    case Dropped(b, reason) =>
      && !TryEncode(x, b).Fits?
      && ((Fatal(x, b) && reason == TryEncode(x, b).reason)
          || (reason == MAX_ATTEMPTS && SPLIT_HALF in x.cfg.policies)
          || (reason == IRREDUCIBLE && SPLIT_HALF in x.cfg.policies && x.split(b).None?)
          || (reason == REJECTED && REJECT in x.cfg.policies)
          || (reason == EXHAUSTED && SPLIT_HALF !in x.cfg.policies && REJECT !in x.cfg.policies))
  }

  ghost predicate AllHonest<T, K>(x: Pipeline<T, K>, pieces: seq<Piece<T>>) {
    forall i :: 0 <= i < |pieces| ==> Honest(x, pieces[i])
  }

  lemma {:induction false} SplitHonest<T, K>(x: Pipeline<T, K>, b: T, depth: nat)
    requires SPLIT_HALF in x.cfg.policies
    ensures AllHonest(x, SplitPieces(x, b, depth))
    decreases x.cfg.maxAttempts - depth
  {
    if !(Fatal(x, b) || TryEncode(x, b).Fits? || depth >= x.cfg.maxAttempts || x.split(b).None?) {
      SplitHonest(x, x.split(b).value.0, depth + 1);
      SplitHonest(x, x.split(b).value.1, depth + 1);
    }
  }

  /** `done` policies have been passed without ending the chain. */
  lemma {:induction false} ChainFromHonest<T, K>(x: Pipeline<T, K>, done: nat, b: T)
    requires done <= |x.cfg.policies| && !TryEncode(x, b).Fits?
    requires SPLIT_HALF !in x.cfg.policies[..done] && REJECT !in x.cfg.policies[..done]
    ensures AllHonest(x, ChainFrom(x, x.cfg.policies[done..], b))
    decreases |x.cfg.policies| - done
  {
    var policies := x.cfg.policies;
    if done == |policies| {
      assert policies[..done] == policies;
    } else {
      assert policies[done..][0] == policies[done];
      assert policies[done..][1..] == policies[done + 1..];
      if policies[done] == SPLIT_HALF {
        SplitHonest(x, b, 0);
      } else if policies[done] != REJECT {
        assert policies[..done + 1] == policies[..done] + [policies[done]];
        ChainFromHonest(x, done + 1, b);
        if x.truncate.Some? && !TryEncode(x, Truncated(x, b)).Fits? {
          ChainFromHonest(x, done + 1, Truncated(x, b));
        }
      }
    }
  }

  lemma ChainHonest<T, K>(x: Pipeline<T, K>, b: T)
    ensures AllHonest(x, Chain(x, b))
  {
    if !Fatal(x, b) && !TryEncode(x, b).Fits? {
      assert x.cfg.policies[0..] == x.cfg.policies;
      ChainFromHonest(x, 0, b);
    }
  }

  lemma {:induction false} PayloadsFit<T, K>(x: Pipeline<T, K>, pieces: seq<Piece<T>>)
    requires AllHonest(x, pieces)
    ensures forall i :: 0 <= i < |Payloads(pieces)| ==>
      |Payloads(pieces)[i]| + x.cfg.KeyOverhead() <= x.cfg.maxRecordSize
  {
    if pieces != [] {
      PayloadsFit(x, pieces[..|pieces| - 1]);
      assert Honest(x, pieces[|pieces| - 1]);
    }
  }

  /** Every record leaves with its payload and its key inside the record limit. */
  lemma ChainFits<T, K>(x: Pipeline<T, K>, b: T)
    ensures forall i :: 0 <= i < |Payloads(Chain(x, b))| ==>
      |Payloads(Chain(x, b))[i]| + x.cfg.KeyOverhead() <= x.cfg.maxRecordSize
  {
    ChainHonest(x, b);
    PayloadsFit(x, Chain(x, b));
  }

  // ------------------------------------------------------------ how deep splitting goes

  /** `depth` falls with every split and is not changed by truncation. */
  ghost predicate Measures<T(!new), K>(x: Pipeline<T, K>, depth: T -> nat) {
    && (forall b: T :: x.split(b).Some? ==> depth(x.split(b).value.0) < depth(b) && depth(x.split(b).value.1) < depth(b))
    && (x.truncate.Some? ==> forall b: T :: depth(Truncated(x, b)) == depth(b))
  }

  predicate OutOfAttempts<T>(p: Piece<T>) {
    p.Dropped? && p.reason == MAX_ATTEMPTS
  }

  lemma {:induction false} SplitWithinAttempts<T(!new), K>(x: Pipeline<T, K>, b: T, at: nat, depth: T -> nat)
    requires Measures(x, depth) && at + depth(b) < x.cfg.maxAttempts
    ensures forall i :: 0 <= i < |SplitPieces(x, b, at)| ==> !OutOfAttempts(SplitPieces(x, b, at)[i])
    decreases depth(b)
  {
    if !(Fatal(x, b) || TryEncode(x, b).Fits? || x.split(b).None?) {
      SplitWithinAttempts(x, x.split(b).value.0, at + 1, depth);
      SplitWithinAttempts(x, x.split(b).value.1, at + 1, depth);
    }
  }

  lemma {:induction false} ChainFromWithinAttempts<T(!new), K>(x: Pipeline<T, K>, policies: seq<string>, b: T, depth: T -> nat)
    requires Measures(x, depth) && depth(b) < x.cfg.maxAttempts
    ensures forall i :: 0 <= i < |ChainFrom(x, policies, b)| ==> !OutOfAttempts(ChainFrom(x, policies, b)[i])
    decreases |policies|
  {
    if policies != [] {
      if policies[0] == SPLIT_HALF {
        SplitWithinAttempts(x, b, 0, depth);
      } else {
        ChainFromWithinAttempts(x, policies[1..], b, depth);
        if x.truncate.Some? {
          ChainFromWithinAttempts(x, policies[1..], Truncated(x, b), depth);
        }
      }
    }
  }

  /** If the encoder never fails, splitting ends the chain and the attempts exceed the depth of
      the batch, then what is dropped could not have been shipped by itself: every dropped piece
      is one that splits no further and is still too big. */
  lemma OnlyHopelessDropped<T(!new), K>(x: Pipeline<T, K>, b: T, depth: T -> nat, i: nat)
    requires Measures(x, depth) && depth(b) < x.cfg.maxAttempts
    requires SPLIT_HALF in x.cfg.policies && REJECT !in x.cfg.policies
    requires forall c: T :: !TryEncode(x, c).Failed?
    requires i < |Chain(x, b)| && Chain(x, b)[i].Dropped?
    ensures var p := Chain(x, b)[i];
      p.reason == IRREDUCIBLE && x.split(p.batch).None? && TryEncode(x, p.batch).TooBig?
  {
    ChainHonest(x, b);
    var p := Chain(x, b)[i];
    assert Honest(x, p);
    assert !TryEncode(x, p.batch).Failed?;
    assert !OutOfAttempts(p) by {
      if !TryEncode(x, b).Fits? {
        assert !TryEncode(x, b).Failed?;
        ChainFromWithinAttempts(x, x.cfg.policies, b, depth);
      }
    }
  }
}
