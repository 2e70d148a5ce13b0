/** What the recovery chain does to a batch too big for one record, told by the batches that come out
    of it: which parts of the halving tree are shipped, and that a truncation is carried on
    (exporter/awskinesisexporter/oversize.go). */
module Repacking {
  import opened Sequences
  import opened Config
  import opened Oversize

  // ------------------------------------------------------------ a batch that fits

  /** A batch whose record, key included, is within the limit goes out whole and untouched, whatever
      the policies are. */
  lemma WholeIfItFits<T, K>(x: Pipeline<T, K>, b: T, raw: Bytes, payload: Bytes)
    requires x.marshal(b) == Some(raw) && x.compress(raw) == Some(payload)
    ensures |payload| + (if x.cfg.strategy == "tag_hash" then 16 else 36) <= x.cfg.maxRecordSize
      <==> Chain(x, b) == [Shipped(b, payload)]
  {
    if Chain(x, b) == [Shipped(b, payload)] {
      ChainHonest(x, b);
      assert Honest(x, Chain(x, b)[0]);
    }
  }

  // ------------------------------------------------------------ the halving tree

  /** The part of `b` reached by halving and taking the left (false) or right (true) side each time. */
  function Down<T, K>(x: Pipeline<T, K>, b: T, path: seq<bool>): Option<T> {
    if path == [] then Some(b)
    else if x.split(b).None? then None
    else Down(x, if path[0] then x.split(b).value.1 else x.split(b).value.0, path[1..])
  }

  /** A part that calls for halving: it encodes and is too big, or has nothing to lose. */
  predicate Oversized<T, K>(x: Pipeline<T, K>, part: Option<T>) {
    part.Some? && (TryEncode(x, part.value).TooBig? || (TryEncode(x, part.value).Failed? && x.Items(part.value) == 0))
  }

  /** Every part on the way to the end of `path`, the end excluded, is oversized. */
  ghost predicate OversizedOnTheWay<T, K>(x: Pipeline<T, K>, b: T, path: seq<bool>) {
    forall k :: 0 <= k < |path| ==> Oversized(x, Down(x, b, path[..k]))
  }

  lemma WayDown<T, K>(x: Pipeline<T, K>, b: T, path: seq<bool>)
    requires path != [] && x.split(b).Some?
    ensures var side := if path[0] then x.split(b).value.1 else x.split(b).value.0;
      OversizedOnTheWay(x, b, path) <==> Oversized(x, Some(b)) && OversizedOnTheWay(x, side, path[1..])
  {
    var side := if path[0] then x.split(b).value.1 else x.split(b).value.0;
    forall k | 0 <= k < |path| - 1
      ensures Down(x, b, path[..k + 1]) == Down(x, side, path[1..][..k])
    {
      assert path[..k + 1][1..] == path[1..][..k];
    }
    assert path[..0] == [];
    if OversizedOnTheWay(x, b, path) {
      forall k | 0 <= k < |path| - 1 ensures Oversized(x, Down(x, side, path[1..][..k])) {
        assert Oversized(x, Down(x, b, path[..k + 1]));
      }
      assert Oversized(x, Down(x, b, path[..0]));
    }
    if Oversized(x, Some(b)) && OversizedOnTheWay(x, side, path[1..]) {
      forall k | 0 <= k < |path| ensures Oversized(x, Down(x, b, path[..k])) {
        if k > 0 {
          assert Oversized(x, Down(x, side, path[1..][..k - 1]));
        }
      }
    }
  }

  lemma {:induction false} SplitShips<T, K>(x: Pipeline<T, K>, b: T, depth: nat, path: seq<bool>, payload: Bytes)
    requires depth + |path| <= x.cfg.maxAttempts && OversizedOnTheWay(x, b, path)
    requires Down(x, b, path).Some? && TryEncode(x, Down(x, b, path).value) == Fits(payload)
    ensures Shipped(Down(x, b, path).value, payload) in SplitPieces(x, b, depth)
    decreases |path|
  {
    if path != [] {
      WayDown(x, b, path);
      var side := if path[0] then x.split(b).value.1 else x.split(b).value.0;
      SplitShips(x, side, depth + 1, path[1..], payload);
    }
  }

  /** Splitting stops at the first part that fits: every such part, at most max_attempts halvings
      down, is shipped whole. */
  lemma LargestPartsShipped<T, K>(x: Pipeline<T, K>, b: T, path: seq<bool>, payload: Bytes)
    requires x.cfg.policies != [] && x.cfg.policies[0] == "split_half" && |path| <= x.cfg.maxAttempts
    requires OversizedOnTheWay(x, b, path)
    requires Down(x, b, path).Some? && TryEncode(x, Down(x, b, path).value) == Fits(payload)
    ensures Shipped(Down(x, b, path).value, payload) in Chain(x, b)
  {
    if path == [] {
      assert Chain(x, b)[0] == Shipped(b, payload);
    } else {
      assert path[..0] == [];
      assert Oversized(x, Down(x, b, path[..0]));
      SplitShips(x, b, 0, path, payload);
    }
  }

  /** A piece is the end of a way down through oversized parts, and is given up for want of attempts
      only max_attempts halvings down. */
  ghost predicate PartOf<T, K>(x: Pipeline<T, K>, b: T, depth: nat, p: Piece<T>, path: seq<bool>) {
    && OversizedOnTheWay(x, b, path) && Down(x, b, path) == Some(p.batch)
    && (p.Dropped? && p.reason == MAX_ATTEMPTS ==> depth + |path| >= x.cfg.maxAttempts)
    && (|path| > 0 ==> depth + |path| <= x.cfg.maxAttempts)
  }

  lemma {:induction false} SplitIsParts<T, K>(x: Pipeline<T, K>, b: T, depth: nat, i: nat) returns (path: seq<bool>)
    requires i < |SplitPieces(x, b, depth)|
    ensures PartOf(x, b, depth, SplitPieces(x, b, depth)[i], path)
    decreases x.cfg.maxAttempts - depth
  {
    if Fatal(x, b) || TryEncode(x, b).Fits? || depth >= x.cfg.maxAttempts || x.split(b).None? {
      path := [];
    } else {
      var (a, c) := x.split(b).value;
      var left := SplitPieces(x, a, depth + 1);
      var right := i >= |left|;
      var rest;
      if right {
        rest := SplitIsParts(x, c, depth + 1, i - |left|);
      } else {
        rest := SplitIsParts(x, a, depth + 1, i);
      }
      path := [right] + rest;
      assert path[1..] == rest;
      WayDown(x, b, path);
    }
  }

  // ------------------------------------------------------------ a truncation is carried on

  /** What the pieces hold as it is, one after the other. */
  function Contents<T, L>(pieces: seq<Piece<T>>, flat: T -> seq<L>): seq<L> {
    if pieces == [] then [] else Contents(pieces[..|pieces| - 1], flat) + flat(pieces[|pieces| - 1].batch)
  }

  lemma {:induction false} ContentsConcat<T, L>(p: seq<Piece<T>>, q: seq<Piece<T>>, flat: T -> seq<L>)
    ensures Contents(p + q, flat) == Contents(p, flat) + Contents(q, flat)
  {
    if q == [] {
      assert p + q == p;
    } else {
      var front, last := q[..|q| - 1], q[|q| - 1];
      assert (p + q)[..|p + q| - 1] == p + front;
      ContentsConcat(p, front, flat);
      ConcatAssociates(Contents(p, flat), Contents(front, flat), flat(last.batch));
    }
  }

  lemma ContentsOne<T, L>(p: Piece<T>, flat: T -> seq<L>)
    ensures Contents([p], flat) == flat(p.batch)
  {
    assert [p][..0] == [];
    assert Contents([], flat) == [];
  }

  lemma {:induction false} ContentsMember<T, L>(pieces: seq<Piece<T>>, flat: T -> seq<L>, i: nat, leaf: L)
    requires i < |pieces| && leaf in flat(pieces[i].batch)
    ensures leaf in Contents(pieces, flat)
  {
    if i < |pieces| - 1 {
      ContentsMember(pieces[..|pieces| - 1], flat, i, leaf);
    }
  }

  /** Halving moves nothing: `flat` is the plain content of a batch. */
  ghost predicate HalvesContent<T(!new), K, L>(x: Pipeline<T, K>, flat: T -> seq<L>) {
    forall b: T :: x.split(b).Some? ==> flat(x.split(b).value.0) + flat(x.split(b).value.1) == flat(b)
  }

  lemma {:induction false} SplitContents<T(!new), K, L>(x: Pipeline<T, K>, b: T, depth: nat, flat: T -> seq<L>)
    requires HalvesContent(x, flat)
    ensures Contents(SplitPieces(x, b, depth), flat) == flat(b)
    decreases x.cfg.maxAttempts - depth
  {
    var pieces := SplitPieces(x, b, depth);
    if Fatal(x, b) || TryEncode(x, b).Fits? || depth >= x.cfg.maxAttempts || x.split(b).None? {
      ContentsOne(pieces[0], flat);
    } else {
      var (a, c) := x.split(b).value;
      SplitContents(x, a, depth + 1, flat);
      SplitContents(x, c, depth + 1, flat);
      ContentsConcat(SplitPieces(x, a, depth + 1), SplitPieces(x, c, depth + 1), flat);
    }
  }

  /** The truncation policy has nothing to offer for this batch: no cut, or a result the encoder
      refuses. */
  predicate NoUseTruncating<T, K>(x: Pipeline<T, K>, b: T) {
    x.truncate.Some? ==>
      var (trimmed, changed) := x.truncate.value(b, x.cfg.maxAttributeValueBytes);
      changed == 0 || (TryEncode(x, trimmed).Failed? && x.Items(trimmed) > 0)
  }

  lemma {:induction false} ChainFromContents<T(!new), K, L>(x: Pipeline<T, K>, policies: seq<string>, b: T, flat: T -> seq<L>)
    requires HalvesContent(x, flat) && NoUseTruncating(x, b)
    ensures Contents(ChainFrom(x, policies, b), flat) == flat(b)
    decreases |policies|
  {
    if policies == [] {
      ContentsOne(Dropped(b, EXHAUSTED), flat);
    } else if policies[0] == SPLIT_HALF {
      SplitContents(x, b, 0, flat);
    } else if policies[0] == REJECT {
      ContentsOne(Dropped(b, REJECTED), flat);
    } else {
      ChainFromContents(x, policies[1..], b, flat);
    }
  }

  /** Where truncation has nothing to offer, the pieces hold exactly the batch as it came. */
  lemma PristineCarriedOn<T(!new), K, L>(x: Pipeline<T, K>, b: T, flat: T -> seq<L>)
    requires HalvesContent(x, flat) && NoUseTruncating(x, b)
    ensures Contents(Chain(x, b), flat) == flat(b)
  {
    if Fatal(x, b) || TryEncode(x, b).Fits? {
      ContentsOne(Chain(x, b)[0], flat);
    } else {
      ChainFromContents(x, x.cfg.policies, b, flat);
    }
  }

  /** A first truncation that reports a cut: if its result fits, that is the one record; if it encodes
      and is still too big, everything the chain does from then on it does to the truncated batch. */
  lemma TruncationCarriedOn<T(!new), K, L>(x: Pipeline<T, K>, b: T, flat: T -> seq<L>, trimmed: T, changed: nat)
    requires HalvesContent(x, flat) && Oversized(x, Some(b))
    requires x.cfg.policies != [] && x.cfg.policies[0] == "truncate_attribute_values"
    requires x.truncate.Some? && x.truncate.value(b, x.cfg.maxAttributeValueBytes) == (trimmed, changed) && changed > 0
    requires TryEncode(x, trimmed).Failed? ==> x.Items(trimmed) == 0
    requires NoUseTruncating(x, trimmed)
    ensures Contents(Chain(x, b), flat) == flat(trimmed)
    ensures TryEncode(x, trimmed).Fits? ==> Chain(x, b) == [Shipped(trimmed, TryEncode(x, trimmed).payload)]
  {
    if TryEncode(x, trimmed).Fits? {
      ContentsOne(Shipped(trimmed, TryEncode(x, trimmed).payload), flat);
    } else {
      ChainFromContents(x, x.cfg.policies[1..], trimmed, flat);
    }
  }
}
