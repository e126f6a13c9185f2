/** The stored blocks as a tree, and the walk along parent hashes that is the
    specification of every index kept beside it. */
module BlockTree {
  import opened Types

  /** A stored block is either the genesis block or one above its stored parent. */
  ghost predicate LinkOk(blocks: Blocks, h: Hash)
    requires h in blocks
  {
    var b := blocks[h];
    && h != NoHash
    && b.hash == h
    && (b.prev == NoHash ==> b.height == 0)
    && (b.prev != NoHash ==> b.prev in blocks && b.height == blocks[b.prev].height + 1)
  }

  ghost predicate IsRoot(blocks: Blocks, h: Hash)
  {
    h in blocks && blocks[h].prev == NoHash
  }

  ghost predicate TreeOk(blocks: Blocks)
  {
    && (forall h {:trigger LinkOk(blocks, h)} | h in blocks :: LinkOk(blocks, h))
    && (forall a, b | IsRoot(blocks, a) && IsRoot(blocks, b) :: a == b)
  }

  /** No stored block names `leaf` as its parent. */
  ghost predicate IsLeaf(blocks: Blocks, leaf: Hash)
    requires TreeOk(blocks)
  {
    forall h {:trigger LinkOk(blocks, h)} | h in blocks :: blocks[h].prev != leaf
  }

  /** The blocks from genesis up to `h`: what repeated calls of the iterator's
      Next visit, in the opposite order. */
  ghost function Path(blocks: Blocks, h: Hash): (p: seq<Block>)
    requires TreeOk(blocks) && h in blocks
    ensures |p| == blocks[h].height + 1
    ensures p[|p| - 1] == blocks[h]
    decreases blocks[h].height
  {
    assert LinkOk(blocks, h);
    if blocks[h].prev == NoHash then [blocks[h]] else Path(blocks, blocks[h].prev) + [blocks[h]]
  }

  /** `a` is met when walking down from `h` (which may be `a` itself). */
  ghost predicate OnPath(blocks: Blocks, a: Hash, h: Hash)
    requires TreeOk(blocks) && h in blocks
  {
    a in blocks && blocks[a].height <= blocks[h].height && Path(blocks, h)[blocks[a].height] == blocks[a]
  }

  /** Every position of a path holds a stored block of that height, and the
      path below it is that block's own path. */
  lemma {:induction false} PathAt(blocks: Blocks, h: Hash, k: nat)
    requires TreeOk(blocks) && h in blocks && k <= blocks[h].height
    ensures var b := Path(blocks, h)[k];
      && b.hash in blocks && blocks[b.hash] == b && b.height == k
      && Path(blocks, b.hash) == Path(blocks, h)[..k + 1]
    decreases blocks[h].height
  {
    assert LinkOk(blocks, h);
    if k == blocks[h].height {
      assert Path(blocks, h)[..k + 1] == Path(blocks, h);
    } else {
      PathAt(blocks, blocks[h].prev, k);
      assert Path(blocks, h)[..k + 1] == Path(blocks, blocks[h].prev)[..k + 1];
    }
  }

  /** One step of the walk: a proper descendant's path runs through its parent. */
  lemma {:induction false} OnPathStep(blocks: Blocks, a: Hash, h: Hash)
    requires TreeOk(blocks) && h in blocks
    ensures blocks[h].prev == NoHash ==> (OnPath(blocks, a, h) <==> a == h)
    ensures blocks[h].prev != NoHash ==>
      blocks[h].prev in blocks && (OnPath(blocks, a, h) <==> a == h || OnPath(blocks, a, blocks[h].prev))
  {
    assert LinkOk(blocks, h);
    if a in blocks {
      assert LinkOk(blocks, a);
    }
  }

  lemma {:induction false} OnPathTrans(blocks: Blocks, a: Hash, b: Hash, c: Hash)
    requires TreeOk(blocks) && b in blocks && c in blocks
    requires OnPath(blocks, a, b) && OnPath(blocks, b, c)
    ensures OnPath(blocks, a, c)
  {
    PathAt(blocks, c, blocks[b].height);
  }

  /** Two blocks on one path lie on each other's paths in height order. */
  lemma {:induction false} OnPathOrder(blocks: Blocks, a: Hash, b: Hash, c: Hash)
    requires TreeOk(blocks) && c in blocks && b in blocks
    requires OnPath(blocks, a, c) && OnPath(blocks, b, c) && blocks[a].height <= blocks[b].height
    ensures OnPath(blocks, a, b)
  {
    PathAt(blocks, c, blocks[b].height);
  }

  /** Storing more blocks does not change the path of a stored one. */
  lemma {:induction false} PathFrame(small: Blocks, big: Blocks, h: Hash)
    requires TreeOk(small) && TreeOk(big) && h in small
    requires forall k | k in small :: k in big && big[k] == small[k]
    ensures Path(small, h) == Path(big, h)
    decreases small[h].height
  {
    assert LinkOk(small, h);
    if small[h].prev != NoHash {
      PathFrame(small, big, small[h].prev);
    }
  }

  /** A block above a stored parent can be stored. */
  lemma {:induction false} TreeGrows(blocks: Blocks, b: Block)
    requires TreeOk(blocks) && b.hash != NoHash && b.hash !in blocks
    requires b.prev in blocks && b.height == blocks[b.prev].height + 1
    ensures TreeOk(blocks[b.hash := b])
    ensures Path(blocks[b.hash := b], b.hash) == Path(blocks, b.prev) + [b]
    ensures forall h | h in blocks :: Path(blocks[b.hash := b], h) == Path(blocks, h)
  {
    var big := blocks[b.hash := b];
    assert LinkOk(blocks, b.prev);
    forall h | h in big ensures LinkOk(big, h) {
      if h != b.hash { assert LinkOk(blocks, h); }
    }
    forall x, y | IsRoot(big, x) && IsRoot(big, y) ensures x == y {
      assert IsRoot(blocks, x) && IsRoot(blocks, y);
    }
    forall h | h in blocks ensures Path(big, h) == Path(blocks, h) {
      PathFrame(blocks, big, h);
    }
  }

  /** A block without stored children can be deleted. */
  lemma {:induction false} TreeShrinks(blocks: Blocks, leaf: Hash)
    requires TreeOk(blocks) && leaf in blocks
    requires IsLeaf(blocks, leaf)
    ensures TreeOk(blocks - {leaf})
    ensures forall h | h in blocks && h != leaf :: Path(blocks - {leaf}, h) == Path(blocks, h)
  {
    var small := blocks - {leaf};
    forall h | h in small ensures LinkOk(small, h) {
      assert LinkOk(blocks, h);
    }
    forall x, y | IsRoot(small, x) && IsRoot(small, y) ensures x == y {
      assert IsRoot(blocks, x) && IsRoot(blocks, y);
    }
    forall h | h in small ensures Path(small, h) == Path(blocks, h) {
      PathFrame(small, blocks, h);
    }
  }

  /** All paths start at the same block. */
  lemma {:induction false} SameRoot(blocks: Blocks, a: Hash, b: Hash)
    requires TreeOk(blocks) && a in blocks && b in blocks
    ensures Path(blocks, a)[0] == Path(blocks, b)[0]
  {
    PathAt(blocks, a, 0);
    PathAt(blocks, b, 0);
    var ra, rb := Path(blocks, a)[0], Path(blocks, b)[0];
    assert LinkOk(blocks, ra.hash) && LinkOk(blocks, rb.hash);
    assert IsRoot(blocks, ra.hash) && IsRoot(blocks, rb.hash);
  }
}
