/** The value of the main chain table: one record per main chain block, holding
    the hashes below and above it. */
module ChainTable {
  import opened Types
  import opened BlockTree

  datatype Link = Link(prev: Hash, next: Hash)

  type Chain = map<Hash, Link>

  /** The table after `hash` was put above `prev` (no block when `prev` is empty). */
  function Linked(chain: Chain, hash: Hash, prev: Hash): Chain
    requires prev != NoHash ==> prev in chain
  {
    var below := if prev == NoHash then chain else chain[prev := chain[prev].(next := hash)];
    below[hash := Link(prev, NoHash)]
  }

  /** The table after `hash` was taken from the top. */
  function Unlinked(chain: Chain, hash: Hash): Chain
    requires hash in chain
    requires chain[hash].prev != NoHash ==> chain[hash].prev in chain
  {
    var prev := chain[hash].prev;
    var below := if prev == NoHash then chain else chain[prev := chain[prev].(next := NoHash)];
    below - {hash}
  }

  ghost predicate DistinctHashes(p: seq<Block>)
  {
    && (forall i | 0 <= i < |p| :: p[i].hash != NoHash)
    && (forall i, j | 0 <= i < j < |p| :: p[i].hash != p[j].hash)
  }

  ghost predicate HasHash(p: seq<Block>, h: Hash)
  {
    exists i | 0 <= i < |p| :: p[i].hash == h
  }

  ghost predicate RecordOk(chain: Chain, p: seq<Block>, i: nat)
    requires i < |p|
  {
    && p[i].hash in chain
    && chain[p[i].hash].prev == (if i == 0 then NoHash else p[i - 1].hash)
    && chain[p[i].hash].next == (if i == |p| - 1 then NoHash else p[i + 1].hash)
  }

  /** The doubly linked list of a sequence of blocks, stated directly: its keys
      are exactly the hashes, and each record holds the two neighbours. */
  ghost predicate LinksExactly(chain: Chain, p: seq<Block>)
  {
    && (forall h | h in chain :: HasHash(p, h))
    && (forall i: nat {:trigger RecordOk(chain, p, i)} | i < |p| :: RecordOk(chain, p, i))
  }

  /** At most one table is the list of a given sequence. */
  lemma {:induction false} LinksExactlyOne(c: Chain, d: Chain, p: seq<Block>)
    requires LinksExactly(c, p) && LinksExactly(d, p)
    ensures c == d
  {
    forall h | h in c || h in d ensures h in c && h in d && c[h] == d[h] {
      assert HasHash(p, h);
      var i :| 0 <= i < |p| && p[i].hash == h;
      assert RecordOk(c, p, i) && RecordOk(d, p, i);
    }
  }

  lemma {:induction false} LinkedExtends(chain: Chain, p: seq<Block>, b: Block)
    requires LinksExactly(chain, p) && DistinctHashes(p + [b])
    ensures p != [] ==> p[|p| - 1].hash in chain && chain[p[|p| - 1].hash].next == NoHash
    ensures LinksExactly(Linked(chain, b.hash, if p == [] then NoHash else p[|p| - 1].hash), p + [b])
  {
    var q := p + [b];
    if p != [] {
      assert RecordOk(chain, p, |p| - 1);
    }
    var prev := if p == [] then NoHash else p[|p| - 1].hash;
    var c := Linked(chain, b.hash, prev);
    forall h | h in c ensures HasHash(q, h) {
      if h == b.hash {
        assert q[|p|].hash == h;
      } else {
        assert HasHash(p, h);
        var i :| 0 <= i < |p| && p[i].hash == h;
        assert q[i].hash == h;
      }
    }
    forall i: nat | i < |q| ensures RecordOk(c, q, i) {
      if i < |p| {
        assert RecordOk(chain, p, i);
        assert q[i].hash != q[|p|].hash;
        if i < |p| - 1 { assert q[i].hash != q[|p| - 1].hash; }
      }
    }
  }

  lemma {:induction false} UnlinkedShrinks(chain: Chain, p: seq<Block>)
    requires p != [] && LinksExactly(chain, p) && DistinctHashes(p)
    ensures var h := p[|p| - 1].hash;
      && h in chain && chain[h].next == NoHash
      && chain[h].prev == (if |p| == 1 then NoHash else p[|p| - 2].hash)
      && (|p| > 1 ==> chain[h].prev in chain)
      && LinksExactly(Unlinked(chain, h), p[..|p| - 1])
  {
    var top := p[|p| - 1].hash;
    var q := p[..|p| - 1];
    assert RecordOk(chain, p, |p| - 1);
    if |p| > 1 { assert RecordOk(chain, p, |p| - 2); }
    var c := Unlinked(chain, top);
    forall h | h in c ensures HasHash(q, h) {
      assert HasHash(p, h);
      var i :| 0 <= i < |p| && p[i].hash == h;
      assert q[i].hash == h;
    }
    forall i: nat | i < |q| ensures RecordOk(c, q, i) {
      assert RecordOk(chain, p, i);
      assert p[i].hash != p[|p| - 1].hash;
      if i < |q| - 1 { assert p[i].hash != p[|p| - 2].hash; }
    }
  }

  /** A path has distinct hashes. */
  lemma {:induction false} PathDistinct(blocks: Blocks, h: Hash)
    requires TreeOk(blocks) && h in blocks
    ensures DistinctHashes(Path(blocks, h))
  {
    var p := Path(blocks, h);
    forall i | 0 <= i < |p| ensures p[i].hash != NoHash && p[i].height == i {
      PathAt(blocks, h, i);
      assert LinkOk(blocks, p[i].hash);
    }
    forall i, j | 0 <= i < j < |p| ensures p[i].hash != p[j].hash {
      PathAt(blocks, h, i);
      PathAt(blocks, h, j);
    }
  }

  /** The chain table holds exactly the path to the top. */
  ghost predicate ChainOk(blocks: Blocks, top: Hash, chain: Chain)
  {
    && TreeOk(blocks)
    && top in blocks
    && LinksExactly(chain, Path(blocks, top))
  }

  /** So the table answers "is this block under the top?". */
  lemma {:induction false} InChainIsOnPath(blocks: Blocks, top: Hash, chain: Chain, h: Hash)
    requires ChainOk(blocks, top, chain)
    ensures h in chain <==> OnPath(blocks, h, top)
  {
    var p := Path(blocks, top);
    if h in chain {
      assert HasHash(p, h);
      var i :| 0 <= i < |p| && p[i].hash == h;
      PathAt(blocks, top, i);
    }
    if OnPath(blocks, h, top) {
      assert LinkOk(blocks, h) && RecordOk(chain, p, blocks[h].height);
    }
  }
}
