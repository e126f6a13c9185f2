/** The blockchain manager: adding and deleting blocks, following the winning
    branch with the chain table, and the questions "which of these blocks is
    under this tip?" and "is this block between those two?". */
module BlockchainManager {
  import opened Types
  import opened Slices
  import opened BlockTree
  import opened ChainTable
  import opened Database

  datatype AddState = AddedToTop | AddedToParallelTop | AddedToParallel | NotAddedNoPrev | NotAddedExists

  ghost predicate StoreOk(db: DB)
    reads db`blocks, db`topHash, db`chain
  {
    ChainOk(db.blocks, db.topHash, db.chain)
  }

  // ----- replacing the main branch

  /** First loop of UpdateChainOnNewBranch: from the new top down to the first
      block that the chain table knows. */
  method FindMergePoint(db: DB, ghost oldTop: Hash) returns (merge: Hash, newBlocks: seq<Block>)
    requires TreeOk(db.blocks) && db.topHash in db.blocks && ChainOk(db.blocks, oldTop, db.chain)
    ensures OnPath(db.blocks, merge, db.topHash) && OnPath(db.blocks, merge, oldTop)
    ensures Reverse(newBlocks) == Path(db.blocks, db.topHash)[db.blocks[merge].height + 1..]
  {
    ghost var p := Path(db.blocks, db.topHash);
    var cur := db.topHash;
    newBlocks := [];
    while true
      invariant OnPath(db.blocks, cur, db.topHash)
      invariant Reverse(newBlocks) == p[db.blocks[cur].height + 1..]
      decreases db.blocks[cur].height
    {
      var block := db.blocks[cur];
      InChainIsOnPath(db.blocks, oldTop, db.chain, cur);
      assert LinkOk(db.blocks, cur);
      var exists_ := db.BlockInChain(block.hash);
      if exists_ == Ok(true) {
        return block.hash, newBlocks;
      }
      GenesisInChain(db.blocks, oldTop, db.chain, cur);
      ReverseCons(newBlocks, block);
      newBlocks := newBlocks + [block];
      OnPathStep(db.blocks, block.prev, cur);
      OnPathTrans(db.blocks, block.prev, cur, db.topHash);
      cur := block.prev;
    }
  }

  lemma {:induction false} GenesisInChain(blocks: Blocks, top: Hash, chain: Chain, h: Hash)
    requires ChainOk(blocks, top, chain) && h in blocks && h !in chain
    ensures blocks[h].prev != NoHash
  {
    if blocks[h].prev == NoHash {
      SameRoot(blocks, h, top);
      assert LinkOk(blocks, h);
      InChainIsOnPath(blocks, top, chain, h);
    }
  }

  /** Second loop: takes the old branch off the table, from its top down. */
  method UnlinkOldBranch(db: DB, oldTop: Hash, merge: Hash) returns (err: Option<Error>)
    requires ChainOk(db.blocks, oldTop, db.chain) && OnPath(db.blocks, merge, oldTop)
    modifies db`chain
    ensures err == None && ChainOk(db.blocks, merge, db.chain)
  {
    var rem := oldTop;
    while rem != merge
      invariant ChainOk(db.blocks, rem, db.chain) && OnPath(db.blocks, merge, rem)
      decreases db.blocks[rem].height
    {
      var prev := StepDown(db.blocks, db.chain, rem);
      OnPathStep(db.blocks, merge, rem);
      assert LinkOk(db.blocks, rem);
      err := db.RemoveFromChain(rem);
      if err != None {
        return;
      }
      rem := prev;
    }
    return None;
  }

  /** What the record of the top says, and why it can be removed. */
  lemma {:induction false} TopRecord(blocks: Blocks, chain: Chain, top: Hash)
    requires ChainOk(blocks, top, chain)
    ensures top in chain && chain[top].next == NoHash && chain[top].prev == blocks[top].prev
    ensures blocks[top].prev != NoHash ==>
      blocks[top].prev in chain && ChainOk(blocks, blocks[top].prev, Unlinked(chain, top))
  {
    assert LinkOk(blocks, top);
    var p := Path(blocks, top);
    PathDistinct(blocks, top);
    UnlinkedShrinks(chain, p);
    if blocks[top].prev != NoHash {
      assert p[..|p| - 1] == Path(blocks, blocks[top].prev);
      assert LinkOk(blocks, blocks[top].prev);
    }
  }

  /** GetLocationInChain on the current top: the hash below it. */
  method StepDown(ghost blocks: Blocks, chain: Chain, top: Hash) returns (prev: Hash)
    requires ChainOk(blocks, top, chain)
    ensures prev == blocks[top].prev
    ensures top in chain && chain[top].next == NoHash && chain[top].prev == prev
    ensures prev != NoHash ==> prev in chain && ChainOk(blocks, prev, Unlinked(chain, top))
  {
    TopRecord(blocks, chain, top);
    prev := chain[top].prev;
  }

  /** Third loop: puts the new branch on the table, from the merge point up. */
  method LinkNewBranch(db: DB, merge: Hash, newBlocks: seq<Block>) returns (err: Option<Error>)
    requires TreeOk(db.blocks) && db.topHash in db.blocks
    requires ChainOk(db.blocks, merge, db.chain) && OnPath(db.blocks, merge, db.topHash)
    requires newBlocks == Path(db.blocks, db.topHash)[db.blocks[merge].height + 1..]
    modifies db`chain
    ensures err == None && StoreOk(db)
  {
    var last := merge;
    for i := 0 to |newBlocks|
      invariant ChainOk(db.blocks, last, db.chain) && OnPath(db.blocks, last, db.topHash)
      invariant db.blocks[last].height == db.blocks[merge].height + i
    {
      var block := newBlocks[i];
      OneUp(db.blocks, db.chain, last, db.topHash);
      err := db.AddToChain(block.hash, last);
      if err != None {
        return;
      }
      last := block.hash;
    }
    assert db.blocks[last].height == db.blocks[db.topHash].height;
    assert last == db.topHash by {
      assert LinkOk(db.blocks, last) && LinkOk(db.blocks, db.topHash);
    }
    return None;
  }

  lemma {:induction false} OneUp(blocks: Blocks, chain: Chain, last: Hash, top: Hash)
    requires ChainOk(blocks, last, chain) && top in blocks && OnPath(blocks, last, top)
    requires blocks[last].height < blocks[top].height
    ensures var b := Path(blocks, top)[blocks[last].height + 1];
      && last != NoHash && last in chain && chain[last].next == NoHash
      && b.hash in blocks && blocks[b.hash] == b && b.prev == last && b.hash != NoHash
      && OnPath(blocks, b.hash, top)
      && ChainOk(blocks, b.hash, Linked(chain, b.hash, last))
  {
    var k := blocks[last].height;
    var b := Path(blocks, top)[k + 1];
    PathAt(blocks, top, k + 1);
    PathAt(blocks, top, k);
    assert LinkOk(blocks, b.hash) && LinkOk(blocks, last);
    assert b.prev == last by {
      assert Path(blocks, b.hash)[k] == Path(blocks, b.prev)[k];
      assert LinkOk(blocks, b.prev);
    }
    PathDistinct(blocks, b.hash);
    LinkedExtends(chain, Path(blocks, last), b);
  }

  /** UpdateChainOnNewBranch: the table followed `oldTop`; afterwards it follows
      the saved top hash. No removal and no addition on the way is refused. */
  method UpdateChainOnNewBranch(db: DB, oldTop: Hash) returns (err: Option<Error>)
    requires TreeOk(db.blocks) && db.topHash in db.blocks && ChainOk(db.blocks, oldTop, db.chain)
    modifies db`chain
    ensures err == None && StoreOk(db)
  {
    var merge, newBlocks := FindMergePoint(db, oldTop);
    err := UnlinkOldBranch(db, oldTop, merge);
    if err != None {
      return;
    }
    newBlocks := ReverseList(newBlocks);
    err := LinkNewBranch(db, merge, newBlocks);
  }

  // ----- adding and deleting blocks

  /** What AddBlock relies on about a block it does not refuse. */
  ghost predicate Attachable(blocks: Blocks, b: Block)
  {
    b.hash != NoHash && (b.prev in blocks ==> b.height == blocks[b.prev].height + 1)
  }

  method AddBlock(db: DB, block: Block) returns (state: AddState)
    requires StoreOk(db) && Attachable(db.blocks, block)
    modifies db`blocks, db`topHash, db`chain
    ensures StoreOk(db)
    ensures (db.blocks, db.topHash) == Fork(old(db.blocks), old(db.topHash), block)
    ensures state == NotAddedExists <==> block.hash in old(db.blocks)
    ensures state == NotAddedNoPrev <==> block.hash !in old(db.blocks) && block.prev !in old(db.blocks)
    ensures state == AddedToTop <==> db.topHash != old(db.topHash) && block.prev == old(db.topHash)
    ensures state == AddedToParallelTop <==> db.topHash != old(db.topHash) && block.prev != old(db.topHash)
  {
    if block.hash in db.blocks {
      assert LinkOk(db.blocks, db.topHash);
      return NotAddedExists;
    }
    if block.prev !in db.blocks {
      return NotAddedNoPrev;
    }
    TreeGrows(db.blocks, block);
    db.blocks := db.blocks[block.hash := block];
    var lastHash := db.topHash;
    var lastBlock := db.blocks[lastHash];
    assert ChainOk(db.blocks, lastHash, db.chain);
    if block.height > lastBlock.height {
      db.topHash := block.hash;
      if lastHash != block.prev {
        var err := UpdateChainOnNewBranch(db, lastHash);
        return AddedToParallelTop;
      } else {
        PathDistinct(db.blocks, block.hash);
        LinkedExtends(db.chain, Path(db.blocks, lastHash), block);
        var err := db.AddToChain(block.hash, block.prev);
        return AddedToTop;
      }
    }
    return AddedToParallel;
  }

  /** DeleteBlock: drops the top. The caller must not drop the genesis block or
      a block that another stored block is built on. */
  method DeleteBlock(db: DB) returns (block: Block)
    requires StoreOk(db)
    requires db.blocks[db.topHash].prev != NoHash && IsLeaf(db.blocks, db.topHash)
    modifies db`blocks, db`topHash, db`chain
    ensures StoreOk(db)
    ensures block == old(db.blocks[db.topHash]) && block.hash == old(db.topHash)
    ensures db.topHash == block.prev && db.blocks == old(db.blocks) - {block.hash}
    ensures forall h | h in db.blocks :: Path(db.blocks, h) == Path(old(db.blocks), h)
  {
    block := db.blocks[db.topHash];
    TopRecord(db.blocks, db.chain, db.topHash);
    TreeShrinks(db.blocks, db.topHash);
    assert LinkOk(db.blocks, db.topHash);
    db.topHash := block.prev;
    db.blocks := db.blocks - {block.hash};
    var err := db.RemoveFromChain(block.hash);
  }

  // ----- fork choice over whole runs

  /** Blocks and top after one submission: unknown parents and known blocks are
      refused, and only a strictly higher block moves the top. */
  function Fork(blocks: Blocks, top: Hash, b: Block): (Blocks, Hash)
    requires top in blocks
  {
    if b.hash in blocks || b.prev !in blocks then (blocks, top)
    else (blocks[b.hash := b], if b.height > blocks[top].height then b.hash else top)
  }

  /** Blocks and top after a run: the genesis block, then submissions in order of arrival. */
  ghost function AfterRun(genesis: Block, run: seq<Block>): (s: (Blocks, Hash))
    ensures s.1 in s.0
  {
    if run == [] then (map[genesis.hash := genesis], genesis.hash)
    else
      var s := AfterRun(genesis, run[..|run| - 1]);
      Fork(s.0, s.1, run[|run| - 1])
  }

  ghost predicate RunOk(genesis: Block, run: seq<Block>)
  {
    if run == [] then genesis.hash != NoHash && genesis.prev == NoHash && genesis.height == 0
    else
      var init := run[..|run| - 1];
      RunOk(genesis, init) && Attachable(AfterRun(genesis, init).0, run[|run| - 1])
  }

  /** The blocks that were stored, in order of arrival. */
  ghost function Arrivals(genesis: Block, run: seq<Block>): seq<Block>
  {
    if run == [] then [genesis]
    else
      var init := run[..|run| - 1];
      Arrived(AfterRun(genesis, init).0, Arrivals(genesis, init), run[|run| - 1])
  }

  ghost function Arrived(blocks: Blocks, arrivals: seq<Block>, b: Block): seq<Block>
  {
    if b.hash in blocks || b.prev !in blocks then arrivals else arrivals + [b]
  }

  ghost predicate FirstOfGreatestHeight(arrivals: seq<Block>, k: nat)
  {
    && k < |arrivals|
    && (forall j | 0 <= j < k :: arrivals[j].height < arrivals[k].height)
    && (forall j | 0 <= j < |arrivals| :: arrivals[j].height <= arrivals[k].height)
  }

  ghost predicate SameBlocks(blocks: Blocks, arrivals: seq<Block>)
  {
    && (forall h | h in blocks :: HasArrived(arrivals, h))
    && (forall i | 0 <= i < |arrivals| :: arrivals[i].hash in blocks && blocks[arrivals[i].hash] == arrivals[i])
  }

  ghost predicate HasArrived(arrivals: seq<Block>, h: Hash)
  {
    exists i | 0 <= i < |arrivals| :: arrivals[i].hash == h
  }

  lemma {:induction false} OneMoreArrival(blocks: Blocks, arrivals: seq<Block>, b: Block)
    requires SameBlocks(blocks, arrivals) && b.hash !in blocks
    ensures SameBlocks(blocks[b.hash := b], arrivals + [b])
  {
    var more := arrivals + [b];
    forall h | h in blocks[b.hash := b] ensures HasArrived(more, h) {
      if h == b.hash {
        assert more[|arrivals|].hash == h;
      } else {
        assert HasArrived(arrivals, h);
        var i :| 0 <= i < |arrivals| && arrivals[i].hash == h;
        assert more[i].hash == h;
      }
    }
  }

  /** After every run the stored blocks form a tree of exactly the arrived
      blocks, and the top is the first arrival of greatest height. */
  lemma {:induction false} TopIsFirstOfGreatestHeight(genesis: Block, run: seq<Block>) returns (k: nat)
    requires RunOk(genesis, run)
    ensures TreeOk(AfterRun(genesis, run).0)
    ensures SameBlocks(AfterRun(genesis, run).0, Arrivals(genesis, run))
    ensures FirstOfGreatestHeight(Arrivals(genesis, run), k)
    ensures Arrivals(genesis, run)[k].hash == AfterRun(genesis, run).1
  {
    if run == [] {
      assert LinkOk(AfterRun(genesis, run).0, genesis.hash);
      assert Arrivals(genesis, run)[0].hash == genesis.hash;
      return 0;
    }
    var b := run[|run| - 1];
    k := TopIsFirstOfGreatestHeight(genesis, run[..|run| - 1]);
    k := NextTop(AfterRun(genesis, run[..|run| - 1]), Arrivals(genesis, run[..|run| - 1]), b, k);
  }

  lemma {:induction false} NextTop(s: (Blocks, Hash), arrivals: seq<Block>, b: Block, k: nat) returns (k': nat)
    requires s.1 in s.0 && TreeOk(s.0) && Attachable(s.0, b)
    requires SameBlocks(s.0, arrivals) && FirstOfGreatestHeight(arrivals, k) && arrivals[k].hash == s.1
    ensures TreeOk(Fork(s.0, s.1, b).0)
    ensures SameBlocks(Fork(s.0, s.1, b).0, Arrived(s.0, arrivals, b))
    ensures FirstOfGreatestHeight(Arrived(s.0, arrivals, b), k')
    ensures Arrived(s.0, arrivals, b)[k'].hash == Fork(s.0, s.1, b).1
  {
    k' := k;
    if b.hash !in s.0 && b.prev in s.0 {
      TreeGrows(s.0, b);
      OneMoreArrival(s.0, arrivals, b);
      assert Arrived(s.0, arrivals, b) == arrivals + [b] && Fork(s.0, s.1, b).0 == s.0[b.hash := b];
      if b.height > s.0[s.1].height {
        k' := |arrivals|;
      }
    } else {
      assert Arrived(s.0, arrivals, b) == arrivals && Fork(s.0, s.1, b).0 == s.0;
    }
  }
}
