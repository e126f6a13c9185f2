/** The iterator over a branch: the walk along parent hashes that the indexes are
    compared with. */
module BlockchainIterator {
  import opened Types
  import opened Slices
  import opened BlockTree
  import opened Database

  class Iterator {
    const db: DB
    var currentHash: Hash

    /** Starts at a tip; whether it is stored shows at the first call of Next. */
    constructor (db: DB, tip: Hash)
      ensures this.db == db && currentHash == tip
    {
      this.db := db;
      currentHash := tip;
    }

    /** The current block; moves on to its parent. */
    method Next() returns (r: Result<Block>)
      modifies this`currentHash
      ensures old(currentHash) !in db.blocks ==> r == Err(BlockNotFound) && currentHash == old(currentHash)
      ensures old(currentHash) in db.blocks ==>
        r == Ok(db.blocks[old(currentHash)]) && currentHash == db.blocks[old(currentHash)].prev
    {
      if currentHash !in db.blocks {
        return Err(BlockNotFound);
      }
      var block := db.blocks[currentHash];
      currentHash := block.prev;
      return Ok(block);
    }
  }

  /** Going on until a block without parent visits exactly the path, top down. */
  method VisitAll(db: DB, tip: Hash) returns (visited: seq<Block>)
    requires TreeOk(db.blocks) && tip in db.blocks
    ensures visited == Reverse(Path(db.blocks, tip))
  {
    var bci := new Iterator(db, tip);
    visited := [];
    ghost var p := Path(db.blocks, tip);
    while true
      invariant bci.db == db && OnPath(db.blocks, bci.currentHash, tip)
      invariant Reverse(visited) == p[db.blocks[bci.currentHash].height + 1..]
      decreases db.blocks[bci.currentHash].height
    {
      ghost var cur := bci.currentHash;
      var r := bci.Next();
      var block := r.value;
      VisitStep(db.blocks, tip, cur, visited);
      visited := visited + [block];
      if block.prev == NoHash {
        ReverseTwice(visited);
        return;
      }
      OnPathStep(db.blocks, block.prev, cur);
      OnPathTrans(db.blocks, block.prev, cur, tip);
    }
  }

  lemma {:induction false} VisitStep(blocks: Blocks, tip: Hash, h: Hash, visited: seq<Block>)
    requires TreeOk(blocks) && tip in blocks && OnPath(blocks, h, tip)
    requires Reverse(visited) == Path(blocks, tip)[blocks[h].height + 1..]
    ensures Reverse(visited + [blocks[h]]) == Path(blocks, tip)[blocks[h].height..]
    ensures blocks[h].prev == NoHash ==> Reverse(visited + [blocks[h]]) == Path(blocks, tip)
    ensures blocks[h].prev != NoHash ==>
      blocks[h].prev in blocks && blocks[h].height == blocks[blocks[h].prev].height + 1
  {
    assert LinkOk(blocks, h);
    ReverseCons(visited, blocks[h]);
  }
}
