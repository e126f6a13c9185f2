/** The node's driver: a block comes in or the top is dropped, and every table has
    to follow. Whatever the branches, the tables afterwards are those of a node
    that had only ever seen the blocks under its top. */
module Node {
  import opened Types
  import opened BlockTree
  import opened ChainTable
  import opened Database
  import opened BlockchainManager
  import opened Ledger
  import opened TransactionIndex
  import opened TransactionLookup
  import opened UnspentOutputs
  import opened UnspentCancel
  import opened Verifier
  import opened Safety
  import opened Money
  import opened SqlHistory
  import opened StatementRuns
  import opened Pool
  import opened CascadeOrder
  import opened BlockExecution
  import opened NodeState
  import opened BranchExchange
  import opened BranchTables
  import opened UndoRows
  import RowReferences

  // ----- a block comes in

  /** What is taken for granted about a submitted block: its hash is not empty and
      its height counts on from its parent. Of one that verification accepts also
      that its ids are new, no output is named twice, its inputs can be restored, and
      its commands run and carry fitting undos. */
  ghost predicate Submittable(blocks: Blocks, b: Block, coins: int, min: int, max: int)
    requires TreeOk(blocks)
  {
    && Attachable(blocks, b)
    && (b.hash !in blocks && b.prev in blocks && BlockAcceptable(EntriesUnder(blocks, b.prev), b, coins, min, max) ==>
          && FreshIds(EntriesUnder(blocks, b.prev), b)
          && DistinctInputs(b) && AllReached(b)
          && SqlOk(EntriesUnder(blocks, b.prev) + BlockEntries(b)))
  }

  /** What verification asks of a block with a stored parent; the index of rows is
      only asked for blocks on the top. */
  ghost predicate Acceptable(refs: map<RefId, TxId>, blocks: Blocks, top: Hash, b: Block, coins: int, min: int,
      max: int)
    requires TreeOk(blocks) && b.prev in blocks
  {
    && BlockAcceptable(EntriesUnder(blocks, b.prev), b, coins, min, max)
    && (b.prev == top ==> RowReferences.BasesFit(refs, b))
  }

  /** With a right index that means: right bases. */
  lemma {:induction false} AcceptableIff(refs: map<RefId, TxId>, blocks: Blocks, top: Hash, b: Block, coins: int,
      min: int, max: int)
    requires TreeOk(blocks) && b.prev in blocks
    requires b.prev == top ==> RowReferences.RefsOk(refs, EntriesUnder(blocks, top))
    ensures Acceptable(refs, blocks, top, b, coins, min, max) <==>
      && BlockAcceptable(EntriesUnder(blocks, b.prev), b, coins, min, max)
      && (b.prev == top ==> RowReferences.BlockBasesOk(EntriesUnder(blocks, b.prev), b))
  {
    if b.prev == top {
      RowReferences.BasesFitIff(refs, EntriesUnder(blocks, top), b);
    }
  }

  /** A block that was verified keeps all branches in order. */
  lemma {:induction false} BranchesGrow(blocks: Blocks, b: Block, coins: int, min: int, max: int)
    requires TreeOk(blocks) && BranchesOk(blocks, coins) && Submittable(blocks, b, coins, min, max)
    requires b.hash !in blocks && b.prev in blocks
    requires BlockAcceptable(EntriesUnder(blocks, b.prev), b, coins, min, max)
    ensures TreeOk(blocks[b.hash := b]) && BranchesOk(blocks[b.hash := b], coins)
  {
    var big := blocks[b.hash := b];
    TreeGrows(blocks, b);
    assert BranchOk(blocks, b.prev, coins);
    NewBranchOk(blocks, b, coins, min, max);
    forall h | h in big ensures BranchOk(big, h, coins) {
      if h != b.hash {
        assert BranchOk(blocks, h, coins);
      }
    }
  }

  lemma {:induction false} NewBranchOk(blocks: Blocks, b: Block, coins: int, min: int, max: int)
    requires TreeOk(blocks) && Submittable(blocks, b, coins, min, max) && b.hash !in blocks && b.prev in blocks
    requires BranchOk(blocks, b.prev, coins) && BlockAcceptable(EntriesUnder(blocks, b.prev), b, coins, min, max)
    ensures TreeOk(blocks[b.hash := b]) && BranchOk(blocks[b.hash := b], b.hash, coins)
  {
    var p, es := Path(blocks, b.prev), EntriesUnder(blocks, b.prev);
    TreeGrows(blocks, b);
    AcceptedIsLiveIff(es, b, coins, min, max);
    UtxoGrows(p, b);
    PathStaysGood(p, b, coins, min, max);
  }

  lemma {:induction false} PathStaysGood(p: seq<Block>, b: Block, coins: int, min: int, max: int)
    requires GoodPath(p, coins) && FreshIds(PathEntries(p), b) && BlockAcceptable(PathEntries(p), b, coins, min, max)
    ensures GoodPath(p + [b], coins)
  {
    assert (p + [b])[..|p|] == p && GoodBlock(PathEntries(p), b, coins);
  }

  /** How a submission ends. Failed: an undo failed while branches were exchanged;
      Stopped: the program stopped. */
  datatype Outcome = Rejected | Failed | Stopped | Done(state: AddState)

  /** A block with a stored parent was stored; fork choice and chain table have followed. */
  ghost predicate Stored(db: DB, before: Blocks, oldTop: Hash, b: Block, coins: int)
    reads db`blocks, db`topHash, db`chain
  {
    && TreeOk(before) && oldTop in before && Attachable(before, b) && b.hash !in before && b.prev in before
    && (db.blocks, db.topHash) == Fork(before, oldTop, b)
    && StoreOk(db) && BranchesOk(db.blocks, coins)
  }

  predicate TurnedAway(r: Outcome)
  {
    r == Rejected || r == Done(NotAddedExists) || r == Done(NotAddedNoPrev)
  }

  /** NodeBlockchain.AddBlock: known blocks and blocks without parent are turned
      away, the others verified and stored. */
  method VerifyAndStore(db: DB, block: Block, coins: int, min: int, max: int) returns (r: Outcome)
    requires StorageOk(db, coins) && Submittable(db.blocks, block, coins, min, max)
    modifies db`blocks, db`topHash, db`chain
    ensures r != Failed && r != Stopped
    ensures Judged(r, old(db.rowRefs), old(db.blocks), old(db.topHash), block, coins, min, max)
    ensures TurnedAway(r) ==> (db.blocks, db.topHash, db.chain) == old((db.blocks, db.topHash, db.chain))
    ensures !TurnedAway(r) ==> Stored(db, old(db.blocks), old(db.topHash), block, coins)
    ensures r != Rejected ==> StateOfFork(r, old(db.blocks), old(db.topHash), block)
  {
    if block.hash in db.blocks {
      return Done(NotAddedExists);
    }
    if block.prev !in db.blocks {
      return Done(NotAddedNoPrev);
    }
    var ok := VerifyStorable(db, block, coins, min, max);
    if !ok {
      return Rejected;
    }
    BranchesGrow(db.blocks, block, coins, min, max);
    var state := BlockchainManager.AddBlock(db, block);
    return Done(state);
  }

  method VerifyStorable(db: DB, block: Block, coins: int, min: int, max: int) returns (ok: bool)
    requires StorageOk(db, coins) && block.hash !in db.blocks && block.prev in db.blocks
    ensures ok <==> Acceptable(db.rowRefs, db.blocks, db.topHash, block, coins, min, max)
  {
    NoEmptyHash(db.blocks);
    assert BranchOk(db.blocks, block.prev, coins);
    KnownIsSpends(db, block.prev, db.blocks);
    ok := VerifyBlock(db, block, coins, min, max, db.blocks);
    if ok && block.prev == db.topHash {
      ok := RowReferences.VerifyBases(db, block, EntriesUnder(db.blocks, block.prev));
    }
  }

  ghost predicate StateOfFork(r: Outcome, blocks: Blocks, top: Hash, b: Block)
    requires top in blocks
  {
    r == Done(
      if b.hash in blocks then NotAddedExists
      else if b.prev !in blocks then NotAddedNoPrev
      else if b.height <= blocks[top].height then AddedToParallel
      else if b.prev == top then AddedToTop
      else AddedToParallelTop)
  }

  // ----- where the tables end

  /** The new block sits on the top. */
  ghost predicate OnTop(blocks: Blocks, top: Hash, b: Block)
  {
    b.hash !in blocks && b.prev in blocks && b.prev == top
  }

  /** The new block is higher than the top and does not sit on it, yet the top is
      one of its ancestors. */
  ghost predicate Overtakes(blocks: Blocks, top: Hash, b: Block)
    requires TreeOk(blocks) && top in blocks
  {
    && b.hash !in blocks && b.prev in blocks && b.prev != top
    && b.height > blocks[top].height && OnPath(blocks, top, b.prev)
  }

  /** The new block makes another branch the main chain. */
  ghost predicate Exchanges(blocks: Blocks, top: Hash, b: Block)
    requires TreeOk(blocks) && top in blocks
  {
    && b.hash !in blocks && b.prev in blocks
    && b.height > blocks[top].height && !OnPath(blocks, top, b.prev)
  }

  /** Something is in the way of the undo statements of the branch that is left. */
  ghost predicate CannotLeave(rows: Rows, before: Blocks, oldTop: Hash, b: Block)
    requires TreeOk(before) && oldTop in before && b.prev in before
  {
    Hindered(rows, BranchUndos(Leaving(before, oldTop, b.prev)))
  }

  /** The answer, told by blocks and rows before, and the block `h` to which the
      unspent outputs are moved. A block that overtakes leaves them behind at the old
      top, and stops the program when that is the genesis block. An exchange of
      branches fails exactly when something is in the way on some row; then they stay
      at a block of the old branch. Otherwise they move to the top. */
  ghost predicate Ends(r: Outcome, h: Hash, before: Blocks, oldTop: Hash, b: Block, rows: Rows)
    requires TreeOk(before) && oldTop in before
  {
    if r == Rejected then h == oldTop
    else if Overtakes(before, oldTop, b) then
      h == oldTop && r == if before[oldTop].height == 0 then Stopped else Done(AddedToParallelTop)
    else if Exchanges(before, oldTop, b) && CannotLeave(rows, before, oldTop, b) then
      r == Failed && h in before && OnPath(before, h, oldTop)
    else StateOfFork(r, before, oldTop, b) && h == Fork(before, oldTop, b).1
  }

  /** What a newly stored block changes about paths. */
  lemma {:induction false} StoredOnTop(blocks: Blocks, top: Hash, b: Block)
    requires TreeOk(blocks) && top in blocks && Attachable(blocks, b) && b.hash !in blocks && b.prev in blocks
    ensures b.prev != NoHash && b.hash != top
    ensures TreeOk(blocks[b.hash := b]) && Path(blocks[b.hash := b], top) == Path(blocks, top)
    ensures Path(blocks[b.hash := b], b.prev) == Path(blocks, b.prev)
    ensures Path(blocks[b.hash := b], b.hash) == Path(blocks, b.prev) + [b]
    ensures OnPath(blocks[b.hash := b], top, b.hash) <==> OnPath(blocks, top, b.prev)
    ensures forall h | h in blocks :: OnPath(blocks[b.hash := b], h, top) <==> OnPath(blocks, h, top)
  {
    NoEmptyHash(blocks);
    TreeGrows(blocks, b);
    OnPathStep(blocks[b.hash := b], top, b.hash);
  }

  /** A new block is turned away, on top, beside, overtaking or exchanging. */
  lemma {:induction false} ForkCases(blocks: Blocks, top: Hash, b: Block, state: AddState)
    requires TreeOk(blocks) && top in blocks && Attachable(blocks, b) && b.hash !in blocks && b.prev in blocks
    requires StateOfFork(Done(state), blocks, top, b)
    ensures state == AddedToTop <==> OnTop(blocks, top, b)
    ensures state == AddedToParallelTop <==> Overtakes(blocks, top, b) || Exchanges(blocks, top, b)
    ensures state == AddedToTop || state == AddedToParallel || state == AddedToParallelTop
    ensures OnTop(blocks, top, b) ==> !Exchanges(blocks, top, b)
  {
    assert LinkOk(blocks, top) && OnPath(blocks, top, top);
  }

  /** What becomes of unspent outputs, rows, last writers and pool. They are left
      alone unless the block is accepted on top or exchanges branches. If the table
      held the unspent outputs of the old top, it then holds those of `h`. The rows of
      the new top, followed by the commands `rest`, result on top when `RowsFollow`
      holds, and from an exchange when the pending commands have nothing to do with
      it; for rows and pool this is the state before the transactions of the blocks
      that were left are repeated. An exchange that fails breaks off at `h`. */
  ghost predicate Followed(r: Outcome, h: Hash, was: Tables, now: Tables, before: Blocks, oldTop: Hash, after: Blocks,
      b: Block, rest: seq<Sql>)
    requires TreeOk(before) && oldTop in before
  {
    && (r == Rejected || !(OnTop(before, oldTop, b) || Exchanges(before, oldTop, b)) ==> now == was)
    && (r == Done(AddedToTop) ==> FollowedOnTop(was, now, before, oldTop, after, b, rest))
    && (r != Rejected && Exchanges(before, oldTop, b) ==>
          FollowedBranch(r, h, was, now, before, oldTop, after, b, rest))
    && TreeOk(after) && h in after
    && (MoneyOn(before, oldTop, was.unspent) ==> MoneyOn(after, h, now.unspent))
  }

  ghost predicate FollowedOnTop(was: Tables, now: Tables, before: Blocks, oldTop: Hash, after: Blocks, b: Block,
      rest: seq<Sql>)
    requires TreeOk(before) && oldTop in before
  {
    && now.writers == RowReferences.Written(was.writers, b.txs)
    && JoinedBlock(was.pending, was.rows, b.txs, now.pending, now.rows)
    && TreeOk(after) && b.hash in after
    && (MoneyOn(before, oldTop, was.unspent) ==> MoneyOn(after, b.hash, now.unspent))
    && (RowsFollow(Commands(EntriesUnder(before, oldTop)), was.pending, was.rows, b.txs, rest) ==>
          RowsOn(after, b.hash, now.rows, rest))
  }

  ghost predicate FollowedBranch(r: Outcome, h: Hash, was: Tables, now: Tables, before: Blocks, oldTop: Hash,
      after: Blocks, b: Block, rest: seq<Sql>)
    requires TreeOk(before) && oldTop in before
  {
    && TreeOk(after) && b.hash in after && oldTop in after
    && (if r == Failed then BrokenOff(was, now, after, oldTop, b.hash, h)
        else Exchanged(was, now, after, oldTop, b.hash))
    && (RowsOn(before, oldTop, was.rows, rest) && QuietExchange(was.pending, rest, after, oldTop, b.hash) ==>
          r == Done(AddedToParallelTop) && RowsOn(after, b.hash, now.rows, rest))
  }

  /** BlockAdded: the index always learns of the block, the rest only on top. */
  method BlockAdded(pool: UnapprovedTransactions, db: DB, block: Block, ontopofchain: bool, ghost others: Blocks,
      ghost coins: int, ghost rest: seq<Sql>)
    requires pool.Valid() && BlocksOk(db, coins) && TreeOk(others) && Attachable(others, block)
    requires block.hash !in others && db.blocks == others[block.hash := block]
    requires block.prev in others && IndexOk(others, db.txBlocks, db.txSpent)
    modifies pool, db`txBlocks, db`txSpent, db`rows, db`unspent, db`rowRefs
    ensures pool.Valid() && StorageOk(db, coins)
    ensures ontopofchain ==>
      FollowedOnTop(old(TablesOf(pool, db)), TablesOf(pool, db), others, block.prev, db.blocks, block, rest)
    ensures !ontopofchain ==> TablesOf(pool, db) == old(TablesOf(pool, db))
  {
    IndexNew(db, block, others, coins);
    if ontopofchain {
      BlockAddedToPrimaryChain(pool, db, block, coins, rest);
    }
  }

  /** The index with the new block is that of all stored blocks. */
  method IndexNew(db: DB, block: Block, ghost others: Blocks, ghost coins: int)
    requires BlocksOk(db, coins) && TreeOk(others) && Attachable(others, block)
    requires block.hash !in others && db.blocks == others[block.hash := block]
    requires block.prev in others && IndexOk(others, db.txBlocks, db.txSpent)
    modifies db`txBlocks, db`txSpent
    ensures StorageOk(db, coins) && block.prev != NoHash
    ensures EntriesUnder(db.blocks, block.prev) == EntriesUnder(others, block.prev)
    ensures Path(db.blocks, block.prev) == Path(others, block.prev)
  {
    StoredOnTop(others, block.prev, block);
    TransactionIndex.BlockAdded(db, block, others);
  }

  /** The state after a stored block was followed up. */
  ghost predicate FollowUp(r: Outcome, h: Hash, was: Tables, pool: UnapprovedTransactions, db: DB, before: Blocks,
      oldTop: Hash, b: Block, coins: int, rest: seq<Sql>)
    reads db, pool`table
    requires TreeOk(before) && oldTop in before
  {
    && StorageOk(db, coins) && r != Rejected && Ends(r, h, before, oldTop, b, was.rows)
    && Followed(r, h, was, TablesOf(pool, db), before, oldTop, db.blocks, b, rest)
  }

  /** The part of Node.AddBlock after the block was stored. */
  method FollowNewBlock(pool: UnapprovedTransactions, db: DB, block: Block, state: AddState, curLastHash: Hash,
      ghost before: Blocks, ghost coins: int, ghost rest: seq<Sql>)
    returns (r: Outcome, ghost h: Hash)
    requires pool.Valid() && Stored(db, before, curLastHash, block, coins)
    requires IndexOk(before, db.txBlocks, db.txSpent)
    requires StateOfFork(Done(state), before, curLastHash, block)
    modifies pool, db`txBlocks, db`txSpent, db`rows, db`unspent, db`rowRefs
    ensures pool.Valid()
    ensures FollowUp(r, h, old(TablesOf(pool, db)), pool, db, before, curLastHash, block, coins, rest)
  {
    ForkCases(before, curLastHash, block, state);
    if state == AddedToTop {
      r, h := FollowOnTop(pool, db, block, curLastHash, before, coins, rest);
    } else {
      r, h := FollowBeside(pool, db, block, state, curLastHash, before, coins, rest);
    }
  }

  method FollowOnTop(pool: UnapprovedTransactions, db: DB, block: Block, ghost oldTop: Hash, ghost before: Blocks,
      ghost coins: int, ghost rest: seq<Sql>)
    returns (r: Outcome, ghost h: Hash)
    requires pool.Valid() && Stored(db, before, oldTop, block, coins)
    requires IndexOk(before, db.txBlocks, db.txSpent)
    requires OnTop(before, oldTop, block) && StateOfFork(Done(AddedToTop), before, oldTop, block)
    modifies pool, db`txBlocks, db`txSpent, db`rows, db`unspent, db`rowRefs
    ensures pool.Valid() && FollowUp(r, h, old(TablesOf(pool, db)), pool, db, before, oldTop, block, coins, rest)
  {
    ghost var was := TablesOf(pool, db);
    BlockAdded(pool, db, block, true, before, coins, rest);
    FollowedPlainly(AddedToTop, was, TablesOf(pool, db), before, oldTop, db.blocks, block, rest);
    return Done(AddedToTop), block.hash;
  }

  method FollowBeside(pool: UnapprovedTransactions, db: DB, block: Block, state: AddState, curLastHash: Hash,
      ghost before: Blocks, ghost coins: int, ghost rest: seq<Sql>)
    returns (r: Outcome, ghost h: Hash)
    requires pool.Valid() && Stored(db, before, curLastHash, block, coins)
    requires IndexOk(before, db.txBlocks, db.txSpent)
    requires StateOfFork(Done(state), before, curLastHash, block) && state != AddedToTop
    modifies pool, db`txBlocks, db`txSpent, db`rows, db`unspent, db`rowRefs
    ensures pool.Valid()
    ensures FollowUp(r, h, old(TablesOf(pool, db)), pool, db, before, curLastHash, block, coins, rest)
  {
    ghost var was := TablesOf(pool, db);
    StoredOnTop(before, curLastHash, block);
    BlockAdded(pool, db, block, false, before, coins, rest);
    if state == AddedToParallelTop {
      ForkCases(before, curLastHash, block, state);
      r, h := FollowNewBranch(pool, db, block, curLastHash, before, coins, rest);
    } else {
      FollowedPlainly(state, was, TablesOf(pool, db), before, curLastHash, db.blocks, block, rest);
      r, h := Done(state), curLastHash;
    }
  }

  lemma {:induction false} FollowedPlainly(state: AddState, was: Tables, now: Tables, before: Blocks, oldTop: Hash,
      after: Blocks, b: Block, rest: seq<Sql>)
    requires TreeOk(before) && oldTop in before && Attachable(before, b) && b.hash !in before && b.prev in before
    requires StateOfFork(Done(state), before, oldTop, b) && state != AddedToParallelTop
    requires after == before[b.hash := b]
    requires if state == AddedToTop then FollowedOnTop(was, now, before, oldTop, after, b, rest) else now == was
    ensures var h := if state == AddedToTop then b.hash else oldTop;
      Ends(Done(state), h, before, oldTop, b, was.rows) &&
      Followed(Done(state), h, was, now, before, oldTop, after, b, rest)
  {
    StoredOnTop(before, oldTop, b);
    ForkCases(before, oldTop, b, state);
  }

  /** The same after the exchange of branches was found necessary. */
  method FollowNewBranch(pool: UnapprovedTransactions, db: DB, block: Block, curLastHash: Hash, ghost before: Blocks,
      ghost coins: int, ghost rest: seq<Sql>)
    returns (r: Outcome, ghost h: Hash)
    requires pool.Valid() && StorageOk(db, coins) && TreeOk(before)
    requires curLastHash in before && Attachable(before, block)
    requires db.blocks == before[block.hash := block] && db.topHash == block.hash && block.hash !in before
    requires Overtakes(before, curLastHash, block) || Exchanges(before, curLastHash, block)
    modifies pool, db`rows, db`unspent, db`rowRefs
    ensures pool.Valid()
    ensures FollowUp(r, h, old(TablesOf(pool, db)), pool, db, before, curLastHash, block, coins, rest)
  {
    ghost var was := TablesOf(pool, db);
    var err;
    err, h := ReplaceBranch(pool, db, curLastHash, coins, rest);
    r := if err == None then Done(AddedToParallelTop) else if err == Some(NilBlock) then Stopped else Failed;
    BranchFollows(r, h, err, was, TablesOf(pool, db), before, curLastHash, db.blocks, block, rest);
  }

  lemma {:induction false} BranchFollows(r: Outcome, h: Hash, err: Option<Error>, was: Tables, now: Tables,
      before: Blocks, oldTop: Hash, after: Blocks, b: Block, rest: seq<Sql>)
    requires TreeOk(before) && oldTop in before && Attachable(before, b)
    requires after == before[b.hash := b] && TreeOk(after)
    requires Overtakes(before, oldTop, b) || Exchanges(before, oldTop, b)
    requires BranchReplaced(err, h, was, now, after, oldTop, b.hash, rest)
    requires r == if err == None then Done(AddedToParallelTop) else if err == Some(NilBlock) then Stopped else Failed
    ensures Ends(r, h, before, oldTop, b, was.rows) && Followed(r, h, was, now, before, oldTop, after, b, rest)
  {
    BranchEnds(r, h, err, was, now, before, oldTop, after, b, rest);
    StoredOnTop(before, oldTop, b);
  }

  lemma {:induction false} BranchEnds(r: Outcome, h: Hash, err: Option<Error>, was: Tables, now: Tables,
      before: Blocks, oldTop: Hash, after: Blocks, b: Block, rest: seq<Sql>)
    requires TreeOk(before) && oldTop in before && Attachable(before, b)
    requires after == before[b.hash := b] && TreeOk(after)
    requires Overtakes(before, oldTop, b) || Exchanges(before, oldTop, b)
    requires BranchReplaced(err, h, was, now, after, oldTop, b.hash, rest)
    requires r == if err == None then Done(AddedToParallelTop) else if err == Some(NilBlock) then Stopped else Failed
    ensures Ends(r, h, before, oldTop, b, was.rows) && r != Rejected && r != Done(AddedToTop)
  {
    StoredOnTop(before, oldTop, b);
    GenesisUnder(before, oldTop, b.prev);
    if Exchanges(before, oldTop, b) {
      LeavingSame(before, oldTop, b, oldTop);
    }
  }

  /** The new block is on no old branch. */
  lemma {:induction false} LeavingSame(before: Blocks, oldTop: Hash, b: Block, h: Hash)
    requires TreeOk(before) && Attachable(before, b) && b.hash !in before && b.prev in before && h in before
    requires TreeOk(before[b.hash := b])
    ensures Leaving(before[b.hash := b], h, b.hash) == Leaving(before, h, b.prev)
    decreases before[h].height
  {
    var after := before[b.hash := b];
    StoredOnTop(before, h, b);
    OnPathStep(after, h, b.hash);
    TreeGrows(before, b);
    assert OnPath(after, h, b.prev) <==> OnPath(before, h, b.prev);
    assert LinkOk(before, h);
    if before[h].prev != NoHash {
      LeavingSame(before, oldTop, b, before[h].prev);
    }
  }

  // ----- AddBlock

  /** What AddBlock leaves: stored blocks and top follow the fork choice, all
      branches and the index are in order, and the answer is told by blocks and rows. */
  ghost predicate AddBlockDone(r: Outcome, h: Hash, before: Blocks, oldTop: Hash, rows: Rows, db: DB, b: Block,
      coins: int)
    reads db`blocks, db`topHash, db`chain, db`txBlocks, db`txSpent
    requires TreeOk(before) && oldTop in before
  {
    && StorageOk(db, coins) && Ends(r, h, before, oldTop, b, rows)
    && (db.blocks, db.topHash) == if r == Rejected then (before, oldTop) else Fork(before, oldTop, b)
  }

  /** Exactly the blocks with a stored parent that verification does not accept are
      rejected. */
  ghost predicate Judged(r: Outcome, refs: map<RefId, TxId>, before: Blocks, oldTop: Hash, b: Block, coins: int,
      min: int, max: int)
    requires TreeOk(before)
  {
    r == Rejected <==>
      b.hash !in before && b.prev in before && !Acceptable(refs, before, oldTop, b, coins, min, max)
  }

  /** Node.AddBlock, whatever block is submitted, whatever is pending and whatever the
      tables of unspent outputs, rows and last writers hold. As long as blocks only
      come in, the top stays highest, and then money stays in order unless something
      is in the way of an exchange. */
  method AddBlock(pool: UnapprovedTransactions, db: DB, block: Block, coins: int, min: int, max: int,
      ghost rest: seq<Sql>)
    returns (r: Outcome, ghost h: Hash)
    requires pool.Valid() && StorageOk(db, coins) && Submittable(db.blocks, block, coins, min, max)
    modifies pool, db
    ensures pool.Valid() && AddBlockDone(r, h, old(db.blocks), old(db.topHash), old(db.rows), db, block, coins)
    ensures var was, now := old(TablesOf(pool, db)), TablesOf(pool, db);
      Followed(r, h, was, now, old(db.blocks), old(db.topHash), db.blocks, block, rest)
    ensures Judged(r, old(db.rowRefs), old(db.blocks), old(db.topHash), block, coins, min, max)
    ensures r == Done(AddedToTop) ==> PoolAfter(old(pool.table), [block], pool.table)
    ensures r == Done(AddedToParallelTop) && Exchanges(old(db.blocks), old(db.topHash), block) ==>
      && PoolAfter(old(pool.table), Joining(db.blocks, db.topHash, old(db.topHash)), pool.table)
      && WritersAfter(old(db.rowRefs), db.rowRefs, db.blocks, old(db.topHash), db.topHash)
    ensures TopIsHighest(old(db.blocks), old(db.topHash)) ==>
      TopIsHighest(db.blocks, db.topHash) && (r != Failed && old(MoneyOk(db, coins)) ==> MoneyOk(db, coins))
    ensures db.topHash == old(db.topHash) || r == Done(AddedToTop) ==> (old(WritersOk(db)) ==> WritersOk(db))
  {
    ghost var before, oldTop, was := db.blocks, db.topHash, TablesOf(pool, db);
    r, h := StoreAndFollow(pool, db, block, coins, min, max, rest);
    DoneOnHighest(r, h, was, TablesOf(pool, db), before, oldTop, db.blocks, db.topHash, block, rest);
    DoneMeans(r, h, was, TablesOf(pool, db), before, oldTop, db.blocks, db.topHash, block, coins, rest);
    WritersFollow(r, h, was, TablesOf(pool, db), before, oldTop, db.blocks, db.topHash, block, coins, min, max, rest);
  }

  method StoreAndFollow(pool: UnapprovedTransactions, db: DB, block: Block, coins: int, min: int, max: int,
      ghost rest: seq<Sql>)
    returns (r: Outcome, ghost h: Hash)
    requires pool.Valid() && StorageOk(db, coins) && Submittable(db.blocks, block, coins, min, max)
    modifies pool, db
    ensures pool.Valid() && AddBlockDone(r, h, old(db.blocks), old(db.topHash), old(db.rows), db, block, coins)
    ensures var was, now := old(TablesOf(pool, db)), TablesOf(pool, db);
      Followed(r, h, was, now, old(db.blocks), old(db.topHash), db.blocks, block, rest)
    ensures Judged(r, old(db.rowRefs), old(db.blocks), old(db.topHash), block, coins, min, max)
  {
    ghost var before, was := db.blocks, TablesOf(pool, db);
    var curLastHash := db.topHash;
    r := VerifyAndStore(db, block, coins, min, max);
    h := curLastHash;
    assert TablesOf(pool, db) == was;
    if TurnedAway(r) {
      FollowedNot(r, was, before, curLastHash, db, block, coins, rest);
    } else {
      r, h := FollowNewBlock(pool, db, block, r.state, curLastHash, before, coins, rest);
    }
  }

  lemma {:induction false} FollowedNot(r: Outcome, was: Tables, before: Blocks, oldTop: Hash, db: DB, b: Block,
      coins: int, rest: seq<Sql>)
    requires TreeOk(before) && oldTop in before && Attachable(before, b) && TurnedAway(r)
    requires (db.blocks, db.topHash) == (before, oldTop) && StorageOk(db, coins)
    requires r == Rejected || StateOfFork(r, before, oldTop, b)
    ensures AddBlockDone(r, oldTop, before, oldTop, was.rows, db, b, coins)
    ensures Followed(r, oldTop, was, was, before, oldTop, db.blocks, b, rest)
  {
  }

  lemma {:induction false} DoneOnHighest(r: Outcome, h: Hash, was: Tables, now: Tables, before: Blocks, oldTop: Hash,
      after: Blocks, top: Hash, b: Block, rest: seq<Sql>)
    requires TreeOk(before) && oldTop in before && Attachable(before, b) && top in after
    requires (after, top) == if r == Rejected then (before, oldTop) else Fork(before, oldTop, b)
    requires Ends(r, h, before, oldTop, b, was.rows) && Followed(r, h, was, now, before, oldTop, after, b, rest)
    ensures TopIsHighest(before, oldTop) ==> TopIsHighest(after, top) && (r != Failed ==> h == top)
  {
    if TopIsHighest(before, oldTop) {
      HighestIsNotOvertaken(before, oldTop, b);
    }
  }

  /** Pool and last writers after a block that sits on the top or exchanges branches. */
  lemma {:induction false} DoneMeans(r: Outcome, h: Hash, was: Tables, now: Tables, before: Blocks, oldTop: Hash,
      after: Blocks, top: Hash, b: Block, coins: int, rest: seq<Sql>)
    requires TreeOk(before) && oldTop in before && TreeOk(after) && BranchesOk(after, coins) && top in after
    requires (after, top) == if r == Rejected then (before, oldTop) else Fork(before, oldTop, b)
    requires Ends(r, h, before, oldTop, b, was.rows) && Followed(r, h, was, now, before, oldTop, after, b, rest)
    ensures r == Done(AddedToTop) ==> PoolAfter(was.pending, [b], now.pending)
    ensures r == Done(AddedToParallelTop) && Exchanges(before, oldTop, b) ==>
      && oldTop in after
      && PoolAfter(was.pending, Joining(after, top, oldTop), now.pending)
      && WritersAfter(was.writers, now.writers, after, oldTop, top)
  {
    if r == Done(AddedToTop) {
      OneBlockJoined(was.pending, was.rows, b, now.pending, now.rows);
    }
    if r == Done(AddedToParallelTop) && Exchanges(before, oldTop, b) {
      ExchangeMeans(was, now, after, oldTop, top, coins);
    }
  }

  /** With a right index a block on top is only accepted with right bases. */
  lemma {:induction false} WritersFollow(r: Outcome, h: Hash, was: Tables, now: Tables, before: Blocks, oldTop: Hash,
      after: Blocks, top: Hash, b: Block, coins: int, min: int, max: int, rest: seq<Sql>)
    requires TreeOk(before) && oldTop in before && Attachable(before, b) && TreeOk(after) && top in after
    requires (after, top) == if r == Rejected then (before, oldTop) else Fork(before, oldTop, b)
    requires Judged(r, was.writers, before, oldTop, b, coins, min, max) && Ends(r, h, before, oldTop, b, was.rows)
    requires Followed(r, h, was, now, before, oldTop, after, b, rest)
    ensures top == oldTop || r == Done(AddedToTop) ==>
      (WritersAt(was.writers, before, oldTop) ==> WritersAt(now.writers, after, top))
  {
    if b.hash !in before && b.prev in before {
      StoredOnTop(before, oldTop, b);
    }
    if r == Done(AddedToTop) && WritersAt(was.writers, before, oldTop) {
      AcceptableIff(was.writers, before, oldTop, b, coins, min, max);
      RowReferences.WrittenIsLast(was.writers, EntriesUnder(before, oldTop), b);
      BasesGrow(Path(before, oldTop), b);
    }
  }

  lemma {:induction false} BasesGrow(p: seq<Block>, b: Block)
    ensures RowReferences.BasesOk(p) && RowReferences.BlockBasesOk(PathEntries(p), b) ==> RowReferences.BasesOk(p + [b])
  {
    assert (p + [b])[..|p|] == p;
  }

  /** Only a top that is not highest can be overtaken, and fork choice keeps it highest. */
  lemma {:induction false} HighestIsNotOvertaken(blocks: Blocks, top: Hash, b: Block)
    requires TreeOk(blocks) && top in blocks && TopIsHighest(blocks, top) && Attachable(blocks, b)
    ensures !Overtakes(blocks, top, b)
    ensures TopIsHighest(Fork(blocks, top, b).0, Fork(blocks, top, b).1)
  {
    if Overtakes(blocks, top, b) {
      assert blocks[b.prev].height == blocks[top].height;
      SameHeight(blocks, top, b.prev, b.prev);
    }
  }

  // ----- the first block

  ghost predicate IsGenesis(genesis: Block)
  {
    genesis.hash != NoHash && genesis.prev == NoHash && genesis.height == 0
  }

  ghost predicate GenesisOk(genesis: Block, coins: int)
  {
    IsGenesis(genesis) && Live(PathEntries([genesis])) && GoodPath([genesis], coins) && SqlOk(PathEntries([genesis]))
  }

  function OnlyBlock(genesis: Block): Blocks
  {
    map[genesis.hash := genesis]
  }

  /** The storage part of addFirstBlock. */
  method PutFirstBlock(genesis: Block) returns (db: DB)
    requires IsGenesis(genesis)
    ensures fresh(db) && StoreOk(db) && db.blocks == OnlyBlock(genesis) && db.topHash == genesis.hash
    ensures db.txBlocks == map[] && db.txSpent == map[]
    ensures db.unspent == map[] && db.rows == map[] && db.rowRefs == map[]
  {
    db := new DB();
    db.blocks := db.blocks[genesis.hash := genesis];
    db.topHash := genesis.hash;
    var err := db.AddToChain(genesis.hash, NoHash);
    GenesisTree(genesis);
    LinkedExtends(map[], [], genesis);
    assert [] + [genesis] == [genesis];
  }

  method IndexFirstBlock(db: DB, genesis: Block)
    requires db.txBlocks == map[] && db.txSpent == map[]
    modifies db`txBlocks, db`txSpent
    ensures IndexOk(OnlyBlock(genesis), db.txBlocks, db.txSpent)
  {
    ghost var none: Blocks := map[];
    assert none[genesis.hash := genesis] == OnlyBlock(genesis);
    TransactionIndex.BlockAdded(db, genesis, none);
  }

  /** BlockAdded for the genesis block, without the index. */
  method FollowFirstBlock(pool: UnapprovedTransactions, db: DB, genesis: Block)
    requires pool.Valid() && pool.table == map[] && UniqueIds(PathEntries([genesis])) && SqlOk(PathEntries([genesis]))
    requires db.unspent == map[] && db.rows == map[] && db.rowRefs == map[]
    modifies pool, db`rows, db`unspent, db`rowRefs
    ensures pool.Valid() && pool.table == map[] && Represents(db.unspent, UtxoOf([genesis]))
    ensures Replay(Commands(PathEntries([genesis])) + []) == Some(db.rows)
    ensures RowReferences.RefsOk(db.rowRefs, PathEntries([genesis]))
  {
    ghost var pool0, rows0 := pool.table, db.rows;
    JoinBlock(pool, db, genesis);
    FirstRows(genesis, pool0, rows0, pool.table, db.rows);
    EnterFirstBlock(db, genesis);
  }

  method EnterFirstBlock(db: DB, genesis: Block)
    requires UniqueIds(PathEntries([genesis])) && db.unspent == map[] && db.rowRefs == map[]
    modifies db`unspent, db`rowRefs
    ensures Represents(db.unspent, UtxoOf([genesis])) && RowReferences.RefsOk(db.rowRefs, PathEntries([genesis]))
  {
    GenesisEntries(genesis);
    UnspentOutputs.UpdateOnBlockAdd(db, genesis, []);
    RowReferences.UpdateOnBlockAdd(db, genesis);
    RowReferences.WrittenIsLast(map[], [], genesis);
  }

  lemma {:induction false} FirstRows(genesis: Block, pool0: Txs, rows0: Rows, pool: Txs, rows: Rows)
    requires SqlOk(PathEntries([genesis])) && JoinedBlock(pool0, rows0, genesis.txs, pool, rows)
    requires pool0 == map[] && rows0 == map[]
    ensures Replay(Commands(PathEntries([genesis])) + []) == Some(rows) && pool == map[]
  {
    GenesisEntries(genesis);
    JoinedSub(pool0, rows0, genesis.txs, pool, rows);
    NothingIsUnrelated(pool0, genesis.txs);
    UnrelatedFollows([], pool0, rows0, genesis.txs, []);
    RowsAbove([], genesis, pool0, rows0, [], pool, rows);
  }

  lemma {:induction false} NothingIsUnrelated(pool: Txs, txs: seq<Tx>)
    requires pool == map[]
    ensures Unrelated(pool, [], txs) && Replay([] + []) == Some(map[])
  {
    var none: seq<Sql> := [];
    assert none + none == none;
  }

  /** addFirstBlock: a new database with the genesis block, and an empty pool. */
  method AddFirstBlock(genesis: Block, ghost coins: int) returns (db: DB, pool: UnapprovedTransactions)
    requires GenesisOk(genesis, coins)
    ensures fresh(db) && fresh(pool) && pool.Valid() && pool.table == map[]
    ensures db.blocks == OnlyBlock(genesis) && db.topHash == genesis.hash && MoneyOk(db, coins)
    ensures TopIsHighest(db.blocks, db.topHash) && RowsAt(db, db.topHash, [])
    ensures (forall t | 0 <= t < |genesis.txs| :: genesis.txs[t].sql == NoSql) ==> WritersOk(db)
  {
    GenesisTree(genesis);
    GenesisFacts(genesis, coins);
    GenesisBases(genesis);
    pool := new UnapprovedTransactions();
    db := CreateNode(pool, genesis);
  }

  method CreateNode(pool: UnapprovedTransactions, genesis: Block) returns (db: DB)
    requires pool.Valid() && pool.table == map[]
    requires IsGenesis(genesis) && UniqueIds(PathEntries([genesis])) && SqlOk(PathEntries([genesis]))
    modifies pool
    ensures fresh(db) && pool.Valid() && pool.table == map[]
    ensures db.blocks == OnlyBlock(genesis) && db.topHash == genesis.hash
    ensures StoreOk(db) && IndexOk(db.blocks, db.txBlocks, db.txSpent)
    ensures MoneyAt(db, db.topHash) && RowsAt(db, db.topHash, [])
    ensures RowReferences.RefsOk(db.rowRefs, EntriesUnder(db.blocks, db.topHash))
  {
    GenesisTree(genesis);
    db := PutFirstBlock(genesis);
    IndexFirstBlock(db, genesis);
    FollowFirstBlock(pool, db, genesis);
  }

  lemma {:induction false} GenesisBases(genesis: Block)
    ensures (forall t | 0 <= t < |genesis.txs| :: genesis.txs[t].sql == NoSql) ==> RowReferences.BasesOk([genesis])
  {
    assert [genesis][..0] == [];
  }

  lemma {:induction false} GenesisFacts(genesis: Block, coins: int)
    requires GenesisOk(genesis, coins)
    ensures TreeOk(OnlyBlock(genesis)) && BranchesOk(OnlyBlock(genesis), coins)
    ensures UniqueIds(PathEntries([genesis])) && SqlOk(PathEntries([genesis]))
  {
    GenesisTree(genesis);
    LiveIsUnique(PathEntries([genesis]));
    forall h | h in OnlyBlock(genesis) ensures BranchOk(OnlyBlock(genesis), h, coins) {
      assert h == genesis.hash && OnlyBlock(genesis)[h] == genesis;
    }
  }

  lemma {:induction false} GenesisTree(genesis: Block)
    requires IsGenesis(genesis)
    ensures TreeOk(OnlyBlock(genesis)) && Path(OnlyBlock(genesis), genesis.hash) == [genesis]
    ensures TopIsHighest(OnlyBlock(genesis), genesis.hash)
  {
    assert LinkOk(OnlyBlock(genesis), genesis.hash);
  }

  lemma {:induction false} GenesisEntries(genesis: Block)
    ensures PathEntries([genesis]) == BlockEntries(genesis) == [] + BlockEntries(genesis)
    ensures [] + [genesis] == [genesis] && PathEntries([]) == []
  {
    assert [genesis][..0] == [];
  }

  // ----- dropping the top

  /** Node.DropBlock. All branches stay in order; the index stays right exactly when
      no remaining block uses an output that the dropped block uses. If the table held
      the unspent outputs of the top, it holds those of its parent. The commands of the
      dropped block stay in effect, in front of those that were pending, and its
      transactions go back to the pool. Its records go from the index of rows. */
  method DropBlock(pool: UnapprovedTransactions, db: DB, ghost coins: int, ghost queue: seq<Sql>) returns (block: Block)
    requires pool.Valid() && StorageOk(db, coins)
    requires db.blocks[db.topHash].prev != NoHash && IsLeaf(db.blocks, db.topHash)
    modifies pool, db
    ensures pool.Valid() && block == old(db.blocks[db.topHash])
    ensures BlocksOk(db, coins) && db.topHash == block.prev && db.blocks == old(db.blocks) - {block.hash}
    ensures StorageOk(db, coins) <==> !SharesSpending(db.blocks, block)
    ensures SoundLookup(db, db.blocks) && Forgotten(db.txSpent, block)
    ensures old(MoneyAt(db, db.topHash)) ==> MoneyAt(db, db.topHash)
    ensures old(RowsAt(db, db.topHash, queue)) ==> RowsAt(db, db.topHash, SqlsOf(block.txs) + queue)
    ensures pool.table == AddedAll(old(pool.table), block.txs)
    ensures (forall t | 0 <= t < |block.txs| && block.txs[t].id in old(pool.table) ::
        old(pool.table)[block.txs[t].id] == block.txs[t]) ==> BroughtBack(old(pool.table), block.txs, pool.table)
    ensures db.rows == old(db.rows) && db.rowRefs == RowReferences.Cancelled(old(db.rowRefs), block.txs)
  {
    ghost var before := db.blocks;
    block := BlockchainManager.DeleteBlock(db);
    DroppedTop(before, db.blocks, block, coins);
    ReadyToCancel(db, before, block);
    RowsStay(before, db.blocks, block, queue, db.rows);
    BlockRemoved(pool, db, block);
  }

  lemma {:induction false} Regrouped(a: seq<Sql>, b: seq<Sql>, c: seq<Sql>)
    ensures a + b + c == a + (b + c)
  {
  }

  /** The rows of the top, seen from its parent. */
  lemma {:induction false} RowsStay(before: Blocks, after: Blocks, b: Block, queue: seq<Sql>, rows: Rows)
    requires TreeOk(before) && TreeOk(after) && b.hash in before && b.prev in after
    requires EntriesUnder(before, b.hash) == EntriesUnder(after, b.prev) + BlockEntries(b)
    ensures RowsOn(before, b.hash, rows, queue) ==> RowsOn(after, b.prev, rows, SqlsOf(b.txs) + queue)
  {
    CommandsOfBlock(EntriesUnder(after, b.prev), b);
    Regrouped(Commands(EntriesUnder(after, b.prev)), SqlsOf(b.txs), queue);
  }

  lemma {:induction false} IdsOfBlock(es: seq<Entry>, b: Block)
    requires Live(es + BlockEntries(b))
    ensures DistinctIds(b.txs)
  {
    forall i, j | 0 <= i < j < |b.txs| ensures b.txs[i].id != b.txs[j].id {
      LiveIds(es + BlockEntries(b), |es| + i, |es| + j);
    }
  }

  /** The remaining blocks after the top was deleted. */
  lemma {:induction false} DroppedTop(before: Blocks, after: Blocks, block: Block, coins: int)
    requires TreeOk(before) && BranchesOk(before, coins) && block.hash in before && before[block.hash] == block
    requires block.prev != NoHash && IsLeaf(before, block.hash) && after == before - {block.hash}
    ensures TreeOk(after) && BranchesOk(after, coins) && block.prev in after && block.hash !in after
    ensures EntriesUnder(before, block.hash) == EntriesUnder(after, block.prev) + BlockEntries(block)
    ensures Live(EntriesUnder(before, block.hash)) && AllReached(block) && after[block.hash := block] == before
    ensures DistinctIds(block.txs)
  {
    ParentFacts(before, block.hash, coins);
    IdsOfBlock(EntriesUnder(before, block.prev), block);
    BranchesShrink(before, block.hash, coins);
    TreeShrinks(before, block.hash);
    assert LinkOk(before, block.hash);
  }

  lemma {:induction false} ReadyToCancel(db: DB, before: Blocks, block: Block)
    requires StoreOk(db) && IndexOk(before, db.txBlocks, db.txSpent) && db.blocks[block.hash := block] == before
    requires TreeOk(before) && block.prev in db.blocks && block.prev != NoHash && block.hash !in db.blocks
    requires Live(EntriesUnder(db.blocks, block.prev) + BlockEntries(block))
    ensures CancelReady(db, block, db.blocks[block.hash := block])
  {
    NoEmptyHash(before);
  }

  /** BlockRemoved: the transactions of the block go back to the pool, and outputs,
      index and row index are cancelled. */
  method BlockRemoved(pool: UnapprovedTransactions, db: DB, block: Block)
    requires pool.Valid() && CancelReady(db, block, db.blocks[block.hash := block]) && block.hash !in db.blocks
    requires AllReached(block)
    modifies pool, db`unspent, db`txBlocks, db`txSpent, db`rowRefs
    ensures pool.Valid() && pool.table == AddedAll(old(pool.table), block.txs)
    ensures IdsAgree(old(pool.table), block.txs) ==> BroughtBack(old(pool.table), block.txs, pool.table)
    ensures Represents(old(db.unspent), Fold(map[], ParentEntries(db, block) + BlockEntries(block))) ==>
      Represents(db.unspent, Fold(map[], ParentEntries(db, block)))
    ensures IndexOk(db.blocks, db.txBlocks, db.txSpent) <==> !SharesSpending(db.blocks, block)
    ensures SoundLookup(db, db.blocks) && Forgotten(db.txSpent, block)
    ensures db.rowRefs == RowReferences.Cancelled(old(db.rowRefs), block.txs)
  {
    pool.AddFromCanceled(block);
    CancelTables(db, block);
  }

  method CancelTables(db: DB, block: Block)
    requires CancelReady(db, block, db.blocks[block.hash := block]) && block.hash !in db.blocks && AllReached(block)
    modifies db`unspent, db`txBlocks, db`txSpent, db`rowRefs
    ensures Represents(old(db.unspent), Fold(map[], ParentEntries(db, block) + BlockEntries(block))) ==>
      Represents(db.unspent, Fold(map[], ParentEntries(db, block)))
    ensures IndexOk(db.blocks, db.txBlocks, db.txSpent) <==> !SharesSpending(db.blocks, block)
    ensures SoundLookup(db, db.blocks) && Forgotten(db.txSpent, block)
    ensures db.rowRefs == RowReferences.Cancelled(old(db.rowRefs), block.txs)
  {
    CancelOutputs(db, block);
    UnindexBlock(db, block);
    RowReferences.UpdateOnBlockCancel(db, block, db.blocks);
  }

  method CancelOutputs(db: DB, block: Block)
    requires CancelReady(db, block, db.blocks[block.hash := block]) && AllReached(block)
    modifies db`unspent
    ensures Represents(old(db.unspent), Fold(map[], ParentEntries(db, block) + BlockEntries(block))) ==>
      Represents(db.unspent, Fold(map[], ParentEntries(db, block)))
  {
    ghost var right := Represents(db.unspent, Fold(map[], ParentEntries(db, block) + BlockEntries(block)));
    UnspentCancel.UpdateOnBlockCancel(db, block, db.blocks[block.hash := block]);
    if right {
      CancelUndoesAddIff(db.unspent, ParentEntries(db, block), block);
    }
  }

  method UnindexBlock(db: DB, block: Block)
    requires CancelReady(db, block, db.blocks[block.hash := block]) && block.hash !in db.blocks
    modifies db`txBlocks, db`txSpent
    ensures IndexOk(db.blocks, db.txBlocks, db.txSpent) <==> !SharesSpending(db.blocks, block)
    ensures SoundLookup(db, db.blocks) && Forgotten(db.txSpent, block)
  {
    ghost var bl, sp := db.txBlocks, db.txSpent;
    TransactionIndex.BlockRemoved(db, block);
    HashesAreKeys(db.blocks);
    RemovedCoversIff(db.blocks, block, bl, sp, db.txBlocks, db.txSpent);
    StillListed(db.blocks, block, bl, db.txBlocks);
    StillSound(db.blocks, block, sp, db.txSpent);
    NoEmptyHash(db.blocks);
  }

  lemma {:induction false} BranchesShrink(blocks: Blocks, leaf: Hash, coins: int)
    requires TreeOk(blocks) && BranchesOk(blocks, coins) && leaf in blocks && IsLeaf(blocks, leaf)
    ensures TreeOk(blocks - {leaf}) && BranchesOk(blocks - {leaf}, coins)
  {
    TreeShrinks(blocks, leaf);
    forall h | h in blocks - {leaf} ensures BranchOk(blocks - {leaf}, h, coins) {
      assert BranchOk(blocks, h, coins);
    }
  }

  lemma {:induction false} StillSound(others: Blocks, b: Block, was: map<TxId, seq<SpentRec>>,
      now: map<TxId, seq<SpentRec>>)
    requires b.hash !in others && forall h | h in others :: others[h].hash == h
    requires forall id, r | Recorded(was, id, r) ::
      r.block in others[b.hash := b] && UsedIn(others[b.hash := b][r.block], id, r)
    requires forall id, r :: Recorded(now, id, r) <==> Recorded(was, id, r) && !SpendsOutput(b, OutPoint(id, r.out))
    ensures forall id, r | Recorded(now, id, r) :: r.block in others && UsedIn(others[r.block], id, r)
    ensures Forgotten(now, b)
  {
    forall id, r | Recorded(now, id, r) ensures r.block in others && UsedIn(others[r.block], id, r) {
      if r.block == b.hash {
        UseIsSpending(b, id, r);
      }
    }
  }

  lemma {:induction false} HashesAreKeys(blocks: Blocks)
    requires TreeOk(blocks)
    ensures forall h | h in blocks :: blocks[h].hash == h
  {
    assert forall h | h in blocks :: LinkOk(blocks, h);
  }

  lemma {:induction false} StillListed(others: Blocks, b: Block, was: map<TxId, seq<Hash>>, now: map<TxId, seq<Hash>>)
    requires b.hash !in others && ListsBlocks(others[b.hash := b], was)
    requires forall id, k :: Listed(now, id, k) <==> Listed(was, id, k) && !(k == b.hash && Contains(b, id))
    ensures ListsBlocks(others, now)
  {
  }
}
