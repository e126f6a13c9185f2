/** Blocks leave and join the main chain, one by one and whole branches at a time:
    unspent outputs, rows, last writers and the pool follow. */
module BranchExchange {
  import opened Types
  import opened BlockTree
  import opened Database
  import opened BranchQueries
  import opened Ledger
  import opened TransactionLookup
  import opened UnspentOutputs
  import opened UnspentCancel
  import opened SqlHistory
  import opened RowOrder
  import opened StatementRuns
  import opened Pool
  import opened CascadeOrder
  import opened BlockExecution
  import opened NodeState
  import opened UndoRows
  import opened BranchTables
  import opened Slices
  import RowReferences

  // ----- one block

  /** BlockRemovedFromPrimaryChain: from the state of a block to that of its parent.
      An undo that fails ends it before the unspent outputs are touched. One does
      exactly when something is in the way on its row, so not when the pending
      commands are on other rows than the block's. */
  method BlockRemovedFromPrimaryChain(db: DB, block: Block, ghost coins: int, ghost queue: seq<Sql>) returns (ok: bool)
    requires StorageOk(db, coins) && block.hash in db.blocks
    requires db.blocks[block.hash] == block && block.prev in db.blocks
    requires block.prev != NoHash
    modifies db`rows, db`unspent, db`rowRefs
    ensures ok <==> UndoTxs(old(db.rows), block.txs) != None
    ensures ok <==> !Hindered(old(db.rows), UndosOf(block.txs))
    ensures ok ==> UndoTxs(old(db.rows), block.txs) == Some(db.rows)
    ensures ok && old(MoneyAt(db, block.hash)) ==> MoneyAt(db, block.prev)
    ensures ok ==> db.rowRefs == RowReferences.Cancelled(old(db.rowRefs), block.txs)
    ensures !ok ==> db.unspent == old(db.unspent) && db.rowRefs == old(db.rowRefs)
    ensures !ok ==> StoppedAt(old(db.rows), block.txs, db.rows)
    ensures old(RowsAt(db, block.hash, queue)) && Apart(queue, SqlsOf(block.txs)) ==>
      ok && RowsAt(db, block.prev, queue)
  {
    ghost var rows0 := db.rows;
    ParentFacts(db.blocks, block.hash, coins);
    ok := RollbackBlock(db, block);
    RowsBelow(EntriesUnder(db.blocks, block.prev), block, queue, rows0, db.rows, ok);
    if ok {
      TakeBlockBack(db, block, coins);
    }
  }

  /** Unspent outputs and last writers when a block has left. */
  method TakeBlockBack(db: DB, block: Block, ghost coins: int)
    requires StorageOk(db, coins) && block.hash in db.blocks
    requires db.blocks[block.hash] == block && block.prev in db.blocks
    requires block.prev != NoHash
    modifies db`unspent, db`rowRefs
    ensures old(MoneyAt(db, block.hash)) ==> MoneyAt(db, block.prev)
    ensures db.rowRefs == RowReferences.Cancelled(old(db.rowRefs), block.txs)
  {
    ghost var right := MoneyAt(db, block.hash);
    ParentFacts(db.blocks, block.hash, coins);
    NoEmptyHash(db.blocks);
    UnspentCancel.UpdateOnBlockCancel(db, block, db.blocks);
    if right {
      CancelUndoesAddIff(db.unspent, EntriesUnder(db.blocks, block.prev), block);
    }
    RowReferences.UpdateOnBlockCancel(db, block, db.blocks);
  }

  lemma {:induction false} RowsBelow(es: seq<Entry>, b: Block, queue: seq<Sql>, rows0: Rows, rows: Rows, ok: bool)
    requires SqlOk(es + BlockEntries(b)) && (ok <==> UndoTxs(rows0, b.txs) != None)
    requires ok ==> UndoTxs(rows0, b.txs) == Some(rows)
    ensures Replay(Commands(es + BlockEntries(b)) + queue) == Some(rows0) && Apart(queue, SqlsOf(b.txs)) ==>
      ok && Replay(Commands(es) + queue) == Some(rows)
    ensures ok <==> !Hindered(rows0, UndosOf(b.txs))
  {
    BlockUndoneIff(es, b, rows0);
    if Replay(Commands(es + BlockEntries(b)) + queue) == Some(rows0) && Apart(queue, SqlsOf(b.txs)) {
      BlockTakenBack(es, b, queue);
    }
  }

  /** BlockAddedToPrimaryChain, and the same steps of BlockAdded for a block on top:
      from the state of the parent to that of the block. An error of the commands
      is ignored by the code; the unspent outputs follow in any case. */
  method BlockAddedToPrimaryChain(pool: UnapprovedTransactions, db: DB, block: Block, ghost coins: int,
      ghost rest: seq<Sql>)
    requires pool.Valid() && TreeOk(db.blocks) && BranchesOk(db.blocks, coins)
    requires block.hash in db.blocks && db.blocks[block.hash] == block && block.prev in db.blocks
    requires block.prev != NoHash
    modifies pool, db`rows, db`unspent, db`rowRefs
    ensures pool.Valid() && JoinedBlock(old(pool.table), old(db.rows), block.txs, pool.table, db.rows)
    ensures old(MoneyAt(db, block.prev)) ==> MoneyAt(db, block.hash)
    ensures db.rowRefs == RowReferences.Written(old(db.rowRefs), block.txs)
    ensures
      var chain := Commands(EntriesUnder(db.blocks, block.prev));
      RowsFollow(chain, old(pool.table), old(db.rows), block.txs, rest) ==> RowsAt(db, block.hash, rest)
  {
    ghost var pool0, rows0 := pool.table, db.rows;
    ParentFacts(db.blocks, block.hash, coins);
    JoinBlock(pool, db, block);
    RowsAbove(EntriesUnder(db.blocks, block.prev), block, pool0, rows0, rest, pool.table, db.rows);
    EnterBlock(db, block, coins);
  }

  /** Commands and pool when a block joins; an error of the commands is ignored. */
  method JoinBlock(pool: UnapprovedTransactions, db: DB, block: Block)
    requires pool.Valid()
    modifies pool, db`rows
    ensures pool.Valid() && JoinedBlock(old(pool.table), old(db.rows), block.txs, pool.table, db.rows)
  {
    ghost var pool0, rows0 := pool.table, db.rows;
    var executed := TransactionsFromAddedBlock(pool, db, block.txs);
    assert BlockExecuted(pool0, rows0, block.txs, pool.table, db.rows, executed);
    pool.DeleteFromBlock(block);
  }

  /** Unspent outputs and last writers when a block has joined. */
  method EnterBlock(db: DB, block: Block, ghost coins: int)
    requires TreeOk(db.blocks) && BranchesOk(db.blocks, coins)
    requires block.hash in db.blocks && db.blocks[block.hash] == block && block.prev in db.blocks
    requires block.prev != NoHash
    modifies db`unspent, db`rowRefs
    ensures old(MoneyAt(db, block.prev)) ==> MoneyAt(db, block.hash)
    ensures db.rowRefs == RowReferences.Written(old(db.rowRefs), block.txs)
  {
    ParentFacts(db.blocks, block.hash, coins);
    LiveIsUnique(EntriesUnder(db.blocks, block.hash));
    UnspentOutputs.UpdateOnBlockAdd(db, block, Path(db.blocks, block.prev));
    RowReferences.UpdateOnBlockAdd(db, block);
  }

  lemma {:induction false} RowsAbove(es: seq<Entry>, b: Block, pool0: Txs, rows0: Rows, rest: seq<Sql>, pool: Txs,
      rows: Rows)
    requires SqlOk(es + BlockEntries(b)) && JoinedBlock(pool0, rows0, b.txs, pool, rows)
    ensures RowsFollow(Commands(es), pool0, rows0, b.txs, rest) ==>
      Replay(Commands(es + BlockEntries(b)) + rest) == Some(rows)
  {
    CommandsOfBlock(es, b);
    if RowsFollow(Commands(es), pool0, rows0, b.txs, rest) {
      JoinedRows(Commands(es), pool0, rows0, b.txs, rest, pool, rows);
    }
  }

  // ----- whole branches

  lemma {:induction false} SameHeight(blocks: Blocks, a: Hash, b: Hash, tip: Hash)
    requires TreeOk(blocks) && tip in blocks && OnPath(blocks, a, tip) && OnPath(blocks, b, tip)
    requires blocks[a].height == blocks[b].height
    ensures a == b
  {
    assert LinkOk(blocks, a) && LinkOk(blocks, b);
  }

  /** The blocks from `top` down to the one above `common`. */
  ghost predicate DownTo(blocks: Blocks, top: Hash, common: Hash, chain: seq<Block>)
    requires TreeOk(blocks) && top in blocks
  {
    && OnPath(blocks, common, top) && |chain| == blocks[top].height - blocks[common].height
    && forall i | 0 <= i < |chain| :: chain[i] == Path(blocks, top)[blocks[top].height - i]
  }

  /** The blocks from the one above `common` up to `top`. */
  ghost predicate UpFrom(blocks: Blocks, top: Hash, common: Hash, chain: seq<Block>)
    requires TreeOk(blocks) && top in blocks
  {
    && OnPath(blocks, common, top) && |chain| == blocks[top].height - blocks[common].height
    && forall i | 0 <= i < |chain| :: chain[i] == Path(blocks, top)[blocks[common].height + 1 + i]
  }

  /** `h` is met after `i` steps down from `top`. */
  ghost predicate BelowBy(blocks: Blocks, top: Hash, h: Hash, i: nat)
    requires TreeOk(blocks) && top in blocks
  {
    OnPath(blocks, h, top) && blocks[h].height == blocks[top].height - i
  }

  lemma {:induction false} LeaveStep(blocks: Blocks, oldTop: Hash, common: Hash, h: Hash, oldChain: seq<Block>, i: nat)
    requires TreeOk(blocks) && oldTop in blocks && DownTo(blocks, oldTop, common, oldChain)
    requires i < |oldChain| && BelowBy(blocks, oldTop, h, i)
    ensures oldChain[i].hash == h && oldChain[i] == blocks[h] && blocks[h].prev != NoHash && blocks[h].prev in blocks
    ensures BelowBy(blocks, oldTop, blocks[h].prev, i + 1)
  {
    PathParent(blocks, oldTop, blocks[h].height);
    assert LinkOk(blocks, h);
  }

  lemma {:induction false} JoinStep(blocks: Blocks, newTop: Hash, common: Hash, h: Hash, newChain: seq<Block>, i: nat)
    requires TreeOk(blocks) && newTop in blocks && OnPath(blocks, h, newTop) && UpFrom(blocks, newTop, common, newChain)
    requires i < |newChain| && blocks[h].height == blocks[common].height + i
    ensures newChain[i].hash in blocks && blocks[newChain[i].hash] == newChain[i]
    ensures newChain[i].prev == h && h != NoHash
    ensures OnPath(blocks, newChain[i].hash, newTop) && newChain[i].height == blocks[h].height + 1
  {
    var k := blocks[h].height + 1;
    PathParent(blocks, newTop, k);
    PathAt(blocks, newTop, k);
    assert LinkOk(blocks, h) && LinkOk(blocks, newChain[i].prev);
  }

  /** The blocks' commands are on other rows than the pending ones. */
  ghost predicate AllApart(queue: seq<Sql>, chain: seq<Block>)
  {
    forall i | 0 <= i < |chain| :: Apart(queue, SqlsOf(chain[i].txs))
  }

  /** And no pending transaction conflicts with them or is one of them. */
  ghost predicate AllUnrelated(pool: Txs, queue: seq<Sql>, chain: seq<Block>)
  {
    forall i | 0 <= i < |chain| :: Unrelated(pool, queue, chain[i].txs)
  }

  /** Rows of the old branch, under pending commands on other rows, become those of
      the common block. */
  lemma {:induction false} QuietUndo(blocks: Blocks, oldTop: Hash, common: Hash, h: Hash, chain: seq<Block>, i: nat,
      coins: int, queue: seq<Sql>, rows: Rows)
    requires TreeOk(blocks) && BranchesOk(blocks, coins) && oldTop in blocks && DownTo(blocks, oldTop, common, chain)
    requires i <= |chain| && BelowBy(blocks, oldTop, h, i)
    requires RowsOn(blocks, h, rows, queue) && AllApart(queue, chain)
    ensures UndoBlocks(rows, chain[i..]) != None
    ensures RowsOn(blocks, common, UndoBlocks(rows, chain[i..]).value, queue)
    decreases |chain| - i
  {
    if i == |chain| {
      SameHeight(blocks, h, common, oldTop);
    } else {
      LeaveStep(blocks, oldTop, common, h, chain, i);
      ParentFacts(blocks, h, coins);
      BlockTakenBack(EntriesUnder(blocks, blocks[h].prev), blocks[h], queue);
      QuietUndo(blocks, oldTop, common, blocks[h].prev, chain, i + 1, coins, queue, UndoTxs(rows, chain[i].txs).value);
      UndoNext(rows, chain, i);
    }
  }

  lemma {:induction false} QuietLeave(blocks: Blocks, oldTop: Hash, common: Hash, chain: seq<Block>, coins: int,
      queue: seq<Sql>, rows: Rows)
    requires TreeOk(blocks) && BranchesOk(blocks, coins) && oldTop in blocks && DownTo(blocks, oldTop, common, chain)
    ensures RowsOn(blocks, oldTop, rows, queue) && AllApart(queue, chain) ==>
      UndoBlocks(rows, chain) != None && RowsOn(blocks, common, UndoBlocks(rows, chain).value, queue)
  {
    if RowsOn(blocks, oldTop, rows, queue) && AllApart(queue, chain) {
      assert OnPath(blocks, oldTop, oldTop);
      QuietUndo(blocks, oldTop, common, oldTop, chain, 0, coins, queue, rows);
      assert chain[0..] == chain;
    }
  }

  /** The blocks that are left, from the old top down to the common block; all of
      them exactly when all undo statements run. If one fails, the unspent outputs
      are those of the block that is reached. */
  method LeaveBranch(db: DB, oldChain: seq<Block>, ghost oldTop: Hash, ghost common: Hash, ghost coins: int,
      ghost queue: seq<Sql>)
    returns (ok: bool, ghost h: Hash, ghost steps: nat)
    requires StorageOk(db, coins) && oldTop in db.blocks && DownTo(db.blocks, oldTop, common, oldChain)
    modifies db`rows, db`unspent, db`rowRefs
    ensures BelowBy(db.blocks, oldTop, h, steps) && (ok ==> h == common)
    ensures old(MoneyAt(db, oldTop)) ==> MoneyAt(db, h)
    ensures ok ==> UndoBlocks(old(db.rows), oldChain) == Some(db.rows)
    ensures ok ==> db.rowRefs == CancelledAll(old(db.rowRefs), oldChain)
    ensures !ok ==> UndoBlocks(old(db.rows), oldChain) == None
    ensures !ok ==> HalfLeft(old(db.rows), old(db.rowRefs), oldChain, steps, db.rows, db.rowRefs)
    ensures old(RowsAt(db, oldTop, queue)) && AllApart(queue, oldChain) ==> ok && RowsAt(db, common, queue)
  {
    h, steps := oldTop, 0;
    ghost var right, rows0, refs0 := MoneyAt(db, oldTop), db.rows, db.rowRefs;
    QuietLeave(db.blocks, oldTop, common, oldChain, coins, queue, rows0);
    for i := 0 to |oldChain|
      invariant steps == i && BelowBy(db.blocks, oldTop, h, i) && (right ==> MoneyAt(db, h))
      invariant LeftTo(rows0, refs0, oldChain, i, db.rows, db.rowRefs)
    {
      LeftToNext(rows0, refs0, oldChain, i, db.rows, db.rowRefs);
      LeaveStep(db.blocks, oldTop, common, h, oldChain, i);
      ghost var was, refs := db.rows, db.rowRefs;
      ok := LeaveOne(db, oldChain[i], coins);
      if !ok {
        LeftToHalf(rows0, refs0, oldChain, i, was, refs, db.rows);
        return;
      }
      h, steps := oldChain[i].prev, i + 1;
    }
    LeftToEnd(rows0, refs0, oldChain, db.rows, db.rowRefs);
    SameHeight(db.blocks, h, common, oldTop);
    return true, h, steps;
  }

  /** One step down. */
  method LeaveOne(db: DB, block: Block, ghost coins: int) returns (ok: bool)
    requires StorageOk(db, coins) && block.hash in db.blocks && db.blocks[block.hash] == block
    requires block.prev in db.blocks && block.prev != NoHash
    modifies db`rows, db`unspent, db`rowRefs
    ensures if ok then UndoTxs(old(db.rows), block.txs) == Some(db.rows) else UndoTxs(old(db.rows), block.txs) == None
    ensures db.rowRefs == if ok then RowReferences.Cancelled(old(db.rowRefs), block.txs) else old(db.rowRefs)
    ensures !ok ==> StoppedAt(old(db.rows), block.txs, db.rows)
    ensures old(MoneyAt(db, block.hash)) ==> MoneyAt(db, if ok then block.prev else block.hash)
  {
    ok := BlockRemovedFromPrimaryChain(db, block, coins, []);
  }

  /** The blocks that join, from the common block up to the new top. */
  method JoinBranch(pool: UnapprovedTransactions, db: DB, newChain: seq<Block>, ghost newTop: Hash, ghost common: Hash,
      ghost coins: int, ghost queue: seq<Sql>)
    requires pool.Valid() && StorageOk(db, coins) && newTop in db.blocks && UpFrom(db.blocks, newTop, common, newChain)
    modifies pool, db`rows, db`unspent, db`rowRefs
    ensures pool.Valid() && JoinedAll(old(pool.table), old(db.rows), newChain, pool.table, db.rows)
    ensures PoolAfter(old(pool.table), newChain, pool.table)
    ensures db.rowRefs == WrittenAll(old(db.rowRefs), newChain)
    ensures old(MoneyAt(db, common)) ==> MoneyAt(db, newTop)
    ensures old(RowsAt(db, common, queue)) && AllUnrelated(old(pool.table), queue, newChain) ==>
      RowsAt(db, newTop, queue)
  {
    ghost var h, pool0, rows0, refs0 := common, pool.table, db.rows, db.rowRefs;
    ghost var quiet := RowsAt(db, common, queue) && AllUnrelated(pool0, queue, newChain);
    ghost var right := MoneyAt(db, common);
    for i := 0 to |newChain|
      invariant pool.Valid() && JoinedTo(pool0, rows0, refs0, newChain, i, pool.table, db.rows, db.rowRefs)
      invariant OnPath(db.blocks, h, newTop) && db.blocks[h].height == db.blocks[common].height + i
      invariant (right ==> MoneyAt(db, h)) && (quiet ==> RowsAt(db, h, queue))
    {
      var block := newChain[i];
      JoinStep(db.blocks, newTop, common, h, newChain, i);
      JoinsQuietly(pool0, pool.table, queue, newChain, i, Commands(EntriesUnder(db.blocks, h)), db.rows);
      ghost var was, rows, refs := pool.table, db.rows, db.rowRefs;
      BlockAddedToPrimaryChain(pool, db, block, coins, queue);
      JoinedToNext(pool0, rows0, refs0, newChain, i, was, rows, refs, pool.table, db.rows);
      h := block.hash;
    }
    JoinedToEnd(pool0, rows0, refs0, newChain, pool.table, db.rows, db.rowRefs);
    SameHeight(db.blocks, h, newTop, newTop);
  }

  lemma {:induction false} JoinsQuietly(pool0: Txs, pool: Txs, queue: seq<Sql>, chain: seq<Block>, i: nat,
      below: seq<Sql>, rows: Rows)
    requires Sub(pool, pool0) && i < |chain|
    ensures AllUnrelated(pool0, queue, chain) && Replay(below + queue) == Some(rows) ==>
      RowsFollow(below, pool, rows, chain[i].txs, queue)
  {
    if AllUnrelated(pool0, queue, chain) && Replay(below + queue) == Some(rows) {
      FewerUnrelated(pool0, pool, queue, chain[i].txs);
      UnrelatedFollows(below, pool, rows, chain[i].txs, queue);
    }
  }

  // ----- a branch replaces another

  /** Pending commands are on other rows than everything that is left or joined,
      and have nothing to do with what is joined. */
  ghost predicate QuietExchange(pool: Txs, queue: seq<Sql>, blocks: Blocks, a: Hash, b: Hash)
    requires TreeOk(blocks) && a in blocks && b in blocks
  {
    && (forall h | OnlyUnder(blocks, h, a, b) :: Apart(queue, SqlsOf(blocks[h].txs)))
    && (forall h | OnlyUnder(blocks, h, b, a) :: Unrelated(pool, queue, blocks[h].txs))
  }

  ghost predicate OnlyUnder(blocks: Blocks, h: Hash, a: Hash, b: Hash)
    requires TreeOk(blocks) && a in blocks && b in blocks
  {
    OnPath(blocks, h, a) && !OnPath(blocks, h, b)
  }

  lemma {:induction false} SplitIsTwoWalks(blocks: Blocks, side: Hash, top: Hash, sides: seq<Block>, mains: seq<Block>,
      common: Block)
    requires TreeOk(blocks) && side in blocks && top in blocks && Splits(blocks, side, top, sides, mains, common)
    ensures DownTo(blocks, side, common.hash, sides) && UpFrom(blocks, top, common.hash, mains)
  {
    assert OnPath(blocks, common.hash, side) && OnPath(blocks, common.hash, top);
    var left := Path(blocks, side)[common.height + 1..];
    forall i | 0 <= i < |sides| ensures sides[i] == Path(blocks, side)[blocks[side].height - i] {
      assert sides[i] == left[|left| - 1 - i];
    }
  }

  /** A block above the split is on one side only. */
  lemma {:induction false} OneSideOnly(blocks: Blocks, side: Hash, top: Hash, common: Hash, k: nat)
    requires TreeOk(blocks) && side in blocks && top in blocks && common in blocks
    requires blocks[common].height < k <= blocks[side].height
    requires HighestCommon(blocks, common, side, top) || HighestCommon(blocks, common, top, side)
    ensures var b := Path(blocks, side)[k]; OnlyUnder(blocks, b.hash, side, top) && blocks[b.hash] == b
  {
    PathAt(blocks, side, k);
    assert OnPath(blocks, Path(blocks, side)[k].hash, side);
  }

  lemma {:induction false} QuietChains(pool: Txs, queue: seq<Sql>, blocks: Blocks, side: Hash, top: Hash,
      sides: seq<Block>, mains: seq<Block>, common: Hash)
    requires TreeOk(blocks) && side in blocks && top in blocks && HighestCommon(blocks, common, side, top)
    requires DownTo(blocks, side, common, sides) && UpFrom(blocks, top, common, mains)
    requires QuietExchange(pool, queue, blocks, side, top)
    ensures AllApart(queue, sides) && AllUnrelated(pool, queue, mains)
  {
    forall i | 0 <= i < |sides| ensures Apart(queue, SqlsOf(sides[i].txs)) {
      LeavingSide(blocks, side, top, sides, common, i);
    }
    forall i | 0 <= i < |mains| ensures Unrelated(pool, queue, mains[i].txs) {
      JoiningSide(blocks, side, top, mains, common, i);
    }
  }

  lemma {:induction false} LeavingSide(blocks: Blocks, side: Hash, top: Hash, sides: seq<Block>, common: Hash, i: nat)
    requires TreeOk(blocks) && side in blocks && top in blocks && HighestCommon(blocks, common, side, top)
    requires DownTo(blocks, side, common, sides) && i < |sides|
    ensures OnlyUnder(blocks, sides[i].hash, side, top) && blocks[sides[i].hash] == sides[i]
  {
    OneSideOnly(blocks, side, top, common, blocks[side].height - i);
  }

  lemma {:induction false} JoiningSide(blocks: Blocks, side: Hash, top: Hash, mains: seq<Block>, common: Hash, i: nat)
    requires TreeOk(blocks) && side in blocks && top in blocks && HighestCommon(blocks, common, side, top)
    requires UpFrom(blocks, top, common, mains) && i < |mains|
    ensures OnlyUnder(blocks, mains[i].hash, top, side) && blocks[mains[i].hash] == mains[i]
  {
    OneSideOnly(blocks, top, side, common, blocks[common].height + 1 + i);
  }

  /** The walk down to the highest common block leaves what is not under the other tip. */
  lemma {:induction false} DownIsLeaving(blocks: Blocks, side: Hash, top: Hash, common: Hash, h: Hash,
      sides: seq<Block>, i: nat)
    requires TreeOk(blocks) && side in blocks && top in blocks && HighestCommon(blocks, common, side, top)
    requires DownTo(blocks, side, common, sides) && i <= |sides|
    requires BelowBy(blocks, side, h, i)
    ensures sides[i..] == Leaving(blocks, h, top)
    decreases |sides| - i
  {
    if i == |sides| {
      SameHeight(blocks, h, common, side);
    } else {
      LeaveStep(blocks, side, common, h, sides, i);
      LeavingSide(blocks, side, top, sides, common, i);
      DownIsLeaving(blocks, side, top, common, blocks[h].prev, sides, i + 1);
      assert sides[i..] == [sides[i]] + sides[i + 1..];
    }
  }

  lemma {:induction false} UpIsJoining(blocks: Blocks, side: Hash, top: Hash, common: Hash, mains: seq<Block>)
    requires TreeOk(blocks) && side in blocks && top in blocks && HighestCommon(blocks, common, side, top)
    requires UpFrom(blocks, top, common, mains)
    ensures mains == Joining(blocks, top, side)
  {
    var downwards := Reverse(mains);
    assert forall i | 0 <= i < |downwards| :: downwards[i] == Path(blocks, top)[blocks[top].height - i];
    assert OnPath(blocks, top, top);
    DownIsLeaving(blocks, top, side, common, top, downwards, 0);
    assert downwards[0..] == downwards;
    ReverseTwice(mains);
  }

  /** GetBranchesReplacement with the empty tip. */
  method BranchesToReplace(db: DB, oldTop: Hash, ghost pool: Txs, ghost queue: seq<Sql>)
    returns (br: Result<Option<(seq<Block>, seq<Block>)>>, ghost common: Hash)
    requires TreeOk(db.blocks) && oldTop in db.blocks && db.topHash in db.blocks
    requires db.blocks[oldTop].height < db.blocks[db.topHash].height
    ensures if db.blocks[oldTop].height < 1 then br == Err(NilBlock) else br.Ok?
    ensures br.Ok? ==> (br.value == None <==> OnPath(db.blocks, oldTop, db.topHash))
    ensures br.Ok? && br.value != None ==>
      DownTo(db.blocks, oldTop, common, br.value.value.1) && UpFrom(db.blocks, db.topHash, common, br.value.value.0)
    ensures br.Ok? && br.value != None ==>
      br.value.value == (Joining(db.blocks, db.topHash, oldTop), Leaving(db.blocks, oldTop, db.topHash))
    ensures br.Ok? && br.value != None && QuietExchange(pool, queue, db.blocks, oldTop, db.topHash) ==>
      AllApart(queue, br.value.value.1) && AllUnrelated(pool, queue, br.value.value.0)
  {
    common := oldTop;
    br := GetBranchesReplacement(db, oldTop, db.topHash);
    if br.Ok? && br.value != None {
      var (newChain, oldChain) := br.value.value;
      ghost var c :| Splits(db.blocks, oldTop, db.topHash, oldChain, newChain, c);
      SplitIsTwoWalks(db.blocks, oldTop, db.topHash, oldChain, newChain, c);
      DownIsLeaving(db.blocks, oldTop, db.topHash, c.hash, oldTop, oldChain, 0);
      UpIsJoining(db.blocks, oldTop, db.topHash, c.hash, newChain);
      if QuietExchange(pool, queue, db.blocks, oldTop, db.topHash) {
        QuietChains(pool, queue, db.blocks, oldTop, db.topHash, oldChain, newChain, c.hash);
      }
      common := c.hash;
    }
  }

  lemma {:induction false} GenesisUnder(blocks: Blocks, g: Hash, h: Hash)
    requires TreeOk(blocks) && g in blocks && h in blocks
    ensures blocks[g].height == 0 ==> OnPath(blocks, g, h)
  {
    SameRoot(blocks, g, h);
    assert LinkOk(blocks, g);
  }

  // ----- what an exchange leaves

  /** Every row that a joined block writes has the last writer on the branch as record;
      a row that no block of either branch writes keeps its record; and if the index was
      right, a row that only blocks of the old branch write has none. */
  ghost predicate WritersAfter(was: map<RefId, TxId>, now: map<RefId, TxId>, blocks: Blocks, oldTop: Hash, top: Hash)
    requires TreeOk(blocks) && oldTop in blocks && top in blocks
  {
    forall ref | ref != NoRef ::
      if WritesIn(Joining(blocks, top, oldTop), ref) then
        RowReferences.Get(now, ref) == RowReferences.LastWriter(EntriesUnder(blocks, top), ref) != None
      else if !WritesIn(Leaving(blocks, oldTop, top), ref) then
        RowReferences.Get(now, ref) == RowReferences.Get(was, ref)
      else
        RowReferences.RefsOk(was, EntriesUnder(blocks, oldTop)) ==> RowReferences.Get(now, ref) == None
  }

  /** The old branch is left and the new one has joined. */
  ghost predicate Exchanged(was: Tables, now: Tables, blocks: Blocks, oldTop: Hash, top: Hash)
    requires TreeOk(blocks) && oldTop in blocks && top in blocks
  {
    var left, joined := Leaving(blocks, oldTop, top), Joining(blocks, top, oldTop);
    && UndoBlocks(was.rows, left) != None
    && JoinedAll(was.pending, UndoBlocks(was.rows, left).value, joined, now.pending, now.rows)
    && now.writers == WrittenAll(CancelledAll(was.writers, left), joined)
  }

  /** An undo of the block `h` of the old branch has failed; nothing has joined. */
  ghost predicate BrokenOff(was: Tables, now: Tables, blocks: Blocks, oldTop: Hash, top: Hash, h: Hash)
    requires TreeOk(blocks) && oldTop in blocks && top in blocks
  {
    && now.pending == was.pending && OnPath(blocks, h, oldTop)
    && HalfLeft(was.rows, was.writers, Leaving(blocks, oldTop, top), blocks[oldTop].height - blocks[h].height, now.rows,
         now.writers)
  }

  lemma {:induction false} WritersFollowExchange(was: map<RefId, TxId>, now: map<RefId, TxId>, blocks: Blocks,
      oldTop: Hash, top: Hash, coins: int)
    requires TreeOk(blocks) && BranchesOk(blocks, coins) && oldTop in blocks && top in blocks
    requires now == WrittenAll(CancelledAll(was, Leaving(blocks, oldTop, top)), Joining(blocks, top, oldTop))
    ensures WritersAfter(was, now, blocks, oldTop, top)
  {
    var left, joined := Leaving(blocks, oldTop, top), Joining(blocks, top, oldTop);
    assert BranchOk(blocks, oldTop, coins);
    LiveIsUnique(EntriesUnder(blocks, oldTop));
    forall ref | ref != NoRef ensures
      if WritesIn(joined, ref) then
        RowReferences.Get(now, ref) == RowReferences.LastWriter(EntriesUnder(blocks, top), ref) != None
      else if !WritesIn(left, ref) then RowReferences.Get(now, ref) == RowReferences.Get(was, ref)
      else RowReferences.RefsOk(was, EntriesUnder(blocks, oldTop)) ==> RowReferences.Get(now, ref) == None {
      WrittenByChain(CancelledAll(was, left), joined, ref);
      CancelledByChain(was, left, ref);
      var common := LastWriterSplits(blocks, top, oldTop, ref);
      if RowReferences.RefsOk(was, EntriesUnder(blocks, oldTop)) {
        assert RowReferences.Get(was, ref) == RowReferences.LastWriter(EntriesUnder(blocks, oldTop), ref);
        LeavingCancels(blocks, oldTop, top, was, ref);
      }
    }
  }

  /** What that means for pool and last writers. */
  lemma {:induction false} ExchangeMeans(was: Tables, now: Tables, blocks: Blocks, oldTop: Hash, top: Hash, coins: int)
    requires TreeOk(blocks) && BranchesOk(blocks, coins) && oldTop in blocks && top in blocks
    requires Exchanged(was, now, blocks, oldTop, top)
    ensures PoolAfter(was.pending, Joining(blocks, top, oldTop), now.pending)
    ensures WritersAfter(was.writers, now.writers, blocks, oldTop, top)
  {
    var left, joined := Leaving(blocks, oldTop, top), Joining(blocks, top, oldTop);
    JoinedPool(was.pending, UndoBlocks(was.rows, left).value, joined, now.pending, now.rows);
    WritersFollowExchange(was.writers, now.writers, blocks, oldTop, top, coins);
  }

  /** A right index is right after the exchange exactly when no row that only blocks of
      the old branch write has a writer below the branches: that writer is lost. */
  lemma {:induction false} IndexAfterExchangeIff(was: Tables, now: Tables, blocks: Blocks, oldTop: Hash, top: Hash,
      coins: int)
    requires TreeOk(blocks) && BranchesOk(blocks, coins) && oldTop in blocks && top in blocks
    requires Exchanged(was, now, blocks, oldTop, top)
    requires RowReferences.RefsOk(was.writers, EntriesUnder(blocks, oldTop))
    ensures RowReferences.RefsOk(now.writers, EntriesUnder(blocks, top)) <==>
      forall ref | OnlyOldWrites(blocks, oldTop, top, ref) ::
        RowReferences.LastWriter(EntriesUnder(blocks, top), ref) == None
  {
    ExchangeMeans(was, now, blocks, oldTop, top, coins);
    NoEmptyRecords(CancelledAll(was.writers, Leaving(blocks, oldTop, top)), Joining(blocks, top, oldTop));
    NoEmptyRecords(was.writers, Leaving(blocks, oldTop, top));
    forall ref ensures (RowReferences.Get(now.writers, ref) ==
      if ref == NoRef then None else RowReferences.LastWriter(EntriesUnder(blocks, top), ref)) <==>
      (OnlyOldWrites(blocks, oldTop, top, ref) ==>
        RowReferences.LastWriter(EntriesUnder(blocks, top), ref) == None) {
      RecordAfterExchange(was.writers, now.writers, blocks, oldTop, top, ref);
    }
  }

  ghost predicate OnlyOldWrites(blocks: Blocks, oldTop: Hash, top: Hash, ref: RefId)
    requires TreeOk(blocks) && oldTop in blocks && top in blocks
  {
    ref != NoRef && WritesIn(Leaving(blocks, oldTop, top), ref) && !WritesIn(Joining(blocks, top, oldTop), ref)
  }

  lemma {:induction false} RecordAfterExchange(was: map<RefId, TxId>, now: map<RefId, TxId>, blocks: Blocks,
      oldTop: Hash, top: Hash, ref: RefId)
    requires TreeOk(blocks) && oldTop in blocks && top in blocks && WritersAfter(was, now, blocks, oldTop, top)
    requires RowReferences.RefsOk(was, EntriesUnder(blocks, oldTop))
    requires RowReferences.Get(now, NoRef) == RowReferences.Get(was, NoRef)
    ensures (RowReferences.Get(now, ref) ==
      if ref == NoRef then None else RowReferences.LastWriter(EntriesUnder(blocks, top), ref)) <==>
      (OnlyOldWrites(blocks, oldTop, top, ref) ==>
        RowReferences.LastWriter(EntriesUnder(blocks, top), ref) == None)
  {
    assert RowReferences.Get(was, ref) ==
      if ref == NoRef then None else RowReferences.LastWriter(EntriesUnder(blocks, oldTop), ref);
    WritesInReverse(Leaving(blocks, top, oldTop), ref);
    if ref != NoRef && !WritesIn(Joining(blocks, top, oldTop), ref) && !WritesIn(Leaving(blocks, oldTop, top), ref) {
      SameWriter(blocks, oldTop, top, ref);
    }
  }

  /** The blocks that leave, or join, are exactly those on one of the branches only. */
  lemma {:induction false} LeavingIff(blocks: Blocks, h: Hash, top: Hash, b: Block)
    requires TreeOk(blocks) && h in blocks && top in blocks
    ensures b in Leaving(blocks, h, top) <==>
      b.hash in blocks && blocks[b.hash] == b && OnlyUnder(blocks, b.hash, h, top)
    ensures b in Joining(blocks, h, top) <==> b in Leaving(blocks, h, top)
    decreases blocks[h].height
  {
    InReverse(Leaving(blocks, h, top), b);
    assert LinkOk(blocks, h);
    OnPathStep(blocks, b.hash, h);
    if OnPath(blocks, h, top) {
      if OnPath(blocks, b.hash, h) {
        OnPathTrans(blocks, b.hash, h, top);
      }
    } else if blocks[h].prev == NoHash {
      GenesisUnder(blocks, h, top);
    } else {
      LeavingIff(blocks, blocks[h].prev, top, b);
    }
  }

  /** How the exchange ends: if the table held the unspent outputs of the old top, it
      holds those of `h` afterwards, in the end the new top. An error is returned
      exactly when something is in the way of the undo statements of the old branch.
      Nothing is done when the old top lies under the new one; when that old top is
      the genesis block the program stops. */
  ghost predicate BranchReplaced(err: Option<Error>, h: Hash, was: Tables, now: Tables, blocks: Blocks, oldTop: Hash,
      top: Hash, queue: seq<Sql>)
    requires TreeOk(blocks) && oldTop in blocks && top in blocks
  {
    && (err == None || err == Some(SqlError) || err == Some(NilBlock))
    && (err == Some(NilBlock) <==> blocks[oldTop].height < 1)
    && if OnPath(blocks, oldTop, top) then h == oldTop && err != Some(SqlError) && now == was
       else
         && (err == Some(SqlError) <==> Hindered(was.rows, BranchUndos(Leaving(blocks, oldTop, top))))
         && (if err == None then h == top && Exchanged(was, now, blocks, oldTop, top)
             else BrokenOff(was, now, blocks, oldTop, top, h))
         && h in blocks && (MoneyOn(blocks, oldTop, was.unspent) ==> MoneyOn(blocks, h, now.unspent))
         && (RowsOn(blocks, oldTop, was.rows, queue) && QuietExchange(was.pending, queue, blocks, oldTop, top) ==>
               err == None && RowsOn(blocks, top, now.rows, queue))
  }

  /** The part of AddBlock for a side branch that wins: cancels the old branch top
      down, adds the new one bottom up. */
  method ReplaceBranch(pool: UnapprovedTransactions, db: DB, oldTop: Hash, ghost coins: int, ghost queue: seq<Sql>)
    returns (err: Option<Error>, ghost h: Hash)
    requires pool.Valid() && StorageOk(db, coins) && oldTop in db.blocks
    requires db.blocks[oldTop].height < db.blocks[db.topHash].height
    modifies pool, db`rows, db`unspent, db`rowRefs
    ensures pool.Valid() && StorageOk(db, coins)
    ensures BranchReplaced(err, h, old(TablesOf(pool, db)), TablesOf(pool, db), db.blocks, oldTop, db.topHash, queue)
  {
    GenesisUnder(db.blocks, oldTop, db.topHash);
    h := oldTop;
    var br, common := BranchesToReplace(db, oldTop, pool.table, queue);
    if br.Err? {
      return Some(NilBlock), h;
    }
    if br.value == None {
      return None, h;
    }
    var (newChain, oldChain) := br.value.value;
    err, h := Exchange(pool, db, oldChain, newChain, oldTop, common, coins, queue);
  }

  /** The exchange of two branches that were split; the stored blocks stay in order. */
  method Exchange(pool: UnapprovedTransactions, db: DB, oldChain: seq<Block>, newChain: seq<Block>, ghost oldTop: Hash,
      ghost common: Hash, ghost coins: int, ghost queue: seq<Sql>)
    returns (err: Option<Error>, ghost h: Hash)
    requires pool.Valid() && StorageOk(db, coins) && oldTop in db.blocks
    requires !OnPath(db.blocks, oldTop, db.topHash) && db.blocks[oldTop].height >= 1
    requires oldChain == Leaving(db.blocks, oldTop, db.topHash)
    requires newChain == Joining(db.blocks, db.topHash, oldTop)
    requires DownTo(db.blocks, oldTop, common, oldChain) && UpFrom(db.blocks, db.topHash, common, newChain)
    requires QuietExchange(pool.table, queue, db.blocks, oldTop, db.topHash) ==>
      AllApart(queue, oldChain) && AllUnrelated(pool.table, queue, newChain)
    modifies pool, db`rows, db`unspent, db`rowRefs
    ensures pool.Valid() && StorageOk(db, coins)
    ensures BranchReplaced(err, h, old(TablesOf(pool, db)), TablesOf(pool, db), db.blocks, oldTop, db.topHash, queue)
  {
    err, h := ExchangeTables(pool, db, oldChain, newChain, oldTop, common, coins, queue);
  }

  /** The tables when the old branch is left. */
  ghost predicate LeftFully(was: Tables, now: Tables, blocks: Blocks, oldTop: Hash, top: Hash, common: Hash,
      queue: seq<Sql>)
    requires TreeOk(blocks) && oldTop in blocks && top in blocks && common in blocks
  {
    && UndoBlocks(was.rows, Leaving(blocks, oldTop, top)) == Some(now.rows) && now.pending == was.pending
    && now.writers == CancelledAll(was.writers, Leaving(blocks, oldTop, top))
    && (MoneyOn(blocks, oldTop, was.unspent) ==> MoneyOn(blocks, common, now.unspent))
    && (RowsOn(blocks, oldTop, was.rows, queue) && QuietExchange(was.pending, queue, blocks, oldTop, top) ==>
          RowsOn(blocks, common, now.rows, queue) && AllUnrelated(was.pending, queue, Joining(blocks, top, oldTop)))
  }

  /** The old branch leaves and the new one joins. */
  method ExchangeTables(pool: UnapprovedTransactions, db: DB, oldChain: seq<Block>, newChain: seq<Block>,
      ghost oldTop: Hash, ghost common: Hash, ghost coins: int, ghost queue: seq<Sql>)
    returns (err: Option<Error>, ghost h: Hash)
    requires pool.Valid() && StorageOk(db, coins) && oldTop in db.blocks
    requires !OnPath(db.blocks, oldTop, db.topHash) && db.blocks[oldTop].height >= 1
    requires oldChain == Leaving(db.blocks, oldTop, db.topHash)
    requires newChain == Joining(db.blocks, db.topHash, oldTop)
    requires DownTo(db.blocks, oldTop, common, oldChain) && UpFrom(db.blocks, db.topHash, common, newChain)
    requires QuietExchange(pool.table, queue, db.blocks, oldTop, db.topHash) ==>
      AllApart(queue, oldChain) && AllUnrelated(pool.table, queue, newChain)
    modifies pool, db`rows, db`unspent, db`rowRefs
    ensures pool.Valid()
    ensures BranchReplaced(err, h, old(TablesOf(pool, db)), TablesOf(pool, db), db.blocks, oldTop, db.topHash, queue)
  {
    ghost var was := TablesOf(pool, db);
    var left;
    left, h := LeaveOld(pool.table, db, oldChain, oldTop, common, coins, queue);
    if !left {
      return Some(SqlError), h;
    }
    JoinAfter(pool, db, newChain, oldTop, common, coins, queue, was);
    return None, db.topHash;
  }

  method LeaveOld(ghost pending: Txs, db: DB, oldChain: seq<Block>, ghost oldTop: Hash, ghost common: Hash,
      ghost coins: int, ghost queue: seq<Sql>)
    returns (left: bool, ghost h: Hash)
    requires StorageOk(db, coins) && oldTop in db.blocks
    requires !OnPath(db.blocks, oldTop, db.topHash) && db.blocks[oldTop].height >= 1
    requires oldChain == Leaving(db.blocks, oldTop, db.topHash) && DownTo(db.blocks, oldTop, common, oldChain)
    requires QuietExchange(pending, queue, db.blocks, oldTop, db.topHash) ==>
      AllApart(queue, oldChain) && AllUnrelated(pending, queue, Joining(db.blocks, db.topHash, oldTop))
    modifies db`rows, db`unspent, db`rowRefs
    ensures
      var was, now := old(TablesWith(pending, db)), TablesWith(pending, db);
      if left then LeftFully(was, now, db.blocks, oldTop, db.topHash, common, queue)
      else BranchReplaced(Some(SqlError), h, was, now, db.blocks, oldTop, db.topHash, queue)
  {
    ghost var was := TablesWith(pending, db);
    ghost var steps;
    left, h, steps := LeaveBranch(db, oldChain, oldTop, common, coins, queue);
    if !left {
      ExchangeBrokenOff(h, steps, was, TablesWith(pending, db), db.blocks, oldTop, db.topHash, queue, coins);
    }
  }

  method JoinAfter(pool: UnapprovedTransactions, db: DB, newChain: seq<Block>, ghost oldTop: Hash, ghost common: Hash,
      ghost coins: int, ghost queue: seq<Sql>, ghost was: Tables)
    requires pool.Valid() && StorageOk(db, coins) && oldTop in db.blocks
    requires !OnPath(db.blocks, oldTop, db.topHash) && db.blocks[oldTop].height >= 1
    requires newChain == Joining(db.blocks, db.topHash, oldTop) && UpFrom(db.blocks, db.topHash, common, newChain)
    requires LeftFully(was, TablesOf(pool, db), db.blocks, oldTop, db.topHash, common, queue)
    modifies pool, db`rows, db`unspent, db`rowRefs
    ensures pool.Valid()
    ensures BranchReplaced(None, db.topHash, was, TablesOf(pool, db), db.blocks, oldTop, db.topHash, queue)
  {
    ghost var between := TablesOf(pool, db);
    JoinBranch(pool, db, newChain, db.topHash, common, coins, queue);
    ExchangeComplete(was, between, TablesOf(pool, db), db.blocks, oldTop, db.topHash, queue, coins);
  }

  lemma {:induction false} ExchangeBrokenOff(h: Hash, steps: nat, was: Tables, now: Tables, blocks: Blocks,
      oldTop: Hash, top: Hash, queue: seq<Sql>, coins: int)
    requires TreeOk(blocks) && BranchesOk(blocks, coins) && oldTop in blocks && top in blocks
    requires !OnPath(blocks, oldTop, top) && blocks[oldTop].height >= 1
    requires UndoBlocks(was.rows, Leaving(blocks, oldTop, top)) == None && now.pending == was.pending
    requires BelowBy(blocks, oldTop, h, steps)
    requires HalfLeft(was.rows, was.writers, Leaving(blocks, oldTop, top), steps, now.rows, now.writers)
    requires MoneyOn(blocks, oldTop, was.unspent) ==> MoneyOn(blocks, h, now.unspent)
    requires !(RowsOn(blocks, oldTop, was.rows, queue) && QuietExchange(was.pending, queue, blocks, oldTop, top))
    ensures BranchReplaced(Some(SqlError), h, was, now, blocks, oldTop, top, queue)
  {
    BranchUndoneIff(blocks, oldTop, top, coins, was.rows);
  }

  lemma {:induction false} ExchangeComplete(was: Tables, between: Tables, now: Tables, blocks: Blocks, oldTop: Hash,
      top: Hash, queue: seq<Sql>, coins: int)
    requires TreeOk(blocks) && BranchesOk(blocks, coins) && oldTop in blocks && top in blocks
    requires !OnPath(blocks, oldTop, top) && blocks[oldTop].height >= 1
    requires UndoBlocks(was.rows, Leaving(blocks, oldTop, top)) == Some(between.rows)
    requires between.pending == was.pending
    requires between.writers == CancelledAll(was.writers, Leaving(blocks, oldTop, top))
    requires JoinedAll(between.pending, between.rows, Joining(blocks, top, oldTop), now.pending, now.rows)
    requires now.writers == WrittenAll(between.writers, Joining(blocks, top, oldTop))
    requires MoneyOn(blocks, oldTop, was.unspent) ==> MoneyOn(blocks, top, now.unspent)
    requires RowsOn(blocks, oldTop, was.rows, queue) && QuietExchange(was.pending, queue, blocks, oldTop, top) ==>
      RowsOn(blocks, top, now.rows, queue)
    ensures BranchReplaced(None, top, was, now, blocks, oldTop, top, queue)
  {
    BranchUndoneIff(blocks, oldTop, top, coins, was.rows);
  }
}
