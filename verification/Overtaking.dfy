/** A run that leaves the tables behind: the top is dropped while another branch on
    its parent is stored, and a block on that branch then overtakes the remaining
    top instead of sitting on it. */
module Overtaking {
  import opened Types
  import opened BlockTree
  import opened Database
  import opened Ledger
  import opened TransactionIndex
  import opened TransactionLookup
  import opened UnspentCancel
  import opened Safety
  import opened SqlHistory
  import opened Pool
  import opened NodeState
  import opened Node
  import opened Submissions
  import RowReferences

  // ----- when the table is wrong for the new top

  /** The tables were left behind at a block, and the top has an unspent output of a
      transaction that is not on that block's branch: the table is wrong. */
  lemma {:induction false} LeftBehindIsWrong(db: DB, behind: Hash, p: OutPoint)
    requires TreeOk(db.blocks) && behind in db.blocks && db.topHash in db.blocks && MoneyAt(db, behind)
    requires p in UtxoOf(Path(db.blocks, db.topHash)) && !HasTx(EntriesUnder(db.blocks, behind), p.txid)
    ensures !MoneyAt(db, db.topHash)
  {
    if MoneyAt(db, db.topHash) {
      RepresentsOne(db.unspent, UtxoOf(Path(db.blocks, behind)), UtxoOf(Path(db.blocks, db.topHash)), p);
      FoldHasTx(EntriesUnder(db.blocks, behind), p);
    }
  }

  // ----- blocks that create a table each

  /** Tables are named by their length. */
  function Name(h: Hash): (s: string)
    ensures |s| == h
  {
    seq(h, _ => 't')
  }

  function Creation(h: Hash): Sql
  {
    Sql(TableRef(Name(h)), CreateTable(Name(h)), Some(DropTable(Name(h))))
  }

  /** A command without a currency part. */
  function CreateTx(h: Hash): Tx
  {
    Tx(2 * h + 1, 7, [], [], Creation(h), NoTx)
  }

  function CreateBlock(h: Hash, prev: Hash, height: nat, coins: int): Block
  {
    Block(h, prev, height, [Reward(2 * h, coins), CreateTx(h)])
  }

  ghost predicate Made(b: Block, coins: int)
  {
    b == CreateBlock(b.hash, b.prev, b.height, coins)
  }

  /** Commands of a branch whose blocks up to `h` have created their tables. */
  ghost predicate SmallTables(es: seq<Entry>, h: Hash)
  {
    SqlOk(es) && forall t | t in Replay(Commands(es)).value :: |t| <= h
  }

  ghost predicate Small(es: seq<Entry>, h: Hash)
  {
    SmallIds(es, h) && SmallTables(es, h)
  }

  lemma {:induction false} CreationNext(es: seq<Entry>, h: Hash, e: Entry, prev: Hash)
    requires SmallTables(es, prev) && prev < h && e.tx == CreateTx(h)
    ensures SmallTables(es + [e], h)
  {
    var s := Creation(h);
    assert Name(h) !in Replay(Commands(es)).value;
    assert UndoFits(Commands(es), s);
    SqlOkNext(es, e);
  }

  lemma {:induction false} CreationRuns(es: seq<Entry>, b: Block, prev: Hash, coins: int)
    requires SmallTables(es, prev) && prev < b.hash && Made(b, coins)
    ensures SmallTables(es + BlockEntries(b), b.hash)
  {
    var e, f := Entry(b.txs[0], b.hash), Entry(b.txs[1], b.hash);
    assert es + BlockEntries(b) == es + [e] + [f];
    SqlOkNext(es, e);
    CreationNext(es + [e], b.hash, f, prev);
  }

  /** Such a block is in order on such a branch, with a least number of one
      transaction beside the reward. */
  lemma {:induction false} CreationInOrder(es: seq<Entry>, b: Block, prev: Hash, coins: int, max: int)
    requires Live(es) && Small(es, prev) && prev < b.hash && Made(b, coins) && 1 <= max
    ensures InOrderOn(es, b, coins, 1, max) && Small(es + BlockEntries(b), b.hash)
  {
    NextIds(es, b, prev);
    CreationRuns(es, b, prev, coins);
    NoInputs(b, coins);
    assert CreateTx(b.hash).vin == [] && CreateTx(b.hash).vout == [];
    RewardAndOne(es, Spends(es), b, CreateTx(b.hash), coins, max);
  }

  lemma {:induction false} NoInputs(b: Block, coins: int)
    requires Made(b, coins)
    ensures DistinctInputs(b) && AllReached(b) && forall p :: !SpendsOutput(b, p)
    ensures forall es :: RowReferences.BlockBasesOk(es, b)
  {
    assert b.txs[0].IsCoinbase() && b.txs[1].vin == [];
    assert forall id :: !Named(b, id);
  }

  // ----- the run

  ghost predicate AllSmall(blocks: Blocks)
    requires TreeOk(blocks)
  {
    forall h | h in blocks :: Small(EntriesUnder(blocks, h), h)
  }

  lemma {:induction false} CreationFits(blocks: Blocks, b: Block, coins: int, max: int)
    requires TreeOk(blocks) && AllSmall(blocks) && b.prev in blocks && Live(EntriesUnder(blocks, b.prev)) && 1 <= max
    requires Made(b, coins) && b.height == blocks[b.prev].height + 1 && b.hash !in blocks && b.prev < b.hash
    ensures Fits(blocks, b, coins, 1, max) && TreeOk(blocks[b.hash := b]) && AllSmall(blocks[b.hash := b])
  {
    assert Small(EntriesUnder(blocks, b.prev), b.prev);
    CreationInOrder(EntriesUnder(blocks, b.prev), b, b.prev, coins, max);
    TreeGrows(blocks, b);
    UtxoGrows(Path(blocks, b.prev), b);
    var big := blocks[b.hash := b];
    forall h | h in big ensures Small(EntriesUnder(big, h), h) {
      if h != b.hash {
        assert EntriesUnder(big, h) == EntriesUnder(blocks, h);
      }
    }
  }

  lemma {:induction false} AllSmallShrinks(blocks: Blocks, leaf: Hash)
    requires TreeOk(blocks) && AllSmall(blocks) && leaf in blocks && IsLeaf(blocks, leaf)
    ensures TreeOk(blocks - {leaf}) && AllSmall(blocks - {leaf})
  {
    TreeShrinks(blocks, leaf);
    forall h | h in blocks - {leaf} ensures Small(EntriesUnder(blocks - {leaf}, h), h) {
      assert EntriesUnder(blocks - {leaf}, h) == EntriesUnder(blocks, h);
    }
  }

  /** The blocks A = 2 and C = 4 on it are stored. */
  ghost predicate SideChild(blocks: Blocks)
  {
    && 2 in blocks && 4 in blocks && 5 !in blocks
    && blocks[2].height == 1 && blocks[4].prev == 2 && blocks[4].height == 2
  }

  ghost predicate SmallNode(pool: UnapprovedTransactions, db: DB, coins: int)
    reads pool, db
  {
    Good(pool, db, coins) && AllSmall(db.blocks)
  }

  lemma {:induction false} BranchIsLive(db: DB, coins: int, h: Hash)
    requires StorageOk(db, coins) && h in db.blocks
    ensures Live(EntriesUnder(db.blocks, h)) && h != NoHash
  {
    NoEmptyHash(db.blocks);
    assert BranchOk(db.blocks, h, coins);
  }

  /** Hashes do not exceed `n`, those of parents lie below it. */
  ghost predicate Within(blocks: Blocks, n: Hash)
  {
    forall h | h in blocks :: h <= n && blocks[h].prev < n
  }

  /** One block more, made of a reward and a creation. */
  ghost predicate Grown(was: Blocks, now: Blocks, hash: Hash, prev: Hash, coins: int)
  {
    && prev in was && hash !in was && hash in now && now == was[hash := now[hash]] && Made(now[hash], coins)
    && now[hash].hash == hash && now[hash].prev == prev && now[hash].height == was[prev].height + 1
  }

  method CreateOnTop(pool: UnapprovedTransactions, db: DB, hash: Hash, coins: int, max: int)
    requires SmallNode(pool, db, coins) && WritersOk(db) && 1 <= max && hash !in db.blocks && db.topHash < hash
    modifies pool, db
    ensures SmallNode(pool, db, coins) && WritersOk(db) && db.topHash == hash
    ensures Grown(old(db.blocks), db.blocks, hash, old(db.topHash), coins)
  {
    var b := CreateBlock(hash, db.topHash, db.blocks[db.topHash].height + 1, coins);
    BranchIsLive(db, coins, b.prev);
    CreationFits(db.blocks, b, coins, max);
    SubmitOnTop(pool, db, b, coins, 1, max);
  }

  method CreateBeside(pool: UnapprovedTransactions, db: DB, hash: Hash, prev: Hash, coins: int, max: int)
    requires SmallNode(pool, db, coins) && 1 <= max && hash !in db.blocks && prev in db.blocks && prev < hash
    requires prev != db.topHash && db.blocks[prev].height < db.blocks[db.topHash].height
    modifies pool, db
    ensures SmallNode(pool, db, coins) && db.topHash == old(db.topHash)
    ensures Grown(old(db.blocks), db.blocks, hash, prev, coins)
  {
    var b := CreateBlock(hash, prev, db.blocks[prev].height + 1, coins);
    BranchIsLive(db, coins, prev);
    CreationFits(db.blocks, b, coins, max);
    SubmitBeside(pool, db, b, coins, 1, max);
  }

  /** A block that overtakes leaves the table wrong for the new top. */
  method CreateOvertaking(pool: UnapprovedTransactions, db: DB, hash: Hash, prev: Hash, coins: int, max: int)
    requires SmallNode(pool, db, coins) && 1 <= max && hash !in db.blocks && prev in db.blocks
    requires prev < hash && db.topHash < hash && prev != db.topHash && OnPath(db.blocks, db.topHash, prev)
    modifies pool, db
    ensures StorageOk(db, coins) && db.topHash == hash && old(db.topHash) in db.blocks
    ensures MoneyAt(db, old(db.topHash)) && !MoneyAt(db, db.topHash)
  {
    ghost var before, oldTop := db.blocks, db.topHash;
    var b := CreateBlock(hash, prev, db.blocks[prev].height + 1, coins);
    BranchIsLive(db, coins, prev);
    CreationFits(db.blocks, b, coins, max);
    SubmitOvertaking(pool, db, b, coins, 1, max);
    NewOutput(before, oldTop, b, coins);
    LeftBehindIsWrong(db, oldTop, OutPoint(2 * hash, 0));
  }

  lemma {:induction false} NewOutput(before: Blocks, oldTop: Hash, b: Block, coins: int)
    requires TreeOk(before) && AllSmall(before) && oldTop in before && BlockchainManager.Attachable(before, b)
    requires b.hash !in before && b.prev in before
    requires Made(b, coins) && oldTop < b.hash
    ensures TreeOk(before[b.hash := b]) && OutPoint(2 * b.hash, 0) in UtxoOf(Path(before[b.hash := b], b.hash))
    ensures !HasTx(EntriesUnder(before[b.hash := b], oldTop), 2 * b.hash)
  {
    StoredOnTop(before, oldTop, b);
    UtxoGrows(Path(before, b.prev), b);
    RewardIsUnspent(UtxoOf(Path(before, b.prev)), b, coins);
    assert Small(EntriesUnder(before, oldTop), oldTop);
    assert EntriesUnder(before[b.hash := b], oldTop) == EntriesUnder(before, oldTop);
  }

  lemma {:induction false} RewardIsUnspent(m: Utxo, b: Block, coins: int)
    requires Made(b, coins)
    ensures OutPoint(2 * b.hash, 0) in Fold(m, BlockEntries(b))
  {
    var e, f := Entry(b.txs[0], b.hash), Entry(b.txs[1], b.hash);
    assert BlockEntries(b) == [e, f] && [e, f][..1] == [e] && [e][..0] == [];
    assert Fold(m, [e]) == Apply(m, e) && Fold(m, [e, f]) == Apply(Fold(m, [e]), f);
    assert OutPoint(2 * b.hash, 0) in OutsOf(e.tx, e.block) && InsOf(f.tx) == {};
  }

  /** The run: genesis 1, A = 2 on it, B = 3 and C = 4 on A; B is dropped, and
      D = 5 comes on C. The top is D, but the table is still that of A. */
  method Overtaken(coins: int, max: int) returns (db: DB, pool: UnapprovedTransactions)
    requires 1 <= max
    ensures StorageOk(db, coins) && db.topHash == 5 && 2 in db.blocks && MoneyAt(db, 2) && !MoneyAt(db, db.topHash)
  {
    db, pool := Forked(coins, max);
    ghost var was := db.blocks;
    DropLeaf(pool, db, coins);
    COnA(was, db.blocks, coins);
    CreateOvertaking(pool, db, 5, 4, coins, max);
  }

  /** A dropped block without inputs takes no record of a spending with it. */
  method DropLeaf(pool: UnapprovedTransactions, db: DB, coins: int)
    requires SmallNode(pool, db, coins) && db.blocks[db.topHash].prev != NoHash && IsLeaf(db.blocks, db.topHash)
    requires var b := db.blocks[db.topHash]; Made(b, coins)
    modifies pool, db
    ensures SmallNode(pool, db, coins) && db.topHash == old(db.blocks[db.topHash].prev)
    ensures db.blocks == old(db.blocks) - {old(db.topHash)}
  {
    ghost var before, oldTop := db.blocks, db.topHash;
    assert LinkOk(before, oldTop);
    NoInputs(db.blocks[db.topHash], coins);
    var b := DropBlock(pool, db, coins, []);
    AllSmallShrinks(before, oldTop);
  }

  /** B and C on A; B came first and is the top. */
  ghost predicate TwoOnA(blocks: Blocks, coins: int)
    requires TreeOk(blocks)
  {
    && SideChild(blocks) && IsLeaf(blocks, 3)
    && 3 in blocks && blocks[3].hash == 3 && blocks[3].prev == 2 && Made(blocks[3], coins)
  }

  ghost predicate OneOnA(blocks: Blocks, coins: int)
  {
    && Within(blocks, 3) && 2 in blocks && blocks[2].height == 1
    && 3 in blocks && blocks[3].hash == 3 && blocks[3].prev == 2 && blocks[3].height == 2 && Made(blocks[3], coins)
  }

  ghost predicate OnlyA(blocks: Blocks)
  {
    Within(blocks, 2) && 2 in blocks && blocks[2].height == 1
  }

  lemma {:induction false} SecondOnA(was: Blocks, now: Blocks, coins: int)
    requires OneOnA(was, coins) && Grown(was, now, 4, 2, coins) && TreeOk(now)
    ensures TwoOnA(now, coins)
  {
  }

  method Forked(coins: int, max: int) returns (db: DB, pool: UnapprovedTransactions)
    requires 1 <= max
    ensures fresh(db) && fresh(pool) && SmallNode(pool, db, coins) && db.topHash == 3 && TwoOnA(db.blocks, coins)
  {
    db, pool := ThreeBlocks(coins, max);
    ghost var was := db.blocks;
    CreateBeside(pool, db, 4, 2, coins, max);
    SecondOnA(was, db.blocks, coins);
  }

  lemma {:induction false} FirstOnA(was: Blocks, now: Blocks, coins: int)
    requires OnlyA(was) && Grown(was, now, 3, 2, coins)
    ensures OneOnA(now, coins)
  {
  }

  method ThreeBlocks(coins: int, max: int) returns (db: DB, pool: UnapprovedTransactions)
    requires 1 <= max
    ensures fresh(db) && fresh(pool) && SmallNode(pool, db, coins) && db.topHash == 3 && OneOnA(db.blocks, coins)
  {
    db, pool := TwoBlocks(coins, max);
    ghost var was := db.blocks;
    CreateOnTop(pool, db, 3, coins, max);
    FirstOnA(was, db.blocks, coins);
  }

  method TwoBlocks(coins: int, max: int) returns (db: DB, pool: UnapprovedTransactions)
    requires 1 <= max
    ensures fresh(db) && fresh(pool) && SmallNode(pool, db, coins) && WritersOk(db)
    ensures db.topHash == 2 && OnlyA(db.blocks)
  {
    db, pool := Start(coins);
    FirstSmall(coins);
    ghost var was := db.blocks;
    CreateOnTop(pool, db, 2, coins, max);
    AOnGenesis(was, db.blocks, coins);
  }

  lemma {:induction false} AOnGenesis(was: Blocks, now: Blocks, coins: int)
    requires was == OnlyBlock(Genesis(coins)) && Grown(was, now, 2, 1, coins)
    ensures OnlyA(now)
  {
  }

  /** After the drop: C on A, and A is the top. */
  lemma {:induction false} COnA(was: Blocks, now: Blocks, coins: int)
    requires TreeOk(was) && TreeOk(now) && TwoOnA(was, coins) && now == was - {3}
    ensures 2 in now && 4 in now && 5 !in now && OnPath(now, 2, 4)
  {
    OnPathStep(now, 2, 4);
    assert OnPath(now, 2, 2);
  }

  lemma {:induction false} FirstSmall(coins: int)
    ensures TreeOk(OnlyBlock(Genesis(coins))) && AllSmall(OnlyBlock(Genesis(coins)))
  {
    GenesisInOrder(coins);
    var e := Entry(Reward(2, coins), 1);
    RewardAlone(e, coins);
    assert [e][..0] == [] && Commands([e]) == Commands([]) + [NoSql] && [NoSql][..0] == [];
    assert Replay(Commands([e])) == Some(map[]);
  }
}
