/** Blocks that are in order on their parent, submitted to a node: how each way of
    storing them leaves the node, and runs of such blocks. */
module Submissions {
  import opened Types
  import opened BlockTree
  import opened Database
  import opened BlockchainManager
  import opened Ledger
  import opened TransactionLookup
  import opened UnspentCancel
  import opened Verifier
  import opened Safety
  import opened Money
  import opened SqlHistory
  import opened RowOrder
  import opened Pool
  import opened NodeState
  import opened Node
  import RowReferences

  /** Nothing is wrong with the block on its parent. */
  ghost predicate InOrderOn(es: seq<Entry>, b: Block, coins: int, min: int, max: int)
  {
    && BlockAcceptable(es, b, coins, min, max) && FreshIds(es, b) && DistinctInputs(b) && AllReached(b)
    && SqlOk(es + BlockEntries(b)) && RowReferences.BlockBasesOk(es, b)
  }

  ghost predicate Fits(blocks: Blocks, b: Block, coins: int, min: int, max: int)
    requires TreeOk(blocks)
  {
    && Attachable(blocks, b) && b.hash !in blocks && b.prev in blocks
    && InOrderOn(EntriesUnder(blocks, b.prev), b, coins, min, max)
  }

  ghost predicate Good(pool: UnapprovedTransactions, db: DB, coins: int)
    reads pool, db
  {
    pool.Valid() && MoneyOk(db, coins)
  }

  method Submit(pool: UnapprovedTransactions, db: DB, b: Block, coins: int, min: int, max: int)
    returns (r: Outcome, ghost h: Hash)
    requires Good(pool, db, coins) && Fits(db.blocks, b, coins, min, max) && (b.prev == db.topHash ==> WritersOk(db))
    modifies pool, db
    ensures pool.Valid() && StorageOk(db, coins) && r != Rejected && h in db.blocks && MoneyAt(db, h)
    ensures Ends(r, h, old(db.blocks), old(db.topHash), b, old(db.rows))
    ensures (db.blocks, db.topHash) == Fork(old(db.blocks), old(db.topHash), b)
    ensures r == Done(AddedToTop) ==> (old(WritersOk(db)) ==> WritersOk(db))
  {
    ghost var before, top, was := db.blocks, db.topHash, TablesOf(pool, db);
    FitsIsSubmittable(db.blocks, b, coins, min, max);
    r, h := Node.AddBlock(pool, db, b, coins, min, max, []);
    FitsIsAccepted(r, was.writers, before, top, b, coins, min, max);
    MoneyFollows(r, h, was, TablesOf(pool, db), before, top, db.blocks, b);
  }

  lemma {:induction false} MoneyFollows(r: Outcome, h: Hash, was: Tables, now: Tables, before: Blocks, top: Hash,
      after: Blocks, b: Block)
    requires TreeOk(before) && top in before && Followed(r, h, was, now, before, top, after, b, [])
    requires MoneyOn(before, top, was.unspent)
    ensures TreeOk(after) && h in after && MoneyOn(after, h, now.unspent)
  {
  }

  lemma {:induction false} FitsIsSubmittable(blocks: Blocks, b: Block, coins: int, min: int, max: int)
    requires TreeOk(blocks) && Fits(blocks, b, coins, min, max)
    ensures Submittable(blocks, b, coins, min, max)
  {
  }

  lemma {:induction false} FitsIsAccepted(r: Outcome, refs: map<RefId, TxId>, blocks: Blocks, top: Hash, b: Block,
      coins: int, min: int, max: int)
    requires TreeOk(blocks) && top in blocks && Fits(blocks, b, coins, min, max)
    requires Judged(r, refs, blocks, top, b, coins, min, max)
    requires b.prev == top ==> WritersAt(refs, blocks, top)
    ensures r != Rejected
  {
    AcceptableIff(refs, blocks, top, b, coins, min, max);
  }

  method SubmitOnTop(pool: UnapprovedTransactions, db: DB, b: Block, coins: int, min: int, max: int)
    requires Good(pool, db, coins) && Fits(db.blocks, b, coins, min, max) && b.prev == db.topHash && WritersOk(db)
    modifies pool, db
    ensures Good(pool, db, coins) && WritersOk(db) && db.blocks == old(db.blocks)[b.hash := b] && db.topHash == b.hash
  {
    ForkCases(db.blocks, db.topHash, b, AddedToTop);
    var r, h := Submit(pool, db, b, coins, min, max);
  }

  method SubmitBeside(pool: UnapprovedTransactions, db: DB, b: Block, coins: int, min: int, max: int)
    requires Good(pool, db, coins) && Fits(db.blocks, b, coins, min, max)
    requires b.prev != db.topHash && b.height <= db.blocks[db.topHash].height
    modifies pool, db
    ensures Good(pool, db, coins) && db.blocks == old(db.blocks)[b.hash := b] && db.topHash == old(db.topHash)
  {
    var r, h := Submit(pool, db, b, coins, min, max);
  }

  /** A block that overtakes leaves the table behind at the old top. */
  method SubmitOvertaking(pool: UnapprovedTransactions, db: DB, b: Block, coins: int, min: int, max: int)
    requires Good(pool, db, coins) && Fits(db.blocks, b, coins, min, max) && Overtakes(db.blocks, db.topHash, b)
    modifies pool, db
    ensures pool.Valid() && StorageOk(db, coins) && db.blocks == old(db.blocks)[b.hash := b] && db.topHash == b.hash
    ensures old(db.topHash) in db.blocks && MoneyAt(db, old(db.topHash))
  {
    var r, h := Submit(pool, db, b, coins, min, max);
  }

  // ----- rewards

  /** The reward of a block, paid to key 7. */
  function Reward(id: TxId, coins: int): Tx
  {
    Tx(id, NoKey, [OutPoint(NoTx, -1)], [TxOut(coins, 7)], NoSql, NoTx)
  }

  function Genesis(coins: int): Block
  {
    Block(1, NoHash, 0, [Reward(2, coins)])
  }

  lemma {:induction false} GenesisInOrder(coins: int)
    ensures GenesisOk(Genesis(coins), coins) && TreeOk(OnlyBlock(Genesis(coins)))
    ensures EntriesUnder(OnlyBlock(Genesis(coins)), 1) == [Entry(Reward(2, coins), 1)]
  {
    var g, e := Genesis(coins), Entry(Reward(2, coins), 1);
    GenesisEntries(g);
    GenesisTree(g);
    assert BlockEntries(g) == [e];
    RewardAlone(e, coins);
    GenesisPays(g, coins);
  }

  lemma {:induction false} RewardAlone(e: Entry, coins: int)
    requires e.tx == Reward(2, coins)
    ensures Live([e]) && SqlOk([e])
  {
    assert [e][..0] == [] && MayFollow([], e.tx) && Live([]);
    NothingCommanded(e);
  }

  lemma {:induction false} NothingCommanded(e: Entry)
    requires e.tx.sql == NoSql
    ensures SqlOk([e])
  {
    var none: seq<Entry> := [];
    CommandsSnoc(none, e);
    assert none + [e] == [e] && Commands(none) == [];
    HistoryNext([], NoSql);
  }

  lemma {:induction false} GenesisPays(g: Block, coins: int)
    requires g == Genesis(coins)
    ensures GoodPath([g], coins)
  {
    var none: seq<Block> := [];
    assert [g][..0] == none && PathEntries(none) == [];
    assert TxOk([], g.txs[..0], g.txs[0], coins) && CoinbaseAt(g, 0);
    assert GoodBlock(PathEntries(none), g, coins) && GoodPath(none, coins);
  }

  lemma {:induction false} CarriesNothing(g: Block, coins: int)
    requires g == Genesis(coins)
    ensures forall t | 0 <= t < |g.txs| :: g.txs[t].sql == NoSql
  {
  }

  /** A new node with the genesis block. */
  method Start(coins: int) returns (db: DB, pool: UnapprovedTransactions)
    ensures fresh(db) && fresh(pool) && Good(pool, db, coins) && WritersOk(db)
    ensures db.blocks == OnlyBlock(Genesis(coins)) && db.topHash == 1
  {
    var genesis := Genesis(coins);
    GenesisInOrder(coins);
    CarriesNothing(genesis, coins);
    db, pool := AddFirstBlock(genesis, coins);
  }

  lemma {:induction false} SqlOkNext(es: seq<Entry>, e: Entry)
    requires SqlOk(es) && UndoFits(Commands(es), e.tx.sql)
    requires e.tx.sql != NoSql ==>
      !e.tx.sql.query.DropTable? && Exec(Replay(Commands(es)).value, e.tx.sql.query) != None
    requires e.tx.IsCoinbase() ==> e.tx.sql == NoSql
    ensures SqlOk(es + [e])
    ensures Replay(Commands(es + [e])) ==
      if e.tx.sql == NoSql then Replay(Commands(es)) else Exec(Replay(Commands(es)).value, e.tx.sql.query)
  {
    CommandsSnoc(es, e);
    HistoryNext(Commands(es), e.tx.sql);
    forall i | 0 <= i < |es + [e]|
      ensures (es + [e])[i].tx.IsCoinbase() ==> (es + [e])[i].tx.sql == NoSql
      ensures (es + [e])[i].tx.sql != NoSql ==> !(es + [e])[i].tx.sql.query.DropTable?
    {
      assert (es + [e])[i] == if i < |es| then es[i] else e;
    }
  }

  /** Of two transactions the first is a reward and the second is in order. */
  lemma {:induction false} RewardAndOne(es: seq<Entry>, spent: set<OutPoint>, b: Block, tx: Tx, coins: int, max: int)
    requires |b.txs| == 2 && b.txs[0] == Reward(2 * b.hash, coins) && b.txs[1] == tx && !tx.IsCoinbase()
    requires TxOkBy(es, spent, [b.txs[0]], tx, coins) && 1 <= max
    ensures BlockAcceptableBy(es, spent, b, coins, 1, max)
  {
    assert b.txs[..1] == [b.txs[0]] && b.txs[..0] == [];
    assert CoinbaseAt(b, 0);
    forall t | 0 <= t < |b.txs| ensures TxOkBy(es, spent, b.txs[..t], b.txs[t], coins) {
      assert t == 0 || t == 1;
    }
  }

  /** Ids of the block are two after those of its ancestors. */
  ghost predicate SmallIds(es: seq<Entry>, h: Hash)
  {
    forall k | 0 <= k < |es| :: es[k].tx.id <= 2 * h + 1
  }

  lemma {:induction false} NextIds(es: seq<Entry>, b: Block, prev: Hash)
    requires SmallIds(es, prev) && prev < b.hash && |b.txs| == 2
    requires b.txs[0].id == 2 * b.hash && b.txs[1].id == 2 * b.hash + 1
    requires !b.txs[1].IsCoinbase() && b.txs[0].IsCoinbase() && b.txs[1].signer != NoKey
    ensures FreshIds(es, b) && SmallIds(es + BlockEntries(b), b.hash)
  {
  }
}
