/** A run after which an output can be spent a second time: two branches spend the
    same output, the one on top is dropped, and with it the index forgets the
    spending on the other branch. */
module SpentAgain {
  import opened Types
  import opened BlockTree
  import opened Database
  import opened Ledger
  import opened TransactionIndex
  import opened TransactionLookup
  import opened UnspentCancel
  import opened Verifier
  import opened Safety
  import opened SqlHistory
  import opened Pool
  import opened NodeState
  import opened Node
  import opened Submissions

  /** The output of the genesis block. */
  const FIRST := OutPoint(2, 0)

  /** A payment that spends it. */
  function Pay(h: Hash, coins: int): Tx
  {
    Tx(2 * h + 1, 7, [FIRST], [TxOut(coins, 7)], NoSql, NoTx)
  }

  function PayBlock(h: Hash, prev: Hash, height: nat, coins: int): Block
  {
    Block(h, prev, height, [Reward(2 * h, coins), Pay(h, coins)])
  }

  ghost predicate Paying(b: Block, coins: int)
  {
    b == PayBlock(b.hash, b.prev, b.height, coins)
  }

  /** A branch on the genesis block. */
  ghost predicate FromGenesis(es: seq<Entry>, tip: Hash, coins: int)
  {
    SmallIds(es, tip) && SqlOk(es) && HasTx(es, 2) && FindEntry(es, 2) == Some(Reward(2, coins))
  }

  /** Verification accepts such a block when the spending is not known. */
  lemma {:induction false} PayAccepted(es: seq<Entry>, spent: set<OutPoint>, b: Block, tip: Hash, coins: int, max: int)
    requires FromGenesis(es, tip, coins) && Paying(b, coins) && FIRST !in spent && 1 <= coins && 1 <= max
    ensures BlockAcceptableBy(es, spent, b, coins, 1, max)
  {
    OneInputOk(es, spent, [b.txs[0]], Pay(b.hash, coins), coins);
    RewardAndOne(es, spent, b, Pay(b.hash, coins), coins, max);
  }

  lemma {:induction false} PayInOrder(es: seq<Entry>, b: Block, tip: Hash, coins: int, max: int)
    requires Live(es) && FromGenesis(es, tip, coins) && Paying(b, coins) && FIRST !in Spends(es)
    requires 1 <= tip < b.hash && 1 <= coins && 1 <= max
    ensures InOrderOn(es, b, coins, 1, max) && SmallIds(es + BlockEntries(b), b.hash) && SqlOk(es + BlockEntries(b))
  {
    PayAccepted(es, Spends(es), b, tip, coins, max);
    NextIds(es, b, tip);
    PayCommands(es, b, coins);
    PayReached(b, coins);
  }

  lemma {:induction false} PayCommands(es: seq<Entry>, b: Block, coins: int)
    requires SqlOk(es) && Paying(b, coins)
    ensures SqlOk(es + BlockEntries(b))
  {
    var e, f := Entry(b.txs[0], b.hash), Entry(b.txs[1], b.hash);
    assert es + BlockEntries(b) == es + [e] + [f];
    SqlOkNext(es, e);
    SqlOkNext(es + [e], f);
  }

  lemma {:induction false} PayReached(b: Block, coins: int)
    requires Paying(b, coins) && b.hash > 1
    ensures AllReached(b) && DistinctInputs(b) && SpendsOutput(b, FIRST)
  {
    assert b.txs[0].IsCoinbase() && b.txs[1].vin == [FIRST] && !Contains(b, 2);
    assert Visited(b, b.txs[1].vin) == [FIRST] + Visited(b, b.txs[1].vin[1..]);
    assert Visited(b, b.txs[1].vin)[0].txid == 2;
    assert NamesTx(Visited(b, b.txs[1].vin), 2);
    assert Reached(b, 2);
  }

  /** One payment on the genesis block. */
  lemma {:induction false} OnGenesis(coins: int, b: Block)
    requires Paying(b, coins) && b.hash > 1
    ensures var es := [Entry(Reward(2, coins), 1)];
      && FromGenesis(es, 1, coins) && FIRST !in Spends(es)
      && (SmallIds(es + BlockEntries(b), b.hash) && SqlOk(es + BlockEntries(b)) ==>
            FromGenesis(es + BlockEntries(b), b.hash, coins))
  {
    var e := Entry(Reward(2, coins), 1);
    NothingCommanded(e);
    assert [e][..0] == [] && Spends([e][..0]) == {} && [e][0].tx.id == 2;
    var all := [e] + BlockEntries(b);
    assert all == [e, Entry(b.txs[0], b.hash), Entry(b.txs[1], b.hash)];
    assert all[..2] == [e, Entry(b.txs[0], b.hash)] && all[..2][..1] == [e] && all[0].tx.id == 2;
    assert FindEntry(all, 2) == FindEntry(all[..2], 2) == FindEntry([e], 2);
  }

  lemma {:induction false} PayFits(blocks: Blocks, b: Block, coins: int, max: int)
    requires TreeOk(blocks) && b.hash !in blocks && b.hash > 1 && b.prev == 1 && b.height == 1 && Paying(b, coins)
    requires 1 in blocks && blocks[1].height == 0 && EntriesUnder(blocks, 1) == [Entry(Reward(2, coins), 1)]
    requires 1 <= coins && 1 <= max
    ensures Fits(blocks, b, coins, 1, max) && TreeOk(blocks[b.hash := b])
    ensures EntriesUnder(blocks[b.hash := b], 1) == [Entry(Reward(2, coins), 1)]
    ensures EntriesUnder(blocks[b.hash := b], b.hash) == [Entry(Reward(2, coins), 1)] + BlockEntries(b)
    ensures FromGenesis(EntriesUnder(blocks[b.hash := b], b.hash), b.hash, coins)
  {
    OnGenesis(coins, b);
    RewardAlone(Entry(Reward(2, coins), 1), coins);
    PayInOrder(EntriesUnder(blocks, 1), b, 1, coins, max);
    TreeGrows(blocks, b);
    UtxoGrows(Path(blocks, 1), b);
  }

  // ----- the run

  /** Genesis 1 with A = 2 and B = 3 on it, both spending its output. */
  ghost predicate Shared(blocks: Blocks, coins: int)
    requires TreeOk(blocks)
  {
    && 2 in blocks && Paying(blocks[2], coins) && blocks[2].hash == 2 && blocks[2].prev == 1 && IsLeaf(blocks, 2)
    && BranchB(blocks, coins)
  }

  ghost predicate BranchB(blocks: Blocks, coins: int)
    requires TreeOk(blocks)
  {
    && 1 in blocks && blocks[1].height == 0
    && 3 in blocks && Paying(blocks[3], coins) && blocks[3].hash == 3 && blocks[3].prev == 1
    && EntriesUnder(blocks, 3) == [Entry(Reward(2, coins), 1)] + BlockEntries(blocks[3])
    && FromGenesis(EntriesUnder(blocks, 3), 3, coins)
  }

  method TwoSpendings(coins: int, max: int) returns (db: DB, pool: UnapprovedTransactions)
    requires 1 <= coins && 1 <= max
    ensures fresh(db) && fresh(pool) && Good(pool, db, coins) && db.topHash == 2 && Shared(db.blocks, coins)
  {
    db, pool := OneSpending(coins, max);
    var b := PayBlock(3, 1, 1, coins);
    PayFits(db.blocks, b, coins, max);
    ghost var was := db.blocks;
    SubmitBeside(pool, db, b, coins, 1, max);
    BothStored(was, b, db.blocks, coins);
  }

  method OneSpending(coins: int, max: int) returns (db: DB, pool: UnapprovedTransactions)
    requires 1 <= coins && 1 <= max
    ensures fresh(db) && fresh(pool) && Good(pool, db, coins) && db.topHash == 2
    ensures db.blocks == OnlyBlock(Genesis(coins))[2 := PayBlock(2, 1, 1, coins)]
    ensures EntriesUnder(db.blocks, 1) == [Entry(Reward(2, coins), 1)]
  {
    db, pool := Start(coins);
    GenesisInOrder(coins);
    var a := PayBlock(2, 1, 1, coins);
    PayFits(db.blocks, a, coins, max);
    SubmitOnTop(pool, db, a, coins, 1, max);
  }

  lemma {:induction false} BothStored(was: Blocks, b: Block, now: Blocks, coins: int)
    requires was == OnlyBlock(Genesis(coins))[2 := PayBlock(2, 1, 1, coins)] && b == PayBlock(3, 1, 1, coins)
    requires now == was[3 := b] && TreeOk(now)
    requires EntriesUnder(now, 3) == [Entry(Reward(2, coins), 1)] + BlockEntries(b)
    requires FromGenesis(EntriesUnder(now, 3), 3, coins)
    ensures Shared(now, coins)
  {
  }

  /** A is dropped: everything else stays in order, but the index does not. */
  method Dropped(coins: int, max: int) returns (db: DB, pool: UnapprovedTransactions)
    requires 1 <= coins && 1 <= max
    ensures BlocksOk(db, coins) && MoneyAt(db, db.topHash) && !StorageOk(db, coins)
    ensures BranchB(db.blocks, coins) && SoundLookup(db, db.blocks) && FIRST !in KnownSpent(db, 3)
  {
    db, pool := TwoSpendings(coins, max);
    ghost var before := db.blocks;
    var a := DropBlock(pool, db, coins, []);
    BStays(before, db.blocks, coins);
    PayReached(a, coins);
    PayReached(db.blocks[3], coins);
    assert SharesSpending(db.blocks, a);
    assert FIRST == OutPoint(FIRST.txid, FIRST.vout);
  }

  lemma {:induction false} BStays(before: Blocks, after: Blocks, coins: int)
    requires TreeOk(before) && Shared(before, coins) && after == before - {2}
    ensures TreeOk(after) && BranchB(after, coins)
  {
    TreeShrinks(before, 2);
  }

  /** And now a block on B that spends the output again is accepted. */
  method SpendAgain(coins: int, max: int) returns (db: DB, d: Block, accepted: bool)
    requires 1 <= coins && 1 <= max
    ensures BlocksOk(db, coins) && MoneyAt(db, db.topHash) && d.prev in db.blocks
    ensures accepted && !Live(EntriesUnder(db.blocks, d.prev) + BlockEntries(d))
  {
    var pool;
    db, pool := Dropped(coins, max);
    d := PayBlock(4, 3, 2, coins);
    BranchBLive(db, coins);
    accepted := VerifyBlock(db, d, coins, 1, max, db.blocks);
    PayAccepted(EntriesUnder(db.blocks, 3), KnownSpent(db, 3), d, 3, coins, max);
    NotLive(EntriesUnder(db.blocks, 3), db.blocks[3], d, coins);
  }

  lemma {:induction false} BranchBLive(db: DB, coins: int)
    requires BlocksOk(db, coins) && 3 in db.blocks
    ensures Live(EntriesUnder(db.blocks, 3))
  {
    assert BranchOk(db.blocks, 3, coins);
  }

  lemma {:induction false} NotLive(es: seq<Entry>, b: Block, d: Block, coins: int)
    requires Paying(b, coins) && Paying(d, coins) && es == [Entry(Reward(2, coins), 1)] + BlockEntries(b)
    ensures !Live(es + BlockEntries(d))
  {
    var all := es + BlockEntries(d);
    assert all[2].tx == Pay(b.hash, coins) && all[4].tx == Pay(d.hash, coins);
    assert FIRST in InsOf(all[2].tx) && FIRST in InsOf(all[4].tx);
    if Live(all) {
      NoDoubleSpend(all, 2, 4);
    }
  }
}
