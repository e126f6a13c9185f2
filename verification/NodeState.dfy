/** What it means that the tables of a node are in order, and what that is worth. */
module NodeState {
  import opened Types
  import opened BlockTree
  import opened Database
  import opened BlockchainManager
  import opened Ledger
  import opened TransactionIndex
  import opened TransactionLookup
  import opened UnspentOutputs
  import opened UnspentCancel
  import opened Money
  import opened CoinSelection
  import opened SqlHistory
  import opened Pool
  import RowReferences

  // ----- the invariants

  /** One stored branch is in order: nothing is spent twice, blocks pay what they
      may, commands run and can be undone, and the block can be taken back. */
  ghost predicate BranchOk(blocks: Blocks, h: Hash, coins: int)
    requires TreeOk(blocks) && h in blocks
  {
    && Live(EntriesUnder(blocks, h))
    && GoodPath(Path(blocks, h), coins)
    && SqlOk(EntriesUnder(blocks, h))
    && (blocks[h].prev != NoHash ==> AllReached(blocks[h]))
  }

  ghost predicate BranchesOk(blocks: Blocks, coins: int)
    requires TreeOk(blocks)
  {
    forall h {:trigger BranchOk(blocks, h, coins)} | h in blocks :: BranchOk(blocks, h, coins)
  }

  /** Stored blocks and chain table, with all branches in order. */
  ghost predicate BlocksOk(db: DB, coins: int)
    reads db`blocks, db`topHash, db`chain
  {
    StoreOk(db) && BranchesOk(db.blocks, coins)
  }

  /** And the transaction index. From here every operation keeps the blocks in order;
      the index too, except when a dropped block shares a spending. */
  ghost predicate StorageOk(db: DB, coins: int)
    reads db`blocks, db`topHash, db`chain, db`txBlocks, db`txSpent
  {
    BlocksOk(db, coins) && IndexOk(db.blocks, db.txBlocks, db.txSpent)
  }

  /** The unspent outputs are those of the branch under `h`. */
  ghost predicate MoneyAt(db: DB, h: Hash)
    reads db`blocks, db`unspent
    requires TreeOk(db.blocks) && h in db.blocks
  {
    MoneyOn(db.blocks, h, db.unspent)
  }

  ghost predicate MoneyOn(blocks: Blocks, h: Hash, unspent: Table)
    requires TreeOk(blocks) && h in blocks
  {
    Represents(unspent, UtxoOf(Path(blocks, h)))
  }

  /** The rows are those of the branch under `h`, followed by pending commands. */
  ghost predicate RowsAt(db: DB, h: Hash, queue: seq<Sql>)
    reads db`blocks, db`rows
    requires TreeOk(db.blocks) && h in db.blocks
  {
    RowsOn(db.blocks, h, db.rows, queue)
  }

  ghost predicate RowsOn(blocks: Blocks, h: Hash, rows: Rows, queue: seq<Sql>)
    requires TreeOk(blocks) && h in blocks
  {
    Replay(Commands(EntriesUnder(blocks, h)) + queue) == Some(rows)
  }

  /** Everything about money is in order. */
  ghost predicate MoneyOk(db: DB, coins: int)
    reads db`blocks, db`topHash, db`chain, db`txBlocks, db`txSpent, db`unspent
  {
    StorageOk(db, coins) && MoneyAt(db, db.topHash)
  }

  /** The index of rows is right, and all bases on the main chain were checked. */
  ghost predicate WritersOk(db: DB)
    reads db`blocks, db`topHash, db`rowRefs
    requires TreeOk(db.blocks) && db.topHash in db.blocks
  {
    WritersAt(db.rowRefs, db.blocks, db.topHash)
  }

  ghost predicate WritersAt(refs: map<RefId, TxId>, blocks: Blocks, top: Hash)
    requires TreeOk(blocks) && top in blocks
  {
    RowReferences.RefsOk(refs, EntriesUnder(blocks, top)) && RowReferences.BasesOk(Path(blocks, top))
  }

  ghost predicate TopIsHighest(blocks: Blocks, top: Hash)
    requires top in blocks
  {
    forall h | h in blocks :: blocks[h].height <= blocks[top].height
  }

  /** What the tables that follow the top hold, and the pool. */
  datatype Tables = Tables(rows: Rows, unspent: Table, writers: map<RefId, TxId>, pending: Txs)

  ghost function TablesWith(pending: Txs, db: DB): Tables
    reads db`rows, db`unspent, db`rowRefs
  {
    Tables(db.rows, db.unspent, db.rowRefs, pending)
  }

  ghost function TablesOf(pool: UnapprovedTransactions, db: DB): Tables
    reads pool`table, db`rows, db`unspent, db`rowRefs
  {
    TablesWith(pool.table, db)
  }

  // ----- what they are worth

  /** On no stored branch is an output spent twice. */
  lemma {:induction false} NeverSpentTwice(db: DB, coins: int, tip: Hash, i: nat, j: nat)
    requires BlocksOk(db, coins) && tip in db.blocks && i < j < |EntriesUnder(db.blocks, tip)|
    ensures InsOf(EntriesUnder(db.blocks, tip)[i].tx) !! InsOf(EntriesUnder(db.blocks, tip)[j].tx)
  {
    assert BranchOk(db.blocks, tip, coins);
    NoDoubleSpend(EntriesUnder(db.blocks, tip), i, j);
  }

  /** On every stored branch what is unspent and what went to no address is one
      reward for each block. */
  lemma {:induction false} SupplyIsRewards(db: DB, coins: int, tip: Hash)
    requires BlocksOk(db, coins) && tip in db.blocks
    ensures Total(UtxoOf(Path(db.blocks, tip))) + AllUnaddressed(EntriesUnder(db.blocks, tip))
      == coins * |Path(db.blocks, tip)|
  {
    assert BranchOk(db.blocks, tip, coins);
    MoneySupply(Path(db.blocks, tip), coins);
  }

  /** The value of all records in the table of unspent outputs. */
  ghost function TableValue(t: Table): int
    decreases |t|
  {
    if t == map[] then 0
    else
      var id :| id in t;
      OneListFewer(t, id);
      SumValues(t[id]) + TableValue(t - {id})
  }

  lemma {:induction false} OneListFewer(t: Table, id: TxId)
    requires id in t
    ensures |t - {id}| < |t|
  {
    assert (t - {id}).Keys == t.Keys - {id};
    assert |t| == |t.Keys| && |t - {id}| == |(t - {id}).Keys|;
  }

  ghost function OutputsOf(m: Utxo, id: TxId): Utxo
  {
    map p | p in m && p.txid == id :: m[p]
  }

  lemma {:induction false} ListIsPart(list: seq<UnspentOut>, id: TxId, m: Utxo)
    requires ListOk(list, id, m)
    ensures SumValues(list) == Total(OutputsOf(m, id))
  {
    var n := OutputsOf(m, id);
    forall k | 0 <= k < |list| ensures RecordOf(list[k], n) {
      assert OutOk(list[k], id, m);
    }
    forall p | p in n ensures HasPoint(list, p) {
      assert OutPoint(id, p.vout) == p && HasIndex(list, p.vout);
      var k :| 0 <= k < |list| && list[k].index == p.vout;
      assert RecordOf(list[k], n) && OutOk(list[k], id, m);
    }
    ListedTotal(list, n);
  }

  lemma {:induction false} OtherLists(t: Table, m: Utxo, id: TxId)
    requires Represents(t, m)
    ensures Represents(t - {id}, m - OutputsOf(m, id).Keys)
  {
    var n := m - OutputsOf(m, id).Keys;
    forall x ensures ListOk(ListAt(t - {id}, x), x, n) {
      if x != id {
        assert ListAt(t - {id}, x) == ListAt(t, x);
        ListFrame(ListAt(t, x), x, m, n);
      }
    }
  }

  /** The records are worth what the outputs are worth. */
  lemma {:induction false} TableIsTotal(t: Table, m: Utxo)
    requires Represents(t, m)
    ensures TableValue(t) == Total(m)
    decreases |t|
  {
    if t == map[] {
      forall p ensures p !in m {
        assert ListOk(ListAt(t, p.txid), p.txid, m) && OutPoint(p.txid, p.vout) == p;
      }
      assert m == map[];
    } else {
      var id :| id in t && TableValue(t) == SumValues(t[id]) + TableValue(t - {id});
      OneListFewer(t, id);
      ListIsPart(ListAt(t, id), id, m);
      OtherLists(t, m, id);
      TableIsTotal(t - {id}, m - OutputsOf(m, id).Keys);
      TotalJoin(m - OutputsOf(m, id).Keys, OutputsOf(m, id));
      assert (m - OutputsOf(m, id).Keys) + OutputsOf(m, id) == m;
    }
  }

  /** So the table itself adds up to the rewards of the main chain. */
  lemma {:induction false} TableHoldsRewards(db: DB, coins: int)
    requires MoneyOk(db, coins)
    ensures TableValue(db.unspent) + AllUnaddressed(EntriesUnder(db.blocks, db.topHash))
      == coins * |Path(db.blocks, db.topHash)|
  {
    SupplyIsRewards(db, coins, db.topHash);
    TableIsTotal(db.unspent, UtxoOf(Path(db.blocks, db.topHash)));
  }

  /** A table stands for one set of outputs only. */
  lemma {:induction false} RepresentsOne(t: Table, m: Utxo, n: Utxo, p: OutPoint)
    requires Represents(t, m) && Represents(t, n) && p in n
    ensures p in m
  {
    assert OutPoint(p.txid, p.vout) == p;
    assert ListOk(ListAt(t, p.txid), p.txid, m) && ListOk(ListAt(t, p.txid), p.txid, n);
    var k :| 0 <= k < |ListAt(t, p.txid)| && ListAt(t, p.txid)[k].index == p.vout;
    assert OutOk(ListAt(t, p.txid)[k], p.txid, m);
  }

  /** Row histories of the main chain are linear: no two of its transactions
      continue one row from the same base. */
  lemma {:induction false} MainChainIsLinear(db: DB, coins: int, i: nat, j: nat)
    requires BlocksOk(db, coins) && WritersOk(db) && i < j < |EntriesUnder(db.blocks, db.topHash)|
    requires var a, b := EntriesUnder(db.blocks, db.topHash)[i].tx, EntriesUnder(db.blocks, db.topHash)[j].tx;
      && a.sql != NoSql && b.sql != NoSql && a.base != NoTx && b.base != NoTx
      && a.sql.ref == b.sql.ref && a.sql.ref != NoRef
    ensures EntriesUnder(db.blocks, db.topHash)[i].tx.base != EntriesUnder(db.blocks, db.topHash)[j].tx.base
  {
    assert BranchOk(db.blocks, db.topHash, coins);
    LiveIsUnique(EntriesUnder(db.blocks, db.topHash));
    RowReferences.LinearHistories(Path(db.blocks, db.topHash), i, j);
  }

  // ----- one block of a branch

  lemma {:induction false} ParentFacts(blocks: Blocks, h: Hash, coins: int)
    requires TreeOk(blocks) && BranchesOk(blocks, coins) && h in blocks && blocks[h].prev != NoHash
    ensures blocks[h].hash == h && blocks[h].prev in blocks
    ensures EntriesUnder(blocks, h) == EntriesUnder(blocks, blocks[h].prev) + BlockEntries(blocks[h])
    ensures Path(blocks, h) == Path(blocks, blocks[h].prev) + [blocks[h]]
    ensures Live(EntriesUnder(blocks, h)) && SqlOk(EntriesUnder(blocks, h)) && AllReached(blocks[h])
  {
    assert LinkOk(blocks, h) && BranchOk(blocks, h, coins);
    var es := EntriesBelow(blocks, h);
  }

  lemma {:induction false} LiveIsUnique(es: seq<Entry>)
    requires Live(es)
    ensures UniqueIds(es)
  {
    forall i, j | 0 <= i < j < |es| ensures es[i].tx.id != es[j].tx.id {
      LiveIds(es, i, j);
    }
  }

  lemma {:induction false} NoEmptyHash(blocks: Blocks)
    requires TreeOk(blocks)
    ensures NoHash !in blocks
  {
    assert NoHash in blocks ==> LinkOk(blocks, NoHash);
  }
}
