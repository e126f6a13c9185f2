/** The index of transactions over all stored blocks, main chain or not: in which
    blocks a transaction is, and which inputs use its outputs. */
module TransactionIndex {
  import opened Types
  import opened Database

  ghost predicate Contains(b: Block, id: TxId)
  {
    exists t | 0 <= t < |b.txs| :: b.txs[t].id == id
  }

  ghost predicate UsedBy(tx: Tx, h: Hash, id: TxId, r: SpentRec)
  {
    && !tx.IsCoinbase() && r.block == h && r.tx == tx.id
    && 0 <= r.input < |tx.vin| && tx.vin[r.input] == OutPoint(id, r.out)
  }

  ghost predicate UsedIn(b: Block, id: TxId, r: SpentRec)
  {
    exists t | 0 <= t < |b.txs| :: UsedBy(b.txs[t], b.hash, id, r)
  }

  ghost predicate Listed(txBlocks: map<TxId, seq<Hash>>, id: TxId, h: Hash)
  {
    id in txBlocks && h in txBlocks[id]
  }

  ghost predicate Recorded(txSpent: map<TxId, seq<SpentRec>>, id: TxId, r: SpentRec)
  {
    id in txSpent && r in txSpent[id]
  }

  /** The index says of every transaction and output what the blocks say. */
  ghost predicate IndexOk(blocks: Blocks, txBlocks: map<TxId, seq<Hash>>, txSpent: map<TxId, seq<SpentRec>>)
  {
    && ListsBlocks(blocks, txBlocks)
    && (forall id, r :: Recorded(txSpent, id, r) <==> r.block in blocks && UsedIn(blocks[r.block], id, r))
  }

  ghost predicate ListsBlocks(blocks: Blocks, txBlocks: map<TxId, seq<Hash>>)
  {
    forall id, h :: Listed(txBlocks, id, h) <==> h in blocks && Contains(blocks[h], id)
  }

  // ----- a block is stored

  method ListBlock(db: DB, id: TxId, h: Hash)
    modifies db`txBlocks
    ensures forall x, k :: Listed(db.txBlocks, x, k) <==> Listed(old(db.txBlocks), x, k) || (x == id && k == h)
  {
    var hashes := if id in db.txBlocks then db.txBlocks[id] else [];
    db.txBlocks := db.txBlocks[id := hashes + [h]];
  }

  method RecordInputs(db: DB, tx: Tx, h: Hash)
    requires !tx.IsCoinbase()
    modifies db`txSpent
    ensures forall id, r :: Recorded(db.txSpent, id, r) <==> Recorded(old(db.txSpent), id, r) || UsedBy(tx, h, id, r)
  {
    for inInd := 0 to |tx.vin|
      invariant forall id, r :: Recorded(db.txSpent, id, r) <==>
        Recorded(old(db.txSpent), id, r) || (UsedBy(tx, h, id, r) && r.input < inInd)
    {
      var vin := tx.vin[inInd];
      var outs := if vin.txid in db.txSpent then db.txSpent[vin.txid] else [];
      db.txSpent := db.txSpent[vin.txid := outs + [SpentRec(vin.vout, tx.id, inInd, h)]];
    }
  }

  /** BlockAdded: the index covers the blocks without `block`, then with it. */
  method BlockAdded(db: DB, block: Block, ghost others: Blocks)
    requires block.hash !in others && IndexOk(others, db.txBlocks, db.txSpent)
    modifies db`txBlocks, db`txSpent
    ensures IndexOk(others[block.hash := block], db.txBlocks, db.txSpent)
  {
    ghost var h := block.hash;
    for i := 0 to |block.txs|
      invariant forall id, k :: Listed(db.txBlocks, id, k) <==>
        Listed(old(db.txBlocks), id, k) || (k == h && Contains(block.(txs := block.txs[..i]), id))
      invariant forall id, r :: Recorded(db.txSpent, id, r) <==>
        Recorded(old(db.txSpent), id, r) || UsedIn(block.(txs := block.txs[..i]), id, r)
    {
      var tx := block.txs[i];
      ListBlock(db, tx.id, block.hash);
      if !tx.IsCoinbase() {
        RecordInputs(db, tx, block.hash);
      }
      OneMoreTx(block, i);
    }
    assert block.(txs := block.txs[..|block.txs|]) == block;
    AddedCovers(others, block, old(db.txBlocks), old(db.txSpent), db.txBlocks, db.txSpent);
  }

  lemma {:induction false} OneMoreTx(b: Block, i: nat)
    requires i < |b.txs|
    ensures forall id ::
      Contains(b.(txs := b.txs[..i + 1]), id) <==> Contains(b.(txs := b.txs[..i]), id) || b.txs[i].id == id
    ensures forall id, r :: UsedIn(b.(txs := b.txs[..i + 1]), id, r) <==>
      UsedIn(b.(txs := b.txs[..i]), id, r) || UsedBy(b.txs[i], b.hash, id, r)
  {
    var a, c := b.(txs := b.txs[..i]), b.(txs := b.txs[..i + 1]);
    assert c.txs[i] == b.txs[i];
    assert forall t | 0 <= t < i :: c.txs[t] == a.txs[t];
  }

  lemma {:induction false} AddedCovers(others: Blocks, b: Block, bl0: map<TxId, seq<Hash>>,
      sp0: map<TxId, seq<SpentRec>>, bl1: map<TxId, seq<Hash>>, sp1: map<TxId, seq<SpentRec>>)
    requires b.hash !in others && IndexOk(others, bl0, sp0)
    requires forall id, k :: Listed(bl1, id, k) <==> Listed(bl0, id, k) || (k == b.hash && Contains(b, id))
    requires forall id, r :: Recorded(sp1, id, r) <==> Recorded(sp0, id, r) || UsedIn(b, id, r)
    ensures IndexOk(others[b.hash := b], bl1, sp1)
  {
  }

  // ----- a block is deleted

  /** Some input of the block uses this output. */
  ghost predicate SpendsOutput(b: Block, p: OutPoint)
  {
    exists t | 0 <= t < |b.txs| :: !b.txs[t].IsCoinbase() && p in b.txs[t].vin
  }

  method UnlistBlock(db: DB, id: TxId, h: Hash)
    modifies db`txBlocks
    ensures forall x, k :: Listed(db.txBlocks, x, k) <==> Listed(old(db.txBlocks), x, k) && !(x == id && k == h)
  {
    var hashes := if id in db.txBlocks then db.txBlocks[id] else [];
    var newHashes := [];
    for i := 0 to |hashes|
      invariant forall k :: k in newHashes <==> k in hashes[..i] && k != h
    {
      if hashes[i] != h {
        newHashes := newHashes + [hashes[i]];
      }
    }
    assert hashes[..|hashes|] == hashes;
    assert forall k :: k in newHashes <==> k in hashes && k != h;
    if |newHashes| > 0 {
      db.txBlocks := db.txBlocks[id := newHashes];
    } else {
      db.txBlocks := db.txBlocks - {id};
    }
  }

  /** Drops every record of the output, whichever block it came from. */
  method DropRecords(db: DB, p: OutPoint)
    modifies db`txSpent
    ensures forall id, r ::
      Recorded(db.txSpent, id, r) <==> Recorded(old(db.txSpent), id, r) && OutPoint(id, r.out) != p
  {
    if p.txid !in db.txSpent {
      return;
    }
    var outs := db.txSpent[p.txid];
    var newOutputs := [];
    for i := 0 to |outs|
      invariant forall r :: r in newOutputs <==> r in outs[..i] && r.out != p.vout
    {
      if outs[i].out != p.vout {
        newOutputs := newOutputs + [outs[i]];
      }
    }
    if |newOutputs| > 0 {
      db.txSpent := db.txSpent[p.txid := newOutputs];
    } else {
      db.txSpent := db.txSpent - {p.txid};
    }
  }

  method DropInputs(db: DB, tx: Tx)
    modifies db`txSpent
    ensures forall id, r ::
      Recorded(db.txSpent, id, r) <==> Recorded(old(db.txSpent), id, r) && OutPoint(id, r.out) !in tx.vin
  {
    for i := 0 to |tx.vin|
      invariant forall id, r :: Recorded(db.txSpent, id, r) <==>
        Recorded(old(db.txSpent), id, r) && OutPoint(id, r.out) !in tx.vin[..i]
    {
      DropRecords(db, tx.vin[i]);
    }
  }

  method BlockRemoved(db: DB, block: Block)
    modifies db`txBlocks, db`txSpent
    ensures forall id, k :: Listed(db.txBlocks, id, k) <==>
      Listed(old(db.txBlocks), id, k) && !(k == block.hash && Contains(block, id))
    ensures forall id, r :: Recorded(db.txSpent, id, r) <==>
      Recorded(old(db.txSpent), id, r) && !SpendsOutput(block, OutPoint(id, r.out))
  {
    for i := 0 to |block.txs|
      invariant forall id, k :: Listed(db.txBlocks, id, k) <==>
        Listed(old(db.txBlocks), id, k) && !(k == block.hash && Contains(block.(txs := block.txs[..i]), id))
      invariant forall id, r :: Recorded(db.txSpent, id, r) <==>
        Recorded(old(db.txSpent), id, r) && !SpendsOutput(block.(txs := block.txs[..i]), OutPoint(id, r.out))
    {
      var tx := block.txs[i];
      UnlistBlock(db, tx.id, block.hash);
      if !tx.IsCoinbase() {
        DropInputs(db, tx);
      }
      OneMoreTx(block, i);
      OneMoreSpender(block, i);
    }
    assert block.(txs := block.txs[..|block.txs|]) == block;
  }

  lemma {:induction false} OneMoreSpender(b: Block, i: nat)
    requires i < |b.txs|
    ensures forall p :: SpendsOutput(b.(txs := b.txs[..i + 1]), p) <==>
      SpendsOutput(b.(txs := b.txs[..i]), p) || (!b.txs[i].IsCoinbase() && p in b.txs[i].vin)
  {
    var a, c := b.(txs := b.txs[..i]), b.(txs := b.txs[..i + 1]);
    assert c.txs[i] == b.txs[i];
    assert forall t | 0 <= t < i :: c.txs[t] == a.txs[t];
  }

  /** Some stored block uses an output that the removed block also uses. */
  ghost predicate SharesSpending(blocks: Blocks, b: Block)
  {
    exists h, p | h in blocks :: SpendsOutput(blocks[h], p) && SpendsOutput(b, p)
  }

  /** Removing a block restores the index of the remaining blocks exactly when no
      remaining block uses an output that the removed block uses. */
  lemma {:induction false} RemovedCoversIff(others: Blocks, b: Block, bl0: map<TxId, seq<Hash>>,
      sp0: map<TxId, seq<SpentRec>>, bl1: map<TxId, seq<Hash>>, sp1: map<TxId, seq<SpentRec>>)
    requires b.hash !in others && IndexOk(others[b.hash := b], bl0, sp0)
    requires forall h | h in others :: others[h].hash == h
    requires forall id, k :: Listed(bl1, id, k) <==> Listed(bl0, id, k) && !(k == b.hash && Contains(b, id))
    requires forall id, r :: Recorded(sp1, id, r) <==> Recorded(sp0, id, r) && !SpendsOutput(b, OutPoint(id, r.out))
    ensures IndexOk(others, bl1, sp1) <==> !SharesSpending(others, b)
  {
    if SharesSpending(others, b) {
      var h, p :| h in others && SpendsOutput(others[h], p) && SpendsOutput(b, p);
      var r := RecordOfSpender(others[h], p);
      assert UsedIn(others[r.block], p.txid, r);
      assert !Recorded(sp1, p.txid, r);
    } else {
      forall id, r ensures Recorded(sp1, id, r) <==> r.block in others && UsedIn(others[r.block], id, r) {
        RemovedRecord(others, b, id, r);
        assert Recorded(sp0, id, r) <==> r.block in others[b.hash := b] && UsedIn(others[b.hash := b][r.block], id, r);
      }
    }
  }

  /** No record of an output that the block spent is left. */
  ghost predicate Forgotten(txSpent: map<TxId, seq<SpentRec>>, b: Block)
  {
    forall id, r | Recorded(txSpent, id, r) :: !SpendsOutput(b, OutPoint(id, r.out))
  }

  lemma {:induction false} UseIsSpending(b: Block, id: TxId, r: SpentRec)
    requires UsedIn(b, id, r)
    ensures SpendsOutput(b, OutPoint(id, r.out))
  {
    var t :| 0 <= t < |b.txs| && UsedBy(b.txs[t], b.hash, id, r);
    assert OutPoint(id, r.out) in b.txs[t].vin;
  }

  /** Where a remaining block spends an output that the removed block spends too,
      no record of that output is left: a lookup on the remaining block's branch
      finds it unspent (node/transactions/manager.go:682-696). */
  lemma {:induction false} RemovalForgetsSpending(others: Blocks, b: Block, bl0: map<TxId, seq<Hash>>,
      sp0: map<TxId, seq<SpentRec>>, sp1: map<TxId, seq<SpentRec>>, h: Hash, p: OutPoint)
    returns (r: SpentRec)
    requires b.hash !in others && IndexOk(others[b.hash := b], bl0, sp0) && forall x | x in others ::
      others[x].hash == x
    requires forall id, r :: Recorded(sp1, id, r) <==> Recorded(sp0, id, r) && !SpendsOutput(b, OutPoint(id, r.out))
    requires h in others && SpendsOutput(others[h], p) && SpendsOutput(b, p)
    ensures r.block == h && r.out == p.vout && UsedIn(others[h], p.txid, r) && Recorded(sp0, p.txid, r)
    ensures forall x: SpentRec | x.out == p.vout :: !Recorded(sp1, p.txid, x)
  {
    r := RecordOfSpender(others[h], p);
    assert others[b.hash := b][h] == others[h];
    assert OutPoint(p.txid, p.vout) == p;
  }

  lemma {:induction false} RemovedRecord(others: Blocks, b: Block, id: TxId, r: SpentRec)
    requires !SharesSpending(others, b)
    ensures UsedIn(b, id, r) ==> SpendsOutput(b, OutPoint(id, r.out))
    ensures r.block in others && UsedIn(others[r.block], id, r) ==> !SpendsOutput(b, OutPoint(id, r.out))
  {
    if UsedIn(b, id, r) {
      UseIsSpending(b, id, r);
    }
    if r.block in others && UsedIn(others[r.block], id, r) {
      UseIsSpending(others[r.block], id, r);
    }
  }

  lemma {:induction false} RecordOfSpender(b: Block, p: OutPoint) returns (r: SpentRec)
    requires SpendsOutput(b, p)
    ensures r.block == b.hash && r.out == p.vout && UsedIn(b, p.txid, r)
  {
    var t :| 0 <= t < |b.txs| && !b.txs[t].IsCoinbase() && p in b.txs[t].vin;
    var i :| 0 <= i < |b.txs[t].vin| && b.txs[t].vin[i] == p;
    r := SpentRec(p.vout, b.txs[t].id, i, b.hash);
    assert UsedBy(b.txs[t], b.hash, p.txid, r);
  }
}
