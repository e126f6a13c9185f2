/** FindunspentTransactions: the unspent outputs recomputed by walking from the
    tip down with a map of what was spent above. */
module UnspentScan {
  import opened Types
  import opened BlockTree
  import opened Database
  import opened Ledger
  import opened TransactionLookup
  import opened UnspentOutputs

  ghost predicate SpentOk(spent: map<TxId, seq<int>>, s: set<OutPoint>)
  {
    forall id, v :: (id in spent && v in spent[id]) <==> OutPoint(id, v) in s
  }

  method ScanInputs(spent0: map<TxId, seq<int>>, vin: seq<OutPoint>, ghost s: set<OutPoint>)
    returns (spent: map<TxId, seq<int>>)
    requires SpentOk(spent0, s)
    ensures SpentOk(spent, s + Names(vin))
  {
    spent := spent0;
    for i := 0 to |vin|
      invariant SpentOk(spent, s + Names(vin[..i]))
    {
      var p := vin[i];
      var outs := if p.txid in spent then spent[p.txid] else [];
      ghost var before := spent;
      spent := spent[p.txid := outs + [p.vout]];
      assert vin[..i + 1] == vin[..i] + [p];
      forall id, v ensures (id in spent && v in spent[id]) <==> OutPoint(id, v) in s + Names(vin[..i + 1]) {
        assert (id in before && v in before[id]) <==> OutPoint(id, v) in s + Names(vin[..i]);
      }
    }
    assert vin[..|vin|] == vin;
  }

  /** The outputs of one transaction that are not in the spent map. */
  method ScanOutputs(utxo0: Table, spent: map<TxId, seq<int>>, tx: Tx, h: Hash, ghost s: set<OutPoint>)
    returns (utxo: Table)
    requires SpentOk(spent, s) && ListAt(utxo0, tx.id) == []
    ensures forall x | x != tx.id :: ListAt(utxo, x) == ListAt(utxo0, x)
    ensures ListOk(ListAt(utxo, tx.id), tx.id, OutsOf(tx, h) - s)
  {
    utxo := utxo0;
    ghost var live := OutsOf(tx, h) - s;
    for i := 0 to |tx.vout|
      invariant forall x | x != tx.id :: ListAt(utxo, x) == ListAt(utxo0, x)
      invariant ScannedTo(ListAt(utxo, tx.id), tx, live, i)
    {
      var out := tx.vout[i];
      var isSpent := tx.id in spent && i in spent[tx.id];
      LiveOutput(spent, tx, h, s, i);
      var outs := if tx.id in utxo then utxo[tx.id] else [];
      if out.owner != NoKey && !isSpent {
        var oute := UnspentOut(tx.id, i, out.owner, out.value, h);
        ScanNext(outs, tx, live, i, oute);
        utxo := utxo[tx.id := outs + [oute]];
      } else {
        ScanSkip(outs, tx, live, i);
      }
    }
  }

  lemma {:induction false} LiveOutput(spent: map<TxId, seq<int>>, tx: Tx, h: Hash, s: set<OutPoint>, i: nat)
    requires SpentOk(spent, s) && i < |tx.vout|
    ensures var live, p := OutsOf(tx, h) - s, OutPoint(tx.id, i);
      && (p in live <==> tx.vout[i].owner != NoKey && !(tx.id in spent && i in spent[tx.id]))
      && (p in live ==> live[p] == Coin(tx.vout[i].owner, tx.vout[i].value, h))
  {
    assert OutPoint(tx.id, i) in s <==> (tx.id in spent && i in spent[tx.id]);
  }

  /** One transaction of the scan, in front of the entries already scanned. */
  method ScanTransaction(utxo0: Table, spent0: map<TxId, seq<int>>, tx: Tx, h: Hash, ghost done: seq<Entry>)
    returns (utxo: Table, spent: map<TxId, seq<int>>)
    requires Represents(utxo0, Fold(map[], done)) && SpentOk(spent0, Spends(done))
    requires !HasTx(done, tx.id) && ListAt(utxo0, tx.id) == []
    ensures Represents(utxo, Fold(map[], [Entry(tx, h)] + done))
    ensures SpentOk(spent, Spends([Entry(tx, h)] + done))
    ensures forall x | x != tx.id :: ListAt(utxo, x) == ListAt(utxo0, x)
  {
    utxo := ScanOutputs(utxo0, spent0, tx, h, Spends(done));
    if tx.IsCoinbase() {
      spent := spent0;
    } else {
      spent := ScanInputs(spent0, tx.vin, Spends(done));
    }
    ScannedInFront(utxo0, utxo, tx, h, done);
    FoldFront(Entry(tx, h), done);
    assert Spends(done) + InsOf(tx) == InsOf(tx) + Spends(done);
    if tx.IsCoinbase() {
      assert Spends(done) == InsOf(tx) + Spends(done);
    }
  }

  lemma {:induction false} ScannedInFront(utxo0: Table, utxo: Table, tx: Tx, h: Hash, done: seq<Entry>)
    requires Represents(utxo0, Fold(map[], done)) && !HasTx(done, tx.id)
    requires forall x | x != tx.id :: ListAt(utxo, x) == ListAt(utxo0, x)
    requires ListOk(ListAt(utxo, tx.id), tx.id, OutsOf(tx, h) - Spends(done))
    ensures Represents(utxo, Fold(map[], [Entry(tx, h)] + done))
  {
    FoldFront(Entry(tx, h), done);
    var old_, new_, live := Fold(map[], done), Fold(map[], [Entry(tx, h)] + done), OutsOf(tx, h) - Spends(done);
    NewOnly(live, old_, tx, done);
    ListFrame(ListAt(utxo, tx.id), tx.id, live, new_);
    RepresentsFrame(utxo0, old_, utxo, new_, tx.id);
  }

  lemma {:induction false} NewOnly(live: Utxo, old_: Utxo, tx: Tx, done: seq<Entry>)
    requires old_ == Fold(map[], done) && !HasTx(done, tx.id)
    requires forall p | p in live :: p.txid == tx.id
    ensures AgreeOn(live, live + old_, tx.id)
    ensures forall x | x != tx.id :: AgreeOn(old_, live + old_, x)
  {
    forall v ensures OutPoint(tx.id, v) !in old_ {
      if OutPoint(tx.id, v) in old_ { FoldHasTx(done, OutPoint(tx.id, v)); }
    }
  }

  /** The scanned table has no list yet for transactions below. */
  ghost predicate NothingYet(utxo: Table, todo: seq<Entry>)
  {
    forall k | 0 <= k < |todo| :: ListAt(utxo, todo[k].tx.id) == []
  }

  /** One block of the scan, last transaction first. */
  method ScanBlock(utxo0: Table, spent0: map<TxId, seq<int>>, block: Block, ghost below: seq<Entry>,
      ghost done: seq<Entry>)
    returns (utxo: Table, spent: map<TxId, seq<int>>)
    requires UniqueIds(below + BlockEntries(block) + done)
    requires Represents(utxo0, Fold(map[], done)) && SpentOk(spent0, Spends(done))
    requires NothingYet(utxo0, below + BlockEntries(block))
    ensures Represents(utxo, Fold(map[], BlockEntries(block) + done))
    ensures SpentOk(spent, Spends(BlockEntries(block) + done))
    ensures NothingYet(utxo, below)
  {
    ghost var bs := BlockEntries(block);
    utxo, spent := utxo0, spent0;
    var j := |block.txs|;
    assert bs[j..] + done == done && below + bs[..j] == below + bs;
    while j > 0
      invariant 0 <= j <= |block.txs|
      invariant Represents(utxo, Fold(map[], bs[j..] + done)) && SpentOk(spent, Spends(bs[j..] + done))
      invariant NothingYet(utxo, below + bs[..j])
    {
      ghost var was := utxo;
      ScanOrder(below, bs, done, j - 1);
      assert (below + bs[..j])[|below| + j - 1] == bs[j - 1];
      utxo, spent := ScanTransaction(utxo, spent, block.txs[j - 1], block.hash, bs[j..] + done);
      StillNothing(was, utxo, below, bs, done, j - 1);
      j := j - 1;
    }
    assert bs[0..] == bs && below + bs[..0] == below;
  }

  lemma {:induction false} ScanOrder(below: seq<Entry>, bs: seq<Entry>, done: seq<Entry>, j: nat)
    requires UniqueIds(below + bs + done) && j < |bs|
    ensures !HasTx(bs[j + 1..] + done, bs[j].tx.id)
    ensures [bs[j]] + (bs[j + 1..] + done) == bs[j..] + done
    ensures forall k | 0 <= k < |below + bs[..j]| :: (below + bs[..j])[k].tx.id != bs[j].tx.id
  {
    var all := below + bs + done;
    var n := |below| + j;
    assert all[n] == bs[j];
    var after, before := bs[j + 1..] + done, below + bs[..j];
    forall k | 0 <= k < |after| ensures after[k].tx.id != bs[j].tx.id {
      assert after[k] == all[n + 1 + k];
    }
    forall k | 0 <= k < |before| ensures before[k].tx.id != bs[j].tx.id {
      assert before[k] == all[k];
    }
  }

  lemma {:induction false} StillNothing(was: Table, utxo: Table, below: seq<Entry>, bs: seq<Entry>, done: seq<Entry>,
      j: nat)
    requires UniqueIds(below + bs + done) && j < |bs|
    requires NothingYet(was, below + bs[..j + 1])
    requires forall x | x != bs[j].tx.id :: ListAt(utxo, x) == ListAt(was, x)
    ensures NothingYet(utxo, below + bs[..j])
  {
    ScanOrder(below, bs, done, j);
    forall k | 0 <= k < |below + bs[..j]| ensures ListAt(utxo, (below + bs[..j])[k].tx.id) == [] {
      assert (below + bs[..j])[k] == (below + bs[..j + 1])[k];
    }
  }

  /** FindunspentTransactions: the scan finds exactly the unspent outputs of the main chain. */
  method FindUnspentTransactions(db: DB) returns (utxo: Table)
    requires TreeOk(db.blocks) && db.topHash in db.blocks
    requires UniqueIds(EntriesUnder(db.blocks, db.topHash))
    ensures Represents(utxo, UtxoOf(Path(db.blocks, db.topHash)))
  {
    ghost var all := EntriesUnder(db.blocks, db.topHash);
    ghost var done := [];
    utxo := map[];
    var spent := map[];
    var cur := db.topHash;
    assert all + [] == all;
    while true
      invariant cur in db.blocks && EntriesUnder(db.blocks, cur) + done == all
      invariant Represents(utxo, Fold(map[], done)) && SpentOk(spent, Spends(done))
      invariant NothingYet(utxo, EntriesUnder(db.blocks, cur))
      decreases db.blocks[cur].height
    {
      var block := db.blocks[cur];
      ghost var below := EntriesBelow(db.blocks, cur);
      utxo, spent := ScanBlock(utxo, spent, block, below, done);
      assert below + (BlockEntries(block) + done) == below + BlockEntries(block) + done;
      done := BlockEntries(block) + done;
      if block.prev == NoHash {
        assert done == all;
        return;
      }
      cur := block.prev;
    }
  }

  /** Reindex: the table is rebuilt from the scan. */
  method Reindex(db: DB)
    requires TreeOk(db.blocks) && db.topHash in db.blocks
    requires UniqueIds(EntriesUnder(db.blocks, db.topHash))
    modifies db`unspent
    ensures Represents(db.unspent, UtxoOf(Path(db.blocks, db.topHash)))
  {
    var utxo := FindUnspentTransactions(db);
    db.unspent := utxo;
  }
}
