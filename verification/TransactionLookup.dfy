/** Lookups in the transaction index seen from a tip: the index spans all
    branches, the answers must be those of the one branch under the tip. */
module TransactionLookup {
  import opened Types
  import opened BlockTree
  import opened Database
  import opened BlockchainManager
  import opened BranchQueries
  import opened Ledger
  import opened TransactionIndex

  /** The index covers the stored blocks, and possibly blocks that are stored no more. */
  ghost predicate LookupOk(db: DB, indexed: Blocks)
    reads db`blocks, db`topHash, db`chain, db`txBlocks, db`txSpent
  {
    ListingOk(db, indexed) && IndexOk(indexed, db.txBlocks, db.txSpent)
  }

  /** No record is wrong, though some may be missing: as a dropped block can leave it. */
  ghost predicate SoundLookup(db: DB, indexed: Blocks)
    reads db`blocks, db`topHash, db`chain, db`txBlocks, db`txSpent
  {
    && ListingOk(db, indexed)
    && (forall id, r | Recorded(db.txSpent, id, r) :: r.block in indexed && UsedIn(indexed[r.block], id, r))
  }

  /** The part of it that finds transactions. */
  ghost predicate ListingOk(db: DB, indexed: Blocks)
    reads db`blocks, db`topHash, db`chain, db`txBlocks
  {
    && StoreOk(db)
    && NoHash !in indexed
    && (forall h | h in db.blocks :: h in indexed && indexed[h] == db.blocks[h])
    && ListsBlocks(indexed, db.txBlocks)
  }

  // ----- entries of a path and the blocks they come from

  lemma {:induction false} EntryInBlock(p: seq<Block>, k: nat) returns (i: nat, t: nat)
    requires k < |PathEntries(p)|
    ensures i < |p| && t < |p[i].txs| && PathEntries(p)[k] == Entry(p[i].txs[t], p[i].hash)
  {
    var init := p[..|p| - 1];
    if k < |PathEntries(init)| {
      i, t := EntryInBlock(init, k);
    } else {
      i, t := |p| - 1, k - |PathEntries(init)|;
    }
  }

  lemma {:induction false} BlockInEntries(p: seq<Block>, i: nat, t: nat) returns (k: nat)
    requires i < |p| && t < |p[i].txs|
    ensures k < |PathEntries(p)| && PathEntries(p)[k] == Entry(p[i].txs[t], p[i].hash)
  {
    var init := p[..|p| - 1];
    if i < |p| - 1 {
      k := BlockInEntries(init, i, t);
    } else {
      k := |PathEntries(init)| + t;
    }
  }

  lemma {:induction false} EntriesPrefix(p: seq<Block>, m: nat)
    requires m <= |p|
    ensures PathEntries(p[..m]) <= PathEntries(p)
  {
    if m == |p| {
      assert p[..m] == p;
    } else {
      EntriesPrefix(p[..|p| - 1], m);
      assert p[..|p| - 1][..m] == p[..m];
    }
  }

  ghost function EntriesUnder(blocks: Blocks, tip: Hash): seq<Entry>
    requires TreeOk(blocks) && tip in blocks
  {
    PathEntries(Path(blocks, tip))
  }

  /** The entries of a block's ancestors. */
  ghost function EntriesBelow(blocks: Blocks, h: Hash): (es: seq<Entry>)
    requires TreeOk(blocks) && h in blocks
    ensures EntriesUnder(blocks, h) == es + BlockEntries(blocks[h])
    ensures blocks[h].prev == NoHash ==> es == []
    ensures blocks[h].prev != NoHash ==>
      && blocks[h].prev in blocks && es == EntriesUnder(blocks, blocks[h].prev)
      && blocks[blocks[h].prev].height < blocks[h].height
  {
    assert LinkOk(blocks, h);
    var p := Path(blocks, h);
    assert blocks[h].prev != NoHash ==> p[..|p| - 1] == Path(blocks, blocks[h].prev);
    PathEntries(p[..|p| - 1])
  }

  lemma {:induction false} TxUnderTip(blocks: Blocks, tip: Hash, id: TxId)
    requires TreeOk(blocks) && tip in blocks
    ensures HasTx(EntriesUnder(blocks, tip), id) <==> exists h | OnPath(blocks, h, tip) :: Contains(blocks[h], id)
  {
    var p := Path(blocks, tip);
    if HasTx(EntriesUnder(blocks, tip), id) {
      var k :| 0 <= k < |PathEntries(p)| && PathEntries(p)[k].tx.id == id;
      var i, t := EntryInBlock(p, k);
      PathAt(blocks, tip, i);
      assert OnPath(blocks, p[i].hash, tip) && Contains(p[i], id);
    }
    if h :| OnPath(blocks, h, tip) && Contains(blocks[h], id) {
      var t :| 0 <= t < |blocks[h].txs| && blocks[h].txs[t].id == id;
      var k := BlockInEntries(p, blocks[h].height, t);
      assert EntriesUnder(blocks, tip)[k].tx.id == id;
    }
  }

  /** The filter by range keeps a record of every spending on the branch: an
      output is never spent below the block that holds it. */
  lemma {:induction false} SpenderAbove(blocks: Blocks, tip: Hash, k: nat, v: int) returns (r: SpentRec)
    requires TreeOk(blocks) && tip in blocks
    requires Live(EntriesUnder(blocks, tip)) && k < |EntriesUnder(blocks, tip)|
    requires OutPoint(EntriesUnder(blocks, tip)[k].tx.id, v) in Spends(EntriesUnder(blocks, tip))
    requires OnPath(blocks, EntriesUnder(blocks, tip)[k].block, tip)
    ensures r.out == v && OnPath(blocks, r.block, tip) && UsedIn(blocks[r.block], EntriesUnder(blocks, tip)[k].tx.id, r)
    ensures blocks[r.block].height >= blocks[EntriesUnder(blocks, tip)[k].block].height
  {
    var p, es := Path(blocks, tip), EntriesUnder(blocks, tip);
    var o := OutPoint(es[k].tx.id, v);
    var j := SpenderOf(es, o);
    var i, t := EntryInBlock(p, j);
    PathAt(blocks, tip, i);
    var tx := p[i].txs[t];
    var n :| 0 <= n < |tx.vin| && tx.vin[n] == o;
    r := SpentRec(v, tx.id, n, p[i].hash);
    assert UsedBy(tx, p[i].hash, o.txid, r);
    SpentAbove(blocks, tip, k, i, t, o);
  }

  /** The creating entry lies at or below the spending block. */
  lemma {:induction false} CreatedBelow(p: seq<Block>, k: nat, i: nat, t: nat, o: OutPoint)
    requires Live(PathEntries(p)) && k < |PathEntries(p)| && PathEntries(p)[k].tx.id == o.txid
    requires i < |p| && t < |p[i].txs| && o in InsOf(p[i].txs[t])
    ensures k < |PathEntries(p[..i + 1])| && PathEntries(p[..i + 1])[k] == PathEntries(p)[k]
  {
    var es := PathEntries(p);
    EntriesPrefix(p, i + 1);
    var pre := PathEntries(p[..i + 1]);
    var j := BlockInEntries(p[..i + 1], i, t);
    LiveAt(es, j);
    FoldHasTx(es[..j], o);
    var s :| 0 <= s < j && es[..j][s].tx.id == o.txid;
    if s < k { LiveIds(es, s, k); }
    if k < s { LiveIds(es, k, s); }
    assert s == k;
  }

  /** So does a record that is there: the spending block is not below the holder. */
  lemma {:induction false} RecordAbove(blocks: Blocks, tip: Hash, k: nat, r: SpentRec)
    requires TreeOk(blocks) && tip in blocks
    requires Live(EntriesUnder(blocks, tip)) && k < |EntriesUnder(blocks, tip)|
    requires OnPath(blocks, EntriesUnder(blocks, tip)[k].block, tip)
    requires OnPath(blocks, r.block, tip) && UsedIn(blocks[r.block], EntriesUnder(blocks, tip)[k].tx.id, r)
    ensures blocks[r.block].height >= blocks[EntriesUnder(blocks, tip)[k].block].height
  {
    var b, id := blocks[r.block], EntriesUnder(blocks, tip)[k].tx.id;
    var t :| 0 <= t < |b.txs| && UsedBy(b.txs[t], b.hash, id, r);
    assert OutPoint(id, r.out) in InsOf(b.txs[t]);
    SpentAbove(blocks, tip, k, b.height, t, OutPoint(id, r.out));
  }

  lemma {:induction false} SpentAbove(blocks: Blocks, tip: Hash, k: nat, i: nat, t: nat, o: OutPoint)
    requires TreeOk(blocks) && tip in blocks && Live(EntriesUnder(blocks, tip)) && k < |EntriesUnder(blocks, tip)|
    requires EntriesUnder(blocks, tip)[k].tx.id == o.txid && i <= blocks[tip].height
    requires t < |Path(blocks, tip)[i].txs| && o in InsOf(Path(blocks, tip)[i].txs[t])
    ensures EntriesUnder(blocks, tip)[k].block in blocks && blocks[EntriesUnder(blocks, tip)[k].block].height <= i
  {
    CreatedBelow(Path(blocks, tip), k, i, t, o);
    HolderBelow(blocks, tip, k, i);
  }

  /** An entry among those of the first blocks of a path is held by one of them. */
  lemma {:induction false} HolderBelow(blocks: Blocks, tip: Hash, k: nat, i: nat)
    requires TreeOk(blocks) && tip in blocks && k < |EntriesUnder(blocks, tip)| && i <= blocks[tip].height
    requires k < |PathEntries(Path(blocks, tip)[..i + 1])|
    requires PathEntries(Path(blocks, tip)[..i + 1])[k] == EntriesUnder(blocks, tip)[k]
    ensures EntriesUnder(blocks, tip)[k].block in blocks && blocks[EntriesUnder(blocks, tip)[k].block].height <= i
  {
    var n, t := EntryInBlock(Path(blocks, tip)[..i + 1], k);
    PathAt(blocks, tip, n);
  }

  lemma {:induction false} RecordIsSpending(blocks: Blocks, tip: Hash, id: TxId, r: SpentRec)
    requires TreeOk(blocks) && tip in blocks && OnPath(blocks, r.block, tip) && UsedIn(blocks[r.block], id, r)
    ensures OutPoint(id, r.out) in Spends(EntriesUnder(blocks, tip))
  {
    var b := blocks[r.block];
    var t :| 0 <= t < |b.txs| && UsedBy(b.txs[t], b.hash, id, r);
    var k := BlockInEntries(Path(blocks, tip), b.height, t);
    SpendsAt(EntriesUnder(blocks, tip), k);
  }

  // ----- lookups

  /** `h` lies on the path from `tip` down to `bottom`. */
  ghost predicate InRange(blocks: Blocks, h: Hash, bottom: Hash, tip: Hash)
    requires TreeOk(blocks) && tip in blocks && bottom in blocks
  {
    OnPath(blocks, h, tip) && blocks[h].height >= blocks[bottom].height
  }

  ghost predicate HasRecord(db: DB, p: OutPoint, tip: Hash)
    reads db`blocks, db`txSpent
    requires TreeOk(db.blocks) && tip in db.blocks
  {
    exists r :: Recorded(db.txSpent, p.txid, r) && r.out == p.vout && OnPath(db.blocks, r.block, tip)
  }

  /** The outputs spent on a branch whose spending is recorded. */
  ghost function KnownSpent(db: DB, tip: Hash): set<OutPoint>
    reads db`blocks, db`txSpent
    requires TreeOk(db.blocks) && tip in db.blocks
  {
    set p | p in Spends(EntriesUnder(db.blocks, tip)) && HasRecord(db, p, tip)
  }

  /** With a right index these are all. */
  lemma {:induction false} KnownIsSpends(db: DB, tip: Hash, indexed: Blocks)
    requires LookupOk(db, indexed) && tip in db.blocks && Live(EntriesUnder(db.blocks, tip))
    ensures SoundLookup(db, indexed) && KnownSpent(db, tip) == Spends(EntriesUnder(db.blocks, tip))
  {
    var es := EntriesUnder(db.blocks, tip);
    forall p | p in Spends(es) ensures HasRecord(db, p, tip) {
      assert OutPoint(p.txid, p.vout) == p;
      var i := SpenderOf(es, p);
      LiveAt(es, i);
      FoldHasTx(es[..i], p);
      var k :| 0 <= k < i && es[..i][k].tx.id == p.txid;
      EntryOnPath(db.blocks, tip, k);
      var r := SpenderAbove(db.blocks, tip, k, p.vout);
      assert Recorded(db.txSpent, p.txid, r);
    }
  }

  lemma {:induction false} EntryOnPath(blocks: Blocks, tip: Hash, k: nat)
    requires TreeOk(blocks) && tip in blocks && k < |EntriesUnder(blocks, tip)|
    ensures OnPath(blocks, EntriesUnder(blocks, tip)[k].block, tip)
  {
    var i, t := EntryInBlock(Path(blocks, tip), k);
    PathAt(blocks, tip, i);
  }

  /** GetTranactionOutputsSpent: the recorded uses that lie between the holding
      block and the tip. */
  method GetTransactionOutputsSpent(db: DB, id: TxId, holder: Hash, tip: Hash, ghost indexed: Blocks)
    returns (res: seq<SpentRec>)
    requires SoundLookup(db, indexed)
    requires TipOf(db, tip) in db.blocks && OnPath(db.blocks, holder, TipOf(db, tip))
    ensures forall r :: r in res <==> Recorded(db.txSpent, id, r) && InRange(db.blocks, r.block, holder, TipOf(db, tip))
  {
    res := [];
    if id !in db.txSpent {
      return;
    }
    var outs := db.txSpent[id];
    for i := 0 to |outs|
      invariant forall r :: r in res <==> r in outs[..i] && InRange(db.blocks, r.block, holder, TipOf(db, tip))
    {
      assert Recorded(db.txSpent, id, outs[i]);
      var present := CheckBlockIsInRange(db, outs[i].block, holder, tip);
      if present == Ok(true) {
        res := res + [outs[i]];
      }
    }
    assert outs[..|outs|] == outs;
  }

  /** The answer about a transaction under a tip, in terms of the branch. */
  ghost predicate InfoOf(blocks: Blocks, tip: Hash, id: TxId, tx: Tx, holder: Hash, spending: seq<SpentRec>,
      spent: set<OutPoint>)
    requires TreeOk(blocks) && tip in blocks
  {
    && tx.id == id
    && (exists k | 0 <= k < |EntriesUnder(blocks, tip)| :: EntriesUnder(blocks, tip)[k] == Entry(tx, holder))
    && forall v :: (exists r | r in spending :: r.out == v) <==> OutPoint(id, v) in spent
  }

  /** Is an output among the uses? */
  method HasOut(spending: seq<SpentRec>, v: int) returns (b: bool)
    ensures b <==> exists r | r in spending :: r.out == v
  {
    for k := 0 to |spending|
      invariant forall j | 0 <= j < k :: spending[j].out != v
    {
      if spending[k].out == v {
        assert spending[k] in spending;
        return true;
      }
    }
    return false;
  }

  /** GetTransactionFromBlock. */
  method GetTransactionFromBlock(db: DB, id: TxId, h: Hash) returns (r: Result<Tx>)
    requires h in db.blocks && Contains(db.blocks[h], id)
    ensures r.Ok? && r.value.id == id && r.value in db.blocks[h].txs
  {
    var txs := db.blocks[h].txs;
    for i := 0 to |txs|
      invariant forall k | 0 <= k < i :: txs[k].id != id
    {
      if txs[i].id == id {
        return Ok(txs[i]);
      }
    }
    return Err(BlockNotFound);
  }

  method BlocksOf(db: DB, id: TxId) returns (hashes: seq<Hash>)
    ensures forall h :: h in hashes <==> Listed(db.txBlocks, id, h)
  {
    hashes := if id in db.txBlocks then db.txBlocks[id] else [];
  }

  /** ChooseHashUnderTip over the blocks of a transaction. */
  method HolderUnderTip(db: DB, id: TxId, tip: Hash, ghost indexed: Blocks) returns (holder: Option<Hash>)
    requires ListingOk(db, indexed) && TipOf(db, tip) in db.blocks
    ensures holder == None <==> !HasTx(EntriesUnder(db.blocks, TipOf(db, tip)), id)
    ensures holder != None ==> OnPath(db.blocks, holder.value, TipOf(db, tip)) && Contains(db.blocks[holder.value], id)
  {
    var hashes := BlocksOf(db, id);
    assert NoHash !in hashes;
    var r := ChooseHashUnderTip(db, hashes, tip);
    holder := r.value;
    TxUnderTip(db.blocks, TipOf(db, tip), id);
    assert forall h | OnPath(db.blocks, h, TipOf(db, tip)) && Contains(db.blocks[h], id) :: h in hashes;
  }

  /** GetCurrencyTransactionAllInfo: the transaction, its recorded uses and its block
      as seen from the tip; nothing exactly when the branch does not hold it. */
  method GetTransactionAllInfo(db: DB, id: TxId, tip: Hash, ghost indexed: Blocks)
    returns (found: Option<(Tx, seq<SpentRec>, Hash)>)
    requires SoundLookup(db, indexed) && TipOf(db, tip) in db.blocks
    requires Live(EntriesUnder(db.blocks, TipOf(db, tip)))
    ensures found == None <==> !HasTx(EntriesUnder(db.blocks, TipOf(db, tip)), id)
    ensures found != None ==>
      var (tx, spending, holder) := found.value;
      InfoOf(db.blocks, TipOf(db, tip), id, tx, holder, spending, KnownSpent(db, TipOf(db, tip)))
  {
    var holder := HolderUnderTip(db, id, tip, indexed);
    if holder == None {
      return None;
    }
    var spending := GetTransactionOutputsSpent(db, id, holder.value, tip, indexed);
    var tx := GetTransactionFromBlock(db, id, holder.value);
    AnswerIsInfo(db, id, TipOf(db, tip), indexed, tx.value, holder.value, spending);
    return Some((tx.value, spending, holder.value));
  }

  lemma {:induction false} AnswerIsInfo(db: DB, id: TxId, tip: Hash, indexed: Blocks, tx: Tx, holder: Hash,
      spending: seq<SpentRec>)
    requires SoundLookup(db, indexed) && tip in db.blocks && Live(EntriesUnder(db.blocks, tip))
    requires OnPath(db.blocks, holder, tip) && tx in db.blocks[holder].txs && tx.id == id
    requires forall r :: r in spending <==> Recorded(db.txSpent, id, r) && InRange(db.blocks, r.block, holder, tip)
    ensures InfoOf(db.blocks, tip, id, tx, holder, spending, KnownSpent(db, tip))
  {
    var es := EntriesUnder(db.blocks, tip);
    var t :| 0 <= t < |db.blocks[holder].txs| && db.blocks[holder].txs[t] == tx;
    assert LinkOk(db.blocks, holder);
    var k := BlockInEntries(Path(db.blocks, tip), db.blocks[holder].height, t);
    forall v ensures (exists r | r in spending :: r.out == v) <==> OutPoint(id, v) in KnownSpent(db, tip) {
      if r :| r in spending && r.out == v {
        RecordIsSpending(db.blocks, tip, id, r);
        assert HasRecord(db, OutPoint(id, v), tip);
      }
      if OutPoint(id, v) in KnownSpent(db, tip) {
        var r :| Recorded(db.txSpent, id, r) && r.out == v && OnPath(db.blocks, r.block, tip);
        RecordAbove(db.blocks, tip, k, r);
        assert r in spending;
      }
    }
  }
}
