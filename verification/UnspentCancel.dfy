/** UpdateOnBlockCancel: taking a block's effect back from the table of unspent
    outputs with the help of the transaction index, seen from the parent. */
module UnspentCancel {
  import opened Types
  import opened BlockTree
  import opened Database
  import opened Ledger
  import opened TransactionIndex
  import opened TransactionLookup
  import opened UnspentOutputs
  import opened Verifier

  /** The state in which a block is cancelled: its parent is stored, the index
      can be asked about the parent, and the block was in order on its branch. */
  ghost predicate CancelReady(db: DB, block: Block, indexed: Blocks)
    reads db`blocks, db`topHash, db`chain, db`txBlocks, db`txSpent
  {
    && LookupOk(db, indexed)
    && block.prev in db.blocks && block.prev != NoHash
    && Live(EntriesUnder(db.blocks, block.prev) + BlockEntries(block))
  }

  ghost function ParentEntries(db: DB, block: Block): seq<Entry>
    reads db`blocks
    requires TreeOk(db.blocks) && block.prev in db.blocks
  {
    EntriesUnder(db.blocks, block.prev)
  }

  /** Everything of a transaction that is unspent under a tip. */
  method UnspentUnder(tx: Tx, holder: Hash, spending: seq<SpentRec>, ghost blocks: Blocks, ghost tip: Hash)
    returns (outs: seq<UnspentOut>)
    requires TreeOk(blocks) && tip in blocks && Live(EntriesUnder(blocks, tip))
    requires InfoOf(blocks, tip, tx.id, tx, holder, spending, Spends(EntriesUnder(blocks, tip)))
    ensures ListOk(outs, tx.id, Fold(map[], EntriesUnder(blocks, tip)))
  {
    outs := [];
    ghost var m := Fold(map[], EntriesUnder(blocks, tip));
    for i := 0 to |tx.vout|
      invariant ScannedTo(outs, tx, m, i)
    {
      var out := tx.vout[i];
      var spent := HasOut(spending, i);
      InfoUnspent(blocks, tip, tx, holder, spending, i);
      var no := UnspentOut(tx.id, i, out.owner, out.value, holder);
      if out.owner != NoKey && !spent {
        ScanNext(outs, tx, m, i, no);
        outs := outs + [no];
      } else {
        ScanSkip(outs, tx, m, i);
      }
    }
    forall v | OutPoint(tx.id, v) in m ensures HasIndex(outs, v) {
      InfoUnspent(blocks, tip, tx, holder, spending, v);
    }
  }

  lemma {:induction false} InfoUnspent(blocks: Blocks, tip: Hash, tx: Tx, holder: Hash, spending: seq<SpentRec>, v: int)
    requires TreeOk(blocks) && tip in blocks && Live(EntriesUnder(blocks, tip))
    requires InfoOf(blocks, tip, tx.id, tx, holder, spending, Spends(EntriesUnder(blocks, tip)))
    ensures var m := Fold(map[], EntriesUnder(blocks, tip));
      && (OutPoint(tx.id, v) in m <==>
            0 <= v < |tx.vout| && tx.vout[v].owner != NoKey && !exists r | r in spending :: r.out == v)
      && (OutPoint(tx.id, v) in m ==> m[OutPoint(tx.id, v)] == Coin(tx.vout[v].owner, tx.vout[v].value, holder))
  {
    var es := EntriesUnder(blocks, tip);
    var k :| 0 <= k < |es| && es[k] == Entry(tx, holder);
    UnspentIff(es, k, v);
  }

  /** One input of UpdateOnBlockCancel: when its transaction lies under the
      parent, that transaction's list becomes what is unspent there. */
  method RestoreInput(db: DB, block: Block, vin: OutPoint, ghost indexed: Blocks) returns (found: bool)
    requires CancelReady(db, block, indexed)
    modifies db`unspent
    ensures found <==> HasTx(ParentEntries(db, block), vin.txid)
    ensures !found ==> db.unspent == old(db.unspent)
    ensures found ==> ListOk(ListAt(db.unspent, vin.txid), vin.txid, Fold(map[], ParentEntries(db, block)))
    ensures found ==> forall x | x != vin.txid :: ListAt(db.unspent, x) == ListAt(old(db.unspent), x)
  {
    LivePrefix(ParentEntries(db, block), BlockEntries(block));
    KnownIsSpends(db, block.prev, indexed);
    var info := GetTransactionAllInfo(db, vin.txid, block.prev, indexed);
    if info == None {
      return false;
    }
    var (txi, spending, holder) := info.value;
    var outs := UnspentUnder(txi, holder, spending, db.blocks, block.prev);
    if |outs| > 0 {
      db.unspent := db.unspent[vin.txid := outs];
    } else {
      db.unspent := db.unspent - {vin.txid};
    }
    return true;
  }

  // ----- which lists are rebuilt

  /** The inputs of `vin` before the first one whose transaction is in the block itself. */
  ghost function Visited(block: Block, vin: seq<OutPoint>): seq<OutPoint>
  {
    if vin == [] || Contains(block, vin[0].txid) then [] else [vin[0]] + Visited(block, vin[1..])
  }

  ghost predicate NamesTx(vin: seq<OutPoint>, id: TxId)
  {
    exists n | 0 <= n < |vin| :: vin[n].txid == id
  }

  /** Some input naming `id` is handled before the loop over its transaction's
      inputs is left early. */
  ghost predicate Reached(block: Block, id: TxId)
  {
    exists t | 0 <= t < |block.txs| :: !block.txs[t].IsCoinbase() && NamesTx(Visited(block, block.txs[t].vin), id)
  }

  ghost predicate Named(block: Block, id: TxId)
  {
    exists t | 0 <= t < |block.txs| :: !block.txs[t].IsCoinbase() && NamesTx(block.txs[t].vin, id)
  }

  /** The exact condition under which cancelling restores the parent's outputs:
      every earlier transaction that the block spends is reached. It holds, for
      one, when in every transaction the inputs from the block itself come last. */
  ghost predicate AllReached(block: Block)
  {
    forall id | Named(block, id) && !Contains(block, id) :: Reached(block, id)
  }

  /** The list of `id` after part of the loop: gone, restored, or not touched. */
  ghost predicate ListState(list: seq<UnspentOut>, id: TxId, gone: bool, reached: bool, after: Utxo, before: Utxo)
  {
    ListOk(list, id, if gone then map[] else if reached then before else after)
  }

  ghost predicate TableState(t: Table, part: Block, whole: Block, after: Utxo, before: Utxo)
  {
    forall id :: ListState(ListAt(t, id), id, Contains(part, id), ReachedIn(part, whole, id), after, before)
  }

  ghost predicate ReachedIn(part: Block, whole: Block, id: TxId)
  {
    exists t | 0 <= t < |part.txs| :: !part.txs[t].IsCoinbase() && NamesTx(Visited(whole, part.txs[t].vin), id)
  }

  lemma {:induction false} VisitedOutside(block: Block, vin: seq<OutPoint>, id: TxId)
    requires NamesTx(Visited(block, vin), id)
    ensures !Contains(block, id) && NamesTx(vin, id)
  {
    var n :| 0 <= n < |Visited(block, vin)| && Visited(block, vin)[n].txid == id;
    if n == 0 {
      assert vin[0].txid == id;
    } else {
      assert Visited(block, vin[1..])[n - 1].txid == id;
      VisitedOutside(block, vin[1..], id);
      var k :| 0 <= k < |vin[1..]| && vin[1..][k].txid == id;
      assert vin[k + 1].txid == id;
    }
  }

  /** The loop over the inputs of one transaction, left at the first input that
      is not found under the parent. */
  method RestoreInputs(db: DB, block: Block, vin: seq<OutPoint>, ghost indexed: Blocks)
    requires CancelReady(db, block, indexed)
    requires forall p | p in vin :: HasTx(ParentEntries(db, block), p.txid) <==> !Contains(block, p.txid)
    modifies db`unspent
    ensures AllRestoredIn(db.unspent, old(db.unspent), Visited(block, vin), Fold(map[], ParentEntries(db, block)))
  {
    ghost var t, m := db.unspent, Fold(map[], ParentEntries(db, block));
    for i := 0 to |vin|
      invariant Visited(block, vin) == vin[..i] + Visited(block, vin[i..])
      invariant AllRestoredIn(db.unspent, t, vin[..i], m)
    {
      assert vin[i] in vin;
      VisitedNext(block, vin, i);
      ghost var was := db.unspent;
      var found := RestoreInput(db, block, vin[i], indexed);
      if !found {
        return;
      }
      RestoredNext(db.unspent, was, t, vin[..i], vin[i], m);
    }
    assert vin[..|vin|] + [] == vin[..|vin|] && vin[|vin|..] == [];
  }

  lemma {:induction false} RestoredNext(u: Table, was: Table, t: Table, names: seq<OutPoint>, p: OutPoint, before: Utxo)
    requires AllRestoredIn(was, t, names, before)
    requires ListOk(ListAt(u, p.txid), p.txid, before) && forall x | x != p.txid :: ListAt(u, x) == ListAt(was, x)
    ensures AllRestoredIn(u, t, names + [p], before)
  {
    var more := names + [p];
    forall id ensures RestoredIn(u, t, more, id, before) {
      assert RestoredIn(was, t, names, id, before);
      NamesSnoc(names, p, id);
    }
  }

  /** Lists named by the inputs are those of the parent, others are not touched. */
  ghost predicate RestoredIn(u: Table, t: Table, names: seq<OutPoint>, id: TxId, before: Utxo)
  {
    if NamesTx(names, id) then ListOk(ListAt(u, id), id, before) else ListAt(u, id) == ListAt(t, id)
  }

  ghost predicate AllRestoredIn(u: Table, t: Table, names: seq<OutPoint>, before: Utxo)
  {
    forall id :: RestoredIn(u, t, names, id, before)
  }

  lemma {:induction false} VisitedNext(block: Block, vin: seq<OutPoint>, i: nat)
    requires i < |vin| && Visited(block, vin) == vin[..i] + Visited(block, vin[i..])
    ensures Contains(block, vin[i].txid) ==> Visited(block, vin) == vin[..i]
    ensures vin[..i] + [vin[i]] == vin[..i + 1]
    ensures !Contains(block, vin[i].txid) ==> Visited(block, vin) == vin[..i + 1] + Visited(block, vin[i + 1..])
  {
    assert vin[i..][1..] == vin[i + 1..];
    assert vin[..i] + [] == vin[..i];
    assert vin[..i] + ([vin[i]] + Visited(block, vin[i + 1..])) == vin[..i + 1] + Visited(block, vin[i + 1..]);
  }

  lemma {:induction false} NamesSnoc(names: seq<OutPoint>, p: OutPoint, id: TxId)
    ensures NamesTx(names + [p], id) <==> NamesTx(names, id) || p.txid == id
  {
    var more := names + [p];
    if NamesTx(names, id) {
      var n :| 0 <= n < |names| && names[n].txid == id;
      assert more[n].txid == id;
    }
    if p.txid == id {
      assert more[|names|].txid == id;
    }
  }

  lemma {:induction false} NamesCons(p: OutPoint, rest: seq<OutPoint>, id: TxId)
    ensures NamesTx([p] + rest, id) <==> p.txid == id || NamesTx(rest, id)
  {
    if p.txid == id {
      assert ([p] + rest)[0].txid == id;
    }
    if NamesTx(rest, id) {
      var n :| 0 <= n < |rest| && rest[n].txid == id;
      assert ([p] + rest)[n + 1].txid == id;
    }
  }

  /** The inputs of the block: under the parent exactly when not from the block itself. */
  lemma {:induction false} InputUnderParent(es: seq<Entry>, block: Block, t: nat, p: OutPoint)
    requires Live(es + BlockEntries(block)) && t < |block.txs|
    requires !block.txs[t].IsCoinbase() && p in block.txs[t].vin
    ensures HasTx(es, p.txid) <==> !Contains(block, p.txid)
  {
    FollowsAt(es, BlockEntries(block), t);
    NotInBoth(es, block, p.txid);
    FoldHasTx(Upto(es, block, t), p);
    var s :| 0 <= s < |es| + t && Upto(es, block, t)[s].tx.id == p.txid;
    UptoAt(es, block, t, s);
    assert s < |es| ==> es[s].tx.id == p.txid;
    assert s >= |es| ==> block.txs[s - |es|].id == p.txid;
  }

  lemma {:induction false} InputsUnderParent(es: seq<Entry>, block: Block, t: nat)
    requires Live(es + BlockEntries(block)) && t < |block.txs| && !block.txs[t].IsCoinbase()
    ensures forall p | p in block.txs[t].vin :: HasTx(es, p.txid) <==> !Contains(block, p.txid)
  {
    forall p | p in block.txs[t].vin ensures HasTx(es, p.txid) <==> !Contains(block, p.txid) {
      InputUnderParent(es, block, t, p);
    }
  }

  lemma {:induction false} NotInBoth(es: seq<Entry>, block: Block, id: TxId)
    requires Live(es + BlockEntries(block))
    ensures !(HasTx(es, id) && Contains(block, id))
  {
    if HasTx(es, id) && Contains(block, id) {
      var s :| 0 <= s < |es| && es[s].tx.id == id;
      var u :| 0 <= u < |block.txs| && block.txs[u].id == id;
      LiveIds(es + BlockEntries(block), s, |es| + u);
    }
  }

  /** UpdateOnBlockCancel: outputs of the block's transactions are dropped, lists
      that are reached are those of the parent, all others stay. */
  method UpdateOnBlockCancel(db: DB, block: Block, ghost indexed: Blocks)
    requires CancelReady(db, block, indexed)
    modifies db`unspent
    ensures var es := ParentEntries(db, block);
      Represents(old(db.unspent), Fold(map[], es + BlockEntries(block))) ==>
        TableState(db.unspent, block, block, Fold(map[], es + BlockEntries(block)), Fold(map[], es))
  {
    ghost var es := ParentEntries(db, block);
    ghost var after, before := Fold(map[], es + BlockEntries(block)), Fold(map[], es);
    ghost var right := Represents(db.unspent, after);
    if right {
      NothingDone(db.unspent, block, after, before);
    }
    for i := 0 to |block.txs|
      invariant right ==> StateUpto(db.unspent, block, i, after, before)
    {
      ghost var t := db.unspent;
      CancelOne(db, block, i, indexed);
      if right {
        TxCancelled(t, t - {block.txs[i].id}, db.unspent, block, i, after, before);
      }
    }
    if right {
      AllDone(db.unspent, block, after, before);
    }
  }

  /** The table after the first transactions were cancelled. */
  ghost predicate StateUpto(t: Table, block: Block, i: nat, after: Utxo, before: Utxo)
    requires i <= |block.txs|
  {
    TableState(t, block.(txs := block.txs[..i]), block, after, before)
  }

  lemma {:induction false} AllDone(t: Table, block: Block, after: Utxo, before: Utxo)
    requires StateUpto(t, block, |block.txs|, after, before)
    ensures TableState(t, block, block, after, before)
  {
    assert block.(txs := block.txs[..|block.txs|]) == block;
  }

  /** One transaction: its list goes, and those of its inputs are restored. */
  method CancelOne(db: DB, block: Block, i: nat, ghost indexed: Blocks)
    requires CancelReady(db, block, indexed) && i < |block.txs|
    modifies db`unspent
    ensures var tx, t := block.txs[i], old(db.unspent) - {block.txs[i].id};
      if tx.IsCoinbase() then db.unspent == t
      else AllRestoredIn(db.unspent, t, Visited(block, tx.vin), Fold(map[], ParentEntries(db, block)))
  {
    var tx := block.txs[i];
    db.unspent := db.unspent - {tx.id};
    if !tx.IsCoinbase() {
      InputsUnderParent(ParentEntries(db, block), block, i);
      RestoreInputs(db, block, tx.vin, indexed);
    }
  }

  lemma {:induction false} NothingDone(t: Table, block: Block, after: Utxo, before: Utxo)
    requires Represents(t, after)
    ensures StateUpto(t, block, 0, after, before)
  {
    forall id ensures ListState(ListAt(t, id), id, false, false, after, before) {
      assert ListOk(ListAt(t, id), id, after);
    }
  }

  lemma {:induction false} TxCancelled(t: Table, mid: Table, u: Table, block: Block, i: nat, after: Utxo, before: Utxo)
    requires i < |block.txs| && StateUpto(t, block, i, after, before)
    requires mid == t - {block.txs[i].id}
    requires block.txs[i].IsCoinbase() ==> u == mid
    requires !block.txs[i].IsCoinbase() ==> AllRestoredIn(u, mid, Visited(block, block.txs[i].vin), before)
    ensures StateUpto(u, block, i + 1, after, before)
  {
    var tx := block.txs[i];
    var part, more := block.(txs := block.txs[..i]), block.(txs := block.txs[..i + 1]);
    OneMoreTx(block, i);
    forall id ensures ListState(ListAt(u, id), id, Contains(more, id), ReachedIn(more, block, id), after, before) {
      assert ListState(ListAt(t, id), id, Contains(part, id), ReachedIn(part, block, id), after, before);
      assert !tx.IsCoinbase() ==> RestoredIn(u, mid, Visited(block, tx.vin), id, before);
      ReachedGrows(block, i, id);
      if !tx.IsCoinbase() && NamesTx(Visited(block, tx.vin), id) {
        VisitedOutside(block, tx.vin, id);
      } else if id != tx.id {
        assert ListAt(u, id) == ListAt(t, id);
      } else {
        assert ListAt(u, id) == [];
      }
    }
  }

  lemma {:induction false} ReachedGrows(block: Block, i: nat, id: TxId)
    requires i < |block.txs|
    ensures ReachedIn(block.(txs := block.txs[..i + 1]), block, id) <==>
      ReachedIn(block.(txs := block.txs[..i]), block, id) ||
      (!block.txs[i].IsCoinbase() && NamesTx(Visited(block, block.txs[i].vin), id))
    ensures Contains(block.(txs := block.txs[..i + 1]), id) ==> Contains(block, id)
  {
    var part, more := block.(txs := block.txs[..i]), block.(txs := block.txs[..i + 1]);
    assert more.txs[i] == block.txs[i];
    assert forall t | 0 <= t < i :: more.txs[t] == part.txs[t] == block.txs[t];
  }

  // ----- what the result means

  /** Cancelling a block undoes adding it exactly when every earlier transaction
      that the block spends is reached. */
  lemma {:induction false} CancelUndoesAddIff(t: Table, es: seq<Entry>, block: Block)
    requires Live(es + BlockEntries(block))
    requires TableState(t, block, block, Fold(map[], es + BlockEntries(block)), Fold(map[], es))
    ensures Represents(t, Fold(map[], es)) <==> AllReached(block)
  {
    if AllReached(block) {
      forall id ensures ListOk(ListAt(t, id), id, Fold(map[], es)) {
        RestoredList(t, es, block, id);
      }
    } else {
      var id :| Named(block, id) && !Contains(block, id) && !Reached(block, id);
      NotRestored(t, es, block, id);
    }
  }

  lemma {:induction false} RestoredList(t: Table, es: seq<Entry>, block: Block, id: TxId)
    requires Live(es + BlockEntries(block)) && AllReached(block)
    requires TableState(t, block, block, Fold(map[], es + BlockEntries(block)), Fold(map[], es))
    ensures ListOk(ListAt(t, id), id, Fold(map[], es))
  {
    var bs := BlockEntries(block);
    var after, before := Fold(map[], es + bs), Fold(map[], es);
    assert ListState(ListAt(t, id), id, Contains(block, id), ReachedIn(block, block, id), after, before);
    assert ReachedIn(block, block, id) <==> Reached(block, id);
    if Contains(block, id) {
      NotBefore(es, block, id);
      ListFrame(ListAt(t, id), id, map[], before);
    } else if !Reached(block, id) {
      Untouched(es, block, id);
      ListFrame(ListAt(t, id), id, after, before);
    }
  }

  lemma {:induction false} NotBefore(es: seq<Entry>, block: Block, id: TxId)
    requires Live(es + BlockEntries(block)) && Contains(block, id)
    ensures AgreeOn(map[], Fold(map[], es), id)
  {
    NotInBoth(es, block, id);
    forall v ensures OutPoint(id, v) !in Fold(map[], es) {
      if OutPoint(id, v) in Fold(map[], es) {
        FoldHasTx(es, OutPoint(id, v));
      }
    }
  }

  /** A block that neither holds nor names a transaction does not change its outputs. */
  lemma {:induction false} Untouched(es: seq<Entry>, block: Block, id: TxId)
    requires !Contains(block, id) && !Named(block, id)
    ensures AgreeOn(Fold(map[], es + BlockEntries(block)), Fold(map[], es), id)
  {
    var bs := BlockEntries(block);
    FoldConcat(map[], es, bs);
    FoldSplits(Fold(map[], es), bs);
    assert bs[..|bs|] == bs;
    forall v ensures OutPoint(id, v) !in Spends(bs) && OutPoint(id, v) !in Fold(map[], bs) {
      SpendsNamed(block, OutPoint(id, v));
      EntriesContain(block, |bs|, OutPoint(id, v));
    }
  }

  lemma {:induction false} SpendsNamed(block: Block, p: OutPoint)
    ensures p in Spends(BlockEntries(block)) ==> Named(block, p.txid)
  {
    if p in Spends(BlockEntries(block)) {
      var i := SpenderOf(BlockEntries(block), p);
      var n :| 0 <= n < |block.txs[i].vin| && block.txs[i].vin[n] == p;
      assert NamesTx(block.txs[i].vin, p.txid);
    }
  }

  lemma {:induction false} EntriesContain(block: Block, u: nat, p: OutPoint)
    requires u <= |block.txs|
    ensures p in Fold(map[], BlockEntries(block)[..u]) ==> Contains(block, p.txid)
  {
    var bs := BlockEntries(block)[..u];
    if p in Fold(map[], bs) {
      FoldHasTx(bs, p);
      var s :| 0 <= s < u && bs[s].tx.id == p.txid;
      assert block.txs[s].id == p.txid;
    }
  }

  /** An earlier output that the block spends stays lost when its list is not reached. */
  lemma {:induction false} NotRestored(t: Table, es: seq<Entry>, block: Block, id: TxId)
    requires Live(es + BlockEntries(block))
    requires Named(block, id) && !Contains(block, id) && !Reached(block, id)
    requires TableState(t, block, block, Fold(map[], es + BlockEntries(block)), Fold(map[], es))
    ensures !ListOk(ListAt(t, id), id, Fold(map[], es))
  {
    var after, before := Fold(map[], es + BlockEntries(block)), Fold(map[], es);
    var p := LostOutput(es, block, id);
    assert ListState(ListAt(t, id), id, Contains(block, id), ReachedIn(block, block, id), after, before);
    assert ReachedIn(block, block, id) <==> Reached(block, id);
    NotListed(ListAt(t, id), id, after, p.vout);
  }

  lemma {:induction false} NotListed(list: seq<UnspentOut>, id: TxId, m: Utxo, v: int)
    requires ListOk(list, id, m) && OutPoint(id, v) !in m
    ensures !HasIndex(list, v)
  {
    assert forall k | 0 <= k < |list| :: OutOk(list[k], id, m);
  }

  lemma {:induction false} LostOutput(es: seq<Entry>, block: Block, id: TxId) returns (p: OutPoint)
    requires Live(es + BlockEntries(block)) && Named(block, id) && !Contains(block, id)
    ensures p.txid == id && p in Fold(map[], es) && p !in Fold(map[], es + BlockEntries(block))
  {
    var bs := BlockEntries(block);
    var all := es + bs;
    var u :| 0 <= u < |block.txs| && !block.txs[u].IsCoinbase() && NamesTx(block.txs[u].vin, id);
    var n :| 0 <= n < |block.txs[u].vin| && block.txs[u].vin[n].txid == id;
    p := block.txs[u].vin[n];
    assert all[|es| + u] == bs[u];
    SpentFromParent(es, block, u, p);
    SpentStaysSpent(all, p, |es| + u, |all|);
    assert all[..|all|] == all;
  }

  lemma {:induction false} SpentFromParent(es: seq<Entry>, block: Block, u: nat, p: OutPoint)
    requires Live(es + BlockEntries(block)) && u < |block.txs| && p in InsOf(block.txs[u]) && !Contains(block, p.txid)
    ensures p in Fold(map[], es)
  {
    FollowsAt(es, BlockEntries(block), u);
    EntriesContain(block, u, p);
    FromFront(es, BlockEntries(block)[..u], p);
  }

  /** A sufficient condition that a miner can see: same-block inputs come last. */
  ghost predicate OwnInputsLast(block: Block)
  {
    forall t, a, b | 0 <= t < |block.txs| && 0 <= a < b < |block.txs[t].vin| ::
      Contains(block, block.txs[t].vin[a].txid) ==> Contains(block, block.txs[t].vin[b].txid)
  }

  lemma {:induction false} OwnInputsLastSuffices(block: Block)
    requires OwnInputsLast(block)
    ensures AllReached(block)
  {
    forall id | Named(block, id) && !Contains(block, id) ensures Reached(block, id) {
      var t :| 0 <= t < |block.txs| && !block.txs[t].IsCoinbase() && NamesTx(block.txs[t].vin, id);
      VisitsOutside(block, block.txs[t].vin, id);
    }
  }

  lemma {:induction false} VisitsOutside(block: Block, vin: seq<OutPoint>, id: TxId)
    requires NamesTx(vin, id) && !Contains(block, id)
    requires forall a, b | 0 <= a < b < |vin| :: Contains(block, vin[a].txid) ==> Contains(block, vin[b].txid)
    ensures NamesTx(Visited(block, vin), id)
  {
    var n :| 0 <= n < |vin| && vin[n].txid == id;
    if n > 0 {
      assert vin[1..][n - 1].txid == id;
      VisitsOutside(block, vin[1..], id);
    }
    NamesCons(vin[0], Visited(block, vin[1..]), id);
  }

  /** And a block that the code takes back wrongly: its second transaction first
      spends the block's own coinbase, then an earlier coin. */
  lemma {:induction false} CancelCanLoseOutputs() returns (es: seq<Entry>, block: Block)
    ensures BlockAcceptable(es, block, 10, 1, 1000) && Live(es + BlockEntries(block)) && !AllReached(block)
  {
    var reward := Tx(1, NoKey, [OutPoint(NoTx, -1)], [TxOut(10, 7)], NoSql, NoTx);
    var own := Tx(2, NoKey, [OutPoint(NoTx, -1)], [TxOut(10, 7)], NoSql, NoTx);
    var spend := Tx(3, 7, [OutPoint(2, 0), OutPoint(1, 0)], [TxOut(20, 8)], NoSql, NoTx);
    es, block := [Entry(reward, 1)], Block(2, 1, 1, [own, spend]);
    LiveExample(reward, own, spend);
    assert es + BlockEntries(block) == [Entry(reward, 1), Entry(own, 2), Entry(spend, 2)];
    OwnFirst(block);
    BothPaid(es, reward, own, spend);
    assert block.txs[..0] == [] && block.txs[..1] == [own] && CoinbaseAt(block, 0);
    forall t | 0 <= t < |block.txs| ensures TxOk(es, block.txs[..t], block.txs[t], 10) {
      assert t == 0 || t == 1;
    }
  }

  lemma {:induction false} OwnFirst(block: Block)
    requires |block.txs| == 2 && block.txs[0].id == 2 && block.txs[1].id == 3 && block.txs[0].IsCoinbase()
    requires block.txs[1].vin == [OutPoint(2, 0), OutPoint(1, 0)]
    ensures !AllReached(block)
  {
    assert block.txs[1].vin[1].txid == 1 && NamesTx(block.txs[1].vin, 1) && Named(block, 1);
    assert Contains(block, 2) && Visited(block, block.txs[1].vin) == [];
    forall t | 0 <= t < |block.txs| && !block.txs[t].IsCoinbase()
      ensures !NamesTx(Visited(block, block.txs[t].vin), 1)
    {
      assert t == 1;
    }
  }

  /** The second transaction spends a reward of the branch and one of the block. */
  lemma {:induction false} BothPaid(es: seq<Entry>, reward: Tx, own: Tx, spend: Tx)
    requires es == [Entry(reward, 1)] && reward.id == 1 && reward.vout == [TxOut(10, 7)] && reward.IsCoinbase()
    requires own.id == 2 && own.vout == [TxOut(10, 7)]
    requires spend.signer == 7 && spend.vin == [OutPoint(2, 0), OutPoint(1, 0)] && spend.vout == [TxOut(20, 8)]
    ensures TxOk(es, [own], spend, 10)
  {
    assert es[..0] == [] && Spends(es[..0]) == {} && es[0].tx.id == 1 && HasTx(es, 1) && !HasTx(es, 2);
    assert FindEntry(es, 1) == Some(reward) && FindBefore([own], 2) == Some(own);
    assert InputOk(es, [own], 7, OutPoint(2, 0)) && InputOk(es, [own], 7, OutPoint(1, 0));
    assert Value(es, [own], OutPoint(2, 0)) == 10 && Value(es, [own], OutPoint(1, 0)) == 10;
    var first := [OutPoint(2, 0)];
    assert first[..0] == [] && SumIn(es, [own], first) == 10;
    assert spend.vin[..1] == first && SumIn(es, [own], spend.vin) == 20;
    assert spend.vout[..0] == [] && SumOut(spend.vout[..0]) == 0;
  }

  lemma {:induction false} LiveExample(reward: Tx, own: Tx, spend: Tx)
    requires reward == Tx(1, NoKey, [OutPoint(NoTx, -1)], [TxOut(10, 7)], NoSql, NoTx)
    requires own == Tx(2, NoKey, [OutPoint(NoTx, -1)], [TxOut(10, 7)], NoSql, NoTx)
    requires spend == Tx(3, 7, [OutPoint(2, 0), OutPoint(1, 0)], [TxOut(20, 8)], NoSql, NoTx)
    ensures Live([Entry(reward, 1), Entry(own, 2), Entry(spend, 2)])
  {
    var a, b, c := Entry(reward, 1), Entry(own, 2), Entry(spend, 2);
    assert [a, b, c][..2] == [a, b] && [a, b][..1] == [a] && [a][..0] == [];
    assert MayFollow([], reward) && Live([]);
    assert Live([a]) by { assert [a][..|[a]| - 1] == []; }
    assert Fold(map[], [a]) == Apply(map[], a) && OutPoint(1, 0) in OutsOf(reward, 1);
    assert Fold(map[], [a, b]) == Apply(Fold(map[], [a]), b) && OutPoint(2, 0) in OutsOf(own, 2);
    assert Live([a, b]);
    assert InsOf(spend) <= {OutPoint(2, 0), OutPoint(1, 0)};
  }
}
