/** The table of unspent outputs: kept up to date block by block, taken back block
    by block, and recomputed from scratch by a backward scan. */
module UnspentOutputs {
  import opened Types
  import opened Database
  import opened Ledger

  type Table = map<TxId, seq<UnspentOut>>

  ghost function ListAt(t: Table, id: TxId): seq<UnspentOut>
  {
    if id in t then t[id] else []
  }

  ghost predicate HasIndex(list: seq<UnspentOut>, v: int)
  {
    exists k | 0 <= k < |list| :: list[k].index == v
  }

  ghost predicate OutOk(o: UnspentOut, id: TxId, m: Utxo)
  {
    o.txid == id && OutPoint(id, o.index) in m && m[OutPoint(id, o.index)] == Coin(o.owner, o.value, o.block)
  }

  /** The list holds, once each, exactly the outputs of `id` that `m` holds. */
  ghost predicate ListOk(list: seq<UnspentOut>, id: TxId, m: Utxo)
  {
    && (forall k | 0 <= k < |list| :: OutOk(list[k], id, m))
    && (forall i, j | 0 <= i < j < |list| :: list[i].index != list[j].index)
    && (forall v | OutPoint(id, v) in m :: HasIndex(list, v))
  }

  /** Table and set hold the same outputs; empty lists are as good as none. */
  ghost predicate Represents(t: Table, m: Utxo)
  {
    forall id :: ListOk(ListAt(t, id), id, m)
  }

  ghost predicate AgreeOn(m: Utxo, n: Utxo, id: TxId)
  {
    forall v :: (OutPoint(id, v) in m <==> OutPoint(id, v) in n) &&
      (OutPoint(id, v) in m ==> m[OutPoint(id, v)] == n[OutPoint(id, v)])
  }

  lemma {:induction false} ListFrame(list: seq<UnspentOut>, id: TxId, m: Utxo, n: Utxo)
    requires ListOk(list, id, m) && AgreeOn(m, n, id)
    ensures ListOk(list, id, n)
  {
    forall k | 0 <= k < |list| ensures OutOk(list[k], id, n) {
      assert OutOk(list[k], id, m);
    }
  }

  lemma {:induction false} RepresentsFrame(t: Table, m: Utxo, u: Table, n: Utxo, id: TxId)
    requires Represents(t, m)
    requires forall x | x != id :: ListAt(u, x) == ListAt(t, x) && AgreeOn(m, n, x)
    requires ListOk(ListAt(u, id), id, n)
    ensures Represents(u, n)
  {
    forall x ensures ListOk(ListAt(u, x), x, n) {
      if x != id {
        ListFrame(ListAt(t, x), x, m, n);
      }
    }
  }

  // ----- collecting the outputs of one transaction by index

  ghost predicate ScannedTo(list: seq<UnspentOut>, tx: Tx, live: Utxo, i: int)
  {
    && (forall k | 0 <= k < |list| :: OutOk(list[k], tx.id, live) && list[k].index < i)
    && (forall a, b | 0 <= a < b < |list| :: list[a].index != list[b].index)
    && (forall v | 0 <= v < i && OutPoint(tx.id, v) in live :: HasIndex(list, v))
  }

  lemma {:induction false} ScanNext(list: seq<UnspentOut>, tx: Tx, live: Utxo, i: nat, o: UnspentOut)
    requires ScannedTo(list, tx, live, i) && o.index == i && OutOk(o, tx.id, live)
    ensures ScannedTo(list + [o], tx, live, i + 1)
  {
    forall v | 0 <= v < i + 1 && OutPoint(tx.id, v) in live ensures HasIndex(list + [o], v) {
      IndexGrows(list, o, v);
    }
  }

  lemma {:induction false} ScanSkip(list: seq<UnspentOut>, tx: Tx, live: Utxo, i: nat)
    requires ScannedTo(list, tx, live, i) && OutPoint(tx.id, i) !in live
    ensures ScannedTo(list, tx, live, i + 1)
  {
    forall v | 0 <= v < i + 1 && OutPoint(tx.id, v) in live ensures HasIndex(list, v) {
      assert v != i;
    }
  }

  // ----- a block is added on top

  /** The records of a list without those of one index. */
  function Keep(outs: seq<UnspentOut>, v: int): seq<UnspentOut>
  {
    if outs == [] then []
    else Keep(outs[..|outs| - 1], v) + if outs[|outs| - 1].index != v then [outs[|outs| - 1]] else []
  }

  method WithoutIndex(outs: seq<UnspentOut>, v: int) returns (updated: seq<UnspentOut>)
    ensures updated == Keep(outs, v)
  {
    updated := [];
    for i := 0 to |outs|
      invariant updated == Keep(outs[..i], v)
    {
      assert outs[..i + 1][..i] == outs[..i];
      if outs[i].index != v {
        updated := updated + [outs[i]];
      }
    }
    assert outs[..|outs|] == outs;
  }

  ghost predicate DistinctIndexes(list: seq<UnspentOut>)
  {
    forall i, j | 0 <= i < j < |list| :: list[i].index != list[j].index
  }

  lemma {:induction false} KeptRecords(outs: seq<UnspentOut>, v: int)
    ensures forall k | 0 <= k < |Keep(outs, v)| :: Keep(outs, v)[k] in outs && Keep(outs, v)[k].index != v
    ensures forall w :: HasIndex(Keep(outs, v), w) <==> HasIndex(outs, w) && w != v
    ensures DistinctIndexes(outs) ==> DistinctIndexes(Keep(outs, v))
  {
    if outs != [] {
      var init, last := outs[..|outs| - 1], outs[|outs| - 1];
      KeptRecords(init, v);
      assert outs == init + [last];
      assert Keep(outs, v) == if last.index != v then Keep(init, v) + [last] else Keep(init, v);
      forall w ensures HasIndex(Keep(outs, v), w) <==> HasIndex(outs, w) && w != v {
        IndexGrows(init, last, w);
        IndexGrows(Keep(init, v), last, w);
      }
    }
  }

  lemma {:induction false} KeepOk(outs: seq<UnspentOut>, vin: OutPoint, m: Utxo)
    requires ListOk(outs, vin.txid, m)
    ensures ListOk(Keep(outs, vin.vout), vin.txid, m - {vin})
  {
    KeptRecords(outs, vin.vout);
    var kept := Keep(outs, vin.vout);
    forall k | 0 <= k < |kept| ensures OutOk(kept[k], vin.txid, m - {vin}) {
      var j :| 0 <= j < |outs| && outs[j] == kept[k];
      assert OutOk(outs[j], vin.txid, m);
    }
  }

  lemma {:induction false} IndexGrows(list: seq<UnspentOut>, o: UnspentOut, v: int)
    ensures HasIndex(list + [o], v) <==> HasIndex(list, v) || o.index == v
  {
    if HasIndex(list, v) {
      var k :| 0 <= k < |list| && list[k].index == v;
      assert (list + [o])[k].index == v;
    }
    if o.index == v {
      assert (list + [o])[|list|].index == v;
    }
  }

  /** One input of UpdateOnBlockAdd. */
  method SpendInput(db: DB, vin: OutPoint, ghost m: Utxo)
    modifies db`unspent
    ensures Represents(old(db.unspent), m) ==> Represents(db.unspent, m - {vin})
  {
    ghost var t := db.unspent;
    if vin.txid in db.unspent {
      var updated := WithoutIndex(db.unspent[vin.txid], vin.vout);
      if |updated| == 0 {
        db.unspent := db.unspent - {vin.txid};
      } else {
        db.unspent := db.unspent[vin.txid := updated];
      }
    }
    if Represents(t, m) {
      assert ListOk(ListAt(t, vin.txid), vin.txid, m);
      KeepOk(ListAt(t, vin.txid), vin, m);
      RepresentsFrame(t, m, db.unspent, m - {vin}, vin.txid);
    }
  }

  lemma {:induction false} OneMoreName(m: Utxo, vin: seq<OutPoint>, i: nat)
    requires i < |vin|
    ensures m - Names(vin[..i + 1]) == (m - Names(vin[..i])) - {vin[i]}
  {
    assert vin[..i + 1] == vin[..i] + [vin[i]];
    assert Names(vin[..i + 1]) == Names(vin[..i]) + {vin[i]};
  }

  method SpendInputs(db: DB, vin: seq<OutPoint>, ghost m: Utxo)
    modifies db`unspent
    ensures Represents(old(db.unspent), m) ==> Represents(db.unspent, m - Names(vin))
  {
    assert m - Names(vin[..0]) == m;
    for i := 0 to |vin|
      invariant Represents(old(db.unspent), m) ==> Represents(db.unspent, m - Names(vin[..i]))
    {
      OneMoreName(m, vin, i);
      SpendInput(db, vin[i], m - Names(vin[..i]));
    }
    assert vin[..|vin|] == vin;
  }

  /** The new outputs of UpdateOnBlockAdd. */
  method NewOutputs(tx: Tx, h: Hash) returns (outs: seq<UnspentOut>)
    ensures ListOk(outs, tx.id, OutsOf(tx, h))
  {
    outs := [];
    for i := 0 to |tx.vout|
      invariant forall k | 0 <= k < |outs| :: OutOk(outs[k], tx.id, OutsOf(tx, h)) && 0 <= outs[k].index < i
      invariant forall a, b | 0 <= a < b < |outs| :: outs[a].index != outs[b].index
      invariant forall v | 0 <= v < i && tx.vout[v].owner != NoKey :: HasIndex(outs, v)
    {
      var out := tx.vout[i];
      if out.owner != NoKey {
        ghost var before := outs;
        assert OutPoint(tx.id, i) in OutsOf(tx, h);
        var no := UnspentOut(tx.id, i, out.owner, out.value, h);
        outs := outs + [no];
        forall v | 0 <= v < i + 1 && tx.vout[v].owner != NoKey ensures HasIndex(outs, v) {
          IndexGrows(before, no, v);
        }
      }
    }
  }

  /** One transaction of UpdateOnBlockAdd. */
  method AddTransaction(db: DB, tx: Tx, h: Hash, ghost m: Utxo)
    requires forall p | p in m :: p.txid != tx.id
    modifies db`unspent
    ensures Represents(old(db.unspent), m) ==> Represents(db.unspent, Apply(m, Entry(tx, h)))
  {
    if !tx.IsCurrencyTransfer() {
      assert Apply(m, Entry(tx, h)) == m;
      return;
    }
    ghost var spent := m - InsOf(tx);
    if tx.IsCoinbase() {
      assert spent == m;
    } else {
      SpendInputs(db, tx.vin, m);
    }
    var newOutputs := NewOutputs(tx, h);
    ghost var t := db.unspent;
    db.unspent := db.unspent[tx.id := newOutputs];
    ghost var n := spent + OutsOf(tx, h);
    assert AgreeOn(OutsOf(tx, h), n, tx.id);
    ListFrame(newOutputs, tx.id, OutsOf(tx, h), n);
    if Represents(t, spent) {
      RepresentsFrame(t, spent, db.unspent, n, tx.id);
    }
  }

  ghost predicate UniqueIds(es: seq<Entry>)
  {
    forall i, j | 0 <= i < j < |es| :: es[i].tx.id != es[j].tx.id
  }

  /** UpdateOnBlockAdd: from the unspent outputs of a path to those of the path
      with one block more. */
  method UpdateOnBlockAdd(db: DB, block: Block, ghost p: seq<Block>)
    requires UniqueIds(PathEntries(p + [block]))
    modifies db`unspent
    ensures Represents(old(db.unspent), UtxoOf(p)) ==> Represents(db.unspent, UtxoOf(p + [block]))
  {
    UtxoGrows(p, block);
    FoldConcat(map[], PathEntries(p), BlockEntries(block));
    AddTransactions(db, block, PathEntries(p));
  }

  method AddTransactions(db: DB, block: Block, ghost es: seq<Entry>)
    requires UniqueIds(es + BlockEntries(block))
    modifies db`unspent
    ensures Represents(old(db.unspent), Fold(map[], es)) ==>
      Represents(db.unspent, Fold(map[], es + BlockEntries(block)))
  {
    ghost var bs := BlockEntries(block);
    ghost var m := Fold(map[], es);
    assert es + bs[..0] == es;
    for i := 0 to |block.txs|
      invariant m == Fold(map[], es + bs[..i])
      invariant Represents(old(db.unspent), Fold(map[], es)) ==> Represents(db.unspent, m)
    {
      FreshIn(es, bs, i);
      FoldNext(es, bs, i);
      assert bs[i] == Entry(block.txs[i], block.hash);
      AddTransaction(db, block.txs[i], block.hash, m);
      m := Apply(m, bs[i]);
    }
    assert bs[..|block.txs|] == bs;
  }

  lemma {:induction false} FoldNext(es: seq<Entry>, bs: seq<Entry>, i: nat)
    requires i < |bs|
    ensures Fold(map[], es + bs[..i + 1]) == Apply(Fold(map[], es + bs[..i]), bs[i])
  {
    assert es + bs[..i + 1] == (es + bs[..i]) + [bs[i]];
    Snoc(es + bs[..i], bs[i]);
  }

  lemma {:induction false} FreshIn(es: seq<Entry>, bs: seq<Entry>, i: nat)
    requires UniqueIds(es + bs) && i < |bs|
    ensures forall p | p in Fold(map[], es + bs[..i]) :: p.txid != bs[i].tx.id
  {
    var all, pre := es + bs, es + bs[..i];
    forall p | p in Fold(map[], pre) ensures p.txid != bs[i].tx.id {
      FoldHasTx(pre, p);
      var k :| 0 <= k < |pre| && pre[k].tx.id == p.txid;
      assert all[k] == pre[k] && all[|es| + i] == bs[i];
    }
  }
}
