/** Pools that come about by verified additions on an unchanged chain: what payments
    and balances suppose of a pool then holds. */
module PoolRuns {
  import opened Types
  import opened Ledger
  import opened Verifier
  import opened Safety
  import opened Pool
  import opened Payments
  import opened Balances

  /** A transaction that joins: verification accepts it with the pending ones as
      further sources, its id is new, it names no output twice, and it conflicts with
      no pending one. */
  ghost predicate Joins(es: seq<Entry>, pend: seq<Tx>, tx: Tx, coins: int)
  {
    && TxOk(es, pend, tx, coins) && !tx.IsCoinbase() && Distinct(tx.vin) && tx.signer != NoKey
    && tx.id != NoTx && !HasTx(es, tx.id) && FindBefore(pend, tx.id) == None
    && !ConflictsWithSome(tx, PoolOf(pend))
  }

  /** Transactions that joined one after the other. */
  ghost predicate Joined(es: seq<Entry>, pend: seq<Tx>, coins: int)
  {
    pend == [] || (Joined(es, pend[..|pend| - 1], coins) && Joins(es, pend[..|pend| - 1], pend[|pend| - 1], coins))
  }

  ghost function Additions(pend: seq<Tx>): (ops: seq<Op>)
    ensures |ops| == |pend| && forall i | 0 <= i < |ops| :: ops[i] == Op.Add(pend[i])
  {
    seq(|pend|, i requires 0 <= i < |pend| => Op.Add(pend[i]))
  }

  /** The pool after these additions. */
  ghost function PoolOf(pend: seq<Tx>): Txs
  {
    Run(Additions(pend))
  }

  lemma {:induction false} PoolNext(pend: seq<Tx>, tx: Tx)
    ensures PoolOf(pend + [tx]) == Added(PoolOf(pend), tx)
  {
    assert Additions(pend + [tx])[..|pend|] == Additions(pend);
  }

  lemma {:induction false} JoinedAt(es: seq<Entry>, pend: seq<Tx>, coins: int, t: nat)
    requires Joined(es, pend, coins) && t < |pend|
    ensures Joined(es, pend[..t], coins) && Joins(es, pend[..t], pend[t], coins)
    decreases |pend|
  {
    if t < |pend| - 1 {
      JoinedAt(es, pend[..|pend| - 1], coins, t);
      SliceOfInit(pend, t);
    }
  }

  lemma {:induction false} SliceOfInit(pend: seq<Tx>, t: nat)
    requires t < |pend|
    ensures pend[..|pend| - 1][..t] == pend[..t]
  {
  }

  /** The pool holds exactly these transactions. */
  ghost predicate HoldsAll(pool: Txs, pend: seq<Tx>)
  {
    && (forall i | 0 <= i < |pend| :: pend[i].id in pool && pool[pend[i].id] == pend[i])
    && (forall id | id in pool :: FindBefore(pend, id) == Some(pool[id]))
  }

  lemma {:induction false} HoldsOneMore(pool: Txs, pend: seq<Tx>, tx: Tx)
    requires HoldsAll(pool, pend) && FindBefore(pend, tx.id) == None
    ensures HoldsAll(pool[tx.id := tx], pend + [tx])
  {
    forall id | id in pool || id == tx.id
      ensures FindBefore(pend + [tx], id) == Some(if id == tx.id then tx else pool[id])
    {
      FindSnoc(pend, tx, id);
    }
  }

  lemma {:induction false} PoolHolds(es: seq<Entry>, pend: seq<Tx>, coins: int)
    requires Joined(es, pend, coins)
    ensures HoldsAll(PoolOf(pend), pend)
    decreases |pend|
  {
    if pend != [] {
      var init, tx := pend[..|pend| - 1], pend[|pend| - 1];
      PoolHolds(es, init, coins);
      HoldsOneMore(PoolOf(init), init, tx);
      PoolNext(init, tx);
      InitAndLast(pend);
    }
  }

  lemma {:induction false} FindSnoc(txs: seq<Tx>, tx: Tx, id: TxId)
    ensures FindBefore(txs + [tx], id) ==
      if FindBefore(txs, id) != None then FindBefore(txs, id) else if tx.id == id then Some(tx) else None
    decreases |txs|
  {
    if txs != [] {
      assert (txs + [tx])[1..] == txs[1..] + [tx];
      FindSnoc(txs[1..], tx, id);
    } else {
      assert (txs + [tx])[1..] == [];
    }
  }

  /** The transactions that joined, as a block that is on no chain. */
  ghost function Batch(pend: seq<Tx>): Block
  {
    Block(NoHash, NoHash, 0, pend)
  }

  lemma {:induction false} BatchIsDistinct(es: seq<Entry>, pend: seq<Tx>, coins: int)
    requires Joined(es, pend, coins)
    ensures FreshIds(es, Batch(pend)) && DistinctInputs(Batch(pend))
    ensures forall t | 0 <= t < |pend| :: TxOk(es, pend[..t], pend[t], coins)
  {
    var txs := Batch(pend).txs;
    forall t | 0 <= t < |txs|
      ensures TxOk(es, txs[..t], txs[t], coins) && DistinctVin(txs[t]) && txs[t].signer != NoKey
      ensures txs[t].id != NoTx && !HasTx(es, txs[t].id)
    {
      OneJoined(es, pend, coins, t);
    }
    forall t, u | 0 <= t < u < |txs| ensures txs[t].id != txs[u].id && InsOf(txs[t]) !! InsOf(txs[u]) {
      PairDistinct(es, pend, coins, t, u);
    }
  }

  lemma {:induction false} OneJoined(es: seq<Entry>, pend: seq<Tx>, coins: int, t: nat)
    requires Joined(es, pend, coins) && t < |pend|
    ensures TxOk(es, pend[..t], pend[t], coins) && DistinctVin(pend[t]) && pend[t].signer != NoKey
    ensures pend[t].id != NoTx && !HasTx(es, pend[t].id)
  {
    JoinedAt(es, pend, coins, t);
  }

  lemma {:induction false} PairDistinct(es: seq<Entry>, pend: seq<Tx>, coins: int, t: nat, u: nat)
    requires Joined(es, pend, coins) && t < u < |pend|
    ensures pend[t].id != pend[u].id && InsOf(pend[t]) !! InsOf(pend[u])
  {
    JoinedAt(es, pend, coins, u);
    PoolHolds(es, pend[..u], coins);
    assert pend[..u][t] == pend[t];
    assert !Conflict(pend[u], PoolOf(pend[..u])[pend[t].id]) && !SharesInput(pend[u], pend[t]);
  }

  /** Such a pool can follow the chain, in the order of joining; its transactions use
      what belongs to their signers, and none names an input twice. */
  lemma {:induction false} JoinedIsInOrder(es: seq<Entry>, pend: seq<Tx>, coins: int)
    requires Live(es) && Joined(es, pend, coins)
    ensures Keyed(PoolOf(pend)) && InputsDistinct(PoolOf(pend))
    ensures PoolInOrder(PoolOf(pend), es, BlockEntries(Batch(pend)))
    ensures OwnedBySigners(PoolOf(pend), Fold(map[], es))
  {
    RunOk(Additions(pend));
    forall id | id in PoolOf(pend)
      ensures HasTx(BlockEntries(Batch(pend)), id) && Distinct(PoolOf(pend)[id].vin)
      ensures SignerOwns(PoolOf(pend)[id], Fold(map[], es)) && SignerOwns(PoolOf(pend)[id], PoolOuts(PoolOf(pend)))
    {
      PendingIsOwned(es, pend, coins, id);
    }
    PendingIsLive(es, pend, coins);
  }

  lemma {:induction false} PendingIsLive(es: seq<Entry>, pend: seq<Tx>, coins: int)
    requires Live(es) && Joined(es, pend, coins)
    ensures Live(es + BlockEntries(Batch(pend))) && FromPool(PoolOf(pend), BlockEntries(Batch(pend)))
  {
    PoolHolds(es, pend, coins);
    BatchIsDistinct(es, pend, coins);
    AcceptedIsLive(es, Batch(pend), coins, |pend|);
    UptoEnds(es, Batch(pend));
  }

  lemma {:induction false} PendingIsOwned(es: seq<Entry>, pend: seq<Tx>, coins: int, id: TxId)
    requires Live(es) && Joined(es, pend, coins) && id in PoolOf(pend) && Keyed(PoolOf(pend))
    ensures HasTx(BlockEntries(Batch(pend)), id) && Distinct(PoolOf(pend)[id].vin)
    ensures SignerOwns(PoolOf(pend)[id], Fold(map[], es)) && SignerOwns(PoolOf(pend)[id], PoolOuts(PoolOf(pend)))
  {
    var t := PlaceInPool(es, pend, coins, id);
    assert BlockEntries(Batch(pend))[t].tx.id == id;
    JoinedAt(es, pend, coins, t);
    OwnsFromChain(es, pend, coins, t);
    OwnsFromPool(es, pend, coins, t);
  }

  lemma {:induction false} PlaceInPool(es: seq<Entry>, pend: seq<Tx>, coins: int, id: TxId) returns (t: nat)
    requires Joined(es, pend, coins) && id in PoolOf(pend)
    ensures t < |pend| && pend[t] == PoolOf(pend)[id] && pend[t].id == id
  {
    PoolHolds(es, pend, coins);
    t :| 0 <= t < |pend| && pend[t] == FindBefore(pend, id).value;
  }

  lemma {:induction false} OwnsFromChain(es: seq<Entry>, pend: seq<Tx>, coins: int, t: nat)
    requires Live(es) && Joined(es, pend, coins) && t < |pend|
    ensures SignerOwns(pend[t], Fold(map[], es))
  {
    JoinedAt(es, pend, coins, t);
    var m, tx := Fold(map[], es), pend[t];
    forall p | p in tx.vin && p in m ensures m[p].owner == tx.signer {
      FoldHasTx(es, p);
      var n :| 0 <= n < |tx.vin| && tx.vin[n] == p;
      assert InputOk(es, pend[..t], tx.signer, p) && OutPoint(p.txid, p.vout) == p;
      var k :| 0 <= k < |es| && es[k].tx == FindEntry(es, p.txid).value;
      UnspentIff(es, k, p.vout);
    }
  }

  lemma {:induction false} OwnsFromPool(es: seq<Entry>, pend: seq<Tx>, coins: int, t: nat)
    requires Live(es) && Joined(es, pend, coins) && t < |pend| && Keyed(PoolOf(pend))
    ensures SignerOwns(pend[t], PoolOuts(PoolOf(pend)))
  {
    var outs := PoolOuts(PoolOf(pend));
    JoinedAt(es, pend, coins, t);
    forall p | p in pend[t].vin && p in outs ensures outs[p].owner == pend[t].signer {
      PendingOwner(es, pend, coins, t, p);
    }
  }

  lemma {:induction false} PendingOwner(es: seq<Entry>, pend: seq<Tx>, coins: int, t: nat, p: OutPoint)
    requires Joined(es, pend, coins) && t < |pend| && TxOk(es, pend[..t], pend[t], coins) && !pend[t].IsCoinbase()
    requires Keyed(PoolOf(pend)) && p in pend[t].vin && p in PoolOuts(PoolOf(pend))
    ensures PoolOuts(PoolOf(pend))[p].owner == pend[t].signer
  {
    OwnerInPool(PoolOf(pend), p);
    SourceOfInput(es, pend[..t], pend[t], coins, p);
    SourceInPool(es, pend, coins, t, p);
  }

  lemma {:induction false} SourceOfInput(es: seq<Entry>, before: seq<Tx>, tx: Tx, coins: int, p: OutPoint)
    requires TxOk(es, before, tx, coins) && !tx.IsCoinbase() && p in tx.vin
    ensures Source(es, before, p.txid) != None && 0 <= p.vout < |Source(es, before, p.txid).value.vout|
    ensures Source(es, before, p.txid).value.vout[p.vout].owner == tx.signer
  {
    var n :| 0 <= n < |tx.vin| && tx.vin[n] == p;
    assert InputOk(es, before, tx.signer, p);
  }

  lemma {:induction false} OwnerInPool(pool: Txs, p: OutPoint)
    requires Keyed(pool) && p in PoolOuts(pool)
    ensures p.txid in pool && 0 <= p.vout < |pool[p.txid].vout|
    ensures PoolOuts(pool)[p].owner == pool[p.txid].vout[p.vout].owner
    ensures PoolOuts(pool)[p].value == pool[p.txid].vout[p.vout].value
  {
    assert p in OutsOf(pool[p.txid], NoHash) && OutPoint(p.txid, p.vout) == p;
  }

  /** The source of a pending output is the pending transaction. */
  lemma {:induction false} SourceInPool(es: seq<Entry>, pend: seq<Tx>, coins: int, t: nat, p: OutPoint)
    requires Joined(es, pend, coins) && t < |pend| && p.txid in PoolOf(pend)
    requires Source(es, pend[..t], p.txid) != None
    ensures Source(es, pend[..t], p.txid) == Some(PoolOf(pend)[p.txid])
  {
    var u := PlaceInPool(es, pend, coins, p.txid);
    JoinedAt(es, pend, coins, u);
    PoolHolds(es, pend, coins);
    var s :| 0 <= s < t && pend[..t][s] == FindBefore(pend[..t], p.txid).value;
    assert pend[s].id == p.txid;
  }

  /** What preparing a payment supposes of the pool: pending transactions are not on the
      chain, and their outputs are worth something. */
  lemma {:induction false} PaymentsCanBePrepared(es: seq<Entry>, pend: seq<Tx>, coins: int)
    requires Joined(es, pend, coins) && Keyed(PoolOf(pend))
    ensures PendingOnly(PoolOf(pend), Fold(map[], es))
    ensures NoNegative(PoolOuts(PoolOf(pend)))
  {
    forall p | p in Fold(map[], es) ensures p.txid !in PoolOf(pend) {
      FoldHasTx(es, p);
      if p.txid in PoolOf(pend) {
        var t := PlaceInPool(es, pend, coins, p.txid);
        OneJoined(es, pend, coins, t);
      }
    }
    forall p | p in PoolOuts(PoolOf(pend)) ensures PoolOuts(PoolOf(pend))[p].value >= 0 {
      OwnerInPool(PoolOf(pend), p);
      var t := PlaceInPool(es, pend, coins, p.txid);
      JoinedAt(es, pend, coins, t);
    }
  }
}
