/** From accepted blocks to live branches: no output is spent twice on any branch. */
module Safety {
  import opened Types
  import opened Ledger
  import opened Verifier

  /** Hashing makes transaction ids unique; signers have a key hash. */
  ghost predicate FreshIds(es: seq<Entry>, b: Block)
  {
    && (forall t | 0 <= t < |b.txs| :: b.txs[t].id != NoTx && !HasTx(es, b.txs[t].id))
    && (forall t, u | 0 <= t < u < |b.txs| :: b.txs[t].id != b.txs[u].id)
    && (forall t | 0 <= t < |b.txs| && !b.txs[t].IsCoinbase() :: b.txs[t].signer != NoKey)
  }

  ghost predicate DistinctVin(tx: Tx)
  {
    !tx.IsCoinbase() ==> forall j, k | 0 <= j < k < |tx.vin| :: tx.vin[j] != tx.vin[k]
  }

  /** No output is named twice by the inputs of the block. The miner's side sees
      to this; VerifyBlock does not look. */
  ghost predicate DistinctInputs(b: Block)
  {
    && (forall t | 0 <= t < |b.txs| :: DistinctVin(b.txs[t]))
    && (forall t, u | 0 <= t < u < |b.txs| :: InsOf(b.txs[t]) !! InsOf(b.txs[u]))
  }

  lemma {:induction false} SpentHasTx(es: seq<Entry>, p: OutPoint)
    requires Live(es) && p in Spends(es)
    ensures HasTx(es, p.txid)
  {
    var i := SpenderOf(es, p);
    LiveAt(es, i);
    FoldHasTx(es[..i], p);
    var s :| 0 <= s < i && es[..i][s].tx.id == p.txid;
    assert es[s].tx.id == p.txid;
  }

  /** Nothing in front of a transaction of the block spends its inputs. */
  lemma {:induction false} NotSpentBefore(b: Block, i: nat, p: OutPoint)
    requires DistinctInputs(b) && i < |b.txs| && p in InsOf(b.txs[i])
    ensures p !in Spends(BlockEntries(b)[..i])
  {
    forall s | 0 <= s < i ensures p !in InsOf(BlockEntries(b)[..i][s].tx) {
      assert InsOf(b.txs[s]) !! InsOf(b.txs[i]);
    }
    NoSpender(BlockEntries(b)[..i], p);
  }

  lemma {:induction false} NoSpender(es: seq<Entry>, p: OutPoint)
    requires forall s | 0 <= s < |es| :: p !in InsOf(es[s].tx)
    ensures p !in Spends(es)
  {
    if es != [] {
      NoSpender(es[..|es| - 1], p);
    }
  }

  /** An accepted input from the branch is unspent in front of its transaction. */
  lemma {:induction false} BranchInputUnspent(es: seq<Entry>, b: Block, i: nat, p: OutPoint, src: Tx)
    requires Live(es) && DistinctInputs(b) && i < |b.txs| && p in InsOf(b.txs[i])
    requires FindEntry(es, p.txid) == Some(src) && p !in Spends(es)
    requires 0 <= p.vout < |src.vout| && src.vout[p.vout].owner != NoKey
    ensures p in Fold(map[], Upto(es, b, i))
  {
    NotSpentBefore(b, i, p);
    assert OutPoint(p.txid, p.vout) == p;
    var k :| 0 <= k < |es| && es[k].tx == src;
    UnspentIff(es, k, p.vout);
    FoldConcat(map[], es, BlockEntries(b)[..i]);
    FoldSplits(Fold(map[], es), BlockEntries(b)[..i]);
  }

  /** So is an accepted input from the block itself. */
  lemma {:induction false} OwnInputUnspent(es: seq<Entry>, b: Block, i: nat, p: OutPoint, s: nat)
    requires Live(es) && DistinctInputs(b) && i < |b.txs| && p in InsOf(b.txs[i])
    requires Live(Upto(es, b, i)) && !HasTx(es, p.txid)
    requires s < i && b.txs[s].id == p.txid
    requires 0 <= p.vout < |b.txs[s].vout| && b.txs[s].vout[p.vout].owner != NoKey
    ensures p in Fold(map[], Upto(es, b, i))
  {
    NotSpentUpto(es, b, i, p);
    UptoAt(es, b, i, |es| + s);
    var all := Upto(es, b, i);
    assert all[|es| + s].tx == b.txs[s];
    UnspentIff(all, |es| + s, p.vout);
    assert OutPoint(b.txs[s].id, p.vout) == p;
  }

  lemma {:induction false} NotSpentUpto(es: seq<Entry>, b: Block, i: nat, p: OutPoint)
    requires Live(es) && DistinctInputs(b) && i < |b.txs| && p in InsOf(b.txs[i]) && !HasTx(es, p.txid)
    ensures p !in Spends(Upto(es, b, i))
  {
    NotSpentBefore(b, i, p);
    SpendsConcat(es, BlockEntries(b)[..i]);
    if p in Spends(es) { SpentHasTx(es, p); }
  }

  lemma {:induction false} NewId(es: seq<Entry>, b: Block, i: nat)
    requires FreshIds(es, b) && i < |b.txs|
    ensures !HasTx(Upto(es, b, i), b.txs[i].id)
  {
    forall k | 0 <= k < |Upto(es, b, i)| ensures Upto(es, b, i)[k].tx.id != b.txs[i].id {
      UptoAt(es, b, i, k);
      assert k >= |es| ==> b.txs[k - |es|].id != b.txs[i].id;
    }
  }

  lemma {:induction false} AcceptedMayFollow(es: seq<Entry>, b: Block, coins: int, i: nat)
    requires Live(es) && FreshIds(es, b) && DistinctInputs(b) && i < |b.txs| && Live(Upto(es, b, i))
    requires TxOk(es, b.txs[..i], b.txs[i], coins)
    ensures MayFollow(Upto(es, b, i), b.txs[i])
  {
    var tx := b.txs[i];
    NewId(es, b, i);
    assert DistinctVin(tx);
    forall p | p in InsOf(tx) ensures p in Fold(map[], Upto(es, b, i)) {
      var k :| 0 <= k < |tx.vin| && tx.vin[k] == p;
      assert InputOk(es, b.txs[..i], tx.signer, p);
      AcceptedInput(es, b, i, p);
    }
  }

  lemma {:induction false} AcceptedInput(es: seq<Entry>, b: Block, i: nat, p: OutPoint)
    requires Live(es) && DistinctInputs(b) && i < |b.txs| && Live(Upto(es, b, i)) && p in InsOf(b.txs[i])
    requires InputOk(es, b.txs[..i], b.txs[i].signer, p) && b.txs[i].signer != NoKey
    ensures p in Fold(map[], Upto(es, b, i))
  {
    if HasTx(es, p.txid) {
      BranchInputUnspent(es, b, i, p, FindEntry(es, p.txid).value);
    } else {
      var s :| 0 <= s < i && b.txs[..i][s] == FindBefore(b.txs[..i], p.txid).value;
      OwnInputUnspent(es, b, i, p, s);
    }
  }

  lemma {:induction false} AcceptedIsLive(es: seq<Entry>, b: Block, coins: int, i: nat)
    requires Live(es) && FreshIds(es, b) && DistinctInputs(b) && i <= |b.txs|
    requires forall t | 0 <= t < |b.txs| :: TxOk(es, b.txs[..t], b.txs[t], coins)
    ensures Live(Upto(es, b, i))
  {
    UptoEnds(es, b);
    if i > 0 {
      AcceptedIsLive(es, b, coins, i - 1);
      AcceptedMayFollow(es, b, coins, i - 1);
      UptoNext(es, b, i - 1);
    }
  }

  lemma {:induction false} LiveIsDistinct(es: seq<Entry>, b: Block)
    requires Live(es + BlockEntries(b))
    ensures DistinctInputs(b)
  {
    var all := es + BlockEntries(b);
    forall t | 0 <= t < |b.txs| ensures DistinctVin(b.txs[t]) {
      LiveAt(all, |es| + t);
      assert all[|es| + t] == BlockEntries(b)[t];
    }
    forall t, u | 0 <= t < u < |b.txs| ensures InsOf(b.txs[t]) !! InsOf(b.txs[u]) {
      NoDoubleSpend(all, |es| + t, |es| + u);
      assert all[|es| + t] == BlockEntries(b)[t] && all[|es| + u] == BlockEntries(b)[u];
    }
  }

  /** What acceptance by VerifyBlock is worth: the branch stays free of double
      spending exactly when the block's inputs are pairwise distinct. */
  lemma {:induction false} AcceptedIsLiveIff(es: seq<Entry>, b: Block, coins: int, min: int, max: int)
    requires Live(es) && FreshIds(es, b) && BlockAcceptable(es, b, coins, min, max)
    ensures Live(es + BlockEntries(b)) <==> DistinctInputs(b)
  {
    if DistinctInputs(b) {
      AcceptedIsLive(es, b, coins, |b.txs|);
      UptoEnds(es, b);
    }
    if Live(es + BlockEntries(b)) {
      LiveIsDistinct(es, b);
    }
  }

  /** A block that VerifyBlock accepts although both of its payments spend the
      same coin. */
  lemma {:induction false} DoubleSpendAccepted()
    ensures exists es: seq<Entry>, b: Block ::
      Live(es) && FreshIds(es, b) && BlockAcceptable(es, b, 10, 1, 1000) && !Live(es + BlockEntries(b))
  {
    var reward := Tx(1, NoKey, [OutPoint(NoTx, -1)], [TxOut(10, 7)], NoSql, NoTx);
    var mint := Tx(2, NoKey, [OutPoint(NoTx, -1)], [TxOut(10, 7)], NoSql, NoTx);
    var pay := Tx(3, 7, [OutPoint(1, 0)], [TxOut(10, 8)], NoSql, NoTx);
    var again := Tx(4, 7, [OutPoint(1, 0)], [TxOut(10, 9)], NoSql, NoTx);
    var es := [Entry(reward, 1)];
    var b := Block(2, 1, 1, [mint, pay, again]);
    OneReward(reward, es);
    TwicePaid(es, b);
  }

  lemma {:induction false} TwicePaid(es: seq<Entry>, b: Block)
    requires Live(es) && |es| == 1 && es[0].tx.id == 1 && Spends(es) == {}
    requires FindEntry(es, 1) == Some(Tx(1, NoKey, [OutPoint(NoTx, -1)], [TxOut(10, 7)], NoSql, NoTx))
    requires |b.txs| == 3 && b.txs[0] == Tx(2, NoKey, [OutPoint(NoTx, -1)], [TxOut(10, 7)], NoSql, NoTx)
    requires b.txs[1] == Tx(3, 7, [OutPoint(1, 0)], [TxOut(10, 8)], NoSql, NoTx)
    requires b.txs[2] == Tx(4, 7, [OutPoint(1, 0)], [TxOut(10, 9)], NoSql, NoTx)
    ensures FreshIds(es, b) && BlockAcceptable(es, b, 10, 1, 1000) && !Live(es + BlockEntries(b))
  {
    BothAccepted(es, b);
    NewIds(es, b);
    SpentByBoth(es, b);
  }

  lemma {:induction false} NewIds(es: seq<Entry>, b: Block)
    requires |es| == 1 && es[0].tx.id == 1 && |b.txs| == 3 && b.txs[0].id == 2 && b.txs[1].id == 3 && b.txs[2].id == 4
    requires b.txs[0].IsCoinbase() && b.txs[1].signer == 7 && b.txs[2].signer == 7
    ensures FreshIds(es, b)
  {
  }

  lemma {:induction false} SpentByBoth(es: seq<Entry>, b: Block)
    requires |b.txs| == 3 && b.txs[1].vin == [OutPoint(1, 0)] && b.txs[2].vin == [OutPoint(1, 0)]
    ensures !Live(es + BlockEntries(b))
  {
    if Live(es + BlockEntries(b)) {
      LiveIsDistinct(es, b);
    }
    assert OutPoint(1, 0) in InsOf(b.txs[1]) && OutPoint(1, 0) in InsOf(b.txs[2]);
  }

  lemma {:induction false} BothAccepted(es: seq<Entry>, b: Block)
    requires HasTx(es, 1) && Spends(es) == {}
    requires FindEntry(es, 1) == Some(Tx(1, NoKey, [OutPoint(NoTx, -1)], [TxOut(10, 7)], NoSql, NoTx))
    requires |b.txs| == 3 && b.txs[0] == Tx(2, NoKey, [OutPoint(NoTx, -1)], [TxOut(10, 7)], NoSql, NoTx)
    requires b.txs[1] == Tx(3, 7, [OutPoint(1, 0)], [TxOut(10, 8)], NoSql, NoTx)
    requires b.txs[2] == Tx(4, 7, [OutPoint(1, 0)], [TxOut(10, 9)], NoSql, NoTx)
    ensures BlockAcceptable(es, b, 10, 1, 1000)
  {
    PayOk(es, b.txs[..1], b.txs[1]);
    PayOk(es, b.txs[..2], b.txs[2]);
    assert TxOk(es, b.txs[..0], b.txs[0], 10);
    assert CoinbaseAt(b, 0);
  }

  lemma {:induction false} OneReward(reward: Tx, es: seq<Entry>)
    requires reward == Tx(1, NoKey, [OutPoint(NoTx, -1)], [TxOut(10, 7)], NoSql, NoTx) && es == [Entry(reward, 1)]
    ensures Live(es) && Spends(es) == {} && HasTx(es, 1) && FindEntry(es, 1) == Some(reward)
  {
    assert es[..0] == [] && MayFollow([], reward) && Live(es[..0]);
    assert Spends(es[..0]) == {};
    assert es[0].tx.id == 1;
  }

  lemma {:induction false} PayOk(es: seq<Entry>, before: seq<Tx>, tx: Tx)
    requires HasTx(es, 1) && Spends(es) == {}
    requires FindEntry(es, 1) == Some(Tx(1, NoKey, [OutPoint(NoTx, -1)], [TxOut(10, 7)], NoSql, NoTx))
    requires tx.signer == 7 && tx.vin == [OutPoint(1, 0)] && |tx.vout| == 1 && tx.vout[0].value == 10
    ensures TxOk(es, before, tx, 10)
  {
    OneInputOk(es, Spends(es), before, tx, 10);
  }
}
