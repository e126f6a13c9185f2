/** Conservation: along a branch, coins come only from coinbase transactions. */
module Money {
  import opened Types
  import opened Ledger
  import opened Verifier
  import opened Safety

  ghost function Total(m: Utxo): int
  {
    if m == map[] then 0 else
      var p :| p in m;
      m[p].value + Total(m - {p})
  }

  lemma {:induction false} TotalRemove(m: Utxo, p: OutPoint)
    requires p in m
    ensures Total(m) == m[p].value + Total(m - {p})
    decreases |m|
  {
    var q :| q in m && Total(m) == m[q].value + Total(m - {q});
    if q != p {
      assert |m - {q}| < |m| && |m - {p}| < |m| by {
        assert (m - {q}).Keys == m.Keys - {q} && (m - {p}).Keys == m.Keys - {p};
      }
      TotalRemove(m - {q}, p);
      TotalRemove(m - {p}, q);
      assert (m - {q}) - {p} == (m - {p}) - {q};
    }
  }

  lemma {:induction false} TotalJoin(x: Utxo, y: Utxo)
    requires x.Keys !! y.Keys
    ensures Total(x + y) == Total(x) + Total(y)
    decreases |y|
  {
    if y == map[] {
      assert x + y == x;
    } else {
      var p :| p in y;
      TotalRemove(x + y, p);
      TotalRemove(y, p);
      MinusOne(x, y, p);
      TotalJoin(x, y - {p});
    }
  }

  lemma {:induction false} MinusOne(x: Utxo, y: Utxo, p: OutPoint)
    requires p in y && x.Keys !! y.Keys
    ensures |y - {p}| < |y| && (y - {p}).Keys == y.Keys - {p}
    ensures (x + y) - {p} == x + (y - {p}) && (x + y)[p] == y[p]
  {
    assert (y - {p}).Keys == y.Keys - {p};
    assert |y - {p}| == |(y - {p}).Keys| && |y| == |y.Keys|;
  }

  ghost function SumCoins(m: Utxo, vin: seq<OutPoint>): int
  {
    if vin == [] then 0 else
      SumCoins(m, vin[..|vin| - 1]) + (if vin[|vin| - 1] in m then m[vin[|vin| - 1]].value else 0)
  }

  lemma {:induction false} TotalWithout(m: Utxo, vin: seq<OutPoint>)
    requires Names(vin) <= m.Keys
    requires forall j, k | 0 <= j < k < |vin| :: vin[j] != vin[k]
    ensures Total(m - Names(vin)) == Total(m) - SumCoins(m, vin)
  {
    if vin == [] {
      assert m - Names(vin) == m;
    } else {
      var init, p := vin[..|vin| - 1], vin[|vin| - 1];
      TotalWithout(m, init);
      assert Names(vin) == Names(init) + {p};
      assert (m - Names(init)) - {p} == m - Names(vin);
      assert p !in Names(init);
      TotalRemove(m - Names(init), p);
    }
  }

  /** Value that goes to outputs without an address. */
  ghost function Unaddressed(vout: seq<TxOut>): int
  {
    if vout == [] then 0 else
      Unaddressed(vout[..|vout| - 1]) + (if vout[|vout| - 1].owner == NoKey then vout[|vout| - 1].value else 0)
  }

  lemma {:induction false} LastOutput(m: Utxo, tx: Tx, h: Hash, n: nat)
    requires forall p | p in m :: p.txid != tx.id
    requires |tx.vout| == n + 1
    ensures var before, after := m + OutsOf(tx.(vout := tx.vout[..n]), h), m + OutsOf(tx, h);
      var p := OutPoint(tx.id, n);
      if tx.vout[n].owner == NoKey then after == before
      else p in after && after[p].value == tx.vout[n].value && after - {p} == before
  {
    var p := OutPoint(tx.id, n);
    LastOfOuts(tx, h, n);
    if tx.vout[n].owner != NoKey {
      assert p in OutsOf(tx, h);
      assert (m + OutsOf(tx, h)) - {p} == m + (OutsOf(tx, h) - {p});
    }
  }

  lemma {:induction false} LastOfOuts(tx: Tx, h: Hash, n: nat)
    requires |tx.vout| == n + 1
    ensures OutsOf(tx.(vout := tx.vout[..n]), h) ==
      if tx.vout[n].owner == NoKey then OutsOf(tx, h) else OutsOf(tx, h) - {OutPoint(tx.id, n)}
  {
    var less := tx.(vout := tx.vout[..n]);
    assert forall i | 0 <= i < n :: less.vout[i] == tx.vout[i];
  }

  lemma {:induction false} TotalWithOuts(m: Utxo, tx: Tx, h: Hash)
    requires forall p | p in m :: p.txid != tx.id
    ensures Total(m + OutsOf(tx, h)) == Total(m) + SumOut(tx.vout) - Unaddressed(tx.vout)
    decreases |tx.vout|
  {
    if tx.vout == [] {
      assert m + OutsOf(tx, h) == m;
    } else {
      var n := |tx.vout| - 1;
      TotalWithOuts(m, tx.(vout := tx.vout[..n]), h);
      LastOutput(m, tx, h, n);
      if tx.vout[n].owner != NoKey {
        TotalRemove(m + OutsOf(tx, h), OutPoint(tx.id, n));
      }
    }
  }

  ghost function AllUnaddressed(es: seq<Entry>): int
  {
    if es == [] then 0 else AllUnaddressed(es[..|es| - 1]) + Unaddressed(es[|es| - 1].tx.vout)
  }

  /** The reward for each coinbase transaction. */
  ghost function Rewards(txs: seq<Tx>, coins: int): int
  {
    if txs == [] then 0 else Rewards(txs[..|txs| - 1], coins) + (if txs[|txs| - 1].IsCoinbase() then coins else 0)
  }

  lemma {:induction false} OneReward(b: Block, t: nat, i: nat, coins: int)
    requires CoinbaseAt(b, t) && i <= |b.txs|
    ensures Rewards(b.txs[..i], coins) == if t < i then coins else 0
  {
    if i > 0 {
      assert b.txs[..i][..i - 1] == b.txs[..i - 1];
      OneReward(b, t, i - 1, coins);
    }
  }

  /** What verification adds up is what the inputs are worth on the branch. */
  lemma {:induction false} ValueIsCoin(es: seq<Entry>, b: Block, i: nat, p: OutPoint)
    requires i < |b.txs| && Live(Upto(es, b, i))
    requires InputOk(es, b.txs[..i], b.txs[i].signer, p) && p in Fold(map[], Upto(es, b, i))
    ensures Value(es, b.txs[..i], p) == Fold(map[], Upto(es, b, i))[p].value
  {
    assert OutPoint(p.txid, p.vout) == p;
    var k: nat;
    if HasTx(es, p.txid) {
      k :| 0 <= k < |es| && es[k].tx == FindEntry(es, p.txid).value;
    } else {
      var s :| 0 <= s < i && b.txs[..i][s] == FindBefore(b.txs[..i], p.txid).value;
      k := |es| + s;
    }
    UptoAt(es, b, i, k);
    UnspentIff(Upto(es, b, i), k, p.vout);
  }

  lemma {:induction false} SumsAgree(es: seq<Entry>, b: Block, i: nat, vin: seq<OutPoint>)
    requires i < |b.txs| && Live(Upto(es, b, i))
    requires forall k | 0 <= k < |vin| ::
      InputOk(es, b.txs[..i], b.txs[i].signer, vin[k]) && vin[k] in Fold(map[], Upto(es, b, i))
    ensures SumIn(es, b.txs[..i], vin) == SumCoins(Fold(map[], Upto(es, b, i)), vin)
  {
    if vin != [] {
      SumsAgree(es, b, i, vin[..|vin| - 1]);
      ValueIsCoin(es, b, i, vin[|vin| - 1]);
    }
  }

  /** Unspent value and value without an address, after some entries. */
  ghost function Supply(es: seq<Entry>): int
  {
    Total(Fold(map[], es)) + AllUnaddressed(es)
  }

  lemma {:induction false} SupplySnoc(es: seq<Entry>, e: Entry)
    requires Live(es) && MayFollow(es, e.tx)
    ensures Supply(es + [e]) == Supply(es) + SumOut(e.tx.vout)
      - (if e.tx.IsCoinbase() then 0 else SumCoins(Fold(map[], es), e.tx.vin))
  {
    var m := Fold(map[], es);
    Snoc(es, e);
    assert (es + [e])[..|es|] == es;
    forall p | p in m - InsOf(e.tx) ensures p.txid != e.tx.id {
      FoldHasTx(es, p);
    }
    TotalWithOuts(m - InsOf(e.tx), e.tx, e.block);
    if e.tx.IsCoinbase() {
      assert m - InsOf(e.tx) == m;
    } else {
      TotalWithout(m, e.tx.vin);
    }
  }

  /** One accepted transaction: the supply grows by the reward or not at all. */
  lemma {:induction false} SupplyStep(es: seq<Entry>, b: Block, i: nat, coins: int)
    requires i < |b.txs| && Live(Upto(es, b, i)) && MayFollow(Upto(es, b, i), b.txs[i])
    requires TxOk(es, b.txs[..i], b.txs[i], coins)
    ensures Supply(Upto(es, b, i + 1)) == Supply(Upto(es, b, i)) + (if b.txs[i].IsCoinbase() then coins else 0)
  {
    var tx := b.txs[i];
    UptoNext(es, b, i);
    SupplySnoc(Upto(es, b, i), Entry(tx, b.hash));
    if tx.IsCoinbase() {
      assert tx.vout[..0] == [] && SumOut(tx.vout[..0]) == 0;
    } else {
      InputsUnspent(Upto(es, b, i), tx);
      SumsAgree(es, b, i, tx.vin);
    }
  }

  lemma {:induction false} InputsUnspent(es: seq<Entry>, tx: Tx)
    requires MayFollow(es, tx) && !tx.IsCoinbase()
    ensures forall k | 0 <= k < |tx.vin| :: tx.vin[k] in Fold(map[], es)
  {
    forall k | 0 <= k < |tx.vin| ensures tx.vin[k] in Fold(map[], es) {
      assert tx.vin[k] in InsOf(tx);
    }
  }

  lemma {:induction false} RewardsNext(b: Block, i: nat, coins: int)
    requires i < |b.txs|
    ensures Rewards(b.txs[..i + 1], coins) == Rewards(b.txs[..i], coins) + (if b.txs[i].IsCoinbase() then coins else 0)
  {
    assert b.txs[..i + 1][..i] == b.txs[..i];
  }

  lemma {:induction false} SupplyUpto(es: seq<Entry>, b: Block, i: nat, coins: int)
    requires Live(es + BlockEntries(b)) && i <= |b.txs|
    requires forall t | 0 <= t < |b.txs| :: TxOk(es, b.txs[..t], b.txs[t], coins)
    ensures Supply(Upto(es, b, i)) == Supply(es) + Rewards(b.txs[..i], coins)
  {
    if i == 0 {
      UptoEnds(es, b);
    } else {
      SupplyUpto(es, b, i - 1, coins);
      SupplyNext(es, b, i - 1, coins);
      RewardsNext(b, i - 1, coins);
    }
  }

  lemma {:induction false} SupplyNext(es: seq<Entry>, b: Block, i: nat, coins: int)
    requires Live(es + BlockEntries(b)) && i < |b.txs| && TxOk(es, b.txs[..i], b.txs[i], coins)
    ensures Supply(Upto(es, b, i + 1)) == Supply(Upto(es, b, i)) + (if b.txs[i].IsCoinbase() then coins else 0)
  {
    UptoLive(es, b, i + 1);
    UptoNext(es, b, i);
    SupplyStep(es, b, i, coins);
  }

  /** A verified block adds one reward to the supply. */
  lemma {:induction false} SupplyOfBlock(es: seq<Entry>, b: Block, coins: int)
    requires Live(es + BlockEntries(b)) && GoodBlock(es, b, coins)
    ensures Supply(es + BlockEntries(b)) == Supply(es) + coins
  {
    SupplyUpto(es, b, |b.txs|, coins);
    UptoEnds(es, b);
    var t :| CoinbaseAt(b, t);
    OneReward(b, t, |b.txs|, coins);
  }

  /** A branch of verified blocks. */
  ghost predicate GoodBlock(es: seq<Entry>, b: Block, coins: int)
  {
    && FreshIds(es, b)
    && (exists t :: CoinbaseAt(b, t))
    && (forall t | 0 <= t < |b.txs| :: TxOk(es, b.txs[..t], b.txs[t], coins))
  }

  ghost predicate GoodPath(p: seq<Block>, coins: int)
  {
    p == [] || (GoodPath(p[..|p| - 1], coins) && GoodBlock(PathEntries(p[..|p| - 1]), p[|p| - 1], coins))
  }

  /** Money supply: what is unspent, and what was paid to no address, is the
      reward for every block of the branch. */
  lemma {:induction false} MoneySupply(p: seq<Block>, coins: int)
    requires Live(PathEntries(p)) && GoodPath(p, coins)
    ensures Total(UtxoOf(p)) + AllUnaddressed(PathEntries(p)) == coins * |p|
  {
    if p != [] {
      var init, b := p[..|p| - 1], p[|p| - 1];
      LivePrefix(PathEntries(init), BlockEntries(b));
      MoneySupply(init, coins);
      SupplyOfBlock(PathEntries(init), b, coins);
      OneMore(coins, |init|);
    }
  }

  lemma {:induction false} OneMore(coins: int, n: nat)
    ensures coins * (n + 1) == coins * n + coins
  {
  }

  // ----- no coin is empty

  ghost predicate AllPositive(m: Utxo)
  {
    forall p | p in m :: m[p].value >= 1
  }

  lemma {:induction false} PositiveUpto(es: seq<Entry>, b: Block, i: nat, coins: int)
    requires i <= |b.txs| && coins >= 1 && AllPositive(Fold(map[], es))
    requires forall t | 0 <= t < |b.txs| :: TxOk(es, b.txs[..t], b.txs[t], coins)
    ensures AllPositive(Fold(map[], Upto(es, b, i)))
  {
    if i == 0 {
      UptoEnds(es, b);
    } else {
      PositiveUpto(es, b, i - 1, coins);
      UptoNext(es, b, i - 1);
      Snoc(Upto(es, b, i - 1), Entry(b.txs[i - 1], b.hash));
      assert TxOk(es, b.txs[..i - 1], b.txs[i - 1], coins);
    }
  }

  /** Every unspent output of a branch of verified blocks is worth at least one smallest
      unit, when the reward is. */
  lemma {:induction false} CoinsArePositive(p: seq<Block>, coins: int)
    requires GoodPath(p, coins) && coins >= 1
    ensures AllPositive(UtxoOf(p))
  {
    if p != [] {
      var init, b := p[..|p| - 1], p[|p| - 1];
      CoinsArePositive(init, coins);
      PositiveUpto(PathEntries(init), b, |b.txs|, coins);
      UptoEnds(PathEntries(init), b);
    }
  }
}
