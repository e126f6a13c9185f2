/** The balance of an address: what is approved, and what the pool will change. */
module Balances {
  import opened Types
  import opened Database
  import opened Ledger
  import opened Money
  import opened UnspentOutputs
  import opened Safety
  import opened Pool
  import opened CoinSelection
  import opened Payments

  // ----- computing the balance

  ghost function Restrict(m: Utxo, s: set<OutPoint>): Utxo
  {
    map p | p in m && p in s :: m[p]
  }

  /** Inputs of an address in the pool that use no pending output of it. */
  ghost function ApprovedInputs(pool: Txs, owner: KeyHash): set<OutPoint>
    requires Keyed(pool)
  {
    PaidBy(pool, owner) - Own(PoolOuts(pool), owner).Keys
  }

  /** Received in the pool and not used there, less what the pool uses of the approved. */
  ghost function PendingBalance(pool: Txs, m: Utxo, owner: KeyHash): int
    requires Keyed(pool)
  {
    Total(Own(PoolOuts(pool), owner) - PaidBy(pool, owner)) - Total(Restrict(m, ApprovedInputs(pool, owner)))
  }

  /** GetInputValue. */
  method GetInputValue(db: DB, input: OutPoint, ghost m: Utxo) returns (v: Option<int>)
    requires Represents(db.unspent, m)
    ensures v == if input in m then Some(m[input].value) else None
  {
    assert ListOk(ListAt(db.unspent, input.txid), input.txid, m);
    assert OutPoint(input.txid, input.vout) == input;
    if input.txid !in db.unspent {
      return None;
    }
    var outs := db.unspent[input.txid];
    for k := 0 to |outs|
      invariant forall j | 0 <= j < k :: outs[j].index != input.vout
    {
      assert OutOk(outs[k], input.txid, m);
      if outs[k].index == input.vout {
        return Some(outs[k].value);
      }
    }
    return None;
  }

  /** The value of the approved inputs; None when one is not unspent. */
  method ValueOfInputs(db: DB, inputs: seq<OutPoint>, ghost m: Utxo) returns (total: Option<int>)
    requires Represents(db.unspent, m)
    ensures total == None <==> !(Names(inputs) <= m.Keys)
    ensures total != None ==> total.value == SumCoins(m, inputs)
  {
    var sum := 0;
    for k := 0 to |inputs|
      invariant sum == SumCoins(m, inputs[..k]) && forall j | 0 <= j < k :: inputs[j] in m
    {
      assert inputs[..k + 1][..k] == inputs[..k];
      var v := GetInputValue(db, inputs[k], m);
      if v == None {
        assert inputs[k] in Names(inputs);
        return None;
      }
      sum := sum + v.value;
    }
    assert inputs[..|inputs|] == inputs;
    return Some(sum);
  }

  lemma {:induction false} SumIsTotal(m: Utxo, inputs: seq<OutPoint>)
    requires Names(inputs) <= m.Keys && Distinct(inputs)
    ensures SumCoins(m, inputs) == Total(Restrict(m, Names(inputs)))
  {
    var r := Restrict(m, Names(inputs));
    SameCoins(m, r, inputs);
    TotalWithout(r, inputs);
    assert r - Names(inputs) == map[];
  }

  lemma {:induction false} SameCoins(m: Utxo, r: Utxo, inputs: seq<OutPoint>)
    requires forall p | p in inputs :: p in m && p in r && m[p] == r[p]
    ensures SumCoins(m, inputs) == SumCoins(r, inputs)
  {
    if inputs != [] {
      SameCoins(m, r, inputs[..|inputs| - 1]);
    }
  }

  /** GetAddressBalance: approved and pending balance; None when an input that
      should be approved is not unspent. A pending transaction that names one input
      twice has it counted twice. */
  method GetAddressBalance(pool: UnapprovedTransactions, db: DB, owner: KeyHash, ghost m: Utxo)
    returns (r: Option<(int, int)>)
    requires pool.Valid() && Represents(db.unspent, m) && owner != NoKey
    ensures r == None <==> !(ApprovedInputs(pool.table, owner) <= m.Keys)
    ensures r != None ==> r.value.0 == Total(Own(m, owner))
    ensures r != None && InputsDistinct(pool.table) ==> r.value.1 == PendingBalance(pool.table, m, owner)
  {
    var outs := SpendableOutputs(db, owner, [], m);
    assert Mine(m, owner, Names([])) == Own(m, owner);
    ListedTotal(outs, Own(m, owner));
    var approved := TotalOfOutputs(outs);
    var all, outputs, inputs := GetCurrencyTXsPreparedBy(pool, owner);
    ListedTotal(outputs, Own(PoolOuts(pool.table), owner) - PaidBy(pool.table, owner));
    var received := TotalOfOutputs(outputs);
    var spent := ValueOfInputs(db, inputs, m);
    if spent == None {
      return None;
    }
    if Distinct(inputs) {
      SumIsTotal(m, inputs);
    }
    return Some((approved, received - spent.value));
  }

  // ----- what the balance means

  /** The pending transactions in an order in which they can follow the branch. */
  ghost predicate PoolInOrder(pool: Txs, base: seq<Entry>, es: seq<Entry>)
  {
    && Live(base + es)
    && FromPool(pool, es)
    && (forall id | id in pool :: HasTx(es, id))
  }

  ghost predicate FromPool(pool: Txs, es: seq<Entry>)
  {
    forall k | 0 <= k < |es| :: es[k].block == NoHash && es[k].tx.id in pool && pool[es[k].tx.id] == es[k].tx
  }

  /** What is spent by the pending transactions. */
  lemma {:induction false} SpentInPool(pool: Txs, base: seq<Entry>, es: seq<Entry>, p: OutPoint)
    requires PoolInOrder(pool, base, es)
    ensures p in Spends(es) <==> exists id | id in pool :: p in InsOf(pool[id])
  {
    if p in Spends(es) {
      var k := SpenderOf(es, p);
      assert es[k].tx.id in pool;
    }
    if id :| id in pool && p in InsOf(pool[id]) {
      assert HasTx(es, id);
      var k :| 0 <= k < |es| && es[k].tx.id == id;
      SpendsAt(es, k);
    }
  }

  /** A pending transaction's id is not on the branch. */
  lemma {:induction false} NewInPool(base: seq<Entry>, es: seq<Entry>, k: nat)
    requires Live(base + es) && k < |es|
    ensures !HasTx(base, es[k].tx.id)
  {
    assert (base + es)[|base| + k] == es[k];
    forall i | 0 <= i < |base| ensures base[i].tx.id != es[k].tx.id {
      LiveIds(base + es, i, |base| + k);
      assert (base + es)[i] == base[i];
    }
  }

  /** Outputs of a pending transaction after the whole pool: those not used in it. */
  lemma {:induction false} OutputOfPool(pool: Txs, base: seq<Entry>, es: seq<Entry>, k: nat, v: int)
    requires PoolInOrder(pool, base, es) && Keyed(pool) && k < |es|
    ensures var p := OutPoint(es[k].tx.id, v);
      && (p in Fold(map[], base + es) <==> p in PoolOuts(pool) && p !in Spends(es))
      && (p in Fold(map[], base + es) ==> Fold(map[], base + es)[p] == PoolOuts(pool)[p])
  {
    assert (base + es)[|base| + k] == es[k];
    UnspentIff(base + es, |base| + k, v);
    SpentInPoolOnly(base, es, k, v);
    PendingOutput(pool, es, k, v);
  }

  lemma {:induction false} SpentInPoolOnly(base: seq<Entry>, es: seq<Entry>, k: nat, v: int)
    requires Live(base + es) && k < |es|
    ensures OutPoint(es[k].tx.id, v) in Spends(base + es) <==> OutPoint(es[k].tx.id, v) in Spends(es)
  {
    SpendsConcat(base, es);
    NewInPool(base, es, k);
    LivePrefix(base, es);
    if OutPoint(es[k].tx.id, v) in Spends(base) {
      SpentHasTx(base, OutPoint(es[k].tx.id, v));
    }
  }

  lemma {:induction false} PendingOutput(pool: Txs, es: seq<Entry>, k: nat, v: int)
    requires FromPool(pool, es) && Keyed(pool) && k < |es|
    ensures var p := OutPoint(es[k].tx.id, v);
      && (p in PoolOuts(pool) <==> 0 <= v < |es[k].tx.vout| && es[k].tx.vout[v].owner != NoKey)
      && (p in PoolOuts(pool) ==> PoolOuts(pool)[p] == Coin(es[k].tx.vout[v].owner, es[k].tx.vout[v].value, NoHash))
  {
    var tx := es[k].tx;
    assert pool[tx.id] == tx;
    assert OutPoint(tx.id, v) in OutsOf(tx, NoHash) <==> 0 <= v < |tx.vout| && tx.vout[v].owner != NoKey;
  }

  /** The unspent outputs after the pool: those of the branch that the pool does
      not use, and those of the pool that it does not use itself. */
  lemma {:induction false} AfterPool(pool: Txs, base: seq<Entry>, es: seq<Entry>)
    requires PoolInOrder(pool, base, es) && Keyed(pool)
    ensures Fold(map[], base + es) == (Fold(map[], base) - Spends(es)) + (PoolOuts(pool) - Spends(es))
    ensures Fold(map[], base).Keys !! PoolOuts(pool).Keys
  {
    var x, y, all := Fold(map[], base) - Spends(es), PoolOuts(pool) - Spends(es), Fold(map[], base + es);
    FoldConcat(map[], base, es);
    FoldSplits(Fold(map[], base), es);
    forall p ensures JoinedAt(x, y, all, p) {
      PointAfterPool(pool, base, es, p);
    }
    SameJoin(x, y, all);
    forall p | p in PoolOuts(pool) ensures p !in Fold(map[], base) {
      PointAfterPool(pool, base, es, p);
    }
  }

  lemma {:induction false} PointAfterPool(pool: Txs, base: seq<Entry>, es: seq<Entry>, p: OutPoint)
    requires PoolInOrder(pool, base, es) && Keyed(pool)
    requires Fold(map[], base + es) == (Fold(map[], base) - Spends(es)) + Fold(map[], es)
    ensures !(p in Fold(map[], base) && p in PoolOuts(pool))
    ensures p in PoolOuts(pool) ==> (p in Fold(map[], base + es) <==> p !in Spends(es))
    ensures p in PoolOuts(pool) && p !in Spends(es) ==> Fold(map[], base + es)[p] == PoolOuts(pool)[p]
    ensures p !in PoolOuts(pool) ==> (p in Fold(map[], base + es) <==> p in Fold(map[], base) - Spends(es))
    ensures p !in PoolOuts(pool) && p in Fold(map[], base + es) ==> Fold(map[], base + es)[p] == Fold(map[], base)[p]
  {
    assert OutPoint(p.txid, p.vout) == p;
    if p.txid in pool {
      assert HasTx(es, p.txid);
      var k :| 0 <= k < |es| && es[k].tx.id == p.txid;
      OutputOfPool(pool, base, es, k, p.vout);
      NewInPool(base, es, k);
      if p in Fold(map[], base) {
        FoldHasTx(base, p);
      }
    } else {
      CreatedInPool(pool, base, es, p);
    }
  }

  lemma {:induction false} CreatedInPool(pool: Txs, base: seq<Entry>, es: seq<Entry>, p: OutPoint)
    requires PoolInOrder(pool, base, es)
    ensures p in Fold(map[], es) ==> p.txid in pool
  {
    if p in Fold(map[], es) {
      FoldHasTx(es, p);
      var k :| 0 <= k < |es| && es[k].tx.id == p.txid;
      assert es[k].tx.id in pool;
    }
  }

  /** An input that is no pending output of the signer is an unspent output of the branch. */
  lemma {:induction false} ApprovedIsUnspent(pool: Txs, base: seq<Entry>, es: seq<Entry>, owner: KeyHash, p: OutPoint)
    requires PoolInOrder(pool, base, es) && Keyed(pool) && OwnedBySigners(pool, Fold(map[], base))
    requires p in ApprovedInputs(pool, owner)
    ensures p in Own(Fold(map[], base), owner)
  {
    var id :| id in pool && !pool[id].IsCoinbase() && pool[id].signer == owner && p in pool[id].vin;
    assert HasTx(es, id);
    var k :| 0 <= k < |es| && es[k].tx.id == id;
    assert SignerOwns(pool[id], PoolOuts(pool)) && SignerOwns(pool[id], Fold(map[], base));
    InputFromBranchOrPool(pool, base, es, k, p);
  }

  lemma {:induction false} InputFromBranchOrPool(pool: Txs, base: seq<Entry>, es: seq<Entry>, k: nat, p: OutPoint)
    requires PoolInOrder(pool, base, es) && Keyed(pool) && k < |es| && p in InsOf(es[k].tx)
    ensures p in Fold(map[], base) || p in PoolOuts(pool)
  {
    FollowsAt(base, es, k);
    assert FromPool(pool, es[..k]);
    UnspentBefore(pool, base, es[..k], p);
  }

  lemma {:induction false} UnspentBefore(pool: Txs, base: seq<Entry>, pre: seq<Entry>, p: OutPoint)
    requires Live(base + pre) && FromPool(pool, pre) && Keyed(pool) && p in Fold(map[], base + pre)
    ensures p in Fold(map[], base) || p in PoolOuts(pool)
  {
    if p !in Fold(map[], pre) {
      FromFront(base, pre, p);
    } else {
      FoldHasTx(pre, p);
      var j :| 0 <= j < |pre| && pre[j].tx.id == p.txid;
      assert OutPoint(pre[j].tx.id, p.vout) == p;
      HasOutput(base + pre, |base| + j, pre[j], p.vout);
      PendingOutput(pool, pre, j, p.vout);
    }
  }

  lemma {:induction false} HasOutput(es: seq<Entry>, k: nat, e: Entry, v: int)
    requires Live(es) && k < |es| && es[k] == e && OutPoint(e.tx.id, v) in Fold(map[], es)
    ensures 0 <= v < |e.tx.vout| && e.tx.vout[v].owner != NoKey
  {
    UnspentIff(es, k, v);
  }

  /** Own outputs that the pool spends are spent by the address itself. */
  lemma {:induction false} SpentIsPaid(pool: Txs, base: seq<Entry>, es: seq<Entry>, owner: KeyHash, p: OutPoint)
    requires PoolInOrder(pool, base, es) && Keyed(pool) && OwnedBySigners(pool, Fold(map[], base))
    requires p in Own(Fold(map[], base), owner) || p in Own(PoolOuts(pool), owner)
    ensures p in Spends(es) <==> p in PaidBy(pool, owner)
  {
    SpentInPool(pool, base, es, p);
    if p in Spends(es) {
      var id :| id in pool && p in InsOf(pool[id]);
      assert SignerOwns(pool[id], PoolOuts(pool)) && SignerOwns(pool[id], Fold(map[], base));
    }
    if p in PaidBy(pool, owner) {
      var id :| id in pool && !pool[id].IsCoinbase() && pool[id].signer == owner && p in pool[id].vin;
      assert p in InsOf(pool[id]);
    }
  }

  lemma {:induction false} OwnAfterPool(pool: Txs, base: seq<Entry>, es: seq<Entry>, owner: KeyHash)
    requires PoolInOrder(pool, base, es) && Keyed(pool) && OwnedBySigners(pool, Fold(map[], base))
    ensures Own(Fold(map[], base + es), owner) ==
      (Own(Fold(map[], base), owner) - ApprovedInputs(pool, owner)) + (Own(PoolOuts(pool), owner) - PaidBy(pool, owner))
    ensures Own(Fold(map[], base), owner).Keys !! Own(PoolOuts(pool), owner).Keys
  {
    AfterPool(pool, base, es);
    var m, outs, spent := Fold(map[], base), PoolOuts(pool), Spends(es);
    OwnWithout(m, spent, owner);
    OwnWithout(outs, spent, owner);
    OwnJoin(m - spent, outs - spent, owner);
    OwnJoin(m, outs, owner);
    forall p | p in Own(m, owner) || p in Own(outs, owner) ensures p in spent <==> p in PaidBy(pool, owner) {
      SpentIsPaid(pool, base, es, owner, p);
    }
    SameWithout(Own(m, owner), spent, ApprovedInputs(pool, owner));
    SameWithout(Own(outs, owner), spent, PaidBy(pool, owner));
  }

  lemma {:induction false} OwnWithout(m: Utxo, s: set<OutPoint>, owner: KeyHash)
    ensures Own(m - s, owner) == Own(m, owner) - s
  {
  }

  lemma {:induction false} SameWithout(a: Utxo, s: set<OutPoint>, t: set<OutPoint>)
    requires forall p | p in a :: p in s <==> p in t
    ensures a - s == a - t
  {
  }

  lemma {:induction false} TwoParts(m: Utxo, owner: KeyHash, gone: set<OutPoint>)
    requires gone <= Own(m, owner).Keys
    ensures var a := Own(m, owner);
      (a - gone).Keys !! Restrict(m, gone).Keys && a == (a - gone) + Restrict(m, gone)
  {
    var a := Own(m, owner);
    assert a.Keys == ((a - gone) + Restrict(m, gone)).Keys;
  }

  /** Approved and pending balance together are the balance in the unspent outputs
      that applying every pending transaction would leave. */
  lemma {:induction false} BalanceIsAfterPool(pool: Txs, base: seq<Entry>, es: seq<Entry>, owner: KeyHash)
    requires PoolInOrder(pool, base, es) && Keyed(pool) && OwnedBySigners(pool, Fold(map[], base))
    ensures ApprovedInputs(pool, owner) <= Fold(map[], base).Keys
    ensures Total(Own(Fold(map[], base), owner)) + PendingBalance(pool, Fold(map[], base), owner)
      == Total(Own(Fold(map[], base + es), owner))
  {
    var m, gone := Fold(map[], base), ApprovedInputs(pool, owner);
    forall p | p in gone ensures p in Own(m, owner) {
      ApprovedIsUnspent(pool, base, es, owner, p);
    }
    OwnAfterPool(pool, base, es, owner);
    TwoParts(m, owner, gone);
    TotalJoin(Own(m, owner) - gone, Own(PoolOuts(pool), owner) - PaidBy(pool, owner));
    TotalJoin(Own(m, owner) - gone, Restrict(m, gone));
  }

  // ----- what a payment changes

  /** What an address can spend is what it owns after the pool. */
  lemma {:induction false} SpendableIsLeft(pool: Txs, base: seq<Entry>, es: seq<Entry>, owner: KeyHash)
    requires PoolInOrder(pool, base, es) && Keyed(pool) && OwnedBySigners(pool, Fold(map[], base))
    ensures Spendable(pool, Fold(map[], base), owner) == Own(Fold(map[], base + es), owner)
  {
    var m, outs := Own(Fold(map[], base), owner), Own(PoolOuts(pool), owner);
    OwnAfterPool(pool, base, es, owner);
    SameWithout(m, PaidBy(pool, owner), ApprovedInputs(pool, owner));
  }

  lemma {:induction false} UsedAddUp(used: seq<UnspentOut>, n: Utxo)
    requires forall k | 0 <= k < |used| :: RecordOf(used[k], n)
    ensures SumCoins(n, Points(used)) == SumValues(used) && Names(Points(used)) <= n.Keys
  {
    if used != [] {
      UsedAddUp(used[..|used| - 1], n);
      assert Points(used)[..|used| - 1] == Points(used[..|used| - 1]);
      assert RecordOf(used[|used| - 1], n);
      forall p | p in Points(used) ensures p in n {
        var k :| 0 <= k < |used| && Points(used)[k] == p;
        assert RecordOf(used[k], n);
      }
    }
  }

  lemma {:induction false} OutsAreWorth(tx: Tx, h: Hash, who: KeyHash)
    requires who != NoKey
    ensures Total(Own(OutsOf(tx, h), who)) == PaidTo(tx.vout, who)
    decreases |tx.vout|
  {
    if tx.vout == [] {
      assert Own(OutsOf(tx, h), who) == map[];
    } else {
      OutsAreWorth(tx.(vout := tx.vout[..|tx.vout| - 1]), h, who);
      LastIsWorth(tx, h, who);
    }
  }

  lemma {:induction false} LastIsWorth(tx: Tx, h: Hash, who: KeyHash)
    requires who != NoKey && tx.vout != []
    ensures
      var less, last := tx.(vout := tx.vout[..|tx.vout| - 1]), tx.vout[|tx.vout| - 1];
      Total(Own(OutsOf(tx, h), who)) == Total(Own(OutsOf(less, h), who)) + if last.owner == who then last.value else 0
  {
    var n := |tx.vout| - 1;
    var less, outs, p := tx.(vout := tx.vout[..n]), OutsOf(tx, h), OutPoint(tx.id, n);
    LastOfOuts(tx, h, n);
    assert p in outs <==> tx.vout[n].owner != NoKey;
    assert p in outs ==> outs[p].owner == tx.vout[n].owner && outs[p].value == tx.vout[n].value;
    LastOfOwn(outs, OutsOf(less, h), p, who);
    if p in outs && outs[p].owner == who {
      TotalRemove(Own(outs, who), p);
    }
  }

  lemma {:induction false} LastOfOwn(m: Utxo, n: Utxo, p: OutPoint, who: KeyHash)
    requires n == if p in m then m - {p} else m
    ensures Own(n, who) == if p in m && m[p].owner == who then Own(m, who) - {p} else Own(m, who)
  {
    assert Own(m - {p}, who) == Own(m, who) - {p};
    assert !(p in m && m[p].owner == who) ==> Own(m, who) - {p} == Own(m, who);
  }

  /** The inputs of a prepared payment are unspent after the pool, and it may follow. */
  lemma {:induction false} PaymentFollows(pool: Txs, base: seq<Entry>, es: seq<Entry>, owner: KeyHash,
      used: seq<UnspentOut>, tx: Tx)
    requires PoolInOrder(pool, base, es) && Keyed(pool) && OwnedBySigners(pool, Fold(map[], base))
    requires Uses(used, Spendable(pool, Fold(map[], base), owner)) && tx.vin == Points(used)
    requires tx.id != NoTx && !HasTx(base + es, tx.id)
    ensures MayFollow(base + es, tx) && !tx.IsCoinbase()
    ensures forall k | 0 <= k < |used| :: RecordOf(used[k], Own(Fold(map[], base + es), owner))
    ensures Distinct(tx.vin)
  {
    SpendableIsLeft(pool, base, es, owner);
    forall i, j | 0 <= i < j < |tx.vin| ensures tx.vin[i] != tx.vin[j] {
      assert PointOf(used[i]) != PointOf(used[j]);
    }
    forall p | p in tx.vin ensures p in Fold(map[], base + es) && p.txid != NoTx {
      var k :| 0 <= k < |used| && Points(used)[k] == p;
      assert RecordOf(used[k], Spendable(pool, Fold(map[], base), owner));
      FoldHasTx(base + es, p);
      var i :| 0 <= i < |base + es| && (base + es)[i].tx.id == p.txid;
      LiveAt(base + es, i);
    }
  }

  /** The unspent outputs of one address after one more transaction. */
  lemma {:induction false} OwnAfterOne(es: seq<Entry>, tx: Tx, who: KeyHash)
    requires Live(es) && MayFollow(es, tx) && !tx.IsCoinbase() && who != NoKey
    ensures Total(Own(Fold(map[], es + [Entry(tx, NoHash)]), who)) ==
      Total(Own(Fold(map[], es), who) - Names(tx.vin)) + PaidTo(tx.vout, who)
  {
    var m, outs := Fold(map[], es), OutsOf(tx, NoHash);
    Snoc(es, Entry(tx, NoHash));
    forall p | p in m ensures p !in outs {
      FoldHasTx(es, p);
    }
    OwnJoin(m - Names(tx.vin), outs, who);
    OwnWithout(m, Names(tx.vin), who);
    TotalJoin(Own(m - Names(tx.vin), who), Own(outs, who));
    OutsAreWorth(tx, NoHash, who);
  }

  /** Applied after the pool, a prepared payment gives the receiver exactly the
      amount. The payer loses it, and one unit more when the change is one unit.
      Everybody else keeps what there was. */
  lemma {:induction false} PaymentMovesAmount(pool: Txs, base: seq<Entry>, es: seq<Entry>, owner: KeyHash, to: KeyHash,
      amount: int, used: seq<UnspentOut>, tx: Tx, who: KeyHash)
    requires PoolInOrder(pool, base, es) && Keyed(pool) && OwnedBySigners(pool, Fold(map[], base))
    requires Uses(used, Spendable(pool, Fold(map[], base), owner)) && SumValues(used) >= amount > 0
    requires tx.vin == Points(used) && PaysAmount(tx.vout, amount, SumValues(used), to, owner)
    requires tx.id != NoTx && !HasTx(base + es, tx.id) && who != NoKey
    ensures Live(base + es + [Entry(tx, NoHash)])
    ensures
      var before, after := Own(Fold(map[], base + es), who), Own(Fold(map[], base + es + [Entry(tx, NoHash)]), who);
      var lost := if SumValues(used) - amount == 1 then 1 else 0;
      Total(after) == Total(before) + (if who == to then amount else 0) - (if who == owner then amount + lost else 0)
  {
    var m := Own(Fold(map[], base + es), owner);
    PaymentFollows(pool, base, es, owner, used, tx);
    Snoc(base + es, Entry(tx, NoHash));
    OwnAfterOne(base + es, tx, who);
    UsedAddUp(used, m);
    if who == owner {
      TotalWithout(m, tx.vin);
    } else {
      OthersKeep(Fold(map[], base + es), tx.vin, owner, who);
    }
  }

  lemma {:induction false} OthersKeep(m: Utxo, vin: seq<OutPoint>, owner: KeyHash, who: KeyHash)
    requires who != owner && forall p | p in vin :: p in Own(m, owner)
    ensures Own(m, who) - Names(vin) == Own(m, who)
  {
    forall p | p in Names(vin) ensures p !in Own(m, who) {
      assert p in Own(m, owner);
    }
  }
}
