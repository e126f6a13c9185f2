/** Payments and balances: what an address can still spend, given the unspent
    outputs of the main chain and the transactions in the pool. */
module Payments {
  import opened Types
  import opened Database
  import opened Ledger
  import opened Money
  import opened UnspentOutputs
  import opened Verifier
  import opened Pool
  import opened CoinSelection

  // ----- what the pool says about an address

  /** All outputs with an address that pending transactions create. */
  ghost function PoolOuts(pool: Txs): (n: Utxo)
    requires Keyed(pool)
    ensures forall p {:trigger p in n} :: p in n <==> p.txid in pool && p in OutsOf(pool[p.txid], NoHash)
    ensures forall p {:trigger n[p]} | p in n :: n[p] == OutsOf(pool[p.txid], NoHash)[p]
    decreases |pool|
  {
    if pool == map[] then map[]
    else
      var id :| id in pool;
      OneFewer(pool, id);
      PoolOuts(pool - {id}) + OutsOf(pool[id], NoHash)
  }

  /** All inputs of pending transactions that an address has signed. */
  ghost function PaidBy(pool: Txs, owner: KeyHash): set<OutPoint>
  {
    set id, p | id in pool && !pool[id].IsCoinbase() && pool[id].signer == owner && p in pool[id].vin :: p
  }

  ghost function Own(m: Utxo, owner: KeyHash): Utxo
  {
    map p | p in m && m[p].owner == owner :: m[p]
  }

  ghost predicate Distinct(ps: seq<OutPoint>)
  {
    forall i, j | 0 <= i < j < |ps| :: ps[i] != ps[j]
  }

  ghost predicate InputsDistinct(pool: Txs)
  {
    forall id | id in pool :: Distinct(pool[id].vin)
  }

  ghost function Part(pool: Txs, ids: set<TxId>): Txs
  {
    map id | id in pool && id in ids :: pool[id]
  }

  /** One transaction's outputs for an address. */
  method OwnOutputs(tx: Tx, owner: KeyHash) returns (outs: seq<UnspentOut>)
    requires owner != NoKey
    ensures Lists(outs, Own(OutsOf(tx, NoHash), owner))
  {
    ghost var n := Own(OutsOf(tx, NoHash), owner);
    outs := [];
    for i := 0 to |tx.vout|
      invariant forall k | 0 <= k < |outs| :: RecordOf(outs[k], n) && 0 <= outs[k].index < i
      invariant forall a, b | 0 <= a < b < |outs| :: PointOf(outs[a]) != PointOf(outs[b])
      invariant forall v | 0 <= v < i && OutPoint(tx.id, v) in n :: HasPoint(outs, OutPoint(tx.id, v))
    {
      assert OutPoint(tx.id, i) in n <==> tx.vout[i].owner == owner;
      if tx.vout[i].owner == owner {
        ghost var before := outs;
        outs := outs + [UnspentOut(tx.id, i, owner, tx.vout[i].value, NoHash)];
        assert PointOf(outs[|before|]) == OutPoint(tx.id, i);
        forall v | 0 <= v < i && OutPoint(tx.id, v) in n ensures HasPoint(outs, OutPoint(tx.id, v)) {
          assert HasPoint(before, OutPoint(tx.id, v));
          var k :| 0 <= k < |before| && PointOf(before[k]) == OutPoint(tx.id, v);
          assert outs[k] == before[k];
        }
      }
    }
    forall p | p in n ensures HasPoint(outs, p) {
      assert OutPoint(tx.id, p.vout) == p;
    }
  }

  /** What was collected from some of the pending transactions. */
  ghost predicate Collected(pool: Txs, done: set<TxId>, owner: KeyHash, inputs: seq<OutPoint>, outputs: seq<UnspentOut>)
    requires Keyed(pool)
  {
    && Names(inputs) == PaidBy(Part(pool, done), owner)
    && (InputsDistinct(pool) ==> Distinct(inputs))
    && Lists(outputs, Own(PoolOuts(Part(pool, done)), owner))
  }

  lemma {:induction false} CollectedNext(pool: Txs, done: set<TxId>, id: TxId, owner: KeyHash, inputs: seq<OutPoint>,
      outputs: seq<UnspentOut>, more: seq<UnspentOut>)
    requires PoolOk(pool) && id in pool && id !in done && done <= pool.Keys
    requires Collected(pool, done, owner, inputs, outputs)
    requires Lists(more, Own(OutsOf(pool[id], NoHash), owner))
    ensures Collected(pool, done + {id}, owner,
      if !pool[id].IsCoinbase() && pool[id].signer == owner then inputs + pool[id].vin else inputs, outputs + more)
  {
    OneMorePrepared(pool, done, id, owner);
    ListsJoin(outputs, Own(PoolOuts(Part(pool, done)), owner), more, Own(OutsOf(pool[id], NoHash), owner));
    MorePaid(pool, done, id, owner, inputs);
  }

  /** The first loop of GetCurrencyTXsPreparedBy. */
  method CollectPrepared(pool: UnapprovedTransactions, owner: KeyHash)
    returns (inputs: seq<OutPoint>, outputs: seq<UnspentOut>)
    requires pool.Valid() && owner != NoKey
    ensures Names(inputs) == PaidBy(pool.table, owner)
    ensures InputsDistinct(pool.table) ==> Distinct(inputs)
    ensures Lists(outputs, Own(PoolOuts(pool.table), owner))
  {
    inputs, outputs := [], [];
    var left := if pool.cache != None then pool.cache.value.Keys else pool.table.Keys;
    ghost var done: set<TxId> := {};
    while left != {}
      invariant left <= pool.table.Keys && done == pool.table.Keys - left
      invariant Collected(pool.table, done, owner, inputs, outputs)
      decreases left
    {
      var id :| id in left;
      var tx := pool.table[id];
      var more := OwnOutputs(tx, owner);
      CollectedNext(pool.table, done, id, owner, inputs, outputs, more);
      outputs := outputs + more;
      if !tx.IsCoinbase() && tx.signer == owner {
        inputs := inputs + tx.vin;
      }
      left := left - {id};
      done := done + {id};
    }
    assert Part(pool.table, done) == pool.table;
  }

  lemma {:induction false} OneMorePrepared(pool: Txs, done: set<TxId>, id: TxId, owner: KeyHash)
    requires Keyed(pool) && id in pool && id !in done && done <= pool.Keys
    ensures var x, y := PoolOuts(Part(pool, done)), OutsOf(pool[id], NoHash);
      && Own(x, owner).Keys !! Own(y, owner).Keys
      && Own(PoolOuts(Part(pool, done + {id})), owner) == Own(x, owner) + Own(y, owner)
    ensures PaidBy(Part(pool, done + {id}), owner) ==
      PaidBy(Part(pool, done), owner) +
        (if !pool[id].IsCoinbase() && pool[id].signer == owner then Names(pool[id].vin) else {})
  {
    OuterJoin(pool, done, id);
    OwnJoin(PoolOuts(Part(pool, done)), OutsOf(pool[id], NoHash), owner);
    MorePaidBy(pool, done, id, owner);
  }

  lemma {:induction false} OuterJoin(pool: Txs, done: set<TxId>, id: TxId)
    requires Keyed(pool) && id in pool && id !in done && done <= pool.Keys
    ensures var x, y := PoolOuts(Part(pool, done)), OutsOf(pool[id], NoHash);
      x.Keys !! y.Keys && PoolOuts(Part(pool, done + {id})) == x + y
  {
    var x, y, z := PoolOuts(Part(pool, done)), OutsOf(pool[id], NoHash), PoolOuts(Part(pool, done + {id}));
    forall p ensures JoinedAt(x, y, z, p) {
      if p.txid == id {
        assert pool[p.txid] == Part(pool, done + {id})[p.txid];
      }
    }
    SameJoin(x, y, z);
  }

  ghost predicate JoinedAt(x: Utxo, y: Utxo, z: Utxo, p: OutPoint)
  {
    && (p in z <==> p in x || p in y) && !(p in x && p in y)
    && (p in x ==> z[p] == x[p]) && (p in y ==> z[p] == y[p])
  }

  lemma {:induction false} SameJoin(x: Utxo, y: Utxo, z: Utxo)
    requires forall p :: JoinedAt(x, y, z, p)
    ensures x.Keys !! y.Keys && z == x + y
  {
    assert forall p | p in z || p in x || p in y :: JoinedAt(x, y, z, p);
  }

  lemma {:induction false} OwnJoin(x: Utxo, y: Utxo, owner: KeyHash)
    requires x.Keys !! y.Keys
    ensures Own(x + y, owner) == Own(x, owner) + Own(y, owner) && Own(x, owner).Keys !! Own(y, owner).Keys
  {
  }

  lemma {:induction false} MorePaidBy(pool: Txs, done: set<TxId>, id: TxId, owner: KeyHash)
    requires id in pool && done <= pool.Keys
    ensures PaidBy(Part(pool, done + {id}), owner) ==
      PaidBy(Part(pool, done), owner) +
        (if !pool[id].IsCoinbase() && pool[id].signer == owner then Names(pool[id].vin) else {})
  {
    var more := if !pool[id].IsCoinbase() && pool[id].signer == owner then Names(pool[id].vin) else {};
    forall p | p in PaidBy(Part(pool, done), owner) + more ensures p in PaidBy(Part(pool, done + {id}), owner) {
      if p in more {
        assert id in Part(pool, done + {id});
      } else {
        var x :| x in Part(pool, done) && !pool[x].IsCoinbase() && pool[x].signer == owner && p in pool[x].vin;
        assert x in Part(pool, done + {id});
      }
    }
  }

  lemma {:induction false} MorePaid(pool: Txs, done: set<TxId>, id: TxId, owner: KeyHash, inputs: seq<OutPoint>)
    requires PoolOk(pool) && id in pool && id !in done && done <= pool.Keys
    requires Names(inputs) == PaidBy(Part(pool, done), owner)
    ensures Names(inputs + pool[id].vin) == Names(inputs) + Names(pool[id].vin)
    ensures InputsDistinct(pool) && Distinct(inputs) ==> Distinct(inputs + pool[id].vin)
  {
    forall i, j | 0 <= i < |inputs| && 0 <= j < |pool[id].vin| ensures inputs[i] != pool[id].vin[j] {
      assert inputs[i] in PaidBy(Part(pool, done), owner);
      var other :| other in done && inputs[i] in pool[other].vin;
      assert !Conflict(pool[other], pool[id]);
    }
  }

  /** GetCurrencyTXsPreparedBy: all inputs that an address uses in the pool, the
      outputs it receives there and does not use, and the inputs that are no
      pending outputs. */
  method GetCurrencyTXsPreparedBy(pool: UnapprovedTransactions, owner: KeyHash)
    returns (inputs: seq<OutPoint>, realoutputs: seq<UnspentOut>, approvedinputs: seq<OutPoint>)
    requires pool.Valid() && owner != NoKey
    ensures Names(inputs) == PaidBy(pool.table, owner)
    ensures Lists(realoutputs, Own(PoolOuts(pool.table), owner) - PaidBy(pool.table, owner))
    ensures Names(approvedinputs) == PaidBy(pool.table, owner) - Own(PoolOuts(pool.table), owner).Keys
    ensures InputsDistinct(pool.table) ==> Distinct(approvedinputs)
  {
    var outputs;
    inputs, outputs := CollectPrepared(pool, owner);
    ghost var n := Own(PoolOuts(pool.table), owner);
    realoutputs := WithoutUsed(outputs, inputs, n);
    approvedinputs := WithoutPending(inputs, outputs, n);
  }

  method WithoutUsed(outputs: seq<UnspentOut>, inputs: seq<OutPoint>, ghost n: Utxo) returns (real_: seq<UnspentOut>)
    requires Lists(outputs, n)
    ensures Lists(real_, n - Names(inputs))
  {
    real_ := [];
    for i := 0 to |outputs|
      invariant forall o :: o in real_ <==> o in outputs[..i] && PointOf(o) !in inputs
      invariant forall a, b | 0 <= a < b < |real_| :: PointOf(real_[a]) != PointOf(real_[b])
    {
      if PointOf(outputs[i]) !in inputs {
        forall a | 0 <= a < |real_| ensures PointOf(real_[a]) != PointOf(outputs[i]) {
          assert real_[a] in outputs[..i];
        }
        real_ := real_ + [outputs[i]];
      }
    }
    assert outputs[..|outputs|] == outputs;
    KeptAreListed(outputs, inputs, n, real_);
  }

  lemma {:induction false} KeptAreListed(outputs: seq<UnspentOut>, inputs: seq<OutPoint>, n: Utxo,
      kept: seq<UnspentOut>)
    requires Lists(outputs, n)
    requires forall o :: o in kept <==> o in outputs && PointOf(o) !in inputs
    requires forall a, b | 0 <= a < b < |kept| :: PointOf(kept[a]) != PointOf(kept[b])
    ensures Lists(kept, n - Names(inputs))
  {
    forall k | 0 <= k < |kept| ensures RecordOf(kept[k], n - Names(inputs)) {
      assert kept[k] in outputs;
      var j :| 0 <= j < |outputs| && outputs[j] == kept[k];
      assert RecordOf(outputs[j], n);
    }
    forall p | p in n - Names(inputs) ensures HasPoint(kept, p) {
      assert HasPoint(outputs, p);
      var j :| 0 <= j < |outputs| && PointOf(outputs[j]) == p;
      assert outputs[j] in kept;
      var k :| 0 <= k < |kept| && kept[k] == outputs[j];
      assert PointOf(kept[k]) == p;
    }
  }

  method WithoutPending(inputs: seq<OutPoint>, outputs: seq<UnspentOut>, ghost n: Utxo)
    returns (approved: seq<OutPoint>)
    requires Lists(outputs, n)
    ensures Names(approved) == Names(inputs) - n.Keys
    ensures Distinct(inputs) ==> Distinct(approved)
  {
    approved := [];
    for i := 0 to |inputs|
      invariant forall p :: p in approved <==> p in inputs[..i] && p !in n
      invariant Distinct(inputs) ==> Distinct(approved)
    {
      var pendingout := IsPoint(outputs, inputs[i]);
      assert pendingout <==> inputs[i] in n by {
        PointIsListed(outputs, n, inputs[i]);
      }
      if !pendingout {
        assert Distinct(inputs) ==> inputs[i] !in inputs[..i];
        approved := approved + [inputs[i]];
      }
    }
    assert inputs[..|inputs|] == inputs;
  }

  lemma {:induction false} PointIsListed(outs: seq<UnspentOut>, n: Utxo, p: OutPoint)
    requires Lists(outs, n)
    ensures HasPoint(outs, p) <==> p in n
  {
    if HasPoint(outs, p) {
      var k :| 0 <= k < |outs| && PointOf(outs[k]) == p;
      assert RecordOf(outs[k], n);
    }
  }

  method IsPoint(outs: seq<UnspentOut>, p: OutPoint) returns (b: bool)
    ensures b <==> HasPoint(outs, p)
  {
    for k := 0 to |outs|
      invariant forall j | 0 <= j < k :: PointOf(outs[j]) != p
    {
      if PointOf(outs[k]) == p {
        return true;
      }
    }
    return false;
  }

  // ----- preparing a payment

  datatype Payment = Payment(vin: seq<OutPoint>, vout: seq<TxOut>, total: int)

  /** What an address can spend: its unspent outputs and its pending ones, without
      those it has used in the pool. */
  ghost function Spendable(pool: Txs, m: Utxo, owner: KeyHash): Utxo
    requires Keyed(pool)
  {
    (Own(m, owner) - PaidBy(pool, owner)) + (Own(PoolOuts(pool), owner) - PaidBy(pool, owner))
  }

  ghost predicate NoNegative(m: Utxo)
  {
    forall p | p in m :: m[p].value >= 0
  }

  /** Pending transactions are not in the chain. */
  ghost predicate PendingOnly(pool: Txs, m: Utxo)
  {
    forall p | p in m :: p.txid !in pool
  }

  /** Part of a list: used records are outputs of `n`, once each. */
  ghost predicate Uses(used: seq<UnspentOut>, n: Utxo)
  {
    && (forall k | 0 <= k < |used| :: RecordOf(used[k], n))
    && (forall i, j | 0 <= i < j < |used| :: PointOf(used[i]) != PointOf(used[j]))
  }

  /** ExtendNewTransactionInputs: takes pending outputs until the amount is reached. */
  method ExtendInputs(amount: int, total0: int, used0: seq<UnspentOut>, pendingoutputs: seq<UnspentOut>)
    returns (total: int, used: seq<UnspentOut>, ghost taken: nat)
    requires total0 == SumValues(used0) && total0 < amount
    requires forall k | 0 <= k < |pendingoutputs| :: pendingoutputs[k].value >= 0
    ensures taken <= |pendingoutputs| && used == used0 + pendingoutputs[..taken] && total == SumValues(used)
    ensures total >= amount <==> SumValues(used0) + SumValues(pendingoutputs) >= amount
  {
    total, used, taken := total0, used0, 0;
    for k := 0 to |pendingoutputs|
      invariant used == used0 + pendingoutputs[..k] && taken == k
      invariant total == total0 + SumValues(pendingoutputs[..k]) && total < amount
    {
      PrefixNext(used0, pendingoutputs, k);
      used := used + [pendingoutputs[k]];
      total := total + pendingoutputs[k].value;
      taken := k + 1;
      if total >= amount {
        break;
      }
    }
    PrefixSum(pendingoutputs, taken);
    SumJoin(used0, pendingoutputs[..taken]);
    assert taken == |pendingoutputs| ==> pendingoutputs[..taken] == pendingoutputs;
  }

  lemma {:induction false} PrefixNext(a: seq<UnspentOut>, b: seq<UnspentOut>, k: nat)
    requires k < |b|
    ensures (a + b[..k]) + [b[k]] == a + b[..k + 1]
    ensures SumValues(b[..k + 1]) == SumValues(b[..k]) + b[k].value
  {
    assert b[..k + 1][..k] == b[..k];
  }

  lemma {:induction false} PrefixSum(outs: seq<UnspentOut>, k: nat)
    requires k <= |outs| && forall i | 0 <= i < |outs| :: outs[i].value >= 0
    ensures SumValues(outs[..k]) <= SumValues(outs)
  {
    if k == |outs| {
      assert outs[..k] == outs;
    } else {
      PrefixSum(outs[..|outs| - 1], k);
      assert outs[..|outs| - 1][..k] == outs[..k];
    }
  }

  /** The outputs of a payment: the amount, and a change of more than one unit. */
  function PaymentOuts(amount: int, total: int, to: KeyHash, owner: KeyHash): seq<TxOut>
  {
    if total > amount && total - amount > 1
      then [TxOut(amount, to), TxOut(total - amount, owner)] else [TxOut(amount, to)]
  }

  /** What outputs are worth to an address. */
  function PaidTo(vout: seq<TxOut>, who: KeyHash): int
  {
    if vout == [] then 0
    else PaidTo(vout[..|vout| - 1], who) + if vout[|vout| - 1].owner == who then vout[|vout| - 1].value else 0
  }

  /** The receiver gets the amount, and the payer what the inputs are worth beyond it
      unless that is at most one unit. Nobody else gets anything. */
  ghost predicate PaysAmount(vout: seq<TxOut>, amount: int, total: int, to: KeyHash, owner: KeyHash)
  {
    var left := if total - amount > 1 then total - amount else 0;
    && (forall who | who != to && who != owner :: PaidTo(vout, who) == 0)
    && (forall k | 0 <= k < |vout| :: vout[k].owner == to || vout[k].owner == owner)
    && if to == owner then PaidTo(vout, to) == amount + left
       else PaidTo(vout, to) == amount && PaidTo(vout, owner) == left
  }

  lemma {:induction false} AmountIsPaid(amount: int, total: int, to: KeyHash, owner: KeyHash)
    requires total >= amount
    ensures PaysAmount(PaymentOuts(amount, total, to, owner), amount, total, to, owner)
  {
    var vout, n := PaymentOuts(amount, total, to, owner), |PaymentOuts(amount, total, to, owner)|;
    forall who ensures PaidTo(vout, who) ==
      (if vout[0].owner == who then vout[0].value else 0)
        + (if n == 2 && vout[1].owner == who then vout[1].value else 0) {
      assert vout[..n - 1][..0] == [] && PaidTo([], who) == 0;
      assert n == 2 ==> vout[..1] == [vout[0]] && PaidTo([vout[0]][..0], who) == 0;
    }
  }

  /** PrepareNewCurrencyTransaction with the checks in front of it. It succeeds
      exactly when the spendable outputs are worth the amount; the inputs are then
      different spendable outputs, and the outputs go to receiver and payer. */
  method PreparePayment(pool: UnapprovedTransactions, db: DB, owner: KeyHash, to: KeyHash, amount: int, ghost m: Utxo)
    returns (r: Option<Payment>, ghost used: seq<UnspentOut>)
    requires pool.Valid() && Represents(db.unspent, m) && owner != NoKey
    requires NoNegative(m) && NoNegative(PoolOuts(pool.table)) && PendingOnly(pool.table, m)
    ensures r != None <==> amount > 0 && to != NoKey && Total(Spendable(pool.table, m, owner)) >= amount
    ensures r != None ==> r.value.vin == Points(used) && Uses(used, Spendable(pool.table, m, owner))
    ensures r != None ==> r.value.total == SumValues(used) >= amount
    ensures r != None ==> r.value.vout == PaymentOuts(amount, r.value.total, to, owner)
    ensures r != None ==> PaysAmount(r.value.vout, amount, r.value.total, to, owner)
  {
    used := [];
    if amount <= 0 || to == NoKey {
      return None, used;
    }
    var total, chosen := ChooseInputs(pool, db, owner, amount, m);
    if total < amount {
      return None, used;
    }
    AmountIsPaid(amount, total, to, owner);
    return Some(Payment(Points(chosen), PaymentOuts(amount, total, to, owner), total)), chosen;
  }

  /** prepareNewCurrencyTransactionStart. */
  method ChooseInputs(pool: UnapprovedTransactions, db: DB, owner: KeyHash, amount: int, ghost m: Utxo)
    returns (total: int, used: seq<UnspentOut>)
    requires pool.Valid() && Represents(db.unspent, m) && owner != NoKey
    requires NoNegative(m) && NoNegative(PoolOuts(pool.table)) && PendingOnly(pool.table, m)
    ensures total == SumValues(used) && Uses(used, Spendable(pool.table, m, owner))
    ensures total >= amount <==> Total(Spendable(pool.table, m, owner)) >= amount
  {
    var pendinginputs, pendingoutputs, approved := GetCurrencyTXsPreparedBy(pool, owner);
    ghost var all;
    total, used, all := ChooseSpendableOutputs(db, owner, amount, pendinginputs, m);
    SpendableLists(pool.table, m, owner, Names(pendinginputs), all, pendingoutputs);
    ghost var taken := 0;
    if total < amount {
      if |pendingoutputs| == 0 {
        SomeAreUsed(all, pendingoutputs, used, 0, Spendable(pool.table, m, owner));
        return;
      }
      total, used, taken := ExtendInputs(amount, total, used, pendingoutputs);
    }
    SomeAreUsed(all, pendingoutputs, used, taken, Spendable(pool.table, m, owner));
  }

  lemma {:induction false} PrefixOfJoin(a: seq<UnspentOut>, b: seq<UnspentOut>, used: seq<UnspentOut>, k: nat)
    requires used <= a && k <= |b|
    ensures used == (a + b)[..|used|]
    ensures a + b[..k] == (a + b)[..|a| + k]
  {
  }

  /** The two lists together are the spendable outputs. */
  lemma {:induction false} SpendableLists(pool: Txs, m: Utxo, owner: KeyHash, paid: set<OutPoint>, a: seq<UnspentOut>,
      b: seq<UnspentOut>)
    requires Keyed(pool) && PendingOnly(pool, m) && NoNegative(m) && NoNegative(PoolOuts(pool))
    requires paid == PaidBy(pool, owner)
    requires Lists(a, Mine(m, owner, paid)) && Lists(b, Own(PoolOuts(pool), owner) - paid)
    ensures Lists(a + b, Spendable(pool, m, owner))
    ensures Total(Spendable(pool, m, owner)) == SumValues(a) + SumValues(b) == SumValues(a + b)
    ensures SumValues(b) >= 0 && forall k | 0 <= k < |b| :: b[k].value >= 0
  {
    var x, y := Own(m, owner) - paid, Own(PoolOuts(pool), owner) - paid;
    assert Mine(m, owner, paid) == x;
    assert x.Keys !! y.Keys;
    ListsJoin(a, x, b, y);
    ListedTotal(a + b, x + y);
    SumJoin(a, b);
    ValuesAreCoins(b, y);
    PrefixSum(b, 0);
  }

  lemma {:induction false} ValuesAreCoins(outs: seq<UnspentOut>, n: Utxo)
    requires Lists(outs, n) && NoNegative(n)
    ensures forall k | 0 <= k < |outs| :: outs[k].value >= 0
  {
    forall k | 0 <= k < |outs| ensures outs[k].value >= 0 {
      assert RecordOf(outs[k], n);
    }
  }

  lemma {:induction false} SumJoin(a: seq<UnspentOut>, b: seq<UnspentOut>)
    ensures SumValues(a + b) == SumValues(a) + SumValues(b)
  {
    if b == [] {
      assert a + b == a;
    } else {
      SumJoin(a, b[..|b| - 1]);
      assert (a + b)[..|a + b| - 1] == a + b[..|b| - 1];
    }
  }

  lemma {:induction false} SomeAreUsed(a: seq<UnspentOut>, b: seq<UnspentOut>, used: seq<UnspentOut>, k: nat, n: Utxo)
    requires Lists(a + b, n) && k <= |b| && (used <= a || used == a + b[..k])
    ensures Uses(used, n)
  {
    PrefixOfJoin(a, b, if used <= a then used else a, k);
  }

  // ----- what a prepared payment is worth

  lemma {:induction false} SpendableIsOwn(pool: Txs, m: Utxo, owner: KeyHash, p: OutPoint)
    requires Keyed(pool) && p in Spendable(pool, m, owner)
    ensures Spendable(pool, m, owner)[p].owner == owner && p !in PaidBy(pool, owner)
    ensures if p in PoolOuts(pool) && PoolOuts(pool)[p].owner == owner then true else p in m && m[p].owner == owner
  {
  }

  lemma {:induction false} SourcesAddUp(used: seq<UnspentOut>, srcs: seq<Tx>)
    requires |srcs| == |used|
    requires forall k | 0 <= k < |used| :: HoldsOutput(srcs[k], used[k])
    ensures TotalOf(Points(used), srcs) == SumValues(used)
  {
    if used != [] {
      var n := |used| - 1;
      SourcesAddUp(used[..n], srcs[..n]);
      assert Points(used)[..n] == Points(used[..n]);
      assert HoldsOutput(srcs[n], used[n]);
    }
  }

  /** The record describes an output of the transaction. */
  predicate HoldsOutput(src: Tx, o: UnspentOut)
  {
    0 <= o.index < |src.vout| && src.vout[o.index] == TxOut(o.value, o.owner)
  }

  lemma {:induction false} OutsAddUp(amount: int, total: int, to: KeyHash, owner: KeyHash)
    requires total >= amount > 0
    ensures SumOut(PaymentOuts(amount, total, to, owner)) == if total - amount == 1 then amount else total
    ensures forall k | 0 <= k < |PaymentOuts(amount, total, to, owner)| ::
      PaymentOuts(amount, total, to, owner)[k].value >= 1
  {
    var pay, change := TxOut(amount, to), TxOut(total - amount, owner);
    assert [pay][..0] == [] && [pay, change][..1] == [pay];
    assert SumOut([pay]) == SumOut([]) + amount;
  }

  /** A prepared payment passes Verify exactly when the change is not one smallest
      unit: such a change is left out, and then the totals differ. */
  lemma {:induction false} PaymentPassesIff(used: seq<UnspentOut>, pool: Txs, m: Utxo, owner: KeyHash, to: KeyHash,
      amount: int, tx: Tx, srcs: seq<Tx>)
    requires Keyed(pool) && Uses(used, Spendable(pool, m, owner)) && SumValues(used) >= amount > 0
    requires tx.vin == Points(used) && tx.vout == PaymentOuts(amount, SumValues(used), to, owner) && tx.signer == owner
    requires |srcs| == |used| && forall k | 0 <= k < |used| :: HoldsOutput(srcs[k], used[k])
    ensures Settled(tx, srcs) <==> SumValues(used) - amount != 1
  {
    SourcesAddUp(used, srcs);
    OutsAddUp(amount, SumValues(used), to, owner);
    SourcesAreOwn(used, pool, m, owner, tx.vin, srcs);
    SettledIffEqual(tx, srcs);
  }

  lemma {:induction false} SettledIffEqual(tx: Tx, srcs: seq<Tx>)
    requires |srcs| == |tx.vin| && OwnSources(tx.vin, srcs, tx.signer)
    requires forall k | 0 <= k < |tx.vout| :: tx.vout[k].value >= 1
    ensures Settled(tx, srcs) <==> TotalOf(tx.vin, srcs) == SumOut(tx.vout)
  {
  }

  ghost predicate OwnSources(vin: seq<OutPoint>, srcs: seq<Tx>, owner: KeyHash)
    requires |srcs| == |vin|
  {
    forall k | 0 <= k < |vin| :: 0 <= vin[k].vout < |srcs[k].vout| && srcs[k].vout[vin[k].vout].owner == owner
  }

  lemma {:induction false} SourcesAreOwn(used: seq<UnspentOut>, pool: Txs, m: Utxo, owner: KeyHash, vin: seq<OutPoint>,
      srcs: seq<Tx>)
    requires vin == Points(used) && Keyed(pool) && Uses(used, Spendable(pool, m, owner))
    requires |srcs| == |used| && forall k | 0 <= k < |used| :: HoldsOutput(srcs[k], used[k])
    ensures OwnSources(vin, srcs, owner)
  {
    forall k | 0 <= k < |vin| ensures 0 <= vin[k].vout < |srcs[k].vout| && srcs[k].vout[vin[k].vout].owner == owner {
      assert HoldsOutput(srcs[k], used[k]) && RecordOf(used[k], Spendable(pool, m, owner));
      SpendableIsOwn(pool, m, owner, PointOf(used[k]));
    }
  }

  /** Pending transactions are no rewards and use what belongs to their signers. */
  ghost predicate OwnedBySigners(pool: Txs, m: Utxo)
    requires Keyed(pool)
  {
    forall id | id in pool :: SignerOwns(pool[id], m) && SignerOwns(pool[id], PoolOuts(pool))
  }

  ghost predicate SignerOwns(tx: Tx, m: Utxo)
  {
    !tx.IsCoinbase() && forall p | p in tx.vin && p in m :: m[p].owner == tx.signer
  }

  /** And it never conflicts with a pending transaction. */
  lemma {:induction false} PaymentIsFree(used: seq<UnspentOut>, pool: Txs, m: Utxo, owner: KeyHash, tx: Tx)
    requires Keyed(pool) && OwnedBySigners(pool, m) && Uses(used, Spendable(pool, m, owner))
    requires tx.vin == Points(used) && tx.sql == NoSql
    ensures Distinct(tx.vin) && !ConflictsWithSome(tx, pool)
  {
    forall id | id in pool ensures !SharesInput(tx, pool[id]) {
      forall k | 0 <= k < |used| ensures PointOf(used[k]) !in pool[id].vin {
        UsedIsFree(used, pool, m, owner, k, id);
      }
    }
    forall i, j | 0 <= i < j < |tx.vin| ensures tx.vin[i] != tx.vin[j] {
      assert PointOf(used[i]) != PointOf(used[j]);
    }
  }

  lemma {:induction false} UsedIsFree(used: seq<UnspentOut>, pool: Txs, m: Utxo, owner: KeyHash, k: nat, id: TxId)
    requires Keyed(pool) && OwnedBySigners(pool, m) && Uses(used, Spendable(pool, m, owner)) && k < |used| && id in pool
    ensures PointOf(used[k]) !in pool[id].vin
  {
    assert RecordOf(used[k], Spendable(pool, m, owner));
    SpendableIsOwn(pool, m, owner, PointOf(used[k]));
    assert SignerOwns(pool[id], m) && SignerOwns(pool[id], PoolOuts(pool));
  }
}
