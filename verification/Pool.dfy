/** The pool of transactions that wait for a block: a table, and in memory a copy
    of it that may be missing. */
module Pool {
  import opened Types
  import opened Ledger

  type Txs = map<TxId, Tx>

  // ----- conflicts

  predicate SharesInput(a: Tx, b: Tx)
  {
    exists p | p in a.vin :: p in b.vin
  }

  /** Two commands that continue the same row from the same base. */
  predicate SameStep(a: Tx, b: Tx)
  {
    && a.sql != NoSql && b.sql != NoSql && b.base != NoTx && b.sql.ref != NoRef
    && a.base == b.base && a.sql.ref == b.sql.ref
  }

  predicate Conflict(a: Tx, b: Tx)
  {
    a.id != b.id && (SharesInput(a, b) || SameStep(a, b))
  }

  ghost predicate ConflictFree(pool: Txs)
  {
    forall i, j | i in pool && j in pool :: !Conflict(pool[i], pool[j])
  }

  ghost predicate Keyed(pool: Txs)
  {
    forall id | id in pool :: pool[id].id == id
  }

  ghost predicate DistinctIds(txs: seq<Tx>)
  {
    forall i, j | 0 <= i < j < |txs| :: txs[i].id != txs[j].id
  }

  ghost predicate ConflictsWithSome(tx: Tx, pool: Txs)
  {
    exists id | id in pool :: Conflict(tx, pool[id])
  }

  lemma {:induction false} ConflictBothWays(a: Tx, b: Tx)
    ensures Conflict(a, b) <==> Conflict(b, a)
  {
    if SharesInput(a, b) {
      var p :| p in a.vin && p in b.vin;
      assert SharesInput(b, a);
    }
    if SharesInput(b, a) {
      var p :| p in b.vin && p in a.vin;
      assert SharesInput(a, b);
    }
  }

  // ----- what the operations do to the set of pending transactions

  datatype Op =
    | Add(tx: Tx)
    | Delete(id: TxId)
    | DeleteFromBlock(block: Block)
    | AddFromCanceled(block: Block)
    | RenewCache
    | Clean

  /** A transaction joins unless it conflicts with another one. */
  ghost function Added(pool: Txs, tx: Tx): Txs
  {
    if ConflictsWithSome(tx, pool) then pool else pool[tx.id := tx]
  }

  ghost function AddedAll(pool: Txs, txs: seq<Tx>): Txs
  {
    if txs == [] then pool
    else
      var before := AddedAll(pool, txs[..|txs| - 1]);
      if txs[|txs| - 1].IsCoinbase() then before else Added(before, txs[|txs| - 1])
  }

  function Ids(txs: seq<Tx>): set<TxId>
  {
    set tx | tx in txs && !tx.IsCoinbase() :: tx.id
  }

  ghost function Step(pool: Txs, op: Op): Txs
  {
    match op
    case Add(tx) => Added(pool, tx)
    case Delete(id) => pool - {id}
    case DeleteFromBlock(b) => pool - Ids(b.txs)
    case AddFromCanceled(b) => AddedAll(pool, b.txs)
    case RenewCache => pool
    case Clean => map[]
  }

  ghost function Run(ops: seq<Op>): Txs
  {
    if ops == [] then map[] else Step(Run(ops[..|ops| - 1]), ops[|ops| - 1])
  }

  ghost predicate PoolOk(pool: Txs)
  {
    Keyed(pool) && ConflictFree(pool)
  }

  lemma {:induction false} AddedOk(pool: Txs, tx: Tx)
    requires PoolOk(pool)
    ensures PoolOk(Added(pool, tx))
  {
    var after := Added(pool, tx);
    forall i, j | i in after && j in after ensures !Conflict(after[i], after[j]) {
      if i in pool { ConflictBothWays(tx, pool[i]); }
      if i in pool && j in pool { assert !Conflict(pool[i], pool[j]); }
    }
  }

  lemma {:induction false} AddedAllOk(pool: Txs, txs: seq<Tx>)
    requires PoolOk(pool)
    ensures PoolOk(AddedAll(pool, txs))
  {
    if txs != [] {
      AddedAllOk(pool, txs[..|txs| - 1]);
      AddedOk(AddedAll(pool, txs[..|txs| - 1]), txs[|txs| - 1]);
    }
  }

  lemma {:induction false} FewerOk(pool: Txs, ids: set<TxId>)
    requires PoolOk(pool)
    ensures PoolOk(pool - ids)
  {
    forall i, j | i in pool - ids && j in pool - ids ensures !Conflict((pool - ids)[i], (pool - ids)[j]) {
      assert !Conflict(pool[i], pool[j]);
    }
  }

  lemma {:induction false} StepOk(pool: Txs, op: Op)
    requires PoolOk(pool)
    ensures PoolOk(Step(pool, op))
  {
    match op
    case Add(tx) => AddedOk(pool, tx);
    case Delete(id) => FewerOk(pool, {id});
    case DeleteFromBlock(b) => FewerOk(pool, Ids(b.txs));
    case AddFromCanceled(b) => AddedAllOk(pool, b.txs);
    case RenewCache =>
    case Clean =>
  }

  /** A transaction with this id, no reward, is in the list. */
  ghost predicate Holds(txs: seq<Tx>, id: TxId)
  {
    exists t | 0 <= t < |txs| :: txs[t].id == id && !txs[t].IsCoinbase()
  }

  lemma {:induction false} IdsAreHeld(txs: seq<Tx>, id: TxId)
    ensures id in Ids(txs) <==> Holds(txs, id)
  {
    if id in Ids(txs) {
      var tx :| tx in txs && !tx.IsCoinbase() && tx.id == id;
      var t :| 0 <= t < |txs| && txs[t] == tx;
    }
  }

  /** After every run of operations no two pending transactions share an input,
      and no two continue the same row from the same base. */
  lemma {:induction false} PoolIsSafe(ops: seq<Op>, a: TxId, b: TxId)
    requires a in Run(ops) && b in Run(ops) && a != b
    ensures Run(ops)[a].id == a && Run(ops)[b].id == b
    ensures Names(Run(ops)[a].vin) !! Names(Run(ops)[b].vin)
    ensures
      var x, y := Run(ops)[a], Run(ops)[b];
      x.sql == NoSql || y.sql == NoSql || x.base == NoTx || x.sql.ref == NoRef || x.base != y.base ||
      x.sql.ref != y.sql.ref
  {
    RunOk(ops);
    var x, y := Run(ops)[a], Run(ops)[b];
    assert !Conflict(x, y);
    forall p | p in Names(x.vin) ensures p !in Names(y.vin) { }
  }

  lemma {:induction false} RunOk(ops: seq<Op>)
    ensures PoolOk(Run(ops))
  {
    if ops != [] {
      RunOk(ops[..|ops| - 1]);
      StepOk(Run(ops[..|ops| - 1]), ops[|ops| - 1]);
    }
  }

  // ----- what comes back with a cancelled block

  /** Ids differ, and an id that is pending is that of the same transaction. */
  ghost predicate IdsAgree(pool: Txs, txs: seq<Tx>)
  {
    DistinctIds(txs) && forall t | 0 <= t < |txs| && txs[t].id in pool :: pool[txs[t].id] == txs[t]
  }

  /** A transaction comes back: it is no reward, and is pending. */
  ghost predicate Returns(txs: seq<Tx>, t: nat, now: Txs)
  {
    t < |txs| && !txs[t].IsCoinbase() && txs[t].id in now && now[txs[t].id] == txs[t]
  }

  /** A transaction conflicts neither with what was pending nor with an earlier one of
      the block that comes back. */
  ghost predicate IsFree(pool: Txs, txs: seq<Tx>, t: nat, now: Txs)
    requires t < |txs|
  {
    !ConflictsWithSome(txs[t], pool) && forall u: nat | u < t && Returns(txs, u, now) :: !Conflict(txs[t], txs[u])
  }

  /** What was pending stays, and nothing is added but transactions of the block. Of
      these exactly those come back that are no rewards and are free. */
  ghost predicate BroughtBack(pool: Txs, txs: seq<Tx>, now: Txs)
  {
    && (forall id | id in pool :: id in now && now[id] == pool[id])
    && (forall id | id in now && id !in pool :: exists t: nat :: Returns(txs, t, now) && txs[t].id == id)
    && (forall t: nat | t < |txs| && !txs[t].IsCoinbase() ::
          Returns(txs, t, now) <==> IsFree(pool, txs, t, now))
  }

  lemma {:induction false} AddedAllMeans(pool: Txs, txs: seq<Tx>)
    requires PoolOk(pool) && IdsAgree(pool, txs)
    ensures BroughtBack(pool, txs, AddedAll(pool, txs))
  {
    if txs != [] {
      AddedAllMeans(pool, txs[..|txs| - 1]);
      BroughtBackNext(pool, txs, AddedAll(pool, txs[..|txs| - 1]), AddedAll(pool, txs));
    }
  }

  lemma {:induction false} BroughtBackNext(pool: Txs, txs: seq<Tx>, mid: Txs, now: Txs)
    requires PoolOk(pool) && IdsAgree(pool, txs) && txs != [] && BroughtBack(pool, txs[..|txs| - 1], mid)
    requires now == if txs[|txs| - 1].IsCoinbase() then mid else Added(mid, txs[|txs| - 1])
    ensures BroughtBack(pool, txs, now)
  {
    var n := |txs| - 1;
    SameReturns(txs, n, mid, now);
    if !txs[n].IsCoinbase() {
      LastReturns(pool, txs[..n], mid, txs[n]);
      LastIsFree(pool, txs, mid, now);
    }
    AddedCameBack(pool, txs, n, mid, now);
    RestIsFree(pool, txs, n, mid, now);
  }

  lemma {:induction false} AddedCameBack(pool: Txs, txs: seq<Tx>, n: nat, mid: Txs, now: Txs)
    requires n + 1 == |txs| && BroughtBack(pool, txs[..n], mid)
    requires now == mid || (now == mid[txs[n].id := txs[n]] && !txs[n].IsCoinbase())
    requires forall t: nat | t < n :: Returns(txs, t, now) <==> Returns(txs[..n], t, mid)
    ensures forall id | id in now && id !in pool :: exists t: nat :: Returns(txs, t, now) && txs[t].id == id
  {
    forall id | id in now && id !in pool ensures exists t: nat :: Returns(txs, t, now) && txs[t].id == id {
      if id in mid {
        var t: nat :| Returns(txs[..n], t, mid) && txs[..n][t].id == id;
        assert Returns(txs, t, now);
      } else {
        assert Returns(txs, n, now);
      }
    }
  }

  lemma {:induction false} RestIsFree(pool: Txs, txs: seq<Tx>, n: nat, mid: Txs, now: Txs)
    requires n + 1 == |txs| && BroughtBack(pool, txs[..n], mid)
    requires forall t: nat | t < n :: Returns(txs, t, now) <==> Returns(txs[..n], t, mid)
    ensures forall t: nat | t < n && !txs[t].IsCoinbase() :: Returns(txs, t, now) <==> IsFree(pool, txs, t, now)
  {
    forall t: nat | t < n && !txs[t].IsCoinbase() ensures Returns(txs, t, now) <==> IsFree(pool, txs, t, now) {
      assert Returns(txs[..n], t, mid) <==> IsFree(pool, txs[..n], t, mid);
      SameFree(pool, txs, n, mid, now, t);
    }
  }

  /** The last one does not change which earlier ones come back. */
  lemma {:induction false} SameReturns(txs: seq<Tx>, n: nat, mid: Txs, now: Txs)
    requires DistinctIds(txs) && n + 1 == |txs| && (now == mid || now == mid[txs[n].id := txs[n]])
    ensures forall t: nat | t < n :: Returns(txs, t, now) <==> Returns(txs[..n], t, mid)
  {
  }

  lemma {:induction false} SameFree(pool: Txs, txs: seq<Tx>, n: nat, mid: Txs, now: Txs, t: nat)
    requires t < n < |txs| && forall u: nat | u < n :: Returns(txs, u, now) <==> Returns(txs[..n], u, mid)
    ensures IsFree(pool, txs, t, now) <==> IsFree(pool, txs[..n], t, mid)
  {
  }

  lemma {:induction false} LastIsFree(pool: Txs, txs: seq<Tx>, mid: Txs, now: Txs)
    requires txs != [] && !txs[|txs| - 1].IsCoinbase()
    requires forall u: nat | u < |txs| - 1 :: Returns(txs, u, now) <==> Returns(txs[..|txs| - 1], u, mid)
    requires
      var tx, init := txs[|txs| - 1], txs[..|txs| - 1];
      && (ConflictsWithSome(tx, mid) <==>
            ConflictsWithSome(tx, pool) || exists u: nat :: Returns(init, u, mid) && Conflict(tx, init[u]))
      && (tx.id in mid ==> mid[tx.id] == tx && !ConflictsWithSome(tx, mid))
      && now == Added(mid, tx)
    ensures Returns(txs, |txs| - 1, now) <==> IsFree(pool, txs, |txs| - 1, now)
  {
    var tx, init, n := txs[|txs| - 1], txs[..|txs| - 1], |txs| - 1;
    if u: nat :| Returns(init, u, mid) && Conflict(tx, init[u]) {
      assert u < n && Returns(txs, u, now) && init[u] == txs[u];
    }
    if u: nat :| u < n && Returns(txs, u, now) && Conflict(tx, txs[u]) {
      assert Returns(init, u, mid) && init[u] == txs[u];
    }
  }

  /** The last transaction conflicts with something pending exactly when it conflicts
      with what was pending at first or with one that came back. */
  lemma {:induction false} LastReturns(pool: Txs, init: seq<Tx>, mid: Txs, tx: Tx)
    requires PoolOk(pool) && BroughtBack(pool, init, mid) && (tx.id in pool ==> pool[tx.id] == tx)
    requires forall t | 0 <= t < |init| :: init[t].id != tx.id
    ensures ConflictsWithSome(tx, mid) <==>
      ConflictsWithSome(tx, pool) || exists u: nat :: Returns(init, u, mid) && Conflict(tx, init[u])
    ensures tx.id in mid ==> mid[tx.id] == tx && !ConflictsWithSome(tx, mid)
  {
    if ConflictsWithSome(tx, mid) {
      var id :| id in mid && Conflict(tx, mid[id]);
      if id !in pool {
        var u: nat :| Returns(init, u, mid) && init[u].id == id;
        assert Conflict(tx, init[u]);
      }
    }
    if u: nat :| Returns(init, u, mid) && Conflict(tx, init[u]) {
      assert init[u].id in mid;
    }
    if tx.id in mid {
      assert tx.id in pool;
      forall u: nat | Returns(init, u, mid) ensures !Conflict(tx, init[u]) {
        ConflictBothWays(tx, init[u]);
        assert !Conflict(init[u], pool[tx.id]);
      }
    }
  }

  /** So a transaction that conflicts with nothing pending and with no other one of the
      block comes back, and what does not come back conflicts with a pending one. */
  lemma {:induction false} BroughtBackMeans(pool: Txs, txs: seq<Tx>, now: Txs, t: nat)
    requires BroughtBack(pool, txs, now) && t < |txs| && !txs[t].IsCoinbase()
    ensures !ConflictsWithSome(txs[t], pool) && (forall u | 0 <= u < |txs| :: !Conflict(txs[t], txs[u])) ==>
      txs[t].id in now && now[txs[t].id] == txs[t]
    ensures (txs[t].id in now && now[txs[t].id] == txs[t]) || ConflictsWithSome(txs[t], now)
  {
    if !Returns(txs, t, now) {
      if ConflictsWithSome(txs[t], pool) {
        var id :| id in pool && Conflict(txs[t], pool[id]);
        assert id in now && Conflict(txs[t], now[id]);
      } else {
        var u: nat :| u < t && Returns(txs, u, now) && Conflict(txs[t], txs[u]);
        assert txs[u].id in now && Conflict(txs[t], now[txs[u].id]);
      }
    }
  }

  // ----- the pool

  const MAX_IN_MEMORY := 20000

  class UnapprovedTransactions {
    var table: Txs
    var cache: Option<Txs>

    /** The copy in memory, when there is one, is the table. */
    ghost predicate Valid()
      reads this
    {
      PoolOk(table) && (cache == None || cache.value == table)
    }

    constructor ()
      ensures Valid() && table == map[]
    {
      table, cache := map[], Some(map[]);
    }

    /** renewCache: no copy is kept of a large table. */
    method RenewCache() returns (ok: bool)
      requires Valid()
      modifies this`cache
      ensures Valid() && (ok <==> |table| <= MAX_IN_MEMORY) && (cache == if ok then Some(table) else None)
    {
      cache := None;
      if |table| > MAX_IN_MEMORY {
        return false;
      }
      var copy: Txs := map[];
      var left := table.Keys;
      while left != {}
        invariant left <= table.Keys && copy.Keys == table.Keys - left && cache == None
        invariant forall id | id in copy :: copy[id] == table[id]
        decreases left
      {
        var id :| id in left;
        copy := copy[id := table[id]];
        left := left - {id};
      }
      assert copy == table;
      cache := Some(copy);
      return true;
    }

    /** GetIfExists. */
    method GetIfExists(id: TxId) returns (tx: Option<Tx>)
      requires Valid()
      ensures tx == if id in table then Some(table[id]) else None
    {
      if cache != None {
        return if id in cache.value then Some(cache.value[id]) else None;
      }
      return if id in table then Some(table[id]) else None;
    }

    /** DetectConflictsForNew. Over the copy in memory the search stops at the first
        conflict, over the table it goes on to the last. */
    method DetectConflictsForNew(tx: Tx) returns (found: Option<Tx>)
      requires Valid()
      ensures found == None <==> !ConflictsWithSome(tx, table)
      ensures found != None ==>
        found.value.id in table && table[found.value.id] == found.value && Conflict(tx, found.value)
      ensures found != None ==>
        || (exists p | p in tx.vin :: p in found.value.vin)
        || (tx.sql != NoSql && found.value.sql != NoSql && tx.base == found.value.base != NoTx &&
              tx.sql.ref == found.value.sql.ref != NoRef)
    {
      found := None;
      var left := if cache != None then cache.value.Keys else table.Keys;
      while left != {}
        invariant left <= table.Keys
        invariant found == None ==> forall id | id in table && id !in left :: !Conflict(tx, table[id])
        invariant found != None ==>
          found.value.id in table && table[found.value.id] == found.value && Conflict(tx, found.value)
        decreases left
      {
        var id :| id in left;
        left := left - {id};
        if Conflict(tx, table[id]) {
          found := Some(table[id]);
          if cache != None {
            return;
          }
        }
      }
    }

    method Add(tx: Tx) returns (ok: bool)
      requires Valid()
      modifies this
      ensures Valid() && table == Step(old(table), Op.Add(tx))
      ensures ok <==> !ConflictsWithSome(tx, old(table))
      ensures cache == None <==> old(cache) == None
    {
      var conflicts := DetectConflictsForNew(tx);
      if conflicts != None {
        return false;
      }
      AddedOk(table, tx);
      table := table[tx.id := tx];
      if cache != None {
        cache := Some(cache.value[tx.id := tx]);
      }
      return true;
    }

    method Delete(id: TxId) returns (found: bool)
      requires Valid()
      modifies this
      ensures Valid() && table == Step(old(table), Op.Delete(id))
      ensures found <==> id in old(table)
      ensures cache == None <==> old(cache) == None
    {
      if id !in table {
        return false;
      }
      FewerOk(table, {id});
      table := table - {id};
      if cache != None {
        cache := Some(cache.value - {id});
      }
      return true;
    }

    method DeleteFromBlock(block: Block)
      requires Valid()
      modifies this
      ensures Valid() && table == Step(old(table), Op.DeleteFromBlock(block))
      ensures forall id :: id in table <==> id in old(table) && !Holds(block.txs, id)
      ensures forall id | id in table :: table[id] == old(table)[id]
    {
      for i := 0 to |block.txs|
        invariant Valid() && table == old(table) - Ids(block.txs[..i])
      {
        var tx := block.txs[i];
        IdsNext(block.txs, i);
        if !tx.IsCoinbase() {
          var found := Delete(tx.id);
        }
      }
      assert block.txs[..|block.txs|] == block.txs;
      forall id ensures id in Ids(block.txs) <==> Holds(block.txs, id) {
        IdsAreHeld(block.txs, id);
      }
    }

    /** AddFromCanceled: transactions that conflict are left out. */
    method AddFromCanceled(block: Block)
      requires Valid()
      modifies this
      ensures Valid() && table == Step(old(table), Op.AddFromCanceled(block))
      ensures IdsAgree(old(table), block.txs) ==> BroughtBack(old(table), block.txs, table)
    {
      if IdsAgree(table, block.txs) {
        AddedAllMeans(table, block.txs);
      }
      for i := 0 to |block.txs|
        invariant Valid() && table == AddedAll(old(table), block.txs[..i])
      {
        var tx := block.txs[i];
        assert block.txs[..i + 1][..i] == block.txs[..i];
        if !tx.IsCoinbase() {
          var ok := Add(tx);
        }
      }
      assert block.txs[..|block.txs|] == block.txs;
    }

    /** CleanUnapprovedCache. */
    method CleanUnapprovedCache()
      requires Valid()
      modifies this
      ensures Valid() && table == Step(old(table), Op.Clean) == map[]
    {
      table, cache := map[], Some(map[]);
    }

    /** FindSQLBasedOnTransaction. */
    method FindSQLBasedOnTransaction(id: TxId) returns (ids: seq<TxId>)
      requires Valid()
      ensures forall x :: x in ids <==> x in BasedOn(table, id)
      ensures forall x :: x in ids <==> x in table && table[x].sql != NoSql && table[x].base == id
      ensures forall i, j | 0 <= i < j < |ids| :: ids[i] != ids[j]
    {
      ids := [];
      var left := if cache != None then cache.value.Keys else table.Keys;
      while left != {}
        invariant left <= table.Keys
        invariant forall x :: x in ids <==> x in BasedOn(table, id) && x !in left
        invariant forall i, j | 0 <= i < j < |ids| :: ids[i] != ids[j]
        decreases left
      {
        var x :| x in left;
        var tx := table[x];
        if tx.IsSql() && tx.base == id {
          ids := ids + [tx.id];
        }
        left := left - {x};
      }
    }
  }

  function BasedOn(pool: Txs, id: TxId): set<TxId>
  {
    set x | x in pool && pool[x].sql != NoSql && pool[x].base == id
  }

  lemma {:induction false} IdsNext(txs: seq<Tx>, i: nat)
    requires i < |txs|
    ensures Ids(txs[..i + 1]) == Ids(txs[..i]) + if txs[i].IsCoinbase() then {} else {txs[i].id}
  {
    assert txs[..i + 1] == txs[..i] + [txs[i]];
  }

  lemma {:induction false} OneFewer(pool: Txs, id: TxId)
    requires id in pool
    ensures |pool - {id}| == |pool| - 1
  {
    assert (pool - {id}).Keys == pool.Keys - {id};
    assert |pool| == |pool.Keys| && |pool - {id}| == |(pool - {id}).Keys|;
  }
}
