/** The cascade of cancellations: before a block is executed, pending transactions
    in conflict with its commands leave the pool, with all that is based on them,
    and their undo statements run in the order in which they are found. */
module Cascade {
  import opened Types
  import opened Database
  import opened SqlHistory
  import opened Pool
  import opened CascadeOrder
  import opened CascadeFate

  /** CancelTransaction: runs the undo statement, then deletes; an undo that fails
      stops the cancellation. */
  method CancelTransaction(pool: UnapprovedTransactions, db: DB, id: TxId) returns (ok: bool)
    requires pool.Valid()
    modifies pool, db`rows
    ensures pool.Valid()
    ensures ok <==> id in old(pool.table) && Undo(old(db.rows), old(pool.table)[id].sql) != None
    ensures ok ==> pool.table == old(pool.table) - {id} && Undo(old(db.rows), old(pool.table)[id].sql) == Some(db.rows)
    ensures !ok ==> pool.table == old(pool.table) && db.rows == old(db.rows)
  {
    var tx := pool.GetIfExists(id);
    if tx == None {
      return false;
    }
    if tx.value.IsSql() {
      if tx.value.sql.rollback == None {
        return false;
      }
      var done := ExecuteSql(db, tx.value.sql.rollback.value);
      if !done {
        return false;
      }
    }
    ok := pool.Delete(id);
  }

  lemma {:induction false} OneGone(start: Txs, now: Txs, id: TxId)
    requires Sub(now, start) && id in now
    ensures Sub(now - {id}, start) && Gone(start, now - {id}) == Gone(start, now) + {id} && |now - {id}| == |now| - 1
  {
    OneFewer(now, id);
  }

  /** One cancellation of the cascade. */
  method CancelFound(pool: UnapprovedTransactions, db: DB, id: TxId, ghost txs: seq<Tx>, ghost pool0: Txs,
      ghost rows0: Rows, ghost order: seq<TxId>)
    returns (ok: bool)
    requires pool.Valid() && CancelledSoFar(pool0, rows0, txs, order, pool.table, db.rows)
    requires id in pool.table && FoundAfter(pool0, txs, order, id)
    modifies pool, db`rows
    ensures pool.Valid()
    ensures ok ==> CancelledSoFar(pool0, rows0, txs, order + [id], pool.table, db.rows)
    ensures ok ==> pool.table == old(pool.table) - {id} && |pool.table| == |old(pool.table)| - 1
    ensures !ok ==> pool.table == old(pool.table) && db.rows == old(db.rows)
    ensures !ok ==> Stuck(pool0, txs, order, pool.table, db.rows)
  {
    OneGone(pool0, pool.table, id);
    OneMoreFound(rows0, pool0, txs, order, id);
    ok := CancelTransaction(pool, db, id);
    if !ok {
      assert StuckAfter(pool0, txs, order, pool.table, db.rows, id);
    }
  }

  /** The loop over the conflicts of one transaction of the block. */
  method CancelConflicts(pool: UnapprovedTransactions, db: DB, deleted0: seq<TxId>, ghost txs: seq<Tx>, ghost t: nat,
      tx: Tx, ghost pool0: Txs, ghost rows0: Rows)
    returns (ok: bool, deleted: seq<TxId>)
    requires t < |txs| && tx == txs[t] && tx.sql != NoSql && pool.Valid() && NoConflicts(txs, t, pool.table)
    requires CancelledSoFar(pool0, rows0, txs, deleted0, pool.table, db.rows)
    modifies pool, db`rows
    ensures pool.Valid() && CancelledSoFar(pool0, rows0, txs, deleted, pool.table, db.rows)
    ensures ok ==> NoConflicts(txs, t + 1, pool.table)
    ensures !ok ==> Stuck(pool0, txs, deleted, pool.table, db.rows)
  {
    deleted := deleted0;
    while true
      invariant pool.Valid() && NoConflicts(txs, t, pool.table)
      invariant CancelledSoFar(pool0, rows0, txs, deleted, pool.table, db.rows)
      decreases |pool.table|
    {
      var conflict := pool.DetectConflictsForNew(tx);
      if conflict == None {
        NextConflictFree(txs, t, pool.table);
        return true, deleted;
      }
      ghost var was := pool.table;
      ConflictIsFound(pool0, pool.table, txs, t, deleted, conflict.value.id);
      ok := CancelFound(pool, db, conflict.value.id, txs, pool0, rows0, deleted);
      if !ok {
        return;
      }
      deleted := deleted + [conflict.value.id];
      FewerConflicts(txs, t, was, pool.table);
    }
  }

  lemma {:induction false} ConflictIsFound(pool0: Txs, pool: Txs, txs: seq<Tx>, t: nat, order: seq<TxId>, id: TxId)
    requires Sub(pool, pool0) && ListsGone(order, pool0, pool) && NoConflicts(txs, t, pool) && t < |txs|
    requires id in pool && txs[t].sql != NoSql && Conflict(txs[t], pool[id])
    ensures FoundAfter(pool0, txs, order, id)
  {
    forall u: nat, x | u < t && Hits(pool0, txs, u, x) ensures x in order {
      assert !ConflictsWithSome(txs[u], pool);
    }
    assert FoundAt(pool0, txs, order, id, t);
  }

  /** The first part of rollbackConflictingFromPool: direct conflicts. */
  method CancelDirect(pool: UnapprovedTransactions, db: DB, txList: seq<Tx>) returns (ok: bool, deleted: seq<TxId>)
    requires pool.Valid()
    modifies pool, db`rows
    ensures pool.Valid() && CancelledSoFar(old(pool.table), old(db.rows), txList, deleted, pool.table, db.rows)
    ensures ok ==> NoConflicts(txList, |txList|, pool.table)
    ensures !ok ==> Stuck(old(pool.table), txList, deleted, pool.table, db.rows)
  {
    ghost var pool0, rows0 := pool.table, db.rows;
    deleted := [];
    for i := 0 to |txList|
      invariant pool.Valid() && CancelledSoFar(pool0, rows0, txList, deleted, pool.table, db.rows)
      invariant NoConflicts(txList, i, pool.table)
    {
      if txList[i].IsSql() {
        ok, deleted := CancelConflicts(pool, db, deleted, txList, i, txList[i], pool0, rows0);
        if !ok {
          return;
        }
      } else {
        NextConflictFree(txList, i, pool.table);
      }
    }
    return true, deleted;
  }

  lemma {:induction false} NextConflictFree(txs: seq<Tx>, i: nat, pool: Txs)
    requires NoConflicts(txs, i, pool) && i < |txs| && (txs[i].sql != NoSql ==> !ConflictsWithSome(txs[i], pool))
    ensures NoConflicts(txs, i + 1, pool)
  {
  }

  lemma {:induction false} FewerConflicts(txs: seq<Tx>, i: nat, was: Txs, now: Txs)
    requires Sub(now, was) && NoConflicts(txs, i, was)
    ensures NoConflicts(txs, i, now)
  {
    forall t | 0 <= t < i && t < |txs| && ConflictsWithSome(txs[t], now) ensures ConflictsWithSome(txs[t], was) {
      var id :| id in now && Conflict(txs[t], now[id]);
      assert Conflict(txs[t], was[id]);
    }
  }

  /** Everything pending that is based on one cancelled transaction. */
  method CancelBasedOn(pool: UnapprovedTransactions, db: DB, id: TxId, ghost txs: seq<Tx>, ghost pool0: Txs,
      ghost rows0: Rows, ghost order0: seq<TxId>, ghost j: nat)
    returns (ok: bool, deleted: seq<TxId>, ghost order: seq<TxId>)
    requires pool.Valid() && CancelledSoFar(pool0, rows0, txs, order0, pool.table, db.rows)
    requires j < |order0| && id == order0[j] && DirectGone(pool0, txs, order0) && FollowersGone(pool0, order0, j)
    modifies pool, db`rows
    ensures pool.Valid() && CancelledSoFar(pool0, rows0, txs, order, pool.table, db.rows) && order == order0 + deleted
    ensures |deleted| + |pool.table| == |old(pool.table)|
    ensures ok ==> BasedOn(pool0, id) <= Members(order)
    ensures !ok ==> Stuck(pool0, txs, order, pool.table, db.rows)
  {
    ghost var start := pool.table;
    var conflicts := pool.FindSQLBasedOnTransaction(id);
    deleted, order := [], order0;
    for i := 0 to |conflicts|
      invariant pool.Valid() && WorkedOff(conflicts, i, start, pool.table) && deleted == conflicts[..i]
      invariant CancelledSoFar(pool0, rows0, txs, order, pool.table, db.rows) && order == order0 + deleted
    {
      NextBasedOn(conflicts, i, start, pool.table, id);
      FoundOnBase(pool0, txs, order0, order, j, pool.table, conflicts[i]);
      ok := CancelFound(pool, db, conflicts[i], txs, pool0, rows0, order);
      if !ok {
        return;
      }
      OneMore(order0, deleted, conflicts[i]);
      deleted, order := deleted + [conflicts[i]], order + [conflicts[i]];
    }
    NotYetGone(conflicts, |conflicts|, start, pool.table, id);
    AllBasedGone(pool0, start, pool.table, order, id);
    return true, deleted, order;
  }

  lemma {:induction false} OneMore(a: seq<TxId>, b: seq<TxId>, id: TxId)
    ensures (a + b) + [id] == a + (b + [id])
  {
  }

  lemma {:induction false} AllBasedGone(pool0: Txs, start: Txs, now: Txs, order: seq<TxId>, id: TxId)
    requires Sub(start, pool0) && Sub(now, start) && Gone(start, now) == BasedOn(start, id)
    requires ListsGone(order, pool0, now)
    ensures BasedOn(pool0, id) <= Members(order)
  {
    forall x | x in BasedOn(pool0, id) ensures x in Members(order) {
      assert x in start ==> x in BasedOn(start, id);
      assert x in Gone(pool0, now);
    }
  }

  ghost predicate WorkedOff(conflicts: seq<TxId>, i: nat, start: Txs, now: Txs)
    requires i <= |conflicts|
  {
    Sub(now, start) && ListsGone(conflicts[..i], start, now) && i + |now| == |start|
  }

  ghost predicate Lists(ids: seq<TxId>, s: set<TxId>)
  {
    (forall x :: x in ids <==> x in s) && forall i, j | 0 <= i < j < |ids| :: ids[i] != ids[j]
  }

  lemma {:induction false} NextBasedOn(conflicts: seq<TxId>, i: nat, start: Txs, now: Txs, id: TxId)
    requires i < |conflicts| && WorkedOff(conflicts, i, start, now) && Lists(conflicts, BasedOn(start, id))
    ensures conflicts[i] in now && conflicts[i] in BasedOn(start, id)
    ensures WorkedOff(conflicts, i + 1, start, now - {conflicts[i]})
    ensures conflicts[..i] + [conflicts[i]] == conflicts[..i + 1]
  {
    assert conflicts[i] in conflicts;
    NotYetGone(conflicts, i, start, now, id);
    OneGone(start, now, conflicts[i]);
  }

  lemma {:induction false} FoundOnBase(pool0: Txs, txs: seq<Tx>, order0: seq<TxId>, order: seq<TxId>, j: nat, now: Txs,
      x: TxId)
    requires Sub(now, pool0) && ListsGone(order, pool0, now) && x in now && order0 <= order
    requires j < |order0| && now[x].sql != NoSql && now[x].base == order0[j]
    requires DirectGone(pool0, txs, order0) && FollowersGone(pool0, order0, j)
    ensures FoundAfter(pool0, txs, order, x)
  {
    assert Members(order0) <= Members(order);
    forall i | 0 <= i < j ensures BasedOn(pool0, order[i]) <= Members(order) {
      assert order[i] == order0[i];
    }
    assert order[j] == order0[j] && x in BasedOn(pool0, order0[j]);
    assert FoundOn(pool0, txs, order, x, j);
  }

  lemma {:induction false} NotYetGone(conflicts: seq<TxId>, i: nat, start: Txs, now: Txs, id: TxId)
    requires i <= |conflicts| && ListsGone(conflicts[..i], start, now) && Lists(conflicts, BasedOn(start, id))
    ensures Gone(start, now) <= BasedOn(start, id)
    ensures i < |conflicts| ==> conflicts[i] in now && conflicts[..i] + [conflicts[i]] == conflicts[..i + 1]
    ensures i == |conflicts| ==> Gone(start, now) == BasedOn(start, id)
  {
    forall x | x in Gone(start, now) ensures x in BasedOn(start, id) {
      assert x in conflicts[..i];
    }
    if i < |conflicts| {
      assert conflicts[i] in conflicts && conflicts[i] !in conflicts[..i];
    } else {
      assert conflicts[..i] == conflicts;
    }
  }

  /** The second part: whatever is based on cancelled transactions. The list grows
      while it is worked off; what bounds it is the shrinking pool. */
  method CancelFollowers(pool: UnapprovedTransactions, db: DB, deleted0: seq<TxId>, ghost txs: seq<Tx>,
      ghost pool0: Txs, ghost rows0: Rows)
    returns (ok: bool, ghost order: seq<TxId>)
    requires pool.Valid() && CancelledSoFar(pool0, rows0, txs, deleted0, pool.table, db.rows)
    requires DirectGone(pool0, txs, deleted0)
    modifies pool, db`rows
    ensures pool.Valid() && CancelledSoFar(pool0, rows0, txs, order, pool.table, db.rows)
    ensures ok ==> Downward(pool0, Gone(pool0, pool.table)) && DirectGone(pool0, txs, order)
    ensures !ok ==> Stuck(pool0, txs, order, pool.table, db.rows)
  {
    order := deleted0;
    ghost var j := 0;
    var deletedIDs := deleted0;
    while |deletedIDs| > 0
      invariant pool.Valid() && CancelledSoFar(pool0, rows0, txs, order, pool.table, db.rows)
      invariant WorkingAt(pool0, txs, order, j, deletedIDs)
      decreases 2 * |pool.table| + |deletedIDs|
    {
      var txID := deletedIDs[0];
      deletedIDs := deletedIDs[1..];
      var more;
      ghost var before := order;
      ok, more, order := CancelBasedOn(pool, db, txID, txs, pool0, rows0, order, j);
      if !ok {
        return;
      }
      NextWorkedOff(pool0, txs, before, j, deletedIDs, more);
      deletedIDs := deletedIDs + more;
      j := j + 1;
    }
    AllWorkedOff(pool0, pool.table, txs, order, j);
    return true, order;
  }

  /** The list holds the end of the order; what is based on those before is gone. */
  ghost predicate WorkingAt(pool0: Txs, txs: seq<Tx>, order: seq<TxId>, j: nat, todo: seq<TxId>)
  {
    j <= |order| && todo == order[j..] && DirectGone(pool0, txs, order) && FollowersGone(pool0, order, j)
  }

  lemma {:induction false} NextWorkedOff(pool0: Txs, txs: seq<Tx>, order: seq<TxId>, j: nat, todo: seq<TxId>,
      more: seq<TxId>)
    requires j < |order| && todo == order[j + 1..] && DirectGone(pool0, txs, order) && FollowersGone(pool0, order, j)
    requires BasedOn(pool0, order[j]) <= Members(order + more)
    ensures WorkingAt(pool0, txs, order + more, j + 1, todo + more)
  {
    var all := order + more;
    assert all[j + 1..] == order[j + 1..] + more;
    assert Members(order) <= Members(all);
    forall i | 0 <= i < j + 1 ensures BasedOn(pool0, all[i]) <= Members(all) {
      assert all[i] == order[i];
    }
  }

  lemma {:induction false} AllWorkedOff(pool0: Txs, pool: Txs, txs: seq<Tx>, order: seq<TxId>, j: nat)
    requires WorkingAt(pool0, txs, order, j, []) && ListsGone(order, pool0, pool)
    ensures Downward(pool0, Gone(pool0, pool))
  {
    assert j == |order|;
    forall id | id in Gone(pool0, pool) ensures BasedOn(pool0, id) <= Gone(pool0, pool) {
      var i :| 0 <= i < |order| && order[i] == id;
      assert BasedOn(pool0, order[i]) <= Members(order);
    }
  }

  /** rollbackConflictingFromPool. Whether the cascade runs to its end can be told
      beforehand: it does when the undo statements of some closed set are harmless
      for each other, and it does not when the least closed set is blocked. Where it is
      certain on each row which cancelled command comes first, it does exactly when
      the undo statements on each row run in this order. */
  method RollbackConflictingFromPool(pool: UnapprovedTransactions, db: DB, txList: seq<Tx>)
    returns (ok: bool, ghost order: seq<TxId>)
    requires pool.Valid()
    modifies pool, db`rows
    ensures pool.Valid() && CascadeDone(ok, old(pool.table), old(db.rows), txList, order, pool.table, db.rows)
    ensures forall u | ClosedSet(old(pool.table), txList, u) :: Gone(old(pool.table), pool.table) <= u
    ensures CannotStop(old(db.rows), old(pool.table), txList) ==> ok
    ensures MustStop(old(db.rows), old(pool.table), txList) ==> !ok
    ensures forall one, ranks | CertainOnRows(old(pool.table), txList, one, ranks) ::
      ok <==> UndoRun(old(db.rows), old(pool.table), one) != None
    ensures ok ==> forall t, id | 0 <= t < |txList| && txList[t].sql != NoSql && id in pool.table ::
      !Conflict(txList[t], pool.table[id])
    ensures ok ==> forall id | id in pool.table && pool.table[id].sql != NoSql ::
      pool.table[id].base !in Gone(old(pool.table), pool.table)
    ensures forall id | id in Gone(old(pool.table), pool.table) ::
      || (exists t | 0 <= t < |txList| && txList[t].sql != NoSql :: Conflict(txList[t], old(pool.table)[id]))
      || (old(pool.table)[id].sql != NoSql && old(pool.table)[id].base in Gone(old(pool.table), pool.table))
  {
    ghost var pool0, rows0 := pool.table, db.rows;
    var renewed := pool.RenewCache();
    var deletedIDs;
    ok, deletedIDs := CancelDirect(pool, db, txList);
    order := deletedIDs;
    if ok {
      ghost var mid := pool.table;
      AllDirectGone(pool0, mid, txList, deletedIDs);
      ok, order := CancelFollowers(pool, db, deletedIDs, txList, pool0, rows0);
      if ok {
        NothingLeft(pool0, pool.table, txList, order);
      }
    }
    OnlyWhatHasTo(pool0, rows0, txList, order, pool.table, db.rows);
    NoneWithoutReason(pool0, rows0, txList, order, pool.table, db.rows);
    CascadeEnds(ok, pool0, rows0, txList, order, pool.table, db.rows);
    CertainAlwaysDecides(ok, pool0, rows0, txList, order, pool.table, db.rows);
  }

  lemma {:induction false} AllDirectGone(start: Txs, now: Txs, txs: seq<Tx>, order: seq<TxId>)
    requires Sub(now, start) && ListsGone(order, start, now) && NoConflicts(txs, |txs|, now)
    ensures DirectGone(start, txs, order)
  {
    forall id | Direct(start, txs, id) ensures id in order {
      var t: nat :| Hits(start, txs, t, id);
      assert !ConflictsWithSome(txs[t], now);
    }
  }

  lemma {:induction false} NothingLeft(start: Txs, now: Txs, txs: seq<Tx>, order: seq<TxId>)
    requires Sub(now, start) && ListsGone(order, start, now) && DirectGone(start, txs, order)
    ensures NoConflicts(txs, |txs|, now)
    ensures forall id | Direct(start, txs, id) :: id in Gone(start, now)
  {
    forall t | 0 <= t < |txs| && txs[t].sql != NoSql ensures !ConflictsWithSome(txs[t], now) {
      if ConflictsWithSome(txs[t], now) {
        var id :| id in now && Conflict(txs[t], now[id]);
        assert Hits(start, txs, t, id) && Direct(start, txs, id);
      }
    }
  }

  /** What is cancelled conflicts with a command of the block or is a command based on
      something cancelled, also when an undo has failed. */
  lemma {:induction false} NoneWithoutReason(pool0: Txs, rows0: Rows, txs: seq<Tx>, order: seq<TxId>, pool: Txs,
      rows: Rows)
    requires CancelledSoFar(pool0, rows0, txs, order, pool, rows)
    ensures forall id | id in Gone(pool0, pool) ::
      || (exists t | 0 <= t < |txs| && txs[t].sql != NoSql :: Conflict(txs[t], pool0[id]))
      || (pool0[id].sql != NoSql && pool0[id].base in Gone(pool0, pool))
  {
    forall id | id in Gone(pool0, pool) ensures
      || (exists t | 0 <= t < |txs| && txs[t].sql != NoSql :: Conflict(txs[t], pool0[id]))
      || (pool0[id].sql != NoSql && pool0[id].base in Gone(pool0, pool)) {
      var i :| 0 <= i < |order| && order[i] == id;
      ReasonAt(pool0, txs, order, i);
    }
  }

  lemma {:induction false} ReasonAt(pool: Txs, txs: seq<Tx>, order: seq<TxId>, i: nat)
    requires Discovered(pool, txs, order) && i < |order|
    ensures order[i] in pool
    ensures
      || (exists t | 0 <= t < |txs| && txs[t].sql != NoSql :: Conflict(txs[t], pool[order[i]]))
      || (pool[order[i]].sql != NoSql && pool[order[i]].base in order)
  {
    var id := order[i];
    DiscoveredAt(pool, txs, order, i);
    if t: nat :| FoundAt(pool, txs, order[..i], id, t) {
      assert Hits(pool, txs, t, id);
    } else {
      var j: nat :| FoundOn(pool, txs, order[..i], id, j);
      assert order[..i][j] == order[j];
    }
  }

  lemma {:induction false} OnlyWhatHasTo(pool0: Txs, rows0: Rows, txs: seq<Tx>, order: seq<TxId>, pool: Txs, rows: Rows)
    requires CancelledSoFar(pool0, rows0, txs, order, pool, rows)
    ensures forall u | ClosedSet(pool0, txs, u) :: Gone(pool0, pool) <= u
  {
    forall u | ClosedSet(pool0, txs, u) ensures Gone(pool0, pool) <= u {
      FoundInClosed(pool0, txs, order, u);
      assert forall id | id in Gone(pool0, pool) :: id in order;
    }
  }
}
