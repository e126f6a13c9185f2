/** The commands of a block are executed or taken back on a database in which
    pending commands may already have been executed. */
module BlockExecution {
  import opened Types
  import opened Database
  import opened Ledger
  import opened SqlHistory
  import opened RowOrder
  import opened Pool
  import opened CascadeOrder
  import opened CascadeFate
  import opened Cascade
  import opened CascadeRows

  // ----- a block leaves the main chain

  /** Undo statements, last transaction first; rewards carry none. */
  function UndoTxs(rows: Rows, txs: seq<Tx>): Option<Rows>
    decreases |txs|
  {
    if txs == [] then Some(rows)
    else
      var tx := txs[|txs| - 1];
      var r := if tx.IsCoinbase() then Some(rows) else Undo(rows, tx.sql);
      if r == None then None else UndoTxs(r.value, txs[..|txs| - 1])
  }

  /** The undo statements have run from the last transaction on, and that of the next
      one fails. */
  ghost predicate StoppedAt(rows0: Rows, txs: seq<Tx>, rows: Rows)
  {
    exists k | 0 < k <= |txs| ::
      UndoTxs(rows0, txs[k..]) == Some(rows) && !txs[k - 1].IsCoinbase() && Undo(rows, txs[k - 1].sql) == None
  }

  lemma {:induction false} UndoOneMore(rows: Rows, txs: seq<Tx>, i: nat)
    requires i < |txs|
    ensures UndoTxs(rows, txs[i..]) ==
      var r := UndoTxs(rows, txs[i + 1..]);
      if r == None || txs[i].IsCoinbase() then r else Undo(r.value, txs[i].sql)
    decreases |txs|
  {
    var n := |txs| - 1;
    if i == n {
      assert txs[i..][..0] == [] && txs[i + 1..] == [];
    } else {
      assert txs[i..][..n - i] == txs[..n][i..] && txs[i + 1..][..n - i - 1] == txs[..n][i + 1..];
      var r := if txs[n].IsCoinbase() then Some(rows) else Undo(rows, txs[n].sql);
      UndoOneMore(if r == None then rows else r.value, txs[..n], i);
    }
  }

  /** The rollback loop of BlockRemovedFromPrimaryChain; the first undo that fails ends it. */
  method RollbackBlock(db: DB, block: Block) returns (ok: bool)
    modifies db`rows
    ensures ok <==> UndoTxs(old(db.rows), block.txs) != None
    ensures ok ==> UndoTxs(old(db.rows), block.txs) == Some(db.rows)
    ensures !ok ==> StoppedAt(old(db.rows), block.txs, db.rows)
  {
    var i := |block.txs|;
    assert block.txs[..i] == block.txs && block.txs[i..] == [];
    while i > 0
      invariant 0 <= i <= |block.txs|
      invariant UndoTxs(old(db.rows), block.txs) == UndoTxs(db.rows, block.txs[..i])
      invariant UndoTxs(old(db.rows), block.txs[i..]) == Some(db.rows)
    {
      i := i - 1;
      var tx := block.txs[i];
      assert block.txs[..i + 1][..i] == block.txs[..i];
      UndoOneMore(old(db.rows), block.txs, i);
      if !tx.IsCoinbase() && tx.IsSql() {
        if tx.sql.rollback == None {
          return false;
        }
        var done := ExecuteSql(db, tx.sql.rollback.value);
        if !done {
          return false;
        }
      }
    }
    return true;
  }

  /** The commands of a branch with part of a block on it. */
  lemma {:induction false} CommandsUpto(es: seq<Entry>, b: Block, i: nat)
    requires i <= |b.txs|
    ensures Commands(Upto(es, b, i)) == Commands(es) + SqlsOf(b.txs[..i])
  {
    UptoEnds(es, b);
    if i > 0 {
      CommandsUpto(es, b, i - 1);
      UptoNext(es, b, i - 1);
      CommandsSnoc(Upto(es, b, i - 1), Entry(b.txs[i - 1], b.hash));
      SqlsUpto(b.txs, i - 1);
      assert Commands(es) + (SqlsOf(b.txs[..i - 1]) + [b.txs[i - 1].sql])
        == Commands(es) + SqlsOf(b.txs[..i - 1]) + [b.txs[i - 1].sql];
    }
  }

  lemma {:induction false} SqlsUpto(txs: seq<Tx>, i: nat)
    requires i < |txs|
    ensures SqlsOf(txs[..i + 1]) == SqlsOf(txs[..i]) + [txs[i].sql]
  {
    assert txs[..i + 1] == txs[..i] + [txs[i]];
    SqlsConcat(txs[..i], [txs[i]]);
    assert SqlsOf([txs[i]]) == [txs[i].sql];
  }

  lemma {:induction false} CommandsOfBlock(es: seq<Entry>, b: Block)
    ensures Commands(es + BlockEntries(b)) == Commands(es) + SqlsOf(b.txs)
  {
    CommandsUpto(es, b, |b.txs|);
    UptoEnds(es, b);
    assert b.txs[..|b.txs|] == b.txs;
  }

  /** The rows of a branch with part of a block on it and pending commands after that. */
  ghost function RowsUpto(es: seq<Entry>, b: Block, queue: seq<Sql>, i: nat): Option<Rows>
    requires i <= |b.txs|
  {
    Replay(Commands(Upto(es, b, i)) + queue)
  }

  ghost predicate StepsBack(es: seq<Entry>, b: Block, queue: seq<Sql>, i: nat)
    requires i < |b.txs|
  {
    && (b.txs[i].IsCoinbase() ==> b.txs[i].sql == NoSql)
    && (RowsUpto(es, b, queue, i + 1) != None ==>
          Undo(RowsUpto(es, b, queue, i + 1).value, b.txs[i].sql) == RowsUpto(es, b, queue, i) != None)
  }

  /** Pending commands on other rows do not stand in the way: the undo statements
      of the block on top of a branch all run, and give the rows of the branch. */
  lemma {:induction false} BlockTakenBack(es: seq<Entry>, b: Block, queue: seq<Sql>)
    requires SqlOk(es + BlockEntries(b)) && Apart(queue, SqlsOf(b.txs))
    requires Replay(Commands(es + BlockEntries(b)) + queue) != None
    ensures UndoTxs(Replay(Commands(es + BlockEntries(b)) + queue).value, b.txs) == Replay(Commands(es) + queue) != None
  {
    UptoEnds(es, b);
    assert b.txs[..|b.txs|] == b.txs;
    forall i | 0 <= i < |b.txs| ensures StepsBack(es, b, queue, i) {
      OneStepBack(es, b, queue, i);
    }
    TakenBackUpto(es, b, queue, |b.txs|);
  }

  lemma {:induction false} TakenBackUpto(es: seq<Entry>, b: Block, queue: seq<Sql>, i: nat)
    requires i <= |b.txs| && forall j | 0 <= j < |b.txs| :: StepsBack(es, b, queue, j)
    requires RowsUpto(es, b, queue, i) != None
    ensures UndoTxs(RowsUpto(es, b, queue, i).value, b.txs[..i]) == RowsUpto(es, b, queue, 0) != None
  {
    if i > 0 {
      assert StepsBack(es, b, queue, i - 1);
      UndoTxsLast(RowsUpto(es, b, queue, i).value, b.txs, i);
      TakenBackUpto(es, b, queue, i - 1);
    }
  }

  lemma {:induction false} UndoTxsLast(rows: Rows, txs: seq<Tx>, i: nat)
    requires 0 < i <= |txs| && (txs[i - 1].IsCoinbase() ==> txs[i - 1].sql == NoSql)
    ensures UndoTxs(rows, txs[..i]) ==
      if Undo(rows, txs[i - 1].sql) == None then None else UndoTxs(Undo(rows, txs[i - 1].sql).value, txs[..i - 1])
  {
    assert txs[..i][..i - 1] == txs[..i - 1];
  }

  lemma {:induction false} OneStepBack(es: seq<Entry>, b: Block, queue: seq<Sql>, i: nat)
    requires SqlOk(es + BlockEntries(b)) && Apart(queue, SqlsOf(b.txs)) && i < |b.txs|
    ensures StepsBack(es, b, queue, i)
  {
    var h, tx := Commands(Upto(es, b, i)), b.txs[i];
    SqlOkUpto(es, b, i + 1);
    UptoNext(es, b, i);
    SqlOkPrefix(Upto(es, b, i), Entry(tx, b.hash));
    CommandsSnoc(Upto(es, b, i), Entry(tx, b.hash));
    UndoLast(h, tx.sql);
    ApartFromOne(queue, b.txs, i);
    if Replay(h + [tx.sql] + queue) != None {
      UndoUnder(h, tx.sql, queue);
    }
  }

  /** A pending command on a row of the block can stand in the way: the block deletes
      a row, a pending transaction inserts it again, and the undo of the deletion is
      an error. */
  lemma {:induction false} PendingRowStopsUndo() returns (es: seq<Entry>, b: Block, queue: seq<Sql>)
    ensures |b.txs| == 2 && b.txs[0].IsCoinbase()
    ensures SqlOk(es + BlockEntries(b)) && HistoryOk(Commands(es + BlockEntries(b)) + queue)
    ensures UndoTxs(Replay(Commands(es + BlockEntries(b)) + queue).value, b.txs) == None
  {
    var ref, chain := RowRef("t", "k"), TableWithRow(map[]);
    var delete := Sql(ref, DeleteRow("t", "k"), Some(InsertRow("t", "k", map[])));
    var again := Sql(ref, InsertRow("t", "k", map[]), Some(DeleteRow("t", "k")));
    var x, y := Tx(1, 7, [], [], chain[0], NoTx), Tx(2, 7, [], [], chain[1], 1);
    var reward := Tx(4, NoKey, [OutPoint(NoTx, -1)], [TxOut(10, 7)], NoSql, NoTx);
    es, b, queue := [Entry(x, 1), Entry(y, 1)], Block(2, 1, 1, [reward, Tx(3, 7, [], [], delete, 2)]), [again];
    DeletedAndAgain(chain, delete, again);
    CommandsOfCase(x, y, es, b);
    LastUndoFails(Replay(chain + [NoSql] + [delete] + [again]).value, b.txs);
  }

  lemma {:induction false} DeletedAndAgain(chain: seq<Sql>, delete: Sql, again: Sql)
    requires chain == TableWithRow(map[])
    requires delete == Sql(RowRef("t", "k"), DeleteRow("t", "k"), Some(InsertRow("t", "k", map[])))
    requires again == Sql(RowRef("t", "k"), InsertRow("t", "k", map[]), Some(DeleteRow("t", "k")))
    ensures HistoryOk(chain + [NoSql] + [delete]) && HistoryOk(chain + [NoSql] + [delete] + [again])
    ensures CellIn(Replay(chain + [NoSql] + [delete] + [again]).value, "t", "k").Present?
  {
    TableWithRowOk(map[]);
    HistoryNext(chain, NoSql);
    HistoryNext(chain + [NoSql], delete);
    HistoryNext(chain + [NoSql] + [delete], again);
  }

  lemma {:induction false} LastUndoFails(rows: Rows, txs: seq<Tx>)
    requires txs != [] && !txs[|txs| - 1].IsCoinbase() && Undo(rows, txs[|txs| - 1].sql) == None
    ensures UndoTxs(rows, txs) == None
  {
  }

  lemma {:induction false} CommandsOfCase(x: Tx, y: Tx, es: seq<Entry>, b: Block)
    requires es == [Entry(x, 1), Entry(y, 1)] && |b.txs| == 2
    ensures Commands(es + BlockEntries(b)) == [x.sql] + [y.sql] + [b.txs[0].sql] + [b.txs[1].sql]
    ensures forall i | 0 <= i < |es + BlockEntries(b)| :: (es + BlockEntries(b))[i].tx in [x, y, b.txs[0], b.txs[1]]
  {
    var e, f, g, h := Entry(x, 1), Entry(y, 1), Entry(b.txs[0], b.hash), Entry(b.txs[1], b.hash);
    CommandsSnoc([], e);
    CommandsSnoc([e], f);
    CommandsSnoc([e, f], g);
    CommandsSnoc([e, f, g], h);
    assert es + BlockEntries(b) == [e, f, g, h];
    assert [] + [e] == [e] && [e] + [f] == [e, f] && [e, f] + [g] == [e, f, g] && [e, f, g] + [h] == [e, f, g, h];
  }

  lemma {:induction false} ApartFromOne(queue: seq<Sql>, txs: seq<Tx>, i: nat)
    requires Apart(queue, SqlsOf(txs)) && i < |txs|
    ensures Apart(queue, [txs[i].sql])
  {
    var x := txs[i].sql;
    assert SqlsOf(txs) == (SqlsOf(txs[..i]) + [x]) + SqlsOf(txs[i + 1..]);
    forall t, k ensures On(queue, t, k) == [] || On([x], t, k) == [] {
      OnConcat(SqlsOf(txs[..i]) + [x], SqlsOf(txs[i + 1..]), t, k);
      OnConcat(SqlsOf(txs[..i]), [x], t, k);
      assert On(queue, t, k) == [] || On(SqlsOf(txs), t, k) == [];
    }
  }

  // ----- a block joins the main chain

  /** The transactions of a block whose commands are not pending. */
  function Unexecuted(pool: Txs, txs: seq<Tx>): seq<Tx>
  {
    if txs == [] then []
    else
      var tx := txs[|txs| - 1];
      Unexecuted(pool, txs[..|txs| - 1]) + if tx.sql == NoSql || tx.id in pool then [] else [tx]
  }

  /** Commands that are not pending, in order, until one fails; and whether none did. */
  function RunTxs(rows: Rows, pool: Txs, txs: seq<Tx>): (Rows, bool)
  {
    if txs == [] then (rows, true)
    else
      var before, tx := RunTxs(rows, pool, txs[..|txs| - 1]), txs[|txs| - 1];
      if !before.1 || tx.sql == NoSql || tx.id in pool then before
      else if Exec(before.0, tx.sql.query) == None then (before.0, false)
      else (Exec(before.0, tx.sql.query).value, true)
  }

  /** What transactionsFromAddedBlock does: the cascade, and if that has run to its
      end, the commands that are not pending. */
  ghost predicate BlockExecuted(pool0: Txs, rows0: Rows, txs: seq<Tx>, pool: Txs, rows: Rows, ok: bool)
  {
    exists done, order, mid :: ExecutedAfter(done, order, mid, pool0, rows0, txs, pool, rows, ok)
  }

  ghost predicate ExecutedAfter(done: bool, order: seq<TxId>, mid: Rows, pool0: Txs, rows0: Rows, txs: seq<Tx>,
      pool: Txs, rows: Rows, ok: bool)
  {
    && CascadeDone(done, pool0, rows0, txs, order, pool, mid)
    && (rows, ok) == if done then RunTxs(mid, pool, txs) else (mid, false)
  }

  method TransactionsFromAddedBlock(pool: UnapprovedTransactions, db: DB, txList: seq<Tx>) returns (ok: bool)
    requires pool.Valid()
    modifies pool, db`rows
    ensures pool.Valid() && BlockExecuted(old(pool.table), old(db.rows), txList, pool.table, db.rows, ok)
  {
    ghost var pool0, rows0 := pool.table, db.rows;
    ghost var order;
    ok, order := RollbackConflictingFromPool(pool, db, txList);
    ghost var mid := db.rows;
    if !ok {
      assert ExecutedAfter(false, order, mid, pool0, rows0, txList, pool.table, db.rows, false);
      return;
    }
    ok := ExecuteUnexecuted(pool, db, txList);
    assert ExecutedAfter(true, order, mid, pool0, rows0, txList, pool.table, db.rows, ok);
  }

  /** The second loop of transactionsFromAddedBlock. */
  method ExecuteUnexecuted(pool: UnapprovedTransactions, db: DB, txList: seq<Tx>) returns (ok: bool)
    requires pool.Valid()
    modifies db`rows
    ensures (db.rows, ok) == RunTxs(old(db.rows), pool.table, txList)
  {
    for i := 0 to |txList|
      invariant RunTxs(old(db.rows), pool.table, txList[..i]) == (db.rows, true)
    {
      var tx := txList[i];
      assert txList[..i + 1][..i] == txList[..i];
      if tx.IsSql() {
        var pending := pool.GetIfExists(tx.id);
        if pending != None {
          continue;
        }
        var done := ExecuteSql(db, tx.sql.query);
        if !done {
          StaysStopped(old(db.rows), pool.table, txList, i + 1);
          return false;
        }
      }
    }
    assert txList[..|txList|] == txList;
    return true;
  }

  lemma {:induction false} StaysStopped(rows: Rows, pool: Txs, txs: seq<Tx>, i: nat)
    requires i <= |txs| && !RunTxs(rows, pool, txs[..i]).1
    ensures RunTxs(rows, pool, txs) == RunTxs(rows, pool, txs[..i])
    decreases |txs| - i
  {
    if i < |txs| {
      assert txs[..i + 1][..i] == txs[..i];
      StaysStopped(rows, pool, txs, i + 1);
    } else {
      assert txs[..i] == txs;
    }
  }

  /** A history that goes on with the commands that are not pending is what the loop makes. */
  lemma {:induction false} RunIsReplay(h: seq<Sql>, pool: Txs, txs: seq<Tx>)
    requires Replay(h + SqlsOf(Unexecuted(pool, txs))) != None
    ensures Replay(h) != None
    ensures RunTxs(Replay(h).value, pool, txs) == (Replay(h + SqlsOf(Unexecuted(pool, txs))).value, true)
  {
    PrefixRuns(h, SqlsOf(Unexecuted(pool, txs)));
    if txs == [] {
      assert h + [] == h;
    } else {
      var init, tx := txs[..|txs| - 1], txs[|txs| - 1];
      if tx.sql == NoSql || tx.id in pool {
        assert Unexecuted(pool, txs) == Unexecuted(pool, init);
        RunIsReplay(h, pool, init);
      } else {
        SqlsConcat(Unexecuted(pool, init), [tx]);
        var longer := h + SqlsOf(Unexecuted(pool, init));
        assert h + SqlsOf(Unexecuted(pool, txs)) == longer + [tx.sql];
        PrefixRuns(longer, [tx.sql]);
        ReplaySnoc(longer, tx.sql);
        RunIsReplay(h, pool, init);
      }
    }
  }

  // ----- when the rows are those of the longer chain

  /** Nothing pending conflicts with the block, and the commands that are not
      pending come on no row before a pending one that is not in the block. */
  ghost predicate Undisturbed(chain: seq<Sql>, pool: Txs, rows: Rows, txs: seq<Tx>, queue: seq<Sql>, rest: seq<Sql>)
  {
    && Replay(chain + queue) == Some(rows) && NoConflicts(txs, |txs|, pool)
    && KeepsRowOrder(queue, SqlsOf(Unexecuted(pool, txs)), SqlsOf(txs), rest)
  }

  /** What has to be cancelled came last on its rows, and of the other pending
      transactions the same is true. */
  ghost predicate TakesBack(chain: seq<Sql>, pool: Txs, rows: Rows, txs: seq<Tx>, pend: seq<Tx>, s: set<TxId>,
      rest: seq<Sql>)
  {
    && Pending(chain, pend, pool, rows) && LeastClosedSet(pool, txs, s) && LastOnRows(pend, s)
    && KeepsRowOrder(SqlsOf(Without(pend, s)), SqlsOf(Unexecuted(pool - s, txs)), SqlsOf(txs), rest)
  }

  /** Two conditions on chain, pool, rows and block under which executing the block
      gives the rows of the chain with the block, followed by the commands `rest`
      that are still pending. */
  ghost predicate RowsFollow(chain: seq<Sql>, pool: Txs, rows: Rows, txs: seq<Tx>, rest: seq<Sql>)
  {
    || (exists queue :: Undisturbed(chain, pool, rows, txs, queue, rest))
    || (exists pend, s :: TakesBack(chain, pool, rows, txs, pend, s, rest))
  }

  /** The ordinary case: the block holds pending transactions whose commands were
      executed before the other pending ones, and nothing pending conflicts. So it is
      for a block that was dropped and comes again. */
  lemma {:induction false} MinedFromPool(chain: seq<Sql>, pool: Txs, rows: Rows, txs: seq<Tx>, rest: seq<Sql>)
    requires Replay(chain + (SqlsOf(txs) + rest)) == Some(rows) && NoConflicts(txs, |txs|, pool)
    requires forall t | 0 <= t < |txs| && txs[t].sql != NoSql :: txs[t].id in pool
    ensures RowsFollow(chain, pool, rows, txs, rest)
  {
    NothingUnexecuted(pool, txs);
    forall t, k
      ensures On(SqlsOf(txs) + rest, t, k) + On(SqlsOf(Unexecuted(pool, txs)), t, k) ==
        On(SqlsOf(txs), t, k) + On(rest, t, k)
    {
      OnConcat(SqlsOf(txs), rest, t, k);
      assert On(SqlsOf(Unexecuted(pool, txs)), t, k) == [];
    }
    assert Undisturbed(chain, pool, rows, txs, SqlsOf(txs) + rest, rest);
  }

  lemma {:induction false} NothingUnexecuted(pool: Txs, txs: seq<Tx>)
    requires forall t | 0 <= t < |txs| && txs[t].sql != NoSql :: txs[t].id in pool
    ensures SqlsOf(Unexecuted(pool, txs)) == []
  {
    if txs != [] {
      NothingUnexecuted(pool, txs[..|txs| - 1]);
    }
  }

  lemma {:induction false} NothingToCancel(done: bool, pool0: Txs, rows0: Rows, txs: seq<Tx>, order: seq<TxId>,
      pool: Txs, rows: Rows)
    requires NoConflicts(txs, |txs|, pool0) && CascadeDone(done, pool0, rows0, txs, order, pool, rows)
    ensures done && pool == pool0 && rows == rows0
  {
    assert forall id :: !Direct(pool0, txs, id);
    assert ClosedSet(pool0, txs, {}) && Harmless(rows0, pool0, {}, NO_RANKS);
    CascadeEnds(done, pool0, rows0, txs, order, pool, rows);
    FoundInClosed(pool0, txs, order, {});
    FoundOnce(pool0, txs, order);
    assert Members(order) == {};
    assert Gone(pool0, pool) == {};
    assert pool.Keys == pool0.Keys;
  }

  lemma {:induction false} CancelledInTime(chain: seq<Sql>, pend: seq<Tx>, done: bool, pool0: Txs, rows0: Rows,
      txs: seq<Tx>, order: seq<TxId>, pool: Txs, rows: Rows, s: set<TxId>)
    requires Pending(chain, pend, pool0, rows0) && LeastClosedSet(pool0, txs, s) && LastOnRows(pend, s)
    requires CascadeDone(done, pool0, rows0, txs, order, pool, rows)
    ensures done && pool == pool0 - s && Replay(chain + SqlsOf(Without(pend, s))) == Some(rows)
  {
    if !done {
      NotStuck(chain, pend, pool0, rows0, txs, order, pool, rows, s);
    } else {
      assert Members(order) == Gone(pool0, pool) == s;
      CascadeTakesBack(chain, pend, pool0, rows0, txs, order);
      assert pool.Keys == (pool0 - s).Keys;
    }
  }

  lemma {:induction false} NotStuck(chain: seq<Sql>, pend: seq<Tx>, pool0: Txs, rows0: Rows, txs: seq<Tx>,
      order: seq<TxId>, pool: Txs, rows: Rows, s: set<TxId>)
    requires Pending(chain, pend, pool0, rows0) && ClosedSet(pool0, txs, s) && LastOnRows(pend, s)
    requires Discovered(pool0, txs, order) && UndoRun(rows0, pool0, order) == Some(rows)
    ensures !Stuck(pool0, txs, order, pool, rows)
  {
    forall id | StuckAfter(pool0, txs, order, pool, rows, id) ensures false {
      OneMoreFound(rows0, pool0, txs, order, id);
      FoundInClosed(pool0, txs, order + [id], s);
      LastOnFewer(pend, Members(order + [id]), s);
      CascadeTakesBack(chain, pend, pool0, rows0, txs, order + [id]);
    }
  }

  /** Executing a block on top of a chain gives the rows of the longer chain,
      followed by what is still pending. */
  lemma {:induction false} BlockRuns(chain: seq<Sql>, pool0: Txs, rows0: Rows, txs: seq<Tx>, rest: seq<Sql>, pool: Txs,
      rows: Rows, ok: bool)
    requires RowsFollow(chain, pool0, rows0, txs, rest) && Replay(chain + SqlsOf(txs)) != None
    requires BlockExecuted(pool0, rows0, txs, pool, rows, ok)
    ensures ok && Replay(chain + SqlsOf(txs) + rest) == Some(rows)
  {
    var done, order, mid :| ExecutedAfter(done, order, mid, pool0, rows0, txs, pool, rows, ok);
    if queue :| Undisturbed(chain, pool0, rows0, txs, queue, rest) {
      NothingToCancel(done, pool0, rows0, txs, order, pool, mid);
      RunsAfter(chain, queue, pool, mid, txs, rest);
    } else {
      var pend, s :| TakesBack(chain, pool0, rows0, txs, pend, s, rest);
      CancelledInTime(chain, pend, done, pool0, rows0, txs, order, pool, mid, s);
      RunsAfter(chain, SqlsOf(Without(pend, s)), pool, mid, txs, rest);
    }
  }

  lemma {:induction false} RunsAfter(chain: seq<Sql>, queue: seq<Sql>, pool: Txs, mid: Rows, txs: seq<Tx>,
      rest: seq<Sql>)
    requires Replay(chain + queue) == Some(mid) && Replay(chain + SqlsOf(txs)) != None
    requires KeepsRowOrder(queue, SqlsOf(Unexecuted(pool, txs)), SqlsOf(txs), rest)
    ensures RunTxs(mid, pool, txs).1 && Replay(chain + SqlsOf(txs) + rest) == Some(RunTxs(mid, pool, txs).0)
  {
    OrderKept(chain, queue, SqlsOf(Unexecuted(pool, txs)), SqlsOf(txs), rest);
    RunIsReplay(chain + queue, pool, txs);
  }

  /** A block of another branch: its commands are on other rows than the pending
      ones, conflict with none of them, and none of them is pending. */
  ghost predicate Unrelated(pool: Txs, queue: seq<Sql>, txs: seq<Tx>)
  {
    && Apart(queue, SqlsOf(txs)) && NoConflicts(txs, |txs|, pool)
    && forall t | 0 <= t < |txs| && txs[t].sql != NoSql :: txs[t].id !in pool
  }

  lemma {:induction false} AllUnexecuted(pool: Txs, txs: seq<Tx>, t: string, k: string)
    requires forall t | 0 <= t < |txs| && txs[t].sql != NoSql :: txs[t].id !in pool
    ensures On(SqlsOf(Unexecuted(pool, txs)), t, k) == On(SqlsOf(txs), t, k)
  {
    if txs != [] {
      var init, tx := txs[..|txs| - 1], txs[|txs| - 1];
      AllUnexecuted(pool, init, t, k);
      assert SqlsOf(txs) == SqlsOf(init) + [tx.sql];
      OnSnoc(SqlsOf(init), tx.sql, t, k);
      if tx.sql != NoSql {
        SqlsConcat(Unexecuted(pool, init), [tx]);
        assert SqlsOf([tx]) == [tx.sql];
        OnSnoc(SqlsOf(Unexecuted(pool, init)), tx.sql, t, k);
      } else {
        assert Unexecuted(pool, txs) == Unexecuted(pool, init);
      }
    }
  }

  lemma {:induction false} UnrelatedFollows(chain: seq<Sql>, pool: Txs, rows: Rows, txs: seq<Tx>, queue: seq<Sql>)
    requires Unrelated(pool, queue, txs) && Replay(chain + queue) == Some(rows)
    ensures RowsFollow(chain, pool, rows, txs, queue)
  {
    forall t, k
      ensures On(queue, t, k) + On(SqlsOf(Unexecuted(pool, txs)), t, k) == On(SqlsOf(txs), t, k) + On(queue, t, k)
      ensures On(SqlsOf(Unexecuted(pool, txs)), t, k) == [] || On(queue, t, k) == []
    {
      AllUnexecuted(pool, txs, t, k);
      assert On(queue, t, k) == [] || On(SqlsOf(txs), t, k) == [];
    }
    assert Undisturbed(chain, pool, rows, txs, queue, queue);
  }

  lemma {:induction false} FewerUnrelated(was: Txs, now: Txs, queue: seq<Sql>, txs: seq<Tx>)
    requires Unrelated(was, queue, txs) && Sub(now, was)
    ensures Unrelated(now, queue, txs)
  {
    FewerConflicts(txs, |txs|, was, now);
  }

  /** The pool after a block joined the main chain: without what the cascade
      cancelled and without the block's transactions. */
  ghost predicate JoinedBlock(pool0: Txs, rows0: Rows, txs: seq<Tx>, pool: Txs, rows: Rows)
  {
    exists mid, ok :: BlockExecuted(pool0, rows0, txs, mid, rows, ok) && pool == mid - Ids(txs)
  }

  lemma {:induction false} JoinedSub(pool0: Txs, rows0: Rows, txs: seq<Tx>, pool: Txs, rows: Rows)
    requires JoinedBlock(pool0, rows0, txs, pool, rows)
    ensures Sub(pool, pool0)
  {
    var mid, ok :| BlockExecuted(pool0, rows0, txs, mid, rows, ok) && pool == mid - Ids(txs);
  }

  lemma {:induction false} JoinedRows(chain: seq<Sql>, pool0: Txs, rows0: Rows, txs: seq<Tx>, rest: seq<Sql>, pool: Txs,
      rows: Rows)
    requires RowsFollow(chain, pool0, rows0, txs, rest) && Replay(chain + SqlsOf(txs)) != None
    requires JoinedBlock(pool0, rows0, txs, pool, rows)
    ensures Replay(chain + SqlsOf(txs) + rest) == Some(rows)
  {
    var mid, ok :| BlockExecuted(pool0, rows0, txs, mid, rows, ok) && pool == mid - Ids(txs);
    BlockRuns(chain, pool0, rows0, txs, rest, mid, rows, ok);
  }
}
