/** What the rows are after a cascade: as if the cancelled transactions had never
    been, provided that nothing pending came later on their rows. Three small pools
    show what happens otherwise. */
module CascadeRows {
  import opened Types
  import opened SqlHistory
  import opened Ledger
  import opened Verifier
  import opened RowOrder
  import opened Pool
  import opened CascadeOrder
  import opened CascadeFate

  // ----- pending transactions in the order of their execution

  /** The pool holds the transactions of the list, which were executed in its order
      on top of the commands of a chain, with fitting undos. */
  ghost predicate Pending(chain: seq<Sql>, pend: seq<Tx>, pool: Txs, rows: Rows)
  {
    && PoolOk(pool) && (forall id :: id in pool <==> IsPending(pend, id))
    && (forall i | 0 <= i < |pend| :: pend[i].id in pool && pool[pend[i].id] == pend[i])
    && DistinctIds(pend) && HistoryOk(chain + SqlsOf(pend)) && Replay(chain + SqlsOf(pend)) == Some(rows)
  }

  ghost predicate IsPending(pend: seq<Tx>, id: TxId)
  {
    exists i | 0 <= i < |pend| :: pend[i].id == id
  }

  /** The list without the transactions in a set. */
  function Without(txs: seq<Tx>, s: set<TxId>): seq<Tx>
  {
    if txs == [] then []
    else Without(txs[..|txs| - 1], s) + if txs[|txs| - 1].id in s then [] else [txs[|txs| - 1]]
  }

  lemma {:induction false} WithoutSnoc(txs: seq<Tx>, tx: Tx, s: set<TxId>)
    ensures Without(txs + [tx], s) == Without(txs, s) + if tx.id in s then [] else [tx]
  {
    assert (txs + [tx])[..|txs|] == txs;
  }

  lemma {:induction false} WithoutConcat(a: seq<Tx>, b: seq<Tx>, s: set<TxId>)
    ensures Without(a + b, s) == Without(a, s) + Without(b, s)
  {
    if b == [] {
      assert a + b == a;
    } else {
      var init, tx := b[..|b| - 1], b[|b| - 1];
      assert a + b == (a + init) + [tx] && b == init + [tx];
      WithoutSnoc(a + init, tx, s);
      WithoutSnoc(init, tx, s);
      WithoutConcat(a, init, s);
    }
  }

  lemma {:induction false} WithoutSame(txs: seq<Tx>, s: set<TxId>, u: set<TxId>)
    requires forall j | 0 <= j < |txs| :: txs[j].id in s <==> txs[j].id in u
    ensures Without(txs, s) == Without(txs, u)
  {
    if txs != [] {
      WithoutSame(txs[..|txs| - 1], s, u);
    }
  }

  lemma {:induction false} WithoutNone(txs: seq<Tx>)
    ensures Without(txs, {}) == txs
  {
    if txs != [] {
      WithoutNone(txs[..|txs| - 1]);
    }
  }

  // ----- rows of the cancelled transactions

  /** Whatever was executed after one of the set is on another row; no command of
      the set drops a table. */
  ghost predicate LastOnRows(pend: seq<Tx>, s: set<TxId>)
  {
    && (forall i | 0 <= i < |pend| && pend[i].id in s && pend[i].sql != NoSql :: !pend[i].sql.query.DropTable?)
    && (forall i, j | 0 <= i < j < |pend| && pend[i].id in s :: Apart([pend[j].sql], [pend[i].sql]))
  }

  lemma {:induction false} OnWithout(txs: seq<Tx>, s: set<TxId>, t: string, k: string)
    requires txs != []
    ensures On(SqlsOf(txs), t, k) == On(SqlsOf(txs[..|txs| - 1]), t, k) + On([txs[|txs| - 1].sql], t, k)
    ensures On(SqlsOf(Without(txs, s)), t, k) == On(SqlsOf(Without(txs[..|txs| - 1], s)), t, k) +
      if txs[|txs| - 1].id in s then [] else On([txs[|txs| - 1].sql], t, k)
  {
    var init, tx := txs[..|txs| - 1], txs[|txs| - 1];
    assert txs == init + [tx] && SqlsOf([tx]) == [tx.sql];
    SqlsConcat(init, [tx]);
    OnConcat(SqlsOf(init), [tx.sql], t, k);
    if tx.id !in s {
      SqlsConcat(Without(init, s), [tx]);
      OnConcat(SqlsOf(Without(init, s)), [tx.sql], t, k);
    } else {
      assert Without(txs, s) == Without(init, s);
    }
  }

  lemma {:induction false} ApartFromAll(txs: seq<Tx>, s: set<TxId>, x: Sql, t: string, k: string)
    requires forall j | 0 <= j < |txs| :: Apart([txs[j].sql], [x])
    ensures On(SqlsOf(Without(txs, s)), t, k) == [] || On([x], t, k) == []
  {
    if txs != [] {
      ApartFromAll(txs[..|txs| - 1], s, x, t, k);
      OnWithout(txs, s, t, k);
      assert Apart([txs[|txs| - 1].sql], [x]);
    }
  }

  /** Leaving out transactions that are apart from a command does not change the
      row of the command. */
  lemma {:induction false} SameOnRow(txs: seq<Tx>, s: set<TxId>, x: Sql, t: string, k: string)
    requires forall j | 0 <= j < |txs| && txs[j].id in s :: Apart([x], [txs[j].sql])
    requires On([x], t, k) != []
    ensures On(SqlsOf(Without(txs, s)), t, k) == On(SqlsOf(txs), t, k)
  {
    if txs != [] {
      var init, tx := txs[..|txs| - 1], txs[|txs| - 1];
      SameOnRow(init, s, x, t, k);
      OnWithout(txs, s, t, k);
      assert tx.id in s ==> Apart([x], [tx.sql]);
    }
  }

  /** The image of a row depends on the commands on the row only. */
  lemma {:induction false} SameImage(a: seq<Sql>, b: seq<Sql>, t: string, k: string)
    requires Replay(a) != None && Replay(b) != None && On(a, t, k) == On(b, t, k)
    ensures ImageLeft(a, t, k) == ImageLeft(b, t, k)
  {
    ReplayByRows(a);
    ReplayByRows(b);
    ImageIsRow(a, t, k);
    ImageIsRow(b, t, k);
    assert CellIn(Replay(a).value, t, k) == CellIn(Replay(b).value, t, k);
  }

  lemma {:induction false} StillFits(a: seq<Sql>, b: seq<Sql>, x: Sql)
    requires UndoFits(a, x) && Replay(a) != None && Replay(b) != None
    requires x != NoSql ==> On(a, x.query.table, KeyOf(x.query)) == On(b, x.query.table, KeyOf(x.query))
    ensures UndoFits(b, x)
  {
    if x != NoSql {
      SameImage(a, b, x.query.table, KeyOf(x.query));
    }
  }

  lemma {:induction false} HistoryAt(chain: seq<Sql>, pend: seq<Tx>, i: nat)
    requires HistoryOk(chain + SqlsOf(pend)) && i < |pend|
    ensures HistoryOk(chain + SqlsOf(pend[..i])) && UndoFits(chain + SqlsOf(pend[..i]), pend[i].sql)
    decreases |pend|
  {
    var init, tx := pend[..|pend| - 1], pend[|pend| - 1];
    assert chain + SqlsOf(pend) == (chain + SqlsOf(init)) + [tx.sql];
    UndoLast(chain + SqlsOf(init), tx.sql);
    if i < |pend| - 1 {
      HistoryAt(chain, init, i);
      assert init[..i] == pend[..i];
    }
  }

  /** One cancellation after others takes back its own command and nothing else. */
  lemma {:induction false} OneTakenBack(chain: seq<Sql>, pend: seq<Tx>, s: set<TxId>, i: nat)
    requires HistoryOk(chain + SqlsOf(pend)) && i < |pend| && pend[i].id !in s && DistinctIds(pend)
    requires LastOnRows(pend, s + {pend[i].id})
    requires Replay(chain + SqlsOf(Without(pend, s))) != None
    ensures Undo(Replay(chain + SqlsOf(Without(pend, s))).value, pend[i].sql)
      == Replay(chain + SqlsOf(Without(pend, s + {pend[i].id}))) != None
  {
    var h, x, queue := chain + SqlsOf(Without(pend[..i], s)), pend[i].sql, SqlsOf(Without(pend[i + 1..], s));
    AroundOne(chain, pend, s, i);
    PrefixRuns(h + [x], queue);
    PrefixRuns(h, [x]);
    HistoryAt(chain, pend, i);
    FitsAfterOthers(chain, pend, s, i);
    ApartFromRest(pend, s, i);
    UndoUnder(h, x, queue);
  }

  lemma {:induction false} ApartFromRest(pend: seq<Tx>, s: set<TxId>, i: nat)
    requires i < |pend| && LastOnRows(pend, s + {pend[i].id})
    ensures Apart(SqlsOf(Without(pend[i + 1..], s)), [pend[i].sql])
    ensures pend[i].sql != NoSql ==> !pend[i].sql.query.DropTable?
  {
    var x, queue := pend[i].sql, SqlsOf(Without(pend[i + 1..], s));
    forall t, k ensures On(queue, t, k) == [] || On([x], t, k) == [] {
      ApartFromAll(pend[i + 1..], s, x, t, k);
    }
  }

  lemma {:induction false} LastOnFewer(pend: seq<Tx>, s: set<TxId>, u: set<TxId>)
    requires LastOnRows(pend, u) && s <= u
    ensures LastOnRows(pend, s)
  {
  }

  lemma {:induction false} AroundOne(chain: seq<Sql>, pend: seq<Tx>, s: set<TxId>, i: nat)
    requires i < |pend| && pend[i].id !in s && DistinctIds(pend)
    ensures var h, x, queue := chain + SqlsOf(Without(pend[..i], s)), pend[i].sql, SqlsOf(Without(pend[i + 1..], s));
      && chain + SqlsOf(Without(pend, s)) == h + [x] + queue
      && chain + SqlsOf(Without(pend, s + {pend[i].id})) == h + queue
  {
    SplitAt(pend, s, i);
    var p, q := Without(pend[..i], s), Without(pend[i + 1..], s);
    SqlsConcat(p + [pend[i]], q);
    SqlsConcat(p, [pend[i]]);
    SqlsConcat(p, q);
    assert SqlsOf([pend[i]]) == [pend[i].sql];
  }

  lemma {:induction false} SplitAt(pend: seq<Tx>, s: set<TxId>, i: nat)
    requires i < |pend| && pend[i].id !in s && DistinctIds(pend)
    ensures Without(pend, s) == Without(pend[..i], s) + [pend[i]] + Without(pend[i + 1..], s)
    ensures Without(pend, s + {pend[i].id}) == Without(pend[..i], s) + Without(pend[i + 1..], s)
  {
    var u := s + {pend[i].id};
    assert pend == (pend[..i] + [pend[i]]) + pend[i + 1..];
    WithoutConcat(pend[..i] + [pend[i]], pend[i + 1..], s);
    WithoutConcat(pend[..i] + [pend[i]], pend[i + 1..], u);
    WithoutSnoc(pend[..i], pend[i], s);
    WithoutSnoc(pend[..i], pend[i], u);
    WithoutSame(pend[..i], s, u);
    WithoutSame(pend[i + 1..], s, u);
  }

  lemma {:induction false} FitsAfterOthers(chain: seq<Sql>, pend: seq<Tx>, s: set<TxId>, i: nat)
    requires i < |pend| && HistoryOk(chain + SqlsOf(pend[..i])) && UndoFits(chain + SqlsOf(pend[..i]), pend[i].sql)
    requires LastOnRows(pend, s + {pend[i].id})
    requires Replay(chain + SqlsOf(Without(pend[..i], s))) != None
    ensures UndoFits(chain + SqlsOf(Without(pend[..i], s)), pend[i].sql)
  {
    var x := pend[i].sql;
    if x != NoSql {
      var t, k := x.query.table, KeyOf(x.query);
      OnOne(x, t, k);
      SameOnRow(pend[..i], s, x, t, k);
      OnConcat(chain, SqlsOf(pend[..i]), t, k);
      OnConcat(chain, SqlsOf(Without(pend[..i], s)), t, k);
    }
    StillFits(chain + SqlsOf(pend[..i]), chain + SqlsOf(Without(pend[..i], s)), x);
  }

  /** A cascade whose transactions were each the last on their rows runs to its
      end, and the rows are then those of the chain with the remaining pending
      transactions. */
  lemma {:induction false} CascadeTakesBack(chain: seq<Sql>, pend: seq<Tx>, pool: Txs, rows: Rows, txs: seq<Tx>,
      order: seq<TxId>)
    requires Pending(chain, pend, pool, rows) && Discovered(pool, txs, order) && LastOnRows(pend, Members(order))
    ensures UndoRun(rows, pool, order) == Replay(chain + SqlsOf(Without(pend, Members(order)))) != None
  {
    if order == [] {
      assert Members(order) == {};
      WithoutNone(pend);
    } else {
      var init, last := order[..|order| - 1], order[|order| - 1];
      assert order == init + [last];
      OneMoreMember(init, last);
      LastOnFewer(pend, Members(init), Members(order));
      CascadeTakesBack(chain, pend, pool, rows, txs, init);
      OneMoreFound(rows, pool, txs, init, last);
      NextTakenBack(chain, pend, pool, rows, Members(init), last);
    }
  }

  lemma {:induction false} NextTakenBack(chain: seq<Sql>, pend: seq<Tx>, pool: Txs, rows: Rows, s: set<TxId>, id: TxId)
    requires Pending(chain, pend, pool, rows) && id in pool && id !in s && LastOnRows(pend, s + {id})
    requires Replay(chain + SqlsOf(Without(pend, s))) != None
    ensures Undo(Replay(chain + SqlsOf(Without(pend, s))).value, pool[id].sql)
      == Replay(chain + SqlsOf(Without(pend, s + {id}))) != None
  {
    var i := PlaceOf(chain, pend, pool, rows, id);
    OneTakenBack(chain, pend, s, i);
  }

  lemma {:induction false} PlaceOf(chain: seq<Sql>, pend: seq<Tx>, pool: Txs, rows: Rows, id: TxId) returns (i: nat)
    requires Pending(chain, pend, pool, rows) && id in pool
    ensures i < |pend| && pend[i].id == id && pool[id] == pend[i]
  {
    assert IsPending(pend, id);
    i :| 0 <= i < |pend| && pend[i].id == id;
  }

  // ----- commands that can always be taken back

  /** The undo deletes a row, or sets columns that the row has. */
  predicate SafeUndo(rows: Rows, s: Sql)
  {
    s == NoSql ||
    (s.rollback.Some? && match s.rollback.value
       case DeleteRow(t, _) => t in rows
       case UpdateRow(t, k, cols) => t in rows && (k in rows[t] ==> cols.Keys <= rows[t][k].Keys)
       case _ => false)
  }

  lemma {:induction false} SafeStaysSafe(rows: Rows, a: Sql, b: Sql)
    requires SafeUndo(rows, a) && SafeUndo(rows, b)
    ensures Undo(rows, a) != None && SafeUndo(Undo(rows, a).value, b)
  {
  }

  /** So pending inserts, and updates of existing columns, are harmless together:
      a cascade over such transactions never stops. */
  lemma {:induction false} SafeIsHarmless(rows: Rows, pool: Txs, s: set<TxId>)
    requires s <= pool.Keys && forall a | a in s :: SafeUndo(rows, pool[a].sql)
    ensures Harmless(rows, pool, s, NO_RANKS)
  {
    forall a | a in s ensures CanUndo(rows, pool, a) {
      SafeStaysSafe(rows, pool[a].sql, pool[a].sql);
    }
    forall a, b | a in s && b in s && a != b ensures CanUndoAfter(rows, pool, a, b) {
      SafeStaysSafe(rows, pool[a].sql, pool[b].sql);
      SafeStaysSafe(Undo(rows, pool[a].sql).value, pool[b].sql, pool[b].sql);
    }
  }

  // ----- three pools

  function Two(a: Tx, b: Tx): Txs
  {
    map[a.id := a, b.id := b]
  }

  /** Two pending transactions, the second based on the first, and a block whose
      only transaction conflicts with the first. */
  ghost predicate FollowedConflict(a: Tx, b: Tx, tx: Tx)
  {
    && a.id != b.id && a.sql != NoSql && b.sql != NoSql && tx.sql != NoSql
    && b.base == a.id && a.base != a.id && a.base != b.id
    && Conflict(tx, a) && !Conflict(tx, b) && !Conflict(a, b)
  }

  function PairRanks(a: Tx, b: Tx): Ranks
  {
    Ranks(map[a.id := 0, b.id := 1], map[a.id := 0, b.id := 0])
  }

  /** Both have to go, in this order. */
  lemma {:induction false} BothHaveToGo(a: Tx, b: Tx, tx: Tx)
    requires FollowedConflict(a, b, tx)
    ensures PoolOk(Two(a, b)) && LeastClosedSet(Two(a, b), [tx], {a.id, b.id})
    ensures Complete(Two(a, b), [tx], [a.id, b.id], PairRanks(a, b)) && Members([a.id, b.id]) == {a.id, b.id}
    ensures Rising(PairRanks(a, b), [a.id, b.id]) && Less(PairRanks(a, b), a.id, b.id)
  {
    var pool := Two(a, b);
    ConflictBothWays(a, b);
    assert Hits(pool, [tx], 0, a.id) && Direct(pool, [tx], a.id) && !Direct(pool, [tx], b.id);
    assert BasedOn(pool, a.id) == {b.id} && BasedOn(pool, b.id) == {};
    assert Members([a.id, b.id]) == {a.id, b.id};
    OneThenOther(a, b, tx);
    forall x | x in {a.id, b.id} ensures RankOk(pool, [tx], {a.id, b.id}, PairRanks(a, b), x) {
    }
  }

  lemma {:induction false} OneThenOther(a: Tx, b: Tx, tx: Tx)
    requires FollowedConflict(a, b, tx)
    ensures Discovered(Two(a, b), [tx], [a.id, b.id])
  {
    var pool := Two(a, b);
    OneMoreFound(map[], pool, [tx], [], a.id);
    OneMoreFound(map[], pool, [tx], [a.id], b.id);
    assert [] + [a.id] == [a.id] && [a.id] + [b.id] == [a.id, b.id];
    assert Hits(pool, [tx], 0, a.id) && FoundAt(pool, [tx], [], a.id, 0);
    assert forall x | Direct(pool, [tx], x) :: x == a.id;
    assert FoundOn(pool, [tx], [a.id], b.id, 0);
  }

  lemma {:induction false} TwoPending(chain: seq<Sql>, a: Tx, b: Tx, rows: Rows)
    requires PoolOk(Two(a, b)) && a.id != b.id
    requires HistoryOk(chain + [a.sql] + [b.sql]) && Replay(chain + [a.sql] + [b.sql]) == Some(rows)
    ensures Pending(chain, [a, b], Two(a, b), rows)
  {
    assert chain + SqlsOf([a, b]) == chain + [a.sql] + [b.sql];
    BothListed(a, b);
  }

  lemma {:induction false} BothListed(a: Tx, b: Tx)
    requires a.id != b.id
    ensures forall id :: id in Two(a, b) <==> IsPending([a, b], id)
    ensures forall i | 0 <= i < |[a, b]| :: [a, b][i].id in Two(a, b) && Two(a, b)[[a, b][i].id] == [a, b][i]
    ensures DistinctIds([a, b])
  {
    assert [a, b][0] == a && [a, b][1] == b;
  }

  /** A table was created and a row inserted, both pending; a block spends what the
      creation spends. The cascade stops: the table goes before the row. All three
      transactions pass verification on a branch that pays what is spent. */
  lemma {:induction false} StopsAtTable() returns (pend: seq<Tx>, pool: Txs, rows: Rows, txs: seq<Tx>, es: seq<Entry>)
    ensures Pending([], pend, pool, rows) && MustStop(rows, pool, txs)
    ensures Live(es) && |pend| == 2 && |txs| == 1
    ensures TxOk(es, [], pend[0], 5) && TxOk(es, [pend[0]], pend[1], 5) && TxOk(es, [], txs[0], 5)
  {
    var create := Sql(TableRef("t"), CreateTable("t"), Some(DropTable("t")));
    var insert := Sql(RowRef("t", "k"), InsertRow("t", "k", map[]), Some(DeleteRow("t", "k")));
    var out := [TxOut(5, 7)];
    var a := Tx(1, 7, [OutPoint(50, 0)], out, create, NoTx);
    var b := Tx(2, 7, [], [], insert, 1);
    var tx := Tx(9, 7, [OutPoint(50, 0)], out, Sql(TableRef("u"), CreateTable("u"), Some(DropTable("u"))), NoTx);
    assert OutPoint(50, 0) in a.vin && SharesInput(tx, a);
    BothHaveToGo(a, b, tx);
    TableWithRowOk(map[]);
    assert [] + [create] + [insert] == TableWithRow(map[]);
    rows := Replay(TableWithRow(map[])).value;
    TwoPending([], a, b, rows);
    pend, pool, txs := [a, b], Two(a, b), [tx];
    TableUnderRow(a, b, tx, rows);
    es := [Entry(Tx(50, NoKey, [OutPoint(NoTx, -1)], out, NoSql, NoTx), 1)];
    AllVerified(es, a, b, tx);
  }

  lemma {:induction false} AllVerified(es: seq<Entry>, a: Tx, b: Tx, tx: Tx)
    requires es == [Entry(Tx(50, NoKey, [OutPoint(NoTx, -1)], [TxOut(5, 7)], NoSql, NoTx), 1)]
    requires a.signer == tx.signer == 7 && a.vin == tx.vin == [OutPoint(50, 0)] && a.vout == tx.vout == [TxOut(5, 7)]
    requires b.vin == [] && b.vout == []
    ensures Live(es) && TxOk(es, [], a, 5) && TxOk(es, [a], b, 5) && TxOk(es, [], tx, 5)
  {
    PaidByReward(es, [], a);
    PaidByReward(es, [], tx);
  }

  lemma {:induction false} PaidByReward(es: seq<Entry>, before: seq<Tx>, tx: Tx)
    requires es == [Entry(Tx(50, NoKey, [OutPoint(NoTx, -1)], [TxOut(5, 7)], NoSql, NoTx), 1)]
    requires tx.signer == 7 && tx.vin == [OutPoint(50, 0)] && tx.vout == [TxOut(5, 7)]
    ensures Live(es) && TxOk(es, before, tx, 5)
  {
    assert es[..0] == [] && MayFollow([], es[0].tx) && Live(es[..0]) && Spends(es[..0]) == {};
    assert es[0].tx.id == 50 && HasTx(es, 50) && FindEntry(es, 50) == Some(es[0].tx);
    OneInputOk(es, Spends(es), before, tx, 5);
  }

  lemma {:induction false} TableUnderRow(a: Tx, b: Tx, tx: Tx, rows: Rows)
    requires FollowedConflict(a, b, tx)
    requires a.sql.rollback == Some(DropTable("t")) && b.sql.rollback == Some(DeleteRow("t", "k"))
    ensures MustStop(rows, Two(a, b), [tx])
  {
    BothHaveToGo(a, b, tx);
    assert CreatedUnder(Two(a, b), [tx], {a.id, b.id}, PairRanks(a, b), a.id, b.id);
    assert Blocked(rows, Two(a, b), [tx], {a.id, b.id});
  }

  /** The chain of the other two pools: a table with one row. */
  function TableWithRow(row: Row): seq<Sql>
  {
    [Sql(TableRef("t"), CreateTable("t"), Some(DropTable("t")))] +
    [Sql(RowRef("t", "k"), InsertRow("t", "k", row), Some(DeleteRow("t", "k")))]
  }

  lemma {:induction false} EmptyTableOk(create: Sql)
    requires create == Sql(TableRef("t"), CreateTable("t"), Some(DropTable("t")))
    ensures HistoryOk([create]) && Replay([create]) == Some(map["t" := map[]]) && ImageLeft([create], "t", "k") == None
  {
    HistoryNext([], create);
    assert [] + [create] == [create];
    var made: Rows := map[];
    assert made["t" := map[]] == map["t" := map[]];
  }

  lemma {:induction false} RowMade(row: Row)
    ensures Exec(map["t" := map[]], InsertRow("t", "k", row)) == Some(map["t" := map["k" := row]])
  {
    var made: Rows := map["t" := map[]];
    assert made["t"]["k" := row] == map["k" := row] && made["t" := map["k" := row]] == map["t" := map["k" := row]];
  }

  lemma {:induction false} TableWithRowOk(row: Row)
    ensures HistoryOk(TableWithRow(row)) && Replay(TableWithRow(row)) == Some(map["t" := map["k" := row]])
    ensures ImageLeft(TableWithRow(row), "t", "k") == Some(row)
  {
    var create := Sql(TableRef("t"), CreateTable("t"), Some(DropTable("t")));
    var insert := Sql(RowRef("t", "k"), InsertRow("t", "k", row), Some(DeleteRow("t", "k")));
    EmptyTableOk(create);
    RowMade(row);
    HistoryNext([create], insert);
  }

  /** A row was deleted and inserted again, both pending; a block updates the row
      from the same base. The cascade stops at its first undo: the row is there. */
  lemma {:induction false} StopsAtRow() returns (pend: seq<Tx>, pool: Txs, rows: Rows, txs: seq<Tx>)
    ensures Pending(TableWithRow(map[]), pend, pool, rows) && MustStop(rows, pool, txs)
  {
    var ref := RowRef("t", "k");
    var delete := Sql(ref, DeleteRow("t", "k"), Some(InsertRow("t", "k", map[])));
    var again := Sql(ref, InsertRow("t", "k", map[]), Some(DeleteRow("t", "k")));
    var a := Tx(1, 7, [], [], delete, 5);
    var b := Tx(2, 7, [], [], again, 1);
    var tx := Tx(9, 7, [], [], Sql(ref, UpdateRow("t", "k", map[]), Some(UpdateRow("t", "k", map[]))), 5);
    assert SameStep(tx, a);
    BothHaveToGo(a, b, tx);
    rows := DeletedAndBack(delete, again);
    TwoPending(TableWithRow(map[]), a, b, rows);
    pend, pool, txs := [a, b], Two(a, b), [tx];
    RowThereAgain(a, b, tx, rows);
  }

  lemma {:induction false} DeletedAndBack(delete: Sql, again: Sql) returns (rows: Rows)
    requires delete == Sql(RowRef("t", "k"), DeleteRow("t", "k"), Some(InsertRow("t", "k", map[])))
    requires again == Sql(RowRef("t", "k"), InsertRow("t", "k", map[]), Some(DeleteRow("t", "k")))
    ensures HistoryOk(TableWithRow(map[]) + [delete] + [again]) && CellIn(rows, "t", "k").Present?
    ensures Replay(TableWithRow(map[]) + [delete] + [again]) == Some(rows)
  {
    TableWithRowOk(map[]);
    HistoryNext(TableWithRow(map[]), delete);
    HistoryNext(TableWithRow(map[]) + [delete], again);
    rows := Replay(TableWithRow(map[]) + [delete] + [again]).value;
  }

  lemma {:induction false} RowThereAgain(a: Tx, b: Tx, tx: Tx, rows: Rows)
    requires FollowedConflict(a, b, tx) && CellIn(rows, "t", "k").Present?
    requires a.sql.rollback == Some(InsertRow("t", "k", map[]))
    ensures MustStop(rows, Two(a, b), [tx])
  {
    BothHaveToGo(a, b, tx);
    assert InsertedAgain(rows, Two(a, b), [tx], {a.id, b.id}, PairRanks(a, b), a.id);
    assert Blocked(rows, Two(a, b), [tx], {a.id, b.id});
  }

  /** Two pending transactions, the second based on the first, and a block whose
      only transaction conflicts with both. */
  ghost predicate BothInConflict(a: Tx, b: Tx, tx: Tx)
  {
    && a.id != b.id && a.sql != NoSql && b.sql != NoSql && tx.sql != NoSql
    && b.base == a.id && a.base != a.id && a.base != b.id
    && Conflict(tx, a) && Conflict(tx, b) && !Conflict(a, b)
  }

  lemma {:induction false} EitherOrder(a: Tx, b: Tx, tx: Tx, x: TxId, y: TxId)
    requires BothInConflict(a, b, tx) && x != y && {x, y} == {a.id, b.id}
    ensures Discovered(Two(a, b), [tx], [x, y])
  {
    var pool := Two(a, b);
    OneMoreFound(map[], pool, [tx], [], x);
    OneMoreFound(map[], pool, [tx], [x], y);
    assert [] + [x] == [x] && [x] + [y] == [x, y];
    assert x in {a.id, b.id} && y in {a.id, b.id};
    assert FoundAt(pool, [tx], [], x, 0) && FoundAt(pool, [tx], [x], y, 0);
  }

  lemma {:induction false} BothHaveToGoAnyhow(a: Tx, b: Tx, tx: Tx)
    requires BothInConflict(a, b, tx)
    ensures PoolOk(Two(a, b)) && LeastClosedSet(Two(a, b), [tx], {a.id, b.id})
  {
    var pool := Two(a, b);
    ConflictBothWays(a, b);
    assert Hits(pool, [tx], 0, a.id) && Direct(pool, [tx], a.id);
    assert Hits(pool, [tx], 0, b.id) && Direct(pool, [tx], b.id);
    assert BasedOn(pool, a.id) == {b.id} && BasedOn(pool, b.id) == {};
  }

  /** Where it is not certain which of two commands on a row comes first, the outcome
      can be open: a row was deleted and inserted again, both pending; a block updates
      the row from the same base and spends what the insert spends. Both are in
      conflict with it. If the deletion is met first, the cascade stops, else it runs
      to its end. */
  lemma {:induction false} OrderMatters() returns (a: Tx, b: Tx, tx: Tx, rows: Rows, es: seq<Entry>)
    ensures Pending(TableWithRow(map[]), [a, b], Two(a, b), rows) && Live(es)
    ensures TxOk(es, [], a, 5) && TxOk(es, [a], b, 5) && TxOk(es, [], tx, 5)
    ensures LeastClosedSet(Two(a, b), [tx], {a.id, b.id})
    ensures Discovered(Two(a, b), [tx], [a.id, b.id]) && UndoRun(rows, Two(a, b), [a.id, b.id]) == None
    ensures Discovered(Two(a, b), [tx], [b.id, a.id]) && UndoRun(rows, Two(a, b), [b.id, a.id]) != None
  {
    var ref, out := RowRef("t", "k"), [TxOut(5, 7)];
    var delete := Sql(ref, DeleteRow("t", "k"), Some(InsertRow("t", "k", map[])));
    var again := Sql(ref, InsertRow("t", "k", map[]), Some(DeleteRow("t", "k")));
    a := Tx(1, 7, [], [], delete, 5);
    b := Tx(2, 7, [OutPoint(50, 0)], out, again, 1);
    tx := Tx(9, 7, [OutPoint(50, 0)], out, Sql(ref, UpdateRow("t", "k", map[]), Some(UpdateRow("t", "k", map[]))), 5);
    MeetsBoth(a, b, tx);
    BothHaveToGoAnyhow(a, b, tx);
    rows := DeletedAndBack(delete, again);
    TwoPending(TableWithRow(map[]), a, b, rows);
    EitherOrder(a, b, tx, a.id, b.id);
    EitherOrder(a, b, tx, b.id, a.id);
    OneWayOnly(a, b, rows);
    es := InsertPaid(a, b, tx);
  }

  lemma {:induction false} MeetsBoth(a: Tx, b: Tx, tx: Tx)
    requires a.id == 1 && b.id == 2 && tx.id == 9 && a.vin == [] && b.vin == tx.vin == [OutPoint(50, 0)]
    requires a.sql != NoSql && b.sql != NoSql && tx.sql != NoSql && a.sql.ref == tx.sql.ref != NoRef
    requires a.base == tx.base == 5 && b.base == 1
    ensures BothInConflict(a, b, tx)
  {
    assert OutPoint(50, 0) in b.vin && SharesInput(tx, b) && SameStep(tx, a);
  }

  lemma {:induction false} InsertPaid(a: Tx, b: Tx, tx: Tx) returns (es: seq<Entry>)
    requires a.vin == [] && a.vout == [] && b.signer == tx.signer == 7
    requires b.vin == tx.vin == [OutPoint(50, 0)] && b.vout == tx.vout == [TxOut(5, 7)]
    ensures Live(es) && TxOk(es, [], a, 5) && TxOk(es, [a], b, 5) && TxOk(es, [], tx, 5)
  {
    es := [Entry(Tx(50, NoKey, [OutPoint(NoTx, -1)], [TxOut(5, 7)], NoSql, NoTx), 1)];
    PaidByReward(es, [a], b);
    PaidByReward(es, [], tx);
  }

  lemma {:induction false} OneWayOnly(a: Tx, b: Tx, rows: Rows)
    requires a.id != b.id && CellIn(rows, "t", "k").Present? && a.sql != NoSql && b.sql != NoSql
    requires a.sql.rollback == Some(InsertRow("t", "k", map[])) && b.sql.rollback == Some(DeleteRow("t", "k"))
    ensures UndoRun(rows, Two(a, b), [a.id, b.id]) == None && UndoRun(rows, Two(a, b), [b.id, a.id]) != None
  {
    assert [a.id, b.id][..1] == [a.id] && [b.id, a.id][..1] == [b.id];
    assert UndoRun(rows, Two(a, b), [a.id]) == Undo(rows, a.sql);
    assert UndoRun(rows, Two(a, b), [b.id]) == Undo(rows, b.sql);
  }

  /** A row was updated twice, both pending; a block updates it from the same base.
      The cascade runs to its end and leaves the value of the first update, which
      nobody holds any more. */
  lemma {:induction false} LeavesCancelledValue()
    returns (row: Row, pend: seq<Tx>, pool: Txs, rows: Rows, txs: seq<Tx>, s: set<TxId>)
    ensures Pending(TableWithRow(row), pend, pool, rows) && LeastClosedSet(pool, txs, s) && CannotStop(rows, pool, txs)
    ensures Without(pend, s) == [] && WrongInAnyOrder(TableWithRow(row), pool, rows, txs, s)
  {
    var ref, v0, v1, v2 := RowRef("t", "k"), map["c" := "0"], map["c" := "1"], map["c" := "2"];
    var first := Sql(ref, UpdateRow("t", "k", v1), Some(UpdateRow("t", "k", v0)));
    var second := Sql(ref, UpdateRow("t", "k", v2), Some(UpdateRow("t", "k", v1)));
    var a, b := Tx(1, 7, [], [], first, 5), Tx(2, 7, [], [], second, 1);
    var tx := Tx(9, 7, [], [], Sql(ref, UpdateRow("t", "k", v0), Some(UpdateRow("t", "k", v0))), 5);
    row, pend, pool, txs, s := v0, [a, b], Two(a, b), [tx], {1, 2};
    rows := map["t" := map["k" := v2]];
    assert SameStep(tx, a);
    BothHaveToGo(a, b, tx);
    TwoUpdates(a, b, v0, v1, v2);
    BothAreSafe(a, b, rows, v0, v1);
    WrongAlways(a, b, tx, v0);
  }

  lemma {:induction false} BothAreSafe(a: Tx, b: Tx, rows: Rows, v0: Row, v1: Row)
    requires rows == map["t" := map["k" := map["c" := "2"]]] && v0.Keys == v1.Keys == {"c"}
    requires a.sql.Sql? && a.sql.rollback == Some(UpdateRow("t", "k", v0))
    requires b.sql.Sql? && b.sql.rollback == Some(UpdateRow("t", "k", v1)) && a.id != b.id
    ensures Harmless(rows, Two(a, b), {a.id, b.id}, NO_RANKS) && Without([a, b], {a.id, b.id}) == []
  {
    SafeIsHarmless(rows, Two(a, b), {a.id, b.id});
    assert [a, b][..1] == [a] && [a][..0] == [];
    assert Without([a], {a.id, b.id}) == [];
  }

  lemma {:induction false} TwoUpdates(a: Tx, b: Tx, v0: Row, v1: Row, v2: Row)
    requires v0.Keys == v1.Keys == v2.Keys && PoolOk(Two(a, b)) && a.id != b.id
    requires a.sql == Sql(RowRef("t", "k"), UpdateRow("t", "k", v1), Some(UpdateRow("t", "k", v0)))
    requires b.sql == Sql(RowRef("t", "k"), UpdateRow("t", "k", v2), Some(UpdateRow("t", "k", v1)))
    ensures Pending(TableWithRow(v0), [a, b], Two(a, b), map["t" := map["k" := v2]])
  {
    TableWithRowOk(v0);
    UpdateNext(TableWithRow(v0), v0, v1);
    UpdateNext(TableWithRow(v0) + [a.sql], v1, v2);
    TwoPending(TableWithRow(v0), a, b, map["t" := map["k" := v2]]);
  }

  lemma {:induction false} WrongAlways(a: Tx, b: Tx, tx: Tx, v0: Row)
    requires FollowedConflict(a, b, tx) && v0 == map["c" := "0"]
    requires a.sql.rollback == Some(UpdateRow("t", "k", v0))
    requires b.sql.rollback == Some(UpdateRow("t", "k", map["c" := "1"]))
    ensures WrongInAnyOrder(TableWithRow(v0), Two(a, b), map["t" := map["k" := map["c" := "2"]]], [tx], {a.id, b.id})
  {
    TableWithRowOk(v0);
    var rows: Rows := map["t" := map["k" := map["c" := "2"]]];
    UndoneForwards(a, b, rows);
    DifferentRows();
    forall order | Discovered(Two(a, b), [tx], order) && Members(order) == {a.id, b.id}
      ensures UndoRun(rows, Two(a, b), order) != Replay(TableWithRow(v0))
    {
      BothHaveToGo(a, b, tx);
      OnlyOrder(Two(a, b), [tx], [a.id, b.id], PairRanks(a, b), order);
    }
  }

  lemma {:induction false} DifferentRows()
    ensures var one: Rows, none: Rows :=
      map["t" := map["k" := map["c" := "1"]]], map["t" := map["k" := map["c" := "0"]]];
      one != none
  {
    var one: Rows, none: Rows := map["t" := map["k" := map["c" := "1"]]], map["t" := map["k" := map["c" := "0"]]];
    assert one["t"]["k"]["c"] != none["t"]["k"]["c"];
  }

  ghost predicate WrongInAnyOrder(chain: seq<Sql>, pool: Txs, rows: Rows, txs: seq<Tx>, s: set<TxId>)
  {
    forall order | Discovered(pool, txs, order) && Members(order) == s :: UndoRun(rows, pool, order) != Replay(chain)
  }

  lemma {:induction false} UpdateNext(h: seq<Sql>, old_: Row, new_: Row)
    requires HistoryOk(h) && Replay(h) == Some(map["t" := map["k" := old_]]) && ImageLeft(h, "t", "k") == Some(old_)
    requires old_.Keys == new_.Keys
    ensures var s := Sql(RowRef("t", "k"), UpdateRow("t", "k", new_), Some(UpdateRow("t", "k", old_)));
      && HistoryOk(h + [s]) && Replay(h + [s]) == Some(map["t" := map["k" := new_]])
      && ImageLeft(h + [s], "t", "k") == Some(new_)
  {
    var s := Sql(RowRef("t", "k"), UpdateRow("t", "k", new_), Some(UpdateRow("t", "k", old_)));
    assert (map c | c in new_ :: old_[c]) == old_;
    Overwrite(old_, new_);
    HistoryNext(h, s);
  }

  lemma {:induction false} Overwrite(old_: Row, new_: Row)
    requires old_.Keys == new_.Keys
    ensures Exec(map["t" := map["k" := old_]], UpdateRow("t", "k", new_)) == Some(map["t" := map["k" := new_]])
  {
    var rows: Rows := map["t" := map["k" := old_]];
    assert old_ + new_ == new_;
    assert rows["t"]["k" := new_] == map["k" := new_] && rows["t" := map["k" := new_]] == map["t" := map["k" := new_]];
  }

  lemma {:induction false} UndoneForwards(a: Tx, b: Tx, rows: Rows)
    requires a.id != b.id && rows == map["t" := map["k" := map["c" := "2"]]]
    requires a.sql != NoSql && a.sql.rollback == Some(UpdateRow("t", "k", map["c" := "0"]))
    requires b.sql != NoSql && b.sql.rollback == Some(UpdateRow("t", "k", map["c" := "1"]))
    ensures UndoRun(rows, Two(a, b), [a.id, b.id]) == Some(map["t" := map["k" := map["c" := "1"]]])
  {
    var pool := Two(a, b);
    OneMoreFound(rows, pool, [], [], a.id);
    OneMoreFound(rows, pool, [], [a.id], b.id);
    assert [] + [a.id] == [a.id] && [a.id] + [b.id] == [a.id, b.id];
    Overwrite(map["c" := "2"], map["c" := "0"]);
    Overwrite(map["c" := "0"], map["c" := "1"]);
  }
}
