/** Whether the cascade runs to its end, told by pool, rows and block beforehand. */
module CascadeFate {
  import opened Types
  import opened SqlHistory
  import opened RowOrder
  import opened StatementRuns
  import opened Pool
  import opened CascadeOrder

  // ----- how the cascade ends

  /** The state of the cascade after the cancellations in `order`. */
  ghost predicate CancelledSoFar(pool0: Txs, rows0: Rows, txs: seq<Tx>, order: seq<TxId>, pool: Txs, rows: Rows)
  {
    && Sub(pool, pool0) && ListsGone(order, pool0, pool)
    && Discovered(pool0, txs, order) && UndoRun(rows0, pool0, order) == Some(rows)
  }

  /** The cascade cannot go on: the undo of the next transaction fails. */
  ghost predicate StuckAfter(pool0: Txs, txs: seq<Tx>, order: seq<TxId>, pool: Txs, rows: Rows, id: TxId)
  {
    id in pool && FoundAfter(pool0, txs, order, id) && Undo(rows, pool0[id].sql) == None
  }

  ghost predicate Stuck(pool0: Txs, txs: seq<Tx>, order: seq<TxId>, pool: Txs, rows: Rows)
  {
    exists id :: StuckAfter(pool0, txs, order, pool, rows, id)
  }

  ghost predicate ListsGone(deleted: seq<TxId>, start: Txs, now: Txs)
  {
    forall id :: id in deleted <==> id in Gone(start, now)
  }

  /** Nothing pending conflicts with the first SQL transactions of the block. */
  ghost predicate NoConflicts(txs: seq<Tx>, i: nat, pool: Txs)
  {
    forall t | 0 <= t < i && t < |txs| && txs[t].sql != NoSql :: !ConflictsWithSome(txs[t], pool)
  }

  /** How the cascade ends: it has cancelled in some order of discovery, with the
      undo statements run in this order; it is done when exactly the conflicts and
      what is based on them is gone, and it stops only at an undo that fails. */
  ghost predicate CascadeDone(ok: bool, pool0: Txs, rows0: Rows, txs: seq<Tx>, order: seq<TxId>, pool: Txs, rows: Rows)
  {
    && CancelledSoFar(pool0, rows0, txs, order, pool, rows)
    && (ok ==> LeastClosedSet(pool0, txs, Gone(pool0, pool)) && NoConflicts(txs, |txs|, pool))
    && (!ok ==> Stuck(pool0, txs, order, pool, rows))
  }

  // ----- when it runs to its end

  ghost predicate CanUndo(rows: Rows, pool: Txs, a: TxId)
    requires a in pool
  {
    Undo(rows, pool[a].sql) != None
  }

  ghost predicate CanUndoAfter(rows: Rows, pool: Txs, a: TxId, b: TxId)
    requires a in pool && b in pool
  {
    CanUndo(rows, pool, a) && Undo(Undo(rows, pool[a].sql).value, pool[b].sql) != None
  }

  /** Each undo statement runs now, and each still runs after any one that may come
      before it. */
  ghost predicate Harmless(rows: Rows, pool: Txs, s: set<TxId>, ranks: Ranks)
  {
    && s <= pool.Keys
    && (forall a | a in s :: CanUndo(rows, pool, a))
    && (forall a, b | a in s && b in s && a != b && !Less(ranks, b, a) :: CanUndoAfter(rows, pool, a, b))
  }

  const NO_RANKS := Ranks(map[], map[])

  /** The ranks of the set, or none: then any order is reckoned with. */
  ghost predicate RanksFit(pool: Txs, txs: seq<Tx>, s: set<TxId>, ranks: Ranks)
  {
    ranks == NO_RANKS || RanksOk(pool, txs, s, ranks)
  }

  ghost predicate CannotStop(rows: Rows, pool: Txs, txs: seq<Tx>)
  {
    exists s, ranks :: ClosedSet(pool, txs, s) && RanksFit(pool, txs, s, ranks) && Harmless(rows, pool, s, ranks)
  }

  /** Two statements that run one after the other, and each before a third one, leave
      the third one running. */
  lemma {:induction false} PairsSuffice(rows: Rows, a: Statement, b: Statement, c: Statement)
    requires Exec(rows, a) != None && Exec(rows, b) != None && Exec(rows, c) != None
    requires Exec(Exec(rows, a).value, b) != None && Exec(Exec(rows, a).value, c) != None
    requires Exec(Exec(rows, b).value, c) != None
    ensures Exec(Exec(Exec(rows, a).value, b).value, c) != None
  {
    CellOfRow(rows, a, c);
    CellOfRow(rows, b, c);
    CellOfRow(Exec(rows, a).value, b, c);
    ExecAt(rows, c, c.table, KeyOf(c));
    ExecAt(Exec(rows, a).value, c, c.table, KeyOf(c));
    ExecAt(Exec(rows, b).value, c, c.table, KeyOf(c));
    ExecAt(Exec(Exec(rows, a).value, b).value, c, c.table, KeyOf(c));
  }

  lemma {:induction false} CellOfRow(rows: Rows, s: Statement, c: Statement)
    requires Exec(rows, s) != None
    ensures var cell, now := CellIn(rows, c.table, KeyOf(c)), CellIn(Exec(rows, s).value, c.table, KeyOf(c));
      now == if Concerns(s, c.table, KeyOf(c)) then StepCell(cell, s).value else cell
  {
    ExecAt(rows, s, c.table, KeyOf(c));
  }

  /** Undoing one of a harmless set, before which no other has to come, leaves the
      others harmless. */
  lemma {:induction false} HarmlessNext(rows: Rows, pool: Txs, s: set<TxId>, ranks: Ranks, a: TxId)
    requires Harmless(rows, pool, s, ranks) && a in s && forall x | x in s :: !Less(ranks, x, a)
    ensures Undo(rows, pool[a].sql) != None && Harmless(Undo(rows, pool[a].sql).value, pool, s - {a}, ranks)
  {
    assert CanUndo(rows, pool, a);
    var now := Undo(rows, pool[a].sql).value;
    forall b | b in s - {a} ensures CanUndo(now, pool, b) {
      assert CanUndoAfter(rows, pool, a, b);
    }
    forall b, c | b in s - {a} && c in s - {a} && b != c && !Less(ranks, c, b) ensures CanUndoAfter(now, pool, b, c) {
      assert CanUndoAfter(rows, pool, a, b) && CanUndoAfter(rows, pool, a, c) && CanUndoAfter(rows, pool, b, c);
      assert CanUndo(rows, pool, c);
      ThirdRuns(rows, pool[a].sql, pool[b].sql, pool[c].sql);
    }
  }

  lemma {:induction false} ThirdRuns(rows: Rows, a: Sql, b: Sql, c: Sql)
    requires Undo(rows, a) != None && Undo(rows, b) != None && Undo(rows, c) != None
    requires Undo(Undo(rows, a).value, b) != None && Undo(Undo(rows, a).value, c) != None
    requires Undo(Undo(rows, b).value, c) != None
    ensures Undo(Undo(Undo(rows, a).value, b).value, c) != None
  {
    if a != NoSql && b != NoSql && c != NoSql {
      PairsSuffice(rows, a.rollback.value, b.rollback.value, c.rollback.value);
    }
  }

  /** A harmless set is undone in every order in which it can be found. */
  lemma {:induction false} HarmlessRuns(rows: Rows, pool: Txs, txs: seq<Tx>, order: seq<TxId>, s: set<TxId>,
      ranks: Ranks)
    requires Harmless(rows, pool, s, ranks) && RanksFit(pool, txs, s, ranks)
    requires Discovered(pool, txs, order) && Members(order) <= s
    ensures UndoRun(rows, pool, order) != None
    ensures Harmless(UndoRun(rows, pool, order).value, pool, s - Members(order), ranks)
  {
    if order == [] {
      assert s - Members(order) == s;
    } else {
      var init, last := order[..|order| - 1], order[|order| - 1];
      assert order == init + [last];
      OneMoreMember(init, last);
      HarmlessRuns(rows, pool, txs, init, s, ranks);
      NothingLower(pool, txs, init, s, ranks, last);
      HarmlessNext(UndoRun(rows, pool, init).value, pool, s - Members(init), ranks, last);
      assert s - Members(order) == s - Members(init) - {last};
    }
  }

  lemma {:induction false} NothingLower(pool: Txs, txs: seq<Tx>, order: seq<TxId>, s: set<TxId>, ranks: Ranks, id: TxId)
    requires Discovered(pool, txs, order) && FoundAfter(pool, txs, order, id) && id in s && Members(order) <= s
    requires RanksFit(pool, txs, s, ranks)
    ensures forall x | x in s - Members(order) :: !Less(ranks, x, id)
  {
    forall x | x in s - Members(order) ensures !Less(ranks, x, id) {
      if Less(ranks, x, id) {
        LowerFirst(pool, txs, order, s, ranks, x, id);
      }
    }
  }

  // ----- when it cannot

  function UndoOf(pool: Txs, id: TxId): Option<Statement>
    requires id in pool
  {
    if pool[id].sql == NoSql then None else pool[id].sql.rollback
  }

  /** A command without undo: it dropped a table. */
  ghost predicate WithoutUndo(pool: Txs, s: set<TxId>, d: TxId)
  {
    d in s && d in pool && pool[d].sql != NoSql && pool[d].sql.rollback == None
  }

  /** The creation of a table with a command on the table that is found later. */
  ghost predicate CreatedUnder(pool: Txs, txs: seq<Tx>, s: set<TxId>, ranks: Ranks, d: TxId, f: TxId)
  {
    && RanksOk(pool, txs, s, ranks) && s <= pool.Keys && d in s && f in s && Less(ranks, d, f)
    && UndoOf(pool, d).Some? && UndoOf(pool, d).value.DropTable?
    && UndoOf(pool, f).Some? && UndoOf(pool, f).value.table == UndoOf(pool, d).value.table
    && (forall x | x in s && UndoOf(pool, x).Some? :: !UndoOf(pool, x).value.CreateTable?)
  }

  /** The undo takes the row, or its table, away. */
  predicate TakesRow(pool: Txs, x: TxId, t: string, k: string)
    requires x in pool
  {
    UndoOf(pool, x) == Some(DropTable(t)) || UndoOf(pool, x) == Some(DeleteRow(t, k))
  }

  /** The deletion of a row that is there again: everything that could make room
      for its undo is found later. */
  ghost predicate InsertedAgain(rows: Rows, pool: Txs, txs: seq<Tx>, s: set<TxId>, ranks: Ranks, d: TxId)
  {
    && RanksOk(pool, txs, s, ranks) && s <= pool.Keys && d in s
    && UndoOf(pool, d).Some? && UndoOf(pool, d).value.InsertRow?
    && var t, k := UndoOf(pool, d).value.table, UndoOf(pool, d).value.key;
       CellIn(rows, t, k).Present? && forall x | x in s && TakesRow(pool, x, t, k) :: Less(ranks, d, x)
  }

  ghost predicate Blocked(rows: Rows, pool: Txs, txs: seq<Tx>, s: set<TxId>)
  {
    || (exists d :: WithoutUndo(pool, s, d))
    || (exists ranks, d, f :: CreatedUnder(pool, txs, s, ranks, d, f))
    || (exists ranks, d :: InsertedAgain(rows, pool, txs, s, ranks, d))
  }

  ghost predicate MustStop(rows: Rows, pool: Txs, txs: seq<Tx>)
  {
    exists s :: LeastClosedSet(pool, txs, s) && Blocked(rows, pool, txs, s)
  }

  /** The part of an order up to one of its members. */
  lemma {:induction false} UpTo(rows: Rows, pool: Txs, txs: seq<Tx>, order: seq<TxId>, d: TxId)
    returns (before: seq<TxId>)
    requires Discovered(pool, txs, order) && UndoRun(rows, pool, order) != None && d in order
    ensures Discovered(pool, txs, before) && d !in before && FoundAfter(pool, txs, before, d)
    ensures UndoRun(rows, pool, before) != None && Undo(UndoRun(rows, pool, before).value, pool[d].sql) != None
    ensures Members(before) <= Members(order)
  {
    var init, last := order[..|order| - 1], order[|order| - 1];
    assert order == init + [last];
    if last == d {
      before := init;
    } else {
      before := UpTo(rows, pool, txs, init, d);
    }
  }

  /** While nothing that takes the row away was undone, the row stays. */
  lemma {:induction false} RowStays(rows: Rows, pool: Txs, order: seq<TxId>, t: string, k: string)
    requires UndoRun(rows, pool, order) != None && CellIn(rows, t, k).Present?
    requires forall x | x in order :: x in pool && !TakesRow(pool, x, t, k)
    ensures CellIn(UndoRun(rows, pool, order).value, t, k).Present?
  {
    if order != [] {
      var init, last := order[..|order| - 1], order[|order| - 1];
      assert order == init + [last];
      RowStays(rows, pool, init, t, k);
      if pool[last].sql != NoSql {
        ExecAt(UndoRun(rows, pool, init).value, pool[last].sql.rollback.value, t, k);
      }
    }
  }

  /** Once the undo of a creation has run, the table stays away. */
  lemma {:induction false} TableStaysAway(rows: Rows, pool: Txs, order: seq<TxId>, d: TxId, t: string)
    requires UndoRun(rows, pool, order) != None && d in order
    requires forall x | x in order :: x in pool && (UndoOf(pool, x).Some? ==> !UndoOf(pool, x).value.CreateTable?)
    requires UndoOf(pool, d) == Some(DropTable(t))
    ensures t !in UndoRun(rows, pool, order).value
  {
    var init, last := order[..|order| - 1], order[|order| - 1];
    assert order == init + [last];
    if last != d {
      TableStaysAway(rows, pool, init, d, t);
    }
  }

  /** A blocked set is not undone in any order in which it can be found. */
  lemma {:induction false} BlockedStops(rows: Rows, pool: Txs, txs: seq<Tx>, s: set<TxId>, order: seq<TxId>)
    requires Blocked(rows, pool, txs, s) && Discovered(pool, txs, order) && Members(order) == s
    ensures UndoRun(rows, pool, order) == None
  {
    if UndoRun(rows, pool, order) != None {
      if d :| WithoutUndo(pool, s, d) {
        var before := UpTo(rows, pool, txs, order, d);
      } else if ranks, d, f :| CreatedUnder(pool, txs, s, ranks, d, f) {
        StopsAtCreation(rows, pool, txs, s, order, ranks, d, f);
      } else {
        var ranks, d :| InsertedAgain(rows, pool, txs, s, ranks, d);
        StopsAtDeletion(rows, pool, txs, s, order, ranks, d);
      }
    }
  }

  lemma {:induction false} StopsAtCreation(rows: Rows, pool: Txs, txs: seq<Tx>, s: set<TxId>, order: seq<TxId>,
      ranks: Ranks, d: TxId, f: TxId)
    requires CreatedUnder(pool, txs, s, ranks, d, f) && Discovered(pool, txs, order) && Members(order) == s
    ensures UndoRun(rows, pool, order) == None
  {
    if UndoRun(rows, pool, order) != None {
      var t := UndoOf(pool, d).value.table;
      var before := UpTo(rows, pool, txs, order, f);
      LowerFirst(pool, txs, before, s, ranks, d, f);
      TableIsMissing(UndoRun(rows, pool, before).value, pool, f, t);
      assert forall x | x in before :: x in Members(before);
      TableStaysAway(rows, pool, before, d, t);
    }
  }

  lemma {:induction false} TableIsMissing(rows: Rows, pool: Txs, f: TxId, t: string)
    requires f in pool && UndoOf(pool, f).Some? && UndoOf(pool, f).value.table == t
    requires !UndoOf(pool, f).value.CreateTable?
    ensures t !in rows ==> Undo(rows, pool[f].sql) == None
  {
  }

  /** Nothing that is found later than `d` comes before it. */
  lemma {:induction false} NoneLater(pool: Txs, txs: seq<Tx>, before: seq<TxId>, s: set<TxId>, ranks: Ranks, d: TxId)
    requires Discovered(pool, txs, before) && Members(before) <= s && d in s && d !in before
    requires RanksOk(pool, txs, s, ranks)
    ensures forall x | x in before :: !Less(ranks, d, x)
  {
    forall x | x in before ensures !Less(ranks, d, x) {
      var i :| 0 <= i < |before| && before[i] == x;
      DiscoveredAt(pool, txs, before, i);
      assert x in Members(before) && Members(before[..i]) <= Members(before);
      if Less(ranks, d, x) {
        LowerFirst(pool, txs, before[..i], s, ranks, d, x);
      }
    }
  }

  lemma {:induction false} StopsAtDeletion(rows: Rows, pool: Txs, txs: seq<Tx>, s: set<TxId>, order: seq<TxId>,
      ranks: Ranks, d: TxId)
    requires InsertedAgain(rows, pool, txs, s, ranks, d) && Discovered(pool, txs, order) && Members(order) == s
    ensures UndoRun(rows, pool, order) == None
  {
    if UndoRun(rows, pool, order) != None {
      var before := UpTo(rows, pool, txs, order, d);
      NoneLater(pool, txs, before, s, ranks, d);
      assert forall x | x in before :: x in Members(before);
      RowStays(rows, pool, before, UndoOf(pool, d).value.table, UndoOf(pool, d).value.key);
    }
  }

  // ----- the outcome

  lemma {:induction false} CascadeEnds(ok: bool, pool0: Txs, rows0: Rows, txs: seq<Tx>, order: seq<TxId>, pool: Txs,
      rows: Rows)
    requires CascadeDone(ok, pool0, rows0, txs, order, pool, rows)
    ensures CannotStop(rows0, pool0, txs) ==> ok
    ensures MustStop(rows0, pool0, txs) ==> !ok
  {
    if CannotStop(rows0, pool0, txs) && !ok {
      var s, ranks :| ClosedSet(pool0, txs, s) && RanksFit(pool0, txs, s, ranks) && Harmless(rows0, pool0, s, ranks);
      var id :| StuckAfter(pool0, txs, order, pool, rows, id);
      FoundInClosed(pool0, txs, order, s);
      OneMoreFound(rows0, pool0, txs, order, id);
      OneMoreMember(order, id);
      HarmlessRuns(rows0, pool0, txs, order + [id], s, ranks);
    }
    if MustStop(rows0, pool0, txs) && ok {
      var s :| LeastClosedSet(pool0, txs, s) && Blocked(rows0, pool0, txs, s);
      assert Members(order) == Gone(pool0, pool) == s;
      BlockedStops(rows0, pool0, txs, s, order);
    }
  }

  // ----- told row by row

  /** The pending transactions whose undo concerns a row. */
  ghost function OnRowOf(pool: Txs, t: string, k: string): set<TxId>
  {
    set id | id in pool && UndoOf(pool, id).Some? && Concerns(UndoOf(pool, id).value, t, k)
  }

  function Undos(pool: Txs, order: seq<TxId>): seq<Statement>
  {
    if order == [] then []
    else
      var last := order[|order| - 1];
      Undos(pool, order[..|order| - 1]) +
      if last in pool && UndoOf(pool, last).Some? then [UndoOf(pool, last).value] else []
  }

  /** All of them are pending, and each command has its undo. */
  ghost predicate AllHaveUndo(pool: Txs, order: seq<TxId>)
  {
    forall id | id in order :: id in pool && (pool[id].sql != NoSql ==> pool[id].sql.rollback.Some?)
  }

  lemma {:induction false} UndoRunIsExecAll(rows: Rows, pool: Txs, order: seq<TxId>)
    requires AllHaveUndo(pool, order)
    ensures UndoRun(rows, pool, order) == ExecAll(rows, Undos(pool, order))
  {
    if order != [] {
      var init, last := order[..|order| - 1], order[|order| - 1];
      UndoRunIsExecAll(rows, pool, init);
      if pool[last].sql == NoSql {
        assert Undos(pool, order) == Undos(pool, init);
      } else {
        ExecAllConcat(rows, Undos(pool, init), [UndoOf(pool, last).value]);
      }
    }
  }

  lemma {:induction false} UndosOnRow(pool: Txs, order: seq<TxId>, t: string, k: string)
    ensures OnRow(Undos(pool, order), t, k) == Undos(pool, Of(order, OnRowOf(pool, t, k)))
  {
    if order != [] {
      var init, last, u := order[..|order| - 1], order[|order| - 1], OnRowOf(pool, t, k);
      UndosOnRow(pool, init, t, k);
      if last in u {
        UndosSnoc(pool, Of(init, u), last);
      } else {
        assert Of(order, u) == Of(init, u);
      }
      if last in pool && UndoOf(pool, last).Some? {
        OnRowSnoc(Undos(pool, init), UndoOf(pool, last).value, t, k);
      } else {
        assert Undos(pool, order) == Undos(pool, init);
      }
    }
  }

  lemma {:induction false} UndosSnoc(pool: Txs, init: seq<TxId>, last: TxId)
    ensures Undos(pool, init + [last]) ==
      Undos(pool, init) + if last in pool && UndoOf(pool, last).Some? then [UndoOf(pool, last).value] else []
  {
    assert (init + [last])[..|init|] == init;
  }

  lemma {:induction false} UndosOfPart(pool: Txs, part: seq<TxId>, order: seq<TxId>)
    requires part <= order
    ensures Undos(pool, part) <= Undos(pool, order)
    decreases |order|
  {
    if |part| < |order| {
      assert part <= order[..|order| - 1];
      UndosOfPart(pool, part, order[..|order| - 1]);
    } else {
      assert part == order;
    }
  }

  /** What fails in one order on some row fails in every order that goes on from it on
      that row. */
  lemma {:induction false} FailsOnRow(rows: Rows, pool: Txs, part: seq<TxId>, order: seq<TxId>)
    requires AllHaveUndo(pool, part) && AllHaveUndo(pool, order) && UndoRun(rows, pool, part) == None
    requires forall t, k :: Of(part, OnRowOf(pool, t, k)) <= Of(order, OnRowOf(pool, t, k))
    ensures UndoRun(rows, pool, order) == None
  {
    UndoRunIsExecAll(rows, pool, part);
    UndoRunIsExecAll(rows, pool, order);
    ExecAllByRows(rows, Undos(pool, part));
    ExecAllByRows(rows, Undos(pool, order));
    var t, k :| !RowRuns(rows, Undos(pool, part), t, k);
    UndosOnRow(pool, part, t, k);
    UndosOnRow(pool, order, t, k);
    UndosOfPart(pool, Of(part, OnRowOf(pool, t, k)), Of(order, OnRowOf(pool, t, k)));
    FailsFurther(CellIn(rows, t, k), OnRow(Undos(pool, part), t, k), OnRow(Undos(pool, order), t, k));
    assert !RowRuns(rows, Undos(pool, order), t, k);
  }

  /** An order of everything that has to go, when any two commands on one row that have
      to go differ in rank. */
  ghost predicate CertainOnRows(pool: Txs, txs: seq<Tx>, one: seq<TxId>, ranks: Ranks)
  {
    Complete(pool, txs, one, ranks) && forall t, k :: RanksDiffer(ranks, Members(one) * OnRowOf(pool, t, k))
  }

  /** An order that stops, or is complete, stops exactly when this one does. */
  lemma {:induction false} StopsAlike(rows: Rows, pool: Txs, txs: seq<Tx>, one: seq<TxId>, ranks: Ranks,
      other: seq<TxId>)
    requires CertainOnRows(pool, txs, one, ranks) && Discovered(pool, txs, other)
    ensures UndoRun(rows, pool, other) == None ==> UndoRun(rows, pool, one) == None
    ensures ClosedSet(pool, txs, Members(other)) && UndoRun(rows, pool, one) == None ==>
      UndoRun(rows, pool, other) == None
  {
    FoundInClosed(pool, txs, one, Members(one));
    FoundInClosed(pool, txs, other, Members(one));
    if d :| WithoutUndo(pool, Members(one), d) {
      NoUndoNoRun(rows, pool, one, d);
      if ClosedSet(pool, txs, Members(other)) {
        SameMembers(pool, txs, one, other);
        NoUndoNoRun(rows, pool, other, d);
      }
    } else {
      AllCanBeUndone(pool, one, other);
      forall t, k ensures Of(other, OnRowOf(pool, t, k)) <= Of(one, OnRowOf(pool, t, k)) {
        FoundRising(pool, txs, Members(one), ranks, OnRowOf(pool, t, k), one);
        SameOrder(pool, txs, one, ranks, OnRowOf(pool, t, k), other);
      }
      if UndoRun(rows, pool, other) == None {
        FailsOnRow(rows, pool, other, one);
      }
      if ClosedSet(pool, txs, Members(other)) && UndoRun(rows, pool, one) == None {
        SameOnRows(pool, txs, one, ranks, other);
        FailsOnRow(rows, pool, one, other);
      }
    }
  }

  lemma {:induction false} AllCanBeUndone(pool: Txs, one: seq<TxId>, other: seq<TxId>)
    requires forall d :: !WithoutUndo(pool, Members(one), d)
    requires forall id | id in one || id in other :: id in Members(one) && id in pool
    ensures AllHaveUndo(pool, one) && AllHaveUndo(pool, other)
  {
    forall id | id in one || id in other ensures pool[id].sql != NoSql ==> pool[id].sql.rollback.Some? {
      assert !WithoutUndo(pool, Members(one), id);
    }
  }

  lemma {:induction false} NoUndoNoRun(rows: Rows, pool: Txs, order: seq<TxId>, d: TxId)
    requires WithoutUndo(pool, Members(order), d)
    ensures UndoRun(rows, pool, order) == None
  {
    var init, last := order[..|order| - 1], order[|order| - 1];
    InitAndLast(order);
    OneMoreMember(init, last);
    if last != d {
      NoUndoNoRun(rows, pool, init, d);
    }
  }

  /** Complete orders agree on every row. */
  lemma {:induction false} SameOnRows(pool: Txs, txs: seq<Tx>, one: seq<TxId>, ranks: Ranks, other: seq<TxId>)
    requires CertainOnRows(pool, txs, one, ranks)
    requires Discovered(pool, txs, other) && ClosedSet(pool, txs, Members(other))
    ensures forall t, k :: Of(one, OnRowOf(pool, t, k)) == Of(other, OnRowOf(pool, t, k))
  {
    SameMembers(pool, txs, one, other);
    forall t, k ensures Of(one, OnRowOf(pool, t, k)) == Of(other, OnRowOf(pool, t, k)) {
      var u := OnRowOf(pool, t, k);
      FoundRising(pool, txs, Members(one), ranks, u, one);
      SameOrder(pool, txs, one, ranks, u, other);
      OfMembers(one, u);
      OfMembers(other, u);
      assert forall id :: (id in one <==> id in Members(one)) && (id in other <==> id in Members(other));
      OneOfPart(ranks, Of(one, u), Of(other, u));
    }
  }

  lemma {:induction false} OneOfPart(ranks: Ranks, ids: seq<TxId>, part: seq<TxId>)
    requires Rising(ranks, ids) && part <= ids && forall id | id in ids :: id in part
    ensures part == ids
  {
    assert part == ids[..|part|];
    if |part| < |ids| {
      NotBefore(ranks, ids, |part|);
    }
  }

  /** Where it is certain on each row which command comes first, the outcome is
      whether the undo statements run in this order: row by row, whether they run on
      this row. */
  lemma {:induction false} CertainDecides(ok: bool, pool0: Txs, rows0: Rows, txs: seq<Tx>, order: seq<TxId>, pool: Txs,
      rows: Rows, one: seq<TxId>, ranks: Ranks)
    requires CascadeDone(ok, pool0, rows0, txs, order, pool, rows) && CertainOnRows(pool0, txs, one, ranks)
    ensures ok <==> UndoRun(rows0, pool0, one) != None
  {
    if ok {
      assert Members(order) == Gone(pool0, pool);
      StopsAlike(rows0, pool0, txs, one, ranks, order);
    } else {
      var id :| StuckAfter(pool0, txs, order, pool, rows, id);
      OneMoreFound(rows0, pool0, txs, order, id);
      StopsAlike(rows0, pool0, txs, one, ranks, order + [id]);
    }
  }

  /** The rows one by one. */
  lemma {:induction false} RunsByRows(rows: Rows, pool: Txs, order: seq<TxId>)
    requires AllHaveUndo(pool, order)
    ensures UndoRun(rows, pool, order) != None <==>
      forall t, k :: RunFrom(CellIn(rows, t, k), Undos(pool, Of(order, OnRowOf(pool, t, k)))) != None
  {
    UndoRunIsExecAll(rows, pool, order);
    ExecAllByRows(rows, Undos(pool, order));
    forall t, k
      ensures RowRuns(rows, Undos(pool, order), t, k) <==>
        RunFrom(CellIn(rows, t, k), Undos(pool, Of(order, OnRowOf(pool, t, k)))) != None
    {
      UndosOnRow(pool, order, t, k);
    }
  }

  lemma {:induction false} CertainAlwaysDecides(ok: bool, pool0: Txs, rows0: Rows, txs: seq<Tx>, order: seq<TxId>,
      pool: Txs, rows: Rows)
    requires CascadeDone(ok, pool0, rows0, txs, order, pool, rows)
    ensures forall one, ranks | CertainOnRows(pool0, txs, one, ranks) :: ok <==> UndoRun(rows0, pool0, one) != None
  {
    forall one, ranks | CertainOnRows(pool0, txs, one, ranks) ensures ok <==> UndoRun(rows0, pool0, one) != None {
      CertainDecides(ok, pool0, rows0, txs, order, pool, rows, one, ranks);
    }
  }
}
