/** Rows one by one: what a history does to a row depends only on the commands on
    this row and on its table, in their order. So commands on different rows may
    change places, and the rows of a database are known once every row is. */
module RowOrder {
  import opened Types
  import opened SqlHistory

  /** One row: its table is missing, or the row is, or its columns. */
  datatype Cell = NoTable | Absent | Present(row: Row)

  function CellIn(rows: Rows, t: string, k: string): Cell
  {
    if t !in rows then NoTable else if k !in rows[t] then Absent else Present(rows[t][k])
  }

  /** The statement is on the row or on its table as a whole. */
  predicate Concerns(s: Statement, t: string, k: string)
  {
    s.table == t && (s.CreateTable? || s.DropTable? || KeyOf(s) == k)
  }

  function StepCell(c: Cell, s: Statement): Option<Cell>
  {
    match s
    case CreateTable(_) => if c == NoTable then Some(Absent) else None
    case DropTable(_) => if c != NoTable then Some(NoTable) else None
    case InsertRow(_, _, cols) => if c == Absent then Some(Present(cols)) else None
    case UpdateRow(_, _, cols) =>
      if c == NoTable then None
      else if c == Absent then Some(c)
      else if cols.Keys <= c.row.Keys then Some(Present(c.row + cols)) else None
    case DeleteRow(_, _) => if c == NoTable then None else Some(Absent)
  }

  /** The commands of a history that concern a row. */
  function On(h: seq<Sql>, t: string, k: string): seq<Statement>
  {
    if h == [] then []
    else
      var s := h[|h| - 1];
      On(h[..|h| - 1], t, k) + if s != NoSql && Concerns(s.query, t, k) then [s.query] else []
  }

  function RunCell(ss: seq<Statement>): Option<Cell>
  {
    if ss == [] then Some(NoTable)
    else
      var before := RunCell(ss[..|ss| - 1]);
      if before == None then None else StepCell(before.value, ss[|ss| - 1])
  }

  // ----- one statement

  /** A statement runs exactly when it runs on the row it addresses, changes this
      row accordingly, and no row that it does not concern. */
  lemma {:induction false} ExecAt(rows: Rows, s: Statement, t: string, k: string)
    ensures Concerns(s, t, k) ==> (Exec(rows, s) == None <==> StepCell(CellIn(rows, t, k), s) == None)
    ensures Exec(rows, s) != None && Concerns(s, t, k) ==>
      StepCell(CellIn(rows, t, k), s) == Some(CellIn(Exec(rows, s).value, t, k))
    ensures Exec(rows, s) != None && !Concerns(s, t, k) ==> CellIn(Exec(rows, s).value, t, k) == CellIn(rows, t, k)
  {
  }

  lemma {:induction false} OnSnoc(h: seq<Sql>, s: Sql, t: string, k: string)
    ensures On(h + [s], t, k) == On(h, t, k) + if s != NoSql && Concerns(s.query, t, k) then [s.query] else []
  {
    assert (h + [s])[..|h|] == h;
  }

  lemma {:induction false} OnConcat(a: seq<Sql>, b: seq<Sql>, t: string, k: string)
    ensures On(a + b, t, k) == On(a, t, k) + On(b, t, k)
  {
    if b == [] {
      assert a + b == a;
    } else {
      var init, s := b[..|b| - 1], b[|b| - 1];
      assert a + b == (a + init) + [s] && b == init + [s];
      OnSnoc(a + init, s, t, k);
      OnConcat(a, init, t, k);
    }
  }

  lemma {:induction false} ReplaySnoc(h: seq<Sql>, s: Sql)
    ensures Replay(h + [s]) ==
      if Replay(h) == None || s == NoSql then Replay(h) else Exec(Replay(h).value, s.query)
  {
    assert (h + [s])[..|h|] == h;
  }

  /** A command that runs and carries a fitting undo prolongs a history. */
  lemma {:induction false} HistoryNext(h: seq<Sql>, s: Sql)
    requires HistoryOk(h) && UndoFits(h, s) && (s != NoSql ==> Exec(Replay(h).value, s.query) != None)
    ensures HistoryOk(h + [s])
    ensures Replay(h + [s]) == if s == NoSql then Replay(h) else Exec(Replay(h).value, s.query)
    ensures forall t, k :: ImageLeft(h + [s], t, k) == ImageIn(Replay(h + [s]).value, t, k)
  {
    assert (h + [s])[..|h|] == h;
    ReplaySnoc(h, s);
    forall t, k ensures ImageLeft(h + [s], t, k) == ImageIn(Replay(h + [s]).value, t, k) {
      ImageIsRow(h + [s], t, k);
    }
  }

  lemma {:induction false} RunSnoc(ss: seq<Statement>, s: Statement)
    ensures RunCell(ss + [s]) == if RunCell(ss) == None then None else StepCell(RunCell(ss).value, s)
  {
    assert (ss + [s])[..|ss|] == ss;
  }

  // ----- whole histories

  ghost predicate CellRuns(h: seq<Sql>, t: string, k: string)
  {
    RunCell(On(h, t, k)) != None
  }

  /** A history runs exactly when every row's own commands run, and each row is
      what they make of it. */
  lemma {:induction false} ReplayByRows(h: seq<Sql>)
    ensures Replay(h) != None <==> forall t, k :: CellRuns(h, t, k)
    ensures Replay(h) != None ==> forall t, k :: RunCell(On(h, t, k)) == Some(CellIn(Replay(h).value, t, k))
  {
    if h != [] {
      var init, s := h[..|h| - 1], h[|h| - 1];
      ReplayByRows(init);
      assert h == init + [s];
      ReplaySnoc(init, s);
      forall t, k
        ensures Replay(h) != None ==> RunCell(On(h, t, k)) == Some(CellIn(Replay(h).value, t, k))
        ensures Replay(h) == None && Replay(init) == None && !CellRuns(init, t, k) ==> !CellRuns(h, t, k)
      {
        RowStep(init, s, t, k);
      }
      if Replay(h) == None && Replay(init) == None {
        var t, k :| !CellRuns(init, t, k);
        assert !CellRuns(h, t, k);
      } else if Replay(h) == None {
        RowStep(init, s, s.query.table, KeyOf(s.query));
        assert !CellRuns(h, s.query.table, KeyOf(s.query));
      }
    }
  }

  lemma {:induction false} RowStep(h: seq<Sql>, s: Sql, t: string, k: string)
    ensures !CellRuns(h, t, k) ==> !CellRuns(h + [s], t, k)
    ensures Replay(h) != None && RunCell(On(h, t, k)) == Some(CellIn(Replay(h).value, t, k)) ==>
      (Replay(h + [s]) != None ==> RunCell(On(h + [s], t, k)) == Some(CellIn(Replay(h + [s]).value, t, k)))
    ensures Replay(h) != None && RunCell(On(h, t, k)) == Some(CellIn(Replay(h).value, t, k)) ==>
      (Replay(h + [s]) == None && Concerns(s.query, t, k) ==> !CellRuns(h + [s], t, k))
  {
    ReplaySnoc(h, s);
    OnSnoc(h, s, t, k);
    if s != NoSql {
      if Concerns(s.query, t, k) {
        RunSnoc(On(h, t, k), s.query);
      } else {
        assert On(h + [s], t, k) == On(h, t, k);
      }
      if Replay(h) != None {
        ExecAt(Replay(h).value, s.query, t, k);
      }
    } else {
      assert On(h + [s], t, k) == On(h, t, k);
    }
  }

  lemma {:induction false} SameCells(a: Rows, b: Rows)
    requires forall t, k :: CellIn(a, t, k) == CellIn(b, t, k)
    ensures a == b
  {
    forall t: string ensures t in a <==> t in b {
      assert CellIn(a, t, "") == CellIn(b, t, "");
    }
    forall t | t in a ensures a[t] == b[t] {
      forall k: string ensures (k in a[t] <==> k in b[t]) && (k in a[t] ==> a[t][k] == b[t][k]) {
        assert CellIn(a, t, k) == CellIn(b, t, k);
      }
      assert a[t].Keys == b[t].Keys;
    }
    assert a.Keys == b.Keys;
  }

  /** Two histories in which every row's own commands have the same effect, row by
      row, end in the same rows. */
  ghost predicate SameOnRows(a: seq<Sql>, b: seq<Sql>)
  {
    forall t, k :: RunCell(On(a, t, k)) == RunCell(On(b, t, k))
  }

  lemma {:induction false} SameRows(a: seq<Sql>, b: seq<Sql>)
    requires SameOnRows(a, b)
    ensures Replay(a) == Replay(b)
  {
    ReplayByRows(a);
    ReplayByRows(b);
    forall t, k ensures CellRuns(a, t, k) <==> CellRuns(b, t, k) {
      assert RunCell(On(a, t, k)) == RunCell(On(b, t, k));
    }
    if Replay(a) != None {
      forall t, k ensures CellIn(Replay(a).value, t, k) == CellIn(Replay(b).value, t, k) {
        assert RunCell(On(a, t, k)) == RunCell(On(b, t, k));
      }
      SameCells(Replay(a).value, Replay(b).value);
    }
  }

  // ----- a block whose commands are partly executed already

  /** `added` after `queue` has on every row the order of `block` before `rest`,
      and no row that still has a command in `rest` gets an added one. */
  ghost predicate KeepsRowOrder(queue: seq<Sql>, added: seq<Sql>, block: seq<Sql>, rest: seq<Sql>)
  {
    forall t, k {:trigger On(queue, t, k)} ::
      && On(queue, t, k) + On(added, t, k) == On(block, t, k) + On(rest, t, k)
      && (On(added, t, k) == [] || On(rest, t, k) == [])
  }

  /** Then executing what is not pending after the pending commands gives the rows
      of the chain with the block, followed by the remaining pending commands. */
  lemma {:induction false} OrderKept(chain: seq<Sql>, queue: seq<Sql>, added: seq<Sql>, block: seq<Sql>, rest: seq<Sql>)
    requires KeepsRowOrder(queue, added, block, rest)
    requires Replay(chain + queue) != None && Replay(chain + block) != None
    ensures Replay(chain + queue + added) == Replay(chain + block + rest) != None
  {
    ReplayByRows(chain + queue);
    ReplayByRows(chain + block);
    ReplayByRows(chain + queue + added);
    forall t, k
      ensures RunCell(On(chain + queue + added, t, k)) == RunCell(On(chain + block + rest, t, k))
      ensures CellRuns(chain + queue + added, t, k)
    {
      OnParts(chain, queue, added, t, k);
      OnParts(chain, block, rest, t, k);
      OrderKeptAt(chain, queue, added, block, rest, t, k);
    }
    SameRows(chain + queue + added, chain + block + rest);
  }

  lemma {:induction false} OnParts(a: seq<Sql>, b: seq<Sql>, c: seq<Sql>, t: string, k: string)
    ensures On(a + b, t, k) == On(a, t, k) + On(b, t, k)
    ensures On(a + b + c, t, k) == On(a, t, k) + (On(b, t, k) + On(c, t, k))
  {
    OnConcat(a, b, t, k);
    OnConcat(a + b, c, t, k);
  }

  lemma {:induction false} OrderKeptAt(chain: seq<Sql>, queue: seq<Sql>, added: seq<Sql>, block: seq<Sql>,
      rest: seq<Sql>, t: string, k: string)
    requires KeepsRowOrder(queue, added, block, rest)
    requires CellRuns(chain + queue, t, k) && CellRuns(chain + block, t, k)
    ensures CellRuns(chain + queue + added, t, k)
  {
    OnParts(chain, queue, added, t, k);
    OnParts(chain, block, rest, t, k);
    var q := On(queue, t, k);
    if On(added, t, k) == [] {
      assert On(chain + queue + added, t, k) == On(chain + queue, t, k);
    } else {
      assert On(chain + queue + added, t, k) == On(chain + block, t, k);
    }
  }

  // ----- commands on other rows

  /** No row has commands of both. */
  ghost predicate Apart(a: seq<Sql>, b: seq<Sql>)
  {
    forall t, k {:trigger On(a, t, k)} {:trigger On(b, t, k)} :: On(a, t, k) == [] || On(b, t, k) == []
  }

  /** The undo statement of a command, as a command. */
  function UndoCommand(s: Sql): Sql
  {
    if s == NoSql || s.rollback == None then NoSql else Sql(s.ref, s.rollback.value, None)
  }

  /** The undo statement that fits a command is on the row of the command. */
  lemma {:induction false} UndoConcerns(h: seq<Sql>, s: Sql, t: string, k: string)
    requires UndoFits(h, s) && s != NoSql && !s.query.DropTable?
    ensures UndoCommand(s) != NoSql && (Concerns(UndoCommand(s).query, t, k) <==> Concerns(s.query, t, k))
  {
  }

  lemma {:induction false} PrefixRuns(a: seq<Sql>, b: seq<Sql>)
    requires Replay(a + b) != None
    ensures Replay(a) != None
  {
    if b == [] {
      assert a + b == a;
    } else {
      assert a + b == (a + b[..|b| - 1]) + [b[|b| - 1]];
      ReplaySnoc(a + b[..|b| - 1], b[|b| - 1]);
      PrefixRuns(a, b[..|b| - 1]);
    }
  }

  /** Taking back a command after commands on other rows gives the history without
      it, followed by these commands. */
  lemma {:induction false} UndoUnder(h: seq<Sql>, s: Sql, queue: seq<Sql>)
    requires UndoFits(h, s) && (s != NoSql ==> !s.query.DropTable?) && Apart(queue, [s])
    requires Replay(h + [s] + queue) != None
    ensures Undo(Replay(h + [s] + queue).value, s) == Replay(h + queue) != None
  {
    PrefixRuns(h + [s], queue);
    UndoFitting(h, s);
    if s == NoSql {
      NoSqlIsNothing(h, queue);
    } else {
      var u := UndoCommand(s);
      UndoConcerns(h, s, s.query.table, KeyOf(s.query));
      ReplaySnoc(h + [s] + queue, u);
      ReplaySnoc(h + [s], u);
      forall t, k ensures RunCell(On(h + [s] + queue + [u], t, k)) == RunCell(On(h + queue, t, k)) {
        UndoUnderAt(h, s, queue, t, k);
      }
      SameRows(h + [s] + queue + [u], h + queue);
      ReplayByRows(h + [s] + queue);
      ReplayByRows(h);
      ReplayByRows(h + queue);
      forall t, k ensures CellRuns(h + queue, t, k) {
        LessRuns(h, s, queue, t, k);
      }
    }
  }

  lemma {:induction false} NoSqlIsNothing(h: seq<Sql>, queue: seq<Sql>)
    ensures Replay(h + [NoSql] + queue) == Replay(h + queue)
  {
    forall t, k ensures RunCell(On(h + [NoSql] + queue, t, k)) == RunCell(On(h + queue, t, k)) {
      OnOne(NoSql, t, k);
      Unconcerned(h, NoSql, queue, t, k);
    }
    SameRows(h + [NoSql] + queue, h + queue);
  }

  lemma {:induction false} OnOne(s: Sql, t: string, k: string)
    ensures On([s], t, k) == if s != NoSql && Concerns(s.query, t, k) then [s.query] else []
  {
    OnSnoc([], s, t, k);
    assert [] + [s] == [s];
  }

  lemma {:induction false} Unconcerned(h: seq<Sql>, s: Sql, queue: seq<Sql>, t: string, k: string)
    requires On([s], t, k) == []
    ensures On(h + [s] + queue, t, k) == On(h + queue, t, k) && On(h + [s], t, k) == On(h, t, k)
  {
    OnConcat(h + [s], queue, t, k);
    OnConcat(h, [s], t, k);
    OnConcat(h, queue, t, k);
  }

  lemma {:induction false} NothingPending(h: seq<Sql>, queue: seq<Sql>, t: string, k: string)
    requires On(queue, t, k) == []
    ensures On(h + queue, t, k) == On(h, t, k)
  {
    OnConcat(h, queue, t, k);
  }

  lemma {:induction false} UndoUnderAt(h: seq<Sql>, s: Sql, queue: seq<Sql>, t: string, k: string)
    requires Replay(h + [s]) != None && UndoFits(h, s) && s != NoSql && !s.query.DropTable? && Apart(queue, [s])
    ensures RunCell(On(h + [s] + queue + [UndoCommand(s)], t, k)) == RunCell(On(h + queue, t, k))
  {
    var u := UndoCommand(s);
    UndoConcerns(h, s, t, k);
    OnOne(s, t, k);
    OnOne(u, t, k);
    if Concerns(s.query, t, k) {
      NothingPending(h, queue, t, k);
      NothingPending(h + [s], queue, t, k);
      OnSnoc(h + [s] + queue, u, t, k);
      OnSnoc(h + [s], u, t, k);
      UndoneRuns(h, s, t, k);
    } else {
      NothingPending(h + [s] + queue, [u], t, k);
      Unconcerned(h, s, queue, t, k);
    }
  }

  lemma {:induction false} UndoneRuns(h: seq<Sql>, s: Sql, t: string, k: string)
    requires Replay(h + [s]) != None && UndoFits(h, s) && s != NoSql && !s.query.DropTable?
    ensures RunCell(On(h + [s] + [UndoCommand(s)], t, k)) == RunCell(On(h, t, k))
  {
    UndoFitting(h, s);
    ReplaySnoc(h + [s], UndoCommand(s));
    ReplayByRows(h + [s] + [UndoCommand(s)]);
    ReplayByRows(h);
  }

  lemma {:induction false} LessRuns(h: seq<Sql>, s: Sql, queue: seq<Sql>, t: string, k: string)
    requires Apart(queue, [s]) && CellRuns(h, t, k) && CellRuns(h + [s] + queue, t, k)
    ensures CellRuns(h + queue, t, k)
  {
    if On(queue, t, k) == [] {
      NothingPending(h, queue, t, k);
    } else {
      Unconcerned(h, s, queue, t, k);
    }
  }
}
