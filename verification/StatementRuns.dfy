/** Statements that are executed one after the other, row by row, and what stands in
    their way on rows other than those they were made for. */
module StatementRuns {
  import opened Types
  import opened SqlHistory
  import opened RowOrder

  // ----- statements one after the other, row by row

  function ExecAll(rows: Rows, ss: seq<Statement>): Option<Rows>
    decreases |ss|
  {
    if ss == [] then Some(rows)
    else
      var r := Exec(rows, ss[0]);
      if r == None then None else ExecAll(r.value, ss[1..])
  }

  function RunFrom(c: Cell, ss: seq<Statement>): Option<Cell>
    decreases |ss|
  {
    if ss == [] then Some(c)
    else
      var r := StepCell(c, ss[0]);
      if r == None then None else RunFrom(r.value, ss[1..])
  }

  /** The statements that concern a row. */
  function OnRow(ss: seq<Statement>, t: string, k: string): seq<Statement>
  {
    if ss == [] then [] else (if Concerns(ss[0], t, k) then [ss[0]] else []) + OnRow(ss[1..], t, k)
  }

  ghost predicate RowRuns(rows: Rows, ss: seq<Statement>, t: string, k: string)
  {
    RunFrom(CellIn(rows, t, k), OnRow(ss, t, k)) != None
  }

  lemma {:induction false} RunFromCons(c: Cell, s: Statement, ss: seq<Statement>)
    ensures RunFrom(c, [s] + ss) == if StepCell(c, s) == None then None else RunFrom(StepCell(c, s).value, ss)
  {
    assert ([s] + ss)[1..] == ss;
  }

  lemma {:induction false} RowRunsStep(rows: Rows, ss: seq<Statement>, t: string, k: string)
    requires ss != []
    ensures Exec(rows, ss[0]) != None ==> (RowRuns(rows, ss, t, k) <==> RowRuns(Exec(rows, ss[0]).value, ss[1..], t, k))
    ensures Exec(rows, ss[0]) == None && Concerns(ss[0], t, k) ==> !RowRuns(rows, ss, t, k)
  {
    var s, rest := ss[0], OnRow(ss[1..], t, k);
    ExecAt(rows, s, t, k);
    if Concerns(s, t, k) {
      RunFromCons(CellIn(rows, t, k), s, rest);
    } else {
      assert OnRow(ss, t, k) == rest;
    }
  }

  /** Statements run exactly when on every row the statements on this row run. */
  lemma {:induction false} ExecAllByRows(rows: Rows, ss: seq<Statement>)
    ensures ExecAll(rows, ss) != None <==> forall t, k :: RowRuns(rows, ss, t, k)
    decreases |ss|
  {
    if ss != [] {
      forall t, k
        ensures Exec(rows, ss[0]) != None ==>
          (RowRuns(rows, ss, t, k) <==> RowRuns(Exec(rows, ss[0]).value, ss[1..], t, k))
      {
        RowRunsStep(rows, ss, t, k);
      }
      if Exec(rows, ss[0]) != None {
        ExecAllByRows(Exec(rows, ss[0]).value, ss[1..]);
      } else {
        RowRunsStep(rows, ss, ss[0].table, KeyOf(ss[0]));
        assert !RowRuns(rows, ss, ss[0].table, KeyOf(ss[0]));
      }
    }
  }

  lemma {:induction false} ExecAllConcat(rows: Rows, a: seq<Statement>, b: seq<Statement>)
    ensures ExecAll(rows, a + b) == if ExecAll(rows, a) == None then None else ExecAll(ExecAll(rows, a).value, b)
    decreases |a|
  {
    if a == [] {
      assert a + b == b;
    } else {
      assert (a + b)[1..] == a[1..] + b;
      if Exec(rows, a[0]) != None {
        ExecAllConcat(Exec(rows, a[0]).value, a[1..], b);
      }
    }
  }

  lemma {:induction false} OnRowSnoc(ss: seq<Statement>, s: Statement, t: string, k: string)
    ensures OnRow(ss + [s], t, k) == OnRow(ss, t, k) + if Concerns(s, t, k) then [s] else []
    decreases |ss|
  {
    if ss == [] {
      assert ss + [s] == [s];
    } else {
      assert (ss + [s])[1..] == ss[1..] + [s];
      OnRowSnoc(ss[1..], s, t, k);
    }
  }

  lemma {:induction false} FailsFurther(c: Cell, part: seq<Statement>, ss: seq<Statement>)
    requires part <= ss && RunFrom(c, part) == None
    ensures RunFrom(c, ss) == None
    decreases |ss|
  {
    if StepCell(c, part[0]) != None {
      assert part[1..] <= ss[1..];
      FailsFurther(StepCell(c, part[0]).value, part[1..], ss[1..]);
    }
  }

  // ----- what stands in the way

  ghost predicate AllUpdates(ss: seq<Statement>)
  {
    forall i | 0 <= i < |ss| :: ss[i].UpdateRow?
  }

  /** A row that is present again hinders its insertion, and one that has lost a
      column hinders setting the column. */
  predicate Hinders(row: Row, s: Statement)
  {
    s.InsertRow? || (s.UpdateRow? && !(s.cols.Keys <= row.Keys))
  }

  /** Undo statements on a row cannot run: the table is gone, or the row hinders the
      first of them, or one after updates of it only. */
  ghost predicate InTheWay(c: Cell, ss: seq<Statement>)
  {
    ss != [] && (c == NoTable || (c.Present? && exists i :: HindersAt(c.row, ss, i)))
  }

  ghost predicate HindersAt(row: Row, ss: seq<Statement>, i: nat)
  {
    i < |ss| && AllUpdates(ss[..i]) && Hinders(row, ss[i])
  }

  ghost predicate NoCreation(ss: seq<Statement>)
  {
    forall i | 0 <= i < |ss| :: !ss[i].CreateTable?
  }

  lemma {:induction false} HindersLater(row: Row, now: Row, ss: seq<Statement>)
    requires ss != [] && now.Keys == row.Keys
    ensures (exists i :: HindersAt(row, ss, i)) <==>
      Hinders(row, ss[0]) || (ss[0].UpdateRow? && exists i :: HindersAt(now, ss[1..], i))
  {
    if i: nat :| HindersAt(row, ss, i) {
      if i > 0 {
        assert ss[..i][0] == ss[0];
        assert ss[1..][..i - 1] == ss[..i][1..];
        assert HindersAt(now, ss[1..], i - 1);
      }
    }
    if Hinders(row, ss[0]) {
      assert HindersAt(row, ss, 0);
    }
    if ss[0].UpdateRow? && exists i :: HindersAt(now, ss[1..], i) {
      var i: nat :| HindersAt(now, ss[1..], i);
      assert ss[..i + 1] == [ss[0]] + ss[1..][..i];
      assert HindersAt(row, ss, i + 1);
    }
  }

  /** Statements that run from one state of a row run from another one exactly when
      nothing is in the way: the first that is no update makes both states equal. */
  lemma {:induction false} RunsUnlessInTheWay(e: Cell, c: Cell, ss: seq<Statement>)
    requires RunFrom(e, ss) != None && NoCreation(ss)
    ensures RunFrom(c, ss) == None <==> InTheWay(c, ss)
    decreases |ss|
  {
    if ss != [] && c != NoTable {
      var s := ss[0];
      if c.Present? {
        var now := if s.UpdateRow? then c.row + s.cols else c.row;
        if !Hinders(c.row, s) {
          assert s.UpdateRow? ==> now.Keys == c.row.Keys;
        }
        HindersLater(c.row, if Hinders(c.row, s) then c.row else now, ss);
      }
      if StepCell(c, s) != None && s.UpdateRow? {
        RunsUnlessInTheWay(StepCell(e, s).value, StepCell(c, s).value, ss[1..]);
      }
    }
  }

  ghost predicate Hindered(rows: Rows, ss: seq<Statement>)
  {
    exists t, k :: InTheWay(CellIn(rows, t, k), OnRow(ss, t, k))
  }

  lemma {:induction false} NoCreationOnRow(ss: seq<Statement>, t: string, k: string)
    requires NoCreation(ss)
    ensures NoCreation(OnRow(ss, t, k))
  {
    if ss != [] {
      NoCreationOnRow(ss[1..], t, k);
    }
  }

  /** Undo statements that run on some rows run on any others exactly when on no row
      something is in their way. */
  lemma {:induction false} RunsUnlessHindered(expected: Rows, rows: Rows, ss: seq<Statement>)
    requires ExecAll(expected, ss) != None && NoCreation(ss)
    ensures ExecAll(rows, ss) == None <==> Hindered(rows, ss)
  {
    ExecAllByRows(expected, ss);
    ExecAllByRows(rows, ss);
    forall t, k ensures RowRuns(rows, ss, t, k) <==> !InTheWay(CellIn(rows, t, k), OnRow(ss, t, k)) {
      assert RowRuns(expected, ss, t, k);
      NoCreationOnRow(ss, t, k);
      RunsUnlessInTheWay(CellIn(expected, t, k), CellIn(rows, t, k), OnRow(ss, t, k));
    }
  }
}
