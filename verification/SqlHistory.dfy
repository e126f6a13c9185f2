/** The SQL side: statements, the undo statements that transactions carry, and
    why running the undo statements backwards restores the rows. */
module SqlHistory {
  import opened Types
  import opened Database
  import opened Ledger

  type Row = map<string, string>
  type Rows = map<string, map<string, Row>>

  // ----- executing one statement

  /** What the database does with a statement; None is an SQL error. Updating or
      deleting a row that does not exist changes nothing. */
  function Exec(rows: Rows, s: Statement): Option<Rows>
  {
    match s
    case CreateTable(t) => if t in rows then None else Some(rows[t := map[]])
    case DropTable(t) => if t in rows then Some(rows - {t}) else None
    case InsertRow(t, k, cols) =>
      if t in rows && k !in rows[t] then Some(rows[t := rows[t][k := cols]]) else None
    case UpdateRow(t, k, cols) =>
      if t !in rows then None
      else if k !in rows[t] then Some(rows)
      else if cols.Keys <= rows[t][k].Keys then Some(rows[t := rows[t][k := rows[t][k] + cols]]) else None
    case DeleteRow(t, k) => if t in rows then Some(rows[t := rows[t] - {k}]) else None
  }

  function KeyOf(s: Statement): string
  {
    match s
    case CreateTable(_) => ""
    case DropTable(_) => ""
    case InsertRow(_, k, _) => k
    case UpdateRow(_, k, _) => k
    case DeleteRow(_, k) => k
  }

  /** ReferenceID of a parsed query. */
  function ReferenceOf(s: Statement): RefId
  {
    if s.CreateTable? || s.DropTable? then TableRef(s.table) else RowRef(s.table, KeyOf(s))
  }

  /** References are kept as strings. */
  function Text(ref: RefId): string
  {
    match ref
    case NoRef => ""
    case RowRef(t, k) => t + ":" + k
    case TableRef(t) => t + ":*"
  }

  predicate OnTable(s: Statement)
  {
    s.CreateTable? || s.DropTable?
  }

  /** Two statements are about one row or about one table. */
  predicate SameTarget(a: Statement, b: Statement)
  {
    a.table == b.table && (if OnTable(a) then OnTable(b) else !OnTable(b) && KeyOf(a) == KeyOf(b))
  }

  /** A statement on the row with the key "*" beside one on the table. */
  predicate StarBeside(a: Statement, b: Statement)
  {
    a.table == b.table && OnTable(a) && !OnTable(b) && KeyOf(b) == "*"
  }

  /** The colon is found at two places: the longer table name begins with the shorter
      one and a colon, and the key goes on accordingly. */
  predicate ColonMoves(a: Statement, b: Statement)
  {
    var k := if OnTable(b) then "*" else KeyOf(b);
    && !OnTable(a) && |a.table| < |b.table| && b.table[..|a.table| + 1] == a.table + ":"
    && KeyOf(a) == b.table[|a.table| + 1..] + ":" + k
  }

  /** When the references of two statements are one string: apart from those about the
      same row or table, only a key "*" and a colon in a table name make that happen. */
  lemma {:induction false} SameReferenceIff(a: Statement, b: Statement)
    ensures Text(ReferenceOf(a)) == Text(ReferenceOf(b)) <==>
      || SameTarget(a, b) || StarBeside(a, b) || StarBeside(b, a) || ColonMoves(a, b) || ColonMoves(b, a)
  {
    if |a.table| <= |b.table| {
      ShorterFirst(a, b);
    } else {
      ShorterFirst(b, a);
    }
  }

  lemma {:induction false} ShorterFirst(a: Statement, b: Statement)
    requires |a.table| <= |b.table|
    ensures Text(ReferenceOf(a)) == Text(ReferenceOf(b)) <==>
      SameTarget(a, b) || StarBeside(a, b) || StarBeside(b, a) || ColonMoves(a, b)
  {
    ColonIn(a.table, if OnTable(a) then "*" else KeyOf(a), b.table, if OnTable(b) then "*" else KeyOf(b));
    EndsInStar(a);
    EndsInStar(b);
  }

  lemma {:induction false} EndsInStar(s: Statement)
    ensures Text(ReferenceOf(s)) == s.table + ":" + if OnTable(s) then "*" else KeyOf(s)
  {
    assert ":" + "*" == ":*";
    assert s.table + ":" + "*" == s.table + ":*";
  }

  lemma {:induction false} ColonIn(t: string, x: string, u: string, y: string)
    requires |t| <= |u|
    ensures t + ":" + x == u + ":" + y <==>
      if |t| == |u| then t == u && x == y else u[..|t| + 1] == t + ":" && x == u[|t| + 1..] + ":" + y
    ensures |t| < |u| && x == "*" ==> t + ":" + x != u + ":" + y
  {
    var s, r := t + ":" + x, u + ":" + y;
    assert s[..|t|] == t && s[..|t| + 1] == t + ":" && s[|t| + 1..] == x;
    assert r[..|u|] == u && r[|u| + 1..] == y;
    if |t| < |u| {
      assert r[..|t| + 1] == u[..|t| + 1] && r[|t| + 1..] == u[|t| + 1..] + ":" + y;
      assert s == s[..|t| + 1] + s[|t| + 1..] && r == r[..|t| + 1] + r[|t| + 1..];
      assert r[|u|] == ':';
    }
  }

  // ----- building the undo statement

  /** buildRollbackSQL from the row image read before the query; Err when a column
      to be restored has no known value. */
  function Rollback(s: Statement, before: Option<Row>): Result<Option<Statement>>
  {
    match s
    case CreateTable(t) => Ok(Some(DropTable(t)))
    case DropTable(_) => Ok(None)
    case InsertRow(t, k, _) => Ok(Some(DeleteRow(t, k)))
    case DeleteRow(t, k) => Ok(Some(InsertRow(t, k, if before == None then map[] else before.value)))
    case UpdateRow(t, k, cols) =>
      var row := if before == None then map[] else before.value;
      if cols.Keys <= row.Keys then Ok(Some(UpdateRow(t, k, map c | c in cols :: row[c]))) else Err(HashNotFound)
  }

  /** makeUpdateRollback: goes over the columns to be updated, in any order. */
  method MakeUpdateRollback(t: string, k: string, cols: Row, before: Row) returns (r: Result<Statement>)
    ensures r.Ok? <==> cols.Keys <= before.Keys
    ensures r.Ok? ==> Rollback(UpdateRow(t, k, cols), Some(before)) == Ok(Some(r.value))
  {
    var restored: Row := map[];
    var left := cols.Keys;
    while left != {}
      invariant left <= cols.Keys && restored.Keys == cols.Keys - left && restored.Keys <= before.Keys
      invariant forall c | c in restored :: restored[c] == before[c]
      decreases left
    {
      var col :| col in left;
      if col !in before {
        return Err(HashNotFound);
      }
      restored := restored[col := before[col]];
      left := left - {col};
    }
    assert restored == map c | c in cols :: before[c];
    return Ok(UpdateRow(t, k, restored));
  }

  /** makeDeleteRollback: one assignment per column of the row that goes. */
  method MakeDeleteRollback(t: string, k: string, before: Row) returns (s: Statement)
    ensures Rollback(DeleteRow(t, k), Some(before)) == Ok(Some(s))
  {
    var cols: Row := map[];
    var left := before.Keys;
    while left != {}
      invariant left <= before.Keys && cols.Keys == before.Keys - left
      invariant forall c | c in cols :: cols[c] == before[c]
      decreases left
    {
      var col :| col in left;
      cols := cols[col := before[col]];
      left := left - {col};
    }
    assert cols == before;
    return InsertRow(t, k, cols);
  }

  ghost function ImageIn(rows: Rows, t: string, k: string): Option<Row>
  {
    if t in rows && k in rows[t] then Some(rows[t][k]) else None
  }

  /** The undo of a successful statement restores the rows exactly. */
  lemma {:induction false} UndoRestores(rows: Rows, s: Statement)
    requires Exec(rows, s) != None && !s.DropTable?
    requires s.UpdateRow? || s.DeleteRow? ==> ImageIn(rows, s.table, KeyOf(s)) != None
    ensures var u := Rollback(s, ImageIn(rows, s.table, KeyOf(s)));
      u.Ok? && u.value != None && Exec(Exec(rows, s).value, u.value.value) == Some(rows)
  {
    var after := Exec(rows, s).value;
    match s
    case CreateTable(t) =>
      assert after - {t} == rows;
    case InsertRow(t, k, cols) =>
      assert after[t] - {k} == rows[t];
      assert after[t := rows[t]] == rows;
    case UpdateRow(t, k, cols) =>
      var row := rows[t][k];
      var restored := map c | c in cols :: row[c];
      assert (row + cols) + restored == row;
      assert after[t][k := row] == rows[t];
      assert after[t := rows[t]] == rows;
    case DeleteRow(t, k) =>
      assert after[t][k := rows[t][k]] == rows[t];
      assert after[t := rows[t]] == rows;
  }

  // ----- histories

  function Replay(h: seq<Sql>): Option<Rows>
  {
    if h == [] then Some(map[])
    else
      var before := Replay(h[..|h| - 1]);
      var s := h[|h| - 1];
      if before == None || s == NoSql then before else Exec(before.value, s.query)
  }

  /** The image of a row that its previous writers left, looking only at
      statements on this row and on its table as a whole. */
  ghost function ImageLeft(h: seq<Sql>, t: string, k: string): Option<Row>
  {
    if h == [] then None
    else
      var before := ImageLeft(h[..|h| - 1], t, k);
      var s := h[|h| - 1];
      if s == NoSql || s.query.table != t then before
      else match s.query
        case CreateTable(_) => None
        case DropTable(_) => None
        case InsertRow(_, k', cols) => if k' == k then Some(cols) else before
        case UpdateRow(_, k', cols) => if k' == k && before != None then Some(before.value + cols) else before
        case DeleteRow(_, k') => if k' == k then None else before
  }

  /** Other rows do not interfere: the image left is the row in the database. */
  lemma {:induction false} ImageIsRow(h: seq<Sql>, t: string, k: string)
    requires Replay(h) != None
    ensures ImageIn(Replay(h).value, t, k) == ImageLeft(h, t, k)
  {
    if h != [] {
      ImageIsRow(h[..|h| - 1], t, k);
    }
  }

  /** The reference names the row of the statement, and the undo that a transaction
      carries was built from the image its row's previous writer left; only existing
      rows are updated or deleted. */
  ghost predicate UndoFits(h: seq<Sql>, s: Sql)
  {
    s != NoSql ==>
      && s.ref == ReferenceOf(s.query)
      && (s.query.UpdateRow? || s.query.DeleteRow? ==> ImageLeft(h, s.query.table, KeyOf(s.query)) != None)
      && Rollback(s.query, ImageLeft(h, s.query.table, KeyOf(s.query))) == Ok(s.rollback)
  }

  ghost predicate HistoryOk(h: seq<Sql>)
  {
    && Replay(h) != None
    && (h == [] || (HistoryOk(h[..|h| - 1]) && UndoFits(h[..|h| - 1], h[|h| - 1])))
  }

  /** What running the carried undo statement does; None is an SQL error, which is
      also what an empty undo statement gives. */
  function Undo(rows: Rows, s: Sql): Option<Rows>
  {
    if s == NoSql then Some(rows) else if s.rollback == None then None else Exec(rows, s.rollback.value)
  }

  /** One step back. */
  lemma {:induction false} UndoLast(h: seq<Sql>, s: Sql)
    requires HistoryOk(h + [s])
    ensures HistoryOk(h) && UndoFits(h, s)
    ensures s != NoSql && s.query.DropTable? ==> Undo(Replay(h + [s]).value, s) == None
    ensures s == NoSql || !s.query.DropTable? ==> Undo(Replay(h + [s]).value, s) == Replay(h)
  {
    assert (h + [s])[..|h|] == h;
    UndoFitting(h, s);
  }

  lemma {:induction false} UndoFitting(h: seq<Sql>, s: Sql)
    requires Replay(h + [s]) != None && UndoFits(h, s)
    ensures Replay(h) != None
    ensures s != NoSql && s.query.DropTable? ==> Undo(Replay(h + [s]).value, s) == None
    ensures s == NoSql || !s.query.DropTable? ==> Undo(Replay(h + [s]).value, s) == Replay(h)
  {
    assert (h + [s])[..|h|] == h;
    if s != NoSql {
      ImageIsRow(h, s.query.table, KeyOf(s.query));
      if !s.query.DropTable? {
        UndoRestores(Replay(h).value, s.query);
      }
    }
  }

  function UndoAll(rows: Rows, h: seq<Sql>): Option<Rows>
    decreases |h|
  {
    if h == [] then Some(rows)
    else
      var r := Undo(rows, h[|h| - 1]);
      if r == None then None else UndoAll(r.value, h[..|h| - 1])
  }

  ghost predicate Drops(h: seq<Sql>)
  {
    exists i | 0 <= i < |h| :: h[i] != NoSql && h[i].query.DropTable?
  }

  /** Undoing the end of a history in reverse order succeeds exactly when no table
      was dropped in it, and then the rows are those of the beginning. */
  lemma {:induction false} UndoAllRestoresIff(a: seq<Sql>, b: seq<Sql>)
    requires HistoryOk(a + b)
    ensures UndoAll(Replay(a + b).value, b) == if Drops(b) then None else Replay(a)
  {
    if b == [] {
      assert a + b == a;
    } else {
      var init, s := b[..|b| - 1], b[|b| - 1];
      assert b == init + [s] && a + b == a + init + [s];
      UndoAllStep(a + init, init, s);
      if s == NoSql || !s.query.DropTable? {
        UndoLast(a + init, s);
        UndoAllRestoresIff(a, init);
      }
    }
  }

  lemma {:induction false} UndoAllStep(h: seq<Sql>, init: seq<Sql>, s: Sql)
    requires HistoryOk(h + [s])
    ensures s != NoSql && s.query.DropTable? ==> Drops(init + [s]) && UndoAll(Replay(h + [s]).value, init + [s]) == None
    ensures s == NoSql || !s.query.DropTable? ==> (Drops(init + [s]) <==> Drops(init)) && Replay(h) != None
    ensures s == NoSql || !s.query.DropTable? ==>
      UndoAll(Replay(h + [s]).value, init + [s]) == UndoAll(Replay(h).value, init)
  {
    UndoLast(h, s);
    DropsSnoc(init, s);
    UndoAllSnoc(Replay(h + [s]).value, init, s);
  }

  lemma {:induction false} UndoAllSnoc(rows: Rows, h: seq<Sql>, s: Sql)
    ensures UndoAll(rows, h + [s]) == if Undo(rows, s) == None then None else UndoAll(Undo(rows, s).value, h)
  {
    assert (h + [s])[..|h|] == h;
  }

  lemma {:induction false} DropsSnoc(h: seq<Sql>, s: Sql)
    ensures Drops(h + [s]) <==> Drops(h) || (s != NoSql && s.query.DropTable?)
  {
    var more := h + [s];
    assert more[|h|] == s;
    if Drops(h) {
      var i :| 0 <= i < |h| && h[i] != NoSql && h[i].query.DropTable?;
      assert more[i] == h[i];
    }
  }

  // ----- blocks

  /** The SQL commands of a branch. */
  function Commands(es: seq<Entry>): seq<Sql>
  {
    if es == [] then [] else Commands(es[..|es| - 1]) + [es[|es| - 1].tx.sql]
  }

  /** The SQL commands of some transactions. */
  function SqlsOf(txs: seq<Tx>): (h: seq<Sql>)
    ensures |h| == |txs| && forall i | 0 <= i < |h| :: h[i] == txs[i].sql
  {
    seq(|txs|, i requires 0 <= i < |txs| => txs[i].sql)
  }

  lemma {:induction false} SqlsConcat(a: seq<Tx>, b: seq<Tx>)
    ensures SqlsOf(a + b) == SqlsOf(a) + SqlsOf(b)
  {
  }

  /** A branch whose commands run and carry fitting undos; coinbase transactions
      carry no command, and no table is dropped. */
  ghost predicate SqlOk(es: seq<Entry>)
  {
    && HistoryOk(Commands(es))
    && forall i | 0 <= i < |es| :: (es[i].tx.IsCoinbase() ==> es[i].tx.sql == NoSql) &&
         (es[i].tx.sql != NoSql ==> !es[i].tx.sql.query.DropTable?)
  }

  lemma {:induction false} CommandsSnoc(es: seq<Entry>, e: Entry)
    ensures Commands(es + [e]) == Commands(es) + [e.tx.sql]
  {
    assert (es + [e])[..|es|] == es;
  }

  lemma {:induction false} SqlOkPrefix(es: seq<Entry>, e: Entry)
    requires SqlOk(es + [e])
    ensures SqlOk(es)
    ensures e.tx.IsCoinbase() ==> e.tx.sql == NoSql
    ensures e.tx.sql != NoSql ==> !e.tx.sql.query.DropTable?
  {
    CommandsSnoc(es, e);
    UndoLast(Commands(es), e.tx.sql);
    assert (es + [e])[|es|] == e;
    forall i | 0 <= i < |es|
      ensures es[i].tx.IsCoinbase() ==> es[i].tx.sql == NoSql
      ensures es[i].tx.sql != NoSql ==> !es[i].tx.sql.query.DropTable?
    {
      assert (es + [e])[i] == es[i];
    }
  }

  lemma {:induction false} SqlOkUpto(es: seq<Entry>, b: Block, i: nat)
    requires SqlOk(es + BlockEntries(b)) && i <= |b.txs|
    ensures SqlOk(Upto(es, b, i))
    decreases |b.txs| - i
  {
    UptoEnds(es, b);
    if i < |b.txs| {
      SqlOkUpto(es, b, i + 1);
      UptoNext(es, b, i);
      SqlOkPrefix(Upto(es, b, i), Entry(b.txs[i], b.hash));
    }
  }

  /** ExecuteQueryFromTX and ExecuteRollbackQueryFromTX. */
  method ExecuteSql(db: DB, s: Statement) returns (ok: bool)
    modifies db`rows
    ensures ok <==> Exec(old(db.rows), s) != None
    ensures db.rows == if ok then Exec(old(db.rows), s).value else old(db.rows)
  {
    var r := Exec(db.rows, s);
    if r == None {
      return false;
    }
    db.rows := r.value;
    return true;
  }
}
