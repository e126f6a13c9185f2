/** When undo statements run: on whatever rows a block is to be taken back, each row
    tells by itself whether something stands in the way of its undo statements. */
module UndoRows {
  import opened Types
  import opened BlockTree
  import opened Ledger
  import opened TransactionLookup
  import opened SqlHistory
  import opened RowOrder
  import opened StatementRuns
  import opened BlockExecution
  import opened NodeState

  // ----- taking back a block

  /** The undo statements of a block, in the order in which they are run. */
  function UndosOf(txs: seq<Tx>): seq<Statement>
  {
    if txs == [] then []
    else
      var tx := txs[|txs| - 1];
      (if tx.IsCoinbase() || tx.sql == NoSql || tx.sql.rollback == None then [] else [tx.sql.rollback.value])
        + UndosOf(txs[..|txs| - 1])
  }

  ghost predicate CarryUndo(txs: seq<Tx>)
  {
    forall i | 0 <= i < |txs| && txs[i].sql != NoSql ::
      txs[i].sql.rollback.Some? && !txs[i].sql.rollback.value.CreateTable?
  }

  lemma {:induction false} UndoTxsIsExecAll(rows: Rows, txs: seq<Tx>)
    requires CarryUndo(txs)
    ensures UndoTxs(rows, txs) == ExecAll(rows, UndosOf(txs)) && NoCreation(UndosOf(txs))
    decreases |txs|
  {
    if txs != [] {
      var init, tx := txs[..|txs| - 1], txs[|txs| - 1];
      if tx.IsCoinbase() || tx.sql == NoSql {
        assert UndosOf(txs) == UndosOf(init);
        UndoTxsIsExecAll(rows, init);
      } else {
        var u := tx.sql.rollback.value;
        assert UndosOf(txs)[1..] == UndosOf(init);
        UndoTxsIsExecAll(if Exec(rows, u) == None then rows else Exec(rows, u).value, init);
      }
    }
  }

  lemma {:induction false} BlockCarriesUndo(es: seq<Entry>, b: Block)
    requires SqlOk(es + BlockEntries(b))
    ensures CarryUndo(b.txs)
  {
    forall i | 0 <= i < |b.txs| && b.txs[i].sql != NoSql
      ensures b.txs[i].sql.rollback.Some? && !b.txs[i].sql.rollback.value.CreateTable?
    {
      SqlOkUpto(es, b, i + 1);
      UptoNext(es, b, i);
      LastCarriesUndo(Upto(es, b, i), Entry(b.txs[i], b.hash));
    }
  }

  lemma {:induction false} LastCarriesUndo(es: seq<Entry>, e: Entry)
    requires SqlOk(es + [e]) && e.tx.sql != NoSql
    ensures e.tx.sql.rollback.Some? && !e.tx.sql.rollback.value.CreateTable?
  {
    SqlOkPrefix(es, e);
    CommandsSnoc(es, e);
    UndoLast(Commands(es), e.tx.sql);
  }

  /** On whatever rows: taking back a block that is in order on its branch fails
      exactly when something is in the way of its undo statements. */
  lemma {:induction false} BlockUndoneIff(es: seq<Entry>, b: Block, rows: Rows)
    requires SqlOk(es + BlockEntries(b))
    ensures UndoTxs(rows, b.txs) == None <==> Hindered(rows, UndosOf(b.txs))
  {
    BlockCarriesUndo(es, b);
    NothingQueued(es, b);
    UndoTxsIsExecAll(rows, b.txs);
    UndoTxsIsExecAll(Replay(Commands(es + BlockEntries(b))).value, b.txs);
    RunsUnlessHindered(Replay(Commands(es + BlockEntries(b))).value, rows, UndosOf(b.txs));
  }

  lemma {:induction false} NothingQueued(es: seq<Entry>, b: Block)
    requires SqlOk(es + BlockEntries(b))
    ensures Replay(Commands(es + BlockEntries(b))) != None && Replay(Commands(es)) != None
    ensures UndoTxs(Replay(Commands(es + BlockEntries(b))).value, b.txs) == Replay(Commands(es))
  {
    var none: seq<Sql> := [];
    assert Commands(es + BlockEntries(b)) + none == Commands(es + BlockEntries(b));
    assert Commands(es) + none == Commands(es);
    assert Apart(none, SqlsOf(b.txs));
    BlockTakenBack(es, b, none);
  }

  // ----- taking back a branch

  /** The blocks of a branch that are not under the other tip, from its tip down. */
  ghost function Leaving(blocks: Blocks, h: Hash, top: Hash): seq<Block>
    requires TreeOk(blocks) && h in blocks && top in blocks
    decreases blocks[h].height
  {
    assert LinkOk(blocks, h);
    if OnPath(blocks, h, top) || blocks[h].prev == NoHash then []
    else [blocks[h]] + Leaving(blocks, blocks[h].prev, top)
  }

  function BranchUndos(chain: seq<Block>): seq<Statement>
  {
    if chain == [] then [] else UndosOf(chain[0].txs) + BranchUndos(chain[1..])
  }

  /** Blocks taken back one after the other. */
  function UndoBlocks(rows: Rows, chain: seq<Block>): Option<Rows>
    decreases |chain|
  {
    if chain == [] then Some(rows)
    else
      var r := UndoTxs(rows, chain[0].txs);
      if r == None then None else UndoBlocks(r.value, chain[1..])
  }

  lemma {:induction false} UndoNext(rows: Rows, chain: seq<Block>, i: nat)
    requires i < |chain|
    ensures
      var r := UndoTxs(rows, chain[i].txs);
      UndoBlocks(rows, chain[i..]) == if r == None then None else UndoBlocks(r.value, chain[i + 1..])
  {
    assert chain[i..][1..] == chain[i + 1..];
  }

  /** The rows after the first blocks were taken back. */
  function UndoFirst(rows: Rows, chain: seq<Block>, i: nat): Option<Rows>
    requires i <= |chain|
  {
    if i == 0 then Some(rows)
    else
      var before := UndoFirst(rows, chain, i - 1);
      if before == None then None else UndoTxs(before.value, chain[i - 1].txs)
  }

  lemma {:induction false} UndoRest(rows: Rows, chain: seq<Block>, i: nat)
    requires i <= |chain|
    ensures UndoBlocks(rows, chain) ==
      if UndoFirst(rows, chain, i) == None then None else UndoBlocks(UndoFirst(rows, chain, i).value, chain[i..])
  {
    if i == 0 {
      assert chain[0..] == chain;
    } else {
      UndoRest(rows, chain, i - 1);
      if UndoFirst(rows, chain, i - 1) != None {
        UndoNext(UndoFirst(rows, chain, i - 1).value, chain, i - 1);
      }
    }
  }

  lemma {:induction false} UndoEnds(rows: Rows, chain: seq<Block>, i: nat)
    requires i <= |chain| && (UndoFirst(rows, chain, i) == None || i == |chain|)
    ensures UndoBlocks(rows, chain) == UndoFirst(rows, chain, i)
  {
    UndoRest(rows, chain, i);
  }

  lemma {:induction false} LeavingCarriesUndo(blocks: Blocks, h: Hash, top: Hash, coins: int)
    requires TreeOk(blocks) && BranchesOk(blocks, coins) && h in blocks && top in blocks
    ensures forall i | 0 <= i < |Leaving(blocks, h, top)| :: CarryUndo(Leaving(blocks, h, top)[i].txs)
    ensures Replay(Commands(EntriesUnder(blocks, h))) != None
    ensures UndoBlocks(Replay(Commands(EntriesUnder(blocks, h))).value, Leaving(blocks, h, top)) != None
    decreases blocks[h].height
  {
    assert BranchOk(blocks, h, coins);
    if !OnPath(blocks, h, top) && blocks[h].prev != NoHash {
      var prev := blocks[h].prev;
      ParentFacts(blocks, h, coins);
      assert LinkOk(blocks, h);
      BlockCarriesUndo(EntriesUnder(blocks, prev), blocks[h]);
      NothingQueued(EntriesUnder(blocks, prev), blocks[h]);
      LeavingCarriesUndo(blocks, prev, top, coins);
      assert Leaving(blocks, h, top)[1..] == Leaving(blocks, prev, top);
    }
  }

  lemma {:induction false} UndoBlocksIsExecAll(rows: Rows, chain: seq<Block>)
    requires forall i | 0 <= i < |chain| :: CarryUndo(chain[i].txs)
    ensures UndoBlocks(rows, chain) == ExecAll(rows, BranchUndos(chain)) && NoCreation(BranchUndos(chain))
    decreases |chain|
  {
    if chain != [] {
      assert CarryUndo(chain[0].txs);
      UndoTxsIsExecAll(rows, chain[0].txs);
      ExecAllConcat(rows, UndosOf(chain[0].txs), BranchUndos(chain[1..]));
      var r := UndoTxs(rows, chain[0].txs);
      UndoBlocksIsExecAll(if r == None then rows else r.value, chain[1..]);
    }
  }

  /** On whatever rows: a branch can be left exactly when nothing is in the way of
      the undo statements of its blocks. */
  lemma {:induction false} BranchUndoneIff(blocks: Blocks, h: Hash, top: Hash, coins: int, rows: Rows)
    requires TreeOk(blocks) && BranchesOk(blocks, coins) && h in blocks && top in blocks
    ensures UndoBlocks(rows, Leaving(blocks, h, top)) == None <==> Hindered(rows, BranchUndos(Leaving(blocks, h, top)))
  {
    LeavingCarriesUndo(blocks, h, top, coins);
    var chain, expected := Leaving(blocks, h, top), Replay(Commands(EntriesUnder(blocks, h))).value;
    UndoBlocksIsExecAll(rows, chain);
    UndoBlocksIsExecAll(expected, chain);
    RunsUnlessHindered(expected, rows, BranchUndos(chain));
  }
}
