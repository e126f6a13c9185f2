/** The index of rows: which transaction wrote a row last. Every SQL transaction
    names the previous writer of its row as its base; verification compares that
    name with the index, or off the main chain with a search through the blocks. */
module RowReferences {
  import opened Types
  import opened BlockTree
  import opened Database
  import opened Ledger
  import opened TransactionLookup
  import opened UnspentOutputs

  /** The reference in a transaction's SQL command, empty without a command. */
  function RefOf(tx: Tx): RefId
  {
    if tx.sql == NoSql then NoRef else tx.sql.ref
  }

  /** GetAlternativeRefID: an insert may be based on the creation of its table. */
  function AltRef(s: Sql): RefId
  {
    if s != NoSql && s.query.InsertRow? then TableRef(s.query.table) else NoRef
  }

  ghost predicate Writes(tx: Tx, ref: RefId)
  {
    tx.sql != NoSql && tx.sql.ref == ref
  }

  /** The last SQL transaction of a branch with a reference. */
  function LastWriter(es: seq<Entry>, ref: RefId): Option<TxId>
  {
    if es == [] then None
    else if es[|es| - 1].tx.sql != NoSql && es[|es| - 1].tx.sql.ref == ref then Some(es[|es| - 1].tx.id)
    else LastWriter(es[..|es| - 1], ref)
  }

  function Get(refs: map<RefId, TxId>, ref: RefId): Option<TxId>
  {
    if ref in refs then Some(refs[ref]) else None
  }

  /** The index holds exactly the last writers of a branch. */
  ghost predicate RefsOk(refs: map<RefId, TxId>, es: seq<Entry>)
  {
    forall ref :: Get(refs, ref) == if ref == NoRef then None else LastWriter(es, ref)
  }

  // ----- a block is added

  lemma {:induction false} WriterNext(es: seq<Entry>, b: Block, i: nat, ref: RefId)
    requires i < |b.txs|
    ensures LastWriter(Upto(es, b, i + 1), ref) ==
      if Writes(b.txs[i], ref) then Some(b.txs[i].id) else LastWriter(Upto(es, b, i), ref)
  {
    UptoNext(es, b, i);
    assert Upto(es, b, i + 1)[..|Upto(es, b, i)|] == Upto(es, b, i);
  }

  /** The index after some transactions were entered. */
  function Written(refs: map<RefId, TxId>, txs: seq<Tx>): map<RefId, TxId>
  {
    if txs == [] then refs
    else
      var before, tx := Written(refs, txs[..|txs| - 1]), txs[|txs| - 1];
      if tx.sql != NoSql && tx.sql.ref != NoRef then before[tx.sql.ref := tx.id] else before
  }

  /** UpdateOnBlockAdd of the row index. */
  method UpdateOnBlockAdd(db: DB, block: Block)
    modifies db`rowRefs
    ensures db.rowRefs == Written(old(db.rowRefs), block.txs)
  {
    for i := 0 to |block.txs|
      invariant db.rowRefs == Written(old(db.rowRefs), block.txs[..i])
    {
      var tx := block.txs[i];
      assert block.txs[..i + 1][..i] == block.txs[..i];
      if tx.IsSql() && tx.sql.ref != NoRef {
        db.rowRefs := db.rowRefs[tx.sql.ref := tx.id];
      }
    }
    assert block.txs[..|block.txs|] == block.txs;
  }

  /** Entering a block leads from the last writers of a branch to those with the block. */
  lemma {:induction false} WrittenIsLast(refs: map<RefId, TxId>, es: seq<Entry>, b: Block)
    requires RefsOk(refs, es)
    ensures RefsOk(Written(refs, b.txs), es + BlockEntries(b))
  {
    forall ref ensures Get(Written(refs, b.txs), ref) ==
      if ref == NoRef then None else LastWriter(es + BlockEntries(b), ref) {
      WrittenAt(refs, es, b, |b.txs|, ref);
      UptoEnds(es, b);
      assert b.txs[..|b.txs|] == b.txs;
    }
  }

  lemma {:induction false} WrittenAt(refs: map<RefId, TxId>, es: seq<Entry>, b: Block, i: nat, ref: RefId)
    requires RefsOk(refs, es) && i <= |b.txs|
    ensures Get(Written(refs, b.txs[..i]), ref) == if ref == NoRef then None else LastWriter(Upto(es, b, i), ref)
  {
    if i == 0 {
      UptoEnds(es, b);
    } else {
      WrittenAt(refs, es, b, i - 1, ref);
      WriterNext(es, b, i - 1, ref);
      assert b.txs[..i][..i - 1] == b.txs[..i - 1];
    }
  }

  // ----- looking a base up

  /** What the search through the blocks is for: the last writer, or else the last
      transaction with the alternative reference. Without an alternative the
      search compares with the empty reference. */
  function ByTip(es: seq<Entry>, ref: RefId, alt: RefId): Option<TxId>
  {
    var w := LastWriter(es, ref);
    if w != None then w else LastWriter(es, alt)
  }

  /** One block of the search, last transaction first. */
  method SearchBlock(block: Block, ref: RefId, alt: RefId, alt0: Option<TxId>, ghost es: seq<Entry>)
    returns (found: Option<TxId>, altFound: Option<TxId>)
    ensures found != None ==> LastWriter(es + BlockEntries(block), ref) == found
    ensures found == None ==> LastWriter(es + BlockEntries(block), ref) == LastWriter(es, ref)
    ensures found == None ==>
      OrElse(alt0, LastWriter(es + BlockEntries(block), alt)) == OrElse(altFound, LastWriter(es, alt))
  {
    UptoEnds(es, block);
    altFound := alt0;
    var j := |block.txs|;
    while j > 0
      invariant 0 <= j <= |block.txs|
      invariant LastWriter(es + BlockEntries(block), ref) == LastWriter(Upto(es, block, j), ref)
      invariant OrElse(alt0, LastWriter(es + BlockEntries(block), alt)) ==
        OrElse(altFound, LastWriter(Upto(es, block, j), alt))
    {
      j := j - 1;
      var tx := block.txs[j];
      WriterNext(es, block, j, ref);
      WriterNext(es, block, j, alt);
      if tx.IsSql() {
        if tx.sql.ref == ref {
          return Some(tx.id), altFound;
        }
        if altFound == None && tx.sql.ref == alt {
          altFound := Some(tx.id);
        }
      }
    }
    return None, altFound;
  }

  function OrElse(a: Option<TxId>, b: Option<TxId>): Option<TxId>
  {
    if a != None then a else b
  }

  /** GetTXForRefIDByTIP: the search from a tip down to the genesis block. */
  method GetTxForRefByTip(db: DB, ref: RefId, alt: RefId, tip: Hash) returns (found: Option<TxId>)
    requires TreeOk(db.blocks) && tip in db.blocks
    ensures found == ByTip(EntriesUnder(db.blocks, tip), ref, alt)
  {
    ghost var all := EntriesUnder(db.blocks, tip);
    var cur := tip;
    var altFound := None;
    while true
      invariant cur in db.blocks
      invariant LastWriter(all, ref) == LastWriter(EntriesUnder(db.blocks, cur), ref)
      invariant LastWriter(all, alt) == OrElse(altFound, LastWriter(EntriesUnder(db.blocks, cur), alt))
      decreases db.blocks[cur].height
    {
      var block := db.blocks[cur];
      ghost var below := EntriesBelow(db.blocks, cur);
      found, altFound := SearchBlock(block, ref, alt, altFound, below);
      if found != None {
        return;
      }
      if block.prev == NoHash {
        return altFound;
      }
      cur := block.prev;
    }
  }

  /** The lookup in the index: the reference, or else the alternative if there is one. */
  method GetTxForRef(db: DB, ref: RefId, alt: RefId) returns (found: Option<TxId>)
    ensures found == ByIndex(db.rowRefs, ref, alt)
  {
    if ref in db.rowRefs {
      return Some(db.rowRefs[ref]);
    }
    if alt == NoRef || alt !in db.rowRefs {
      return None;
    }
    return Some(db.rowRefs[alt]);
  }

  function ByIndex(refs: map<RefId, TxId>, ref: RefId, alt: RefId): Option<TxId>
  {
    if ref in refs then Some(refs[ref]) else if alt == NoRef || alt !in refs then None else Some(refs[alt])
  }

  /** Index and search agree, except that the search takes an SQL transaction
      without reference for the missing alternative. */
  lemma {:induction false} IndexIsSearchIff(refs: map<RefId, TxId>, es: seq<Entry>, ref: RefId, alt: RefId)
    requires RefsOk(refs, es) && ref != NoRef
    ensures ByIndex(refs, ref, alt) == ByTip(es, ref, alt) <==>
      !(alt == NoRef && LastWriter(es, ref) == None && LastWriter(es, NoRef) != None)
  {
    assert Get(refs, ref) == LastWriter(es, ref);
    assert alt != NoRef ==> Get(refs, alt) == LastWriter(es, alt);
  }

  // ----- checking the base of a transaction

  /** The last transaction of a list with a reference. */
  function LastIn(txs: seq<Tx>, ref: RefId): Option<TxId>
  {
    if txs == [] then None
    else if RefOf(txs[|txs| - 1]) == ref then Some(txs[|txs| - 1].id)
    else LastIn(txs[..|txs| - 1], ref)
  }

  method FindInList(prevtxs: seq<Tx>, ref: RefId) returns (found: Option<TxId>)
    ensures found == LastIn(prevtxs, ref)
  {
    found := None;
    for i := 0 to |prevtxs|
      invariant found == LastIn(prevtxs[..i], ref)
    {
      assert prevtxs[..i + 1][..i] == prevtxs[..i];
      if RefOf(prevtxs[i]) == ref {
        found := Some(prevtxs[i].id);
      }
    }
    assert prevtxs[..|prevtxs|] == prevtxs;
  }

  function TxsOf(es: seq<Entry>): (txs: seq<Tx>)
    ensures |txs| == |es| && forall i | 0 <= i < |txs| :: txs[i] == es[i].tx
  {
    seq(|es|, i requires 0 <= i < |es| => es[i].tx)
  }

  ghost predicate Named(txs: seq<Tx>, ref: RefId)
  {
    exists q | 0 <= q < |txs| :: RefOf(txs[q]) == ref
  }

  ghost predicate LastNamedAt(txs: seq<Tx>, ref: RefId, q: nat)
  {
    q < |txs| && RefOf(txs[q]) == ref && forall m | q < m < |txs| :: RefOf(txs[m]) != ref
  }

  /** `id` is the last of the transactions with the reference. */
  ghost predicate IsLast(txs: seq<Tx>, ref: RefId, id: TxId)
  {
    exists q: nat :: LastNamedAt(txs, ref, q) && txs[q].id == id
  }

  /** Whether a command may name a base, told by the earlier transactions of its block
      and the index. The last one of the block that wrote the row is right; if there is
      none, for an insert the last one of the block with the table's reference; then
      the record of the row; and for an insert without one that of the table. A
      creation has no base. */
  ghost predicate FitsIndex(refs: map<RefId, TxId>, before: seq<Tx>, s: Sql, base: TxId)
    requires s != NoSql
  {
    match s.query
    case CreateTable(_) => false
    case InsertRow(table, _, _) =>
      if Named(before, s.ref) then IsLast(before, s.ref, base)
      else if Named(before, TableRef(table)) then IsLast(before, TableRef(table), base)
      else if s.ref in refs then refs[s.ref] == base
      else TableRef(table) in refs && refs[TableRef(table)] == base
    case _ =>
      if Named(before, s.ref) then IsLast(before, s.ref, base) else s.ref in refs && refs[s.ref] == base
  }

  /** The same told by the branch. */
  ghost predicate FitsBranch(es: seq<Entry>, before: seq<Tx>, s: Sql, base: TxId)
    requires s != NoSql
  {
    match s.query
    case CreateTable(_) => false
    case InsertRow(table, _, _) =>
      if Named(before, s.ref) then IsLast(before, s.ref, base)
      else if Named(before, TableRef(table)) then IsLast(before, TableRef(table), base)
      else if s.ref != NoRef && Named(TxsOf(es), s.ref) then IsLast(TxsOf(es), s.ref, base)
      else IsLast(TxsOf(es), TableRef(table), base)
    case _ =>
      if Named(before, s.ref) then IsLast(before, s.ref, base) else s.ref != NoRef && IsLast(TxsOf(es), s.ref, base)
  }

  lemma {:induction false} LastInIff(txs: seq<Tx>, ref: RefId)
    ensures LastIn(txs, ref) == None <==> !Named(txs, ref)
    ensures forall id: TxId :: IsLast(txs, ref, id) <==> LastIn(txs, ref) == Some(id)
  {
    var at := LastInAt(txs, ref);
    if LastIn(txs, ref) == None {
      assert forall q: nat :: !LastNamedAt(txs, ref, q);
    } else {
      assert LastNamedAt(txs, ref, at);
      forall q: nat | LastNamedAt(txs, ref, q) ensures q == at {
        assert !(q < at) && !(at < q);
      }
    }
  }

  lemma {:induction false} LastWriterIff(es: seq<Entry>, ref: RefId)
    requires ref != NoRef
    ensures LastWriter(es, ref) == None <==> !Named(TxsOf(es), ref)
    ensures forall id: TxId :: IsLast(TxsOf(es), ref, id) <==> LastWriter(es, ref) == Some(id)
  {
    LastInIff(TxsOf(es), ref);
    LastInBranch(es, ref);
  }

  lemma {:induction false} LastInBranch(es: seq<Entry>, ref: RefId)
    requires ref != NoRef
    ensures LastIn(TxsOf(es), ref) == LastWriter(es, ref)
  {
    if es != [] {
      LastInBranch(es[..|es| - 1], ref);
      assert TxsOf(es)[..|es| - 1] == TxsOf(es[..|es| - 1]);
    }
  }

  /** With the last writers of the branch the index tells what the branch tells. */
  lemma {:induction false} FitsBoth(refs: map<RefId, TxId>, es: seq<Entry>, before: seq<Tx>, s: Sql, base: TxId)
    requires RefsOk(refs, es) && s != NoSql
    ensures FitsIndex(refs, before, s, base) <==> FitsBranch(es, before, s, base)
  {
    assert Get(refs, s.ref) == if s.ref == NoRef then None else LastWriter(es, s.ref);
    if s.ref != NoRef {
      LastWriterIff(es, s.ref);
    }
    if s.query.InsertRow? {
      assert Get(refs, TableRef(s.query.table)) == LastWriter(es, TableRef(s.query.table));
      LastWriterIff(es, TableRef(s.query.table));
    }
  }

  /** getBaseTransactionInList on top of the main chain; None is an error, or that
      there is no base. */
  method GetBaseInList(db: DB, s: Sql, prevtxs: seq<Tx>) returns (base: Option<TxId>)
    requires s != NoSql
    ensures forall id: TxId :: FitsIndex(db.rowRefs, prevtxs, s, id) <==> base == Some(id)
  {
    if s.query.CreateTable? {
      return None;
    }
    var alt := AltRef(s);
    LastInIff(prevtxs, s.ref);
    base := FindInList(prevtxs, s.ref);
    if base != None {
      return;
    }
    if alt != NoRef {
      LastInIff(prevtxs, alt);
      base := FindInList(prevtxs, alt);
      if base != None {
        return;
      }
    }
    base := GetTxForRef(db, s.ref, alt);
  }

  /** Commands without a base are not looked at. */
  ghost predicate BaseFits(refs: map<RefId, TxId>, before: seq<Tx>, tx: Tx)
  {
    tx.sql != NoSql && tx.base != NoTx ==> FitsIndex(refs, before, tx.sql, tx.base)
  }

  ghost predicate BaseOk(es: seq<Entry>, before: seq<Tx>, tx: Tx)
  {
    tx.sql != NoSql && tx.base != NoTx ==> FitsBranch(es, before, tx.sql, tx.base)
  }

  /** The SQL part of VerifyTransaction, for a block on top of the main chain. */
  method CheckBaseTransaction(db: DB, tx: Tx, prevtxs: seq<Tx>, ghost es: seq<Entry>) returns (ok: bool)
    ensures ok <==> BaseFits(db.rowRefs, prevtxs, tx)
    ensures RefsOk(db.rowRefs, es) ==> (ok <==> BaseOk(es, prevtxs, tx))
  {
    if tx.IsSql() {
      if RefsOk(db.rowRefs, es) {
        FitsBoth(db.rowRefs, es, prevtxs, tx.sql, tx.base);
      }
      if tx.base != NoTx {
        var expected := GetBaseInList(db, tx.sql, prevtxs);
        return expected == Some(tx.base);
      }
    }
    return true;
  }

  /** A row that nobody wrote before, neither on the branch nor in the block: an insert
      is accepted with the last transaction that has the reference of its table, any
      other command with no base. A row that was written: exactly the last writer is
      accepted, except for an insert into a table whose reference comes again in the
      block before anybody there writes the row. */
  lemma {:induction false} AcceptedBaseIff(es: seq<Entry>, before: seq<Tx>, tx: Tx)
    requires tx.sql != NoSql && tx.base != NoTx && tx.sql.ref != NoRef && !tx.sql.query.CreateTable?
    ensures
      var all, ref := TxsOf(es) + before, tx.sql.ref;
      if !Named(all, ref) then
        BaseOk(es, before, tx) <==> tx.sql.query.InsertRow? && IsLast(all, TableRef(tx.sql.query.table), tx.base)
      else if tx.sql.query.InsertRow? && !Named(before, ref) && Named(before, TableRef(tx.sql.query.table)) then
        BaseOk(es, before, tx) <==> IsLast(all, TableRef(tx.sql.query.table), tx.base)
      else
        BaseOk(es, before, tx) <==> IsLast(all, ref, tx.base)
  {
    LastOfJoin(TxsOf(es), before, tx.sql.ref, tx.base);
    if tx.sql.query.InsertRow? {
      LastOfJoin(TxsOf(es), before, TableRef(tx.sql.query.table), tx.base);
    }
  }

  lemma {:induction false} LastOfJoin(a: seq<Tx>, b: seq<Tx>, ref: RefId, id: TxId)
    ensures Named(a + b, ref) <==> Named(a, ref) || Named(b, ref)
    ensures IsLast(a + b, ref, id) <==> if Named(b, ref) then IsLast(b, ref, id) else IsLast(a, ref, id)
  {
    forall q | 0 <= q < |b| ensures (a + b)[|a| + q] == b[q] { }
    if Named(b, ref) {
      forall q: nat ensures LastNamedAt(b, ref, q) <==> LastNamedAt(a + b, ref, |a| + q) { }
      forall q: nat | LastNamedAt(a + b, ref, q) ensures |a| <= q {
        var m :| 0 <= m < |b| && RefOf(b[m]) == ref;
        assert (a + b)[|a| + m] == b[m];
      }
      if IsLast(a + b, ref, id) {
        var q: nat :| LastNamedAt(a + b, ref, q) && (a + b)[q].id == id;
        assert LastNamedAt(b, ref, q - |a|);
      }
    } else {
      forall m | |a| <= m < |a + b| ensures RefOf((a + b)[m]) != ref {
        assert (a + b)[m] == b[m - |a|] && RefOf(b[m - |a|]) != ref;
      }
      forall q: nat ensures LastNamedAt(a, ref, q) <==> LastNamedAt(a + b, ref, q) {
        assert forall m | 0 <= m < |a| :: (a + b)[m] == a[m];
      }
    }
    if Named(a, ref) {
      var q :| 0 <= q < |a| && RefOf(a[q]) == ref;
      assert (a + b)[q] == a[q];
    }
  }

  ghost predicate BlockBasesOk(es: seq<Entry>, b: Block)
  {
    forall t | 0 <= t < |b.txs| :: BaseOk(es, b.txs[..t], b.txs[t])
  }

  ghost predicate BasesFit(refs: map<RefId, TxId>, b: Block)
  {
    forall t | 0 <= t < |b.txs| :: BaseFits(refs, b.txs[..t], b.txs[t])
  }

  lemma {:induction false} BasesFitIff(refs: map<RefId, TxId>, es: seq<Entry>, b: Block)
    requires RefsOk(refs, es)
    ensures BasesFit(refs, b) <==> BlockBasesOk(es, b)
  {
    forall t | 0 <= t < |b.txs| ensures BaseFits(refs, b.txs[..t], b.txs[t]) <==> BaseOk(es, b.txs[..t], b.txs[t]) {
      if b.txs[t].sql != NoSql {
        FitsBoth(refs, es, b.txs[..t], b.txs[t].sql, b.txs[t].base);
      }
    }
  }

  /** The SQL part of VerifyBlock, for a block on top of the main chain. */
  method VerifyBases(db: DB, block: Block, ghost es: seq<Entry>) returns (ok: bool)
    ensures ok <==> BasesFit(db.rowRefs, block)
    ensures RefsOk(db.rowRefs, es) ==> (ok <==> BlockBasesOk(es, block))
  {
    if RefsOk(db.rowRefs, es) {
      BasesFitIff(db.rowRefs, es, block);
    }
    var prevTXs := [];
    for i := 0 to |block.txs|
      invariant prevTXs == block.txs[..i]
      invariant forall t | 0 <= t < i :: BaseFits(db.rowRefs, block.txs[..t], block.txs[t])
    {
      var done := CheckBaseTransaction(db, block.txs[i], prevTXs, es);
      if !done {
        return false;
      }
      prevTXs := prevTXs + [block.txs[i]];
    }
    return true;
  }

  // ----- histories are linear

  /** The base of a transaction is in `es`, and no later entry of `es` writes its row. */
  ghost predicate BaseIsLatest(es: seq<Entry>, tx: Tx)
  {
    tx.sql != NoSql && tx.base != NoTx && tx.sql.ref != NoRef ==> exists q: nat :: LatestAt(es, q, tx.base, tx.sql.ref)
  }

  ghost predicate LatestAt(es: seq<Entry>, q: nat, id: TxId, ref: RefId)
  {
    q < |es| && es[q].tx.id == id && forall m | q < m < |es| :: !Writes(es[m].tx, ref)
  }

  lemma {:induction false} LastWriterAt(es: seq<Entry>, ref: RefId) returns (q: nat)
    ensures LastWriter(es, ref) == None ==> forall m | 0 <= m < |es| :: !Writes(es[m].tx, ref)
    ensures LastWriter(es, ref) != None ==> LatestAt(es, q, LastWriter(es, ref).value, ref) && Writes(es[q].tx, ref)
  {
    q := 0;
    if es != [] {
      if Writes(es[|es| - 1].tx, ref) {
        q := |es| - 1;
      } else {
        q := LastWriterAt(es[..|es| - 1], ref);
      }
    }
  }

  lemma {:induction false} LastInAt(txs: seq<Tx>, ref: RefId) returns (q: nat)
    ensures LastIn(txs, ref) == None ==> forall m | 0 <= m < |txs| :: RefOf(txs[m]) != ref
    ensures LastIn(txs, ref) != None ==> q < |txs| && txs[q].id == LastIn(txs, ref).value && RefOf(txs[q]) == ref
    ensures LastIn(txs, ref) != None ==> forall m | q < m < |txs| :: RefOf(txs[m]) != ref
  {
    q := 0;
    if txs != [] {
      if RefOf(txs[|txs| - 1]) == ref {
        q := |txs| - 1;
      } else {
        q := LastInAt(txs[..|txs| - 1], ref);
      }
    }
  }

  /** The position of the base on the branch with the first part of the block. */
  lemma {:induction false} BasePosition(es: seq<Entry>, b: Block, t: nat) returns (q: nat)
    requires t < |b.txs| && b.txs[t].sql != NoSql && b.txs[t].sql.ref != NoRef && b.txs[t].base != NoTx
    requires BaseOk(es, b.txs[..t], b.txs[t])
    ensures LatestAt(Upto(es, b, t), q, b.txs[t].base, b.txs[t].sql.ref)
  {
    var all, before, tx := TxsOf(es) + b.txs[..t], b.txs[..t], b.txs[t];
    var ref, table := tx.sql.ref, TableRef(if tx.sql.query.InsertRow? then tx.sql.query.table else "");
    AcceptedBaseIff(es, before, tx);
    LastOfJoin(TxsOf(es), before, table, tx.base);
    var named := if IsLast(all, ref, tx.base) then ref else table;
    q :| LastNamedAt(all, named, q) && all[q].id == tx.base;
    if named != ref && Named(all, ref) {
      LastIsInBlock(TxsOf(es), before, table, q);
    }
    NotNamedAfter(TxsOf(es), before, ref, q, named);
    LatestIn(es, b, t, q, ref);
  }

  lemma {:induction false} NotNamedAfter(a: seq<Tx>, b: seq<Tx>, ref: RefId, q: nat, named: RefId)
    requires LastNamedAt(a + b, named, q)
    requires named == ref || !Named(a + b, ref) || (q >= |a| && !Named(b, ref))
    ensures forall m | q < m < |a + b| :: RefOf((a + b)[m]) != ref
  {
    forall m | q < m < |a + b| ensures RefOf((a + b)[m]) != ref {
      if m >= |a| {
        assert (a + b)[m] == b[m - |a|];
      }
    }
  }

  lemma {:induction false} LatestIn(es: seq<Entry>, b: Block, t: nat, q: nat, ref: RefId)
    requires t <= |b.txs| && q < |TxsOf(es) + b.txs[..t]| && ref != NoRef
    requires forall m | q < m < |TxsOf(es) + b.txs[..t]| :: RefOf((TxsOf(es) + b.txs[..t])[m]) != ref
    ensures LatestAt(Upto(es, b, t), q, (TxsOf(es) + b.txs[..t])[q].id, ref)
  {
    var all := TxsOf(es) + b.txs[..t];
    forall m | 0 <= m < |all| ensures m < |Upto(es, b, t)| && Upto(es, b, t)[m].tx == all[m] {
      UptoAt(es, b, t, m);
    }
    UptoAt(es, b, t, q);
  }

  lemma {:induction false} LastIsInBlock(a: seq<Tx>, b: seq<Tx>, ref: RefId, q: nat)
    requires LastNamedAt(a + b, ref, q) && Named(b, ref)
    ensures q >= |a|
  {
    var m :| 0 <= m < |b| && RefOf(b[m]) == ref;
    assert (a + b)[|a| + m] == b[m];
  }

  lemma {:induction false} CheckedIsLatest(es: seq<Entry>, b: Block, t: nat)
    requires t < |b.txs| && BaseOk(es, b.txs[..t], b.txs[t])
    ensures BaseIsLatest(Upto(es, b, t), b.txs[t])
  {
    if b.txs[t].sql != NoSql && b.txs[t].base != NoTx && b.txs[t].sql.ref != NoRef {
      var q := BasePosition(es, b, t);
    }
  }

  /** A branch whose blocks were all checked as extensions of the top. */
  ghost predicate BasesOk(p: seq<Block>)
  {
    p == [] || (BasesOk(p[..|p| - 1]) && BlockBasesOk(PathEntries(p[..|p| - 1]), p[|p| - 1]))
  }

  lemma {:induction false} AllLatest(p: seq<Block>, k: nat)
    requires BasesOk(p) && k < |PathEntries(p)|
    ensures BaseIsLatest(PathEntries(p)[..k], PathEntries(p)[k].tx)
  {
    var es, b := PathEntries(p[..|p| - 1]), p[|p| - 1];
    if k < |es| {
      AllLatest(p[..|p| - 1], k);
      assert PathEntries(p)[..k] == es[..k];
    } else {
      var t := k - |es|;
      CheckedIsLatest(es, b, t);
      assert PathEntries(p)[..k] == Upto(es, b, t);
    }
  }

  /** Row histories are linear: two transactions that write the same row are never
      based on the same transaction. */
  lemma {:induction false} LinearHistories(p: seq<Block>, i: nat, j: nat)
    requires BasesOk(p) && UniqueIds(PathEntries(p)) && i < j < |PathEntries(p)|
    requires var a, b := PathEntries(p)[i].tx, PathEntries(p)[j].tx;
      && a.sql != NoSql && b.sql != NoSql && a.base != NoTx && b.base != NoTx
      && a.sql.ref == b.sql.ref && a.sql.ref != NoRef
    ensures PathEntries(p)[i].tx.base != PathEntries(p)[j].tx.base
  {
    var es := PathEntries(p);
    AllLatest(p, i);
    AllLatest(p, j);
    var qi: nat :| LatestAt(es[..i], qi, es[i].tx.base, es[i].tx.sql.ref);
    var qj: nat :| LatestAt(es[..j], qj, es[j].tx.base, es[j].tx.sql.ref);
    assert Writes(es[..j][i].tx, es[j].tx.sql.ref);
    assert qi < i <= qj;
    assert es[..i][qi] == es[qi] && es[..j][qj] == es[qj];
  }

  // ----- a block is cancelled

  /** What cancelling leaves: records that the block's transactions still own are gone. */
  function Cancelled(refs: map<RefId, TxId>, txs: seq<Tx>): map<RefId, TxId>
  {
    if txs == [] then refs
    else
      var before := Cancelled(refs, txs[..|txs| - 1]);
      var tx := txs[|txs| - 1];
      if tx.sql != NoSql && tx.sql.ref != NoRef && Get(before, tx.sql.ref) == Some(tx.id)
        then before - {tx.sql.ref} else before
  }

  method TransactionUnderTop(db: DB, id: TxId, ghost indexed: Blocks) returns (tx: Option<Tx>)
    requires ListingOk(db, indexed)
    ensures tx == None <==> !HasTx(EntriesUnder(db.blocks, db.topHash), id)
    ensures tx != None ==> tx.value.id == id
  {
    var holder := HolderUnderTip(db, id, NoHash, indexed);
    if holder == None {
      return None;
    }
    var r := GetTransactionFromBlock(db, id, holder.value);
    return Some(r.value);
  }

  /** UpdateOnBlockCancel of the row index: where the previous writer of the row is
      known it is written back, but the record is deleted after that as well. */
  method UpdateOnBlockCancel(db: DB, block: Block, ghost indexed: Blocks)
    requires ListingOk(db, indexed)
    modifies db`rowRefs
    ensures db.rowRefs == Cancelled(old(db.rowRefs), block.txs)
  {
    for i := 0 to |block.txs|
      invariant db.rowRefs == Cancelled(old(db.rowRefs), block.txs[..i])
    {
      var tx := block.txs[i];
      assert block.txs[..i + 1][..i] == block.txs[..i];
      if tx.IsSql() && tx.sql.ref != NoRef && tx.sql.ref in db.rowRefs && db.rowRefs[tx.sql.ref] == tx.id {
        ghost var was := db.rowRefs;
        if tx.base != NoTx {
          var prev := TransactionUnderTop(db, tx.base, indexed);
          if prev != None && RefOf(prev.value) == tx.sql.ref {
            db.rowRefs := db.rowRefs[tx.sql.ref := prev.value.id];
          }
        }
        db.rowRefs := db.rowRefs - {tx.sql.ref};
        assert db.rowRefs == was - {tx.sql.ref};
      }
    }
    assert block.txs[..|block.txs|] == block.txs;
  }

  ghost predicate WritesRow(b: Block, ref: RefId)
  {
    exists t | 0 <= t < |b.txs| :: Writes(b.txs[t], ref)
  }

  /** Cancelling the top block restores the index of the parent exactly when every
      row that the block wrote had no writer before: the row's previous writer
      is lost. */
  lemma {:induction false} CancelRestoresIff(refs: map<RefId, TxId>, es: seq<Entry>, b: Block)
    requires RefsOk(refs, es + BlockEntries(b)) && UniqueIds(es + BlockEntries(b))
    ensures RefsOk(Cancelled(refs, b.txs), es) <==>
      forall ref | ref != NoRef && WritesRow(b, ref) :: LastWriter(es, ref) == None
  {
    forall ref
      ensures Get(Cancelled(refs, b.txs), ref) == if ref != NoRef && WritesRow(b, ref) then None else Get(refs, ref)
      ensures !WritesRow(b, ref) ==> LastWriter(es + BlockEntries(b), ref) == LastWriter(es, ref) {
      CancelledRecord(refs, es, b, ref);
    }
    if !forall ref | ref != NoRef && WritesRow(b, ref) :: LastWriter(es, ref) == None {
      var ref :| ref != NoRef && WritesRow(b, ref) && LastWriter(es, ref) != None;
      assert Get(Cancelled(refs, b.txs), ref) != LastWriter(es, ref);
    }
  }

  /** A record that is right goes exactly when the block writes its row. */
  lemma {:induction false} CancelledRecord(refs: map<RefId, TxId>, es: seq<Entry>, b: Block, ref: RefId)
    requires ref == NoRef || Get(refs, ref) == LastWriter(es + BlockEntries(b), ref)
    requires UniqueIds(es + BlockEntries(b))
    ensures Get(Cancelled(refs, b.txs), ref) == if ref != NoRef && WritesRow(b, ref) then None else Get(refs, ref)
    ensures !WritesRow(b, ref) ==> LastWriter(es + BlockEntries(b), ref) == LastWriter(es, ref)
  {
    CancelledAt(refs, es, b, |b.txs|, ref);
    assert b.txs[..|b.txs|] == b.txs;
    if WritesRow(b, ref) {
      var t := LastWrite(b, |b.txs|, ref);
    } else {
      NotWritten(es, b, |b.txs|, ref);
      UptoEnds(es, b);
    }
  }

  /** Whatever the index holds: a record stays or goes, and it stays when the row is
      not written. */
  lemma {:induction false} CancelledOrKept(refs: map<RefId, TxId>, txs: seq<Tx>, ref: RefId)
    ensures Get(Cancelled(refs, txs), ref) == Get(refs, ref) || Get(Cancelled(refs, txs), ref) == None
    ensures (forall t | 0 <= t < |txs| :: !Writes(txs[t], ref)) ==> Get(Cancelled(refs, txs), ref) == Get(refs, ref)
  {
    if txs != [] {
      CancelledOrKept(refs, txs[..|txs| - 1], ref);
    }
  }

  lemma {:induction false} NotWritten(es: seq<Entry>, b: Block, i: nat, ref: RefId)
    requires i <= |b.txs| && forall t | 0 <= t < i :: !Writes(b.txs[t], ref)
    ensures LastWriter(Upto(es, b, i), ref) == LastWriter(es, ref)
  {
    if i == 0 {
      UptoEnds(es, b);
    } else {
      NotWritten(es, b, i - 1, ref);
      WriterNext(es, b, i - 1, ref);
    }
  }

  /** The record of a row goes when the loop comes to the row's last writer. */
  lemma {:induction false} CancelledAt(refs: map<RefId, TxId>, es: seq<Entry>, b: Block, i: nat, ref: RefId)
    requires ref == NoRef || Get(refs, ref) == LastWriter(es + BlockEntries(b), ref)
    requires UniqueIds(es + BlockEntries(b)) && i <= |b.txs|
    ensures Get(Cancelled(refs, b.txs[..i]), ref) ==
      if ref != NoRef && exists t | 0 <= t < i :: LastWriteAt(b, t, ref) then None else Get(refs, ref)
  {
    if i > 0 {
      var tx := b.txs[i - 1];
      assert b.txs[..i][..i - 1] == b.txs[..i - 1];
      CancelledAt(refs, es, b, i - 1, ref);
      OwnsRecord(refs, es, b, i - 1, ref);
    }
  }

  ghost predicate LastWriteAt(b: Block, t: nat, ref: RefId)
  {
    t < |b.txs| && Writes(b.txs[t], ref) && forall u | t < u < |b.txs| :: !Writes(b.txs[u], ref)
  }

  lemma {:induction false} LastWrite(b: Block, i: nat, ref: RefId) returns (t: nat)
    requires i <= |b.txs|
    requires exists t | 0 <= t < i :: Writes(b.txs[t], ref)
    requires forall u | i <= u < |b.txs| :: !Writes(b.txs[u], ref)
    ensures LastWriteAt(b, t, ref)
  {
    if Writes(b.txs[i - 1], ref) {
      t := i - 1;
    } else {
      t := LastWrite(b, i - 1, ref);
    }
  }

  /** A transaction owns the record of its row exactly when it wrote it last. */
  lemma {:induction false} OwnsRecord(refs: map<RefId, TxId>, es: seq<Entry>, b: Block, t: nat, ref: RefId)
    requires ref == NoRef || Get(refs, ref) == LastWriter(es + BlockEntries(b), ref)
    requires UniqueIds(es + BlockEntries(b)) && t < |b.txs|
    ensures ref != NoRef && Writes(b.txs[t], ref) ==> (Get(refs, ref) == Some(b.txs[t].id) <==> LastWriteAt(b, t, ref))
  {
    if ref != NoRef && Writes(b.txs[t], ref) {
      var all := es + BlockEntries(b);
      var q := LastWriterAt(all, ref);
      assert Get(refs, ref) == LastWriter(all, ref);
      assert all[|es| + t] == BlockEntries(b)[t];
      assert forall u | 0 <= u < |b.txs| :: all[|es| + u].tx == b.txs[u];
      assert q >= |es| + t;
      assert q > |es| + t ==> Writes(b.txs[q - |es|], ref) && all[q].tx.id != all[|es| + t].tx.id;
    }
  }

  /** A block that updates a row inserted before it, its base checked: cancelling
      loses the insert. */
  lemma {:induction false} CancelLosesWriter() returns (refs: map<RefId, TxId>, es: seq<Entry>, b: Block)
    ensures |b.txs| == 2 && b.txs[0].IsCoinbase() && BlockBasesOk(es, b)
    ensures RefsOk(refs, es + BlockEntries(b)) && UniqueIds(es + BlockEntries(b)) && !RefsOk(Cancelled(refs, b.txs), es)
  {
    var row := RowRef("t", "k");
    var ins := Tx(1, 7, [], [], Sql(row, InsertRow("t", "k", map[]), Some(DeleteRow("t", "k"))), NoTx);
    var upd := Tx(2, 7, [], [], Sql(row, UpdateRow("t", "k", map[]), Some(UpdateRow("t", "k", map[]))), 1);
    var reward := Tx(3, NoKey, [OutPoint(NoTx, -1)], [TxOut(10, 7)], NoSql, NoTx);
    es, b, refs := [Entry(ins, 1)], Block(2, 1, 1, [reward, upd]), map[row := 2];
    var all := es + BlockEntries(b);
    assert all == [Entry(ins, 1), Entry(reward, 2), Entry(upd, 2)] && es[..0] == [];
    assert all[..2] == [Entry(ins, 1), Entry(reward, 2)] && all[..2][..1] == es;
    forall ref ensures Get(refs, ref) == if ref == NoRef then None else LastWriter(all, ref) {
      assert LastWriter(es, ref) == if ref == row then Some(1) else None;
      assert LastWriter(all[..2], ref) == LastWriter(es, ref);
    }
    assert Writes(b.txs[1], row) && WritesRow(b, row);
    assert LastWriter(es, row) == Some(1);
    OneBaseOk(es, b, reward, upd, row);
    CancelRestoresIff(refs, es, b);
  }

  lemma {:induction false} OneBaseOk(es: seq<Entry>, b: Block, reward: Tx, upd: Tx, row: RefId)
    requires b.txs == [reward, upd] && reward.sql == NoSql && row != NoRef
    requires upd.sql != NoSql && upd.sql.ref == row && upd.sql.query.UpdateRow? && LastWriter(es, row) == Some(upd.base)
    ensures BlockBasesOk(es, b)
  {
    assert b.txs[..1] == [reward] && b.txs[..0] == [];
    LastWriterIff(es, row);
    assert forall q | 0 <= q < 1 :: RefOf([reward][q]) != row;
    assert BaseOk(es, b.txs[..1], upd) && BaseOk(es, b.txs[..0], reward);
  }
}
