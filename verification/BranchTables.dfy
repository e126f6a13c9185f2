/** What whole branches do to the pool and to the last writers of rows when they leave
    and join the main chain. */
module BranchTables {
  import opened Types
  import opened Slices
  import opened BlockTree
  import opened Ledger
  import opened TransactionLookup
  import opened UnspentOutputs
  import opened SqlHistory
  import opened Pool
  import opened CascadeOrder
  import opened CascadeFate
  import opened BlockExecution
  import opened UndoRows
  import opened RowReferences

  // ----- pool and rows when blocks join

  /** The blocks joined one after the other. */
  ghost predicate JoinedAll(pool0: Txs, rows0: Rows, chain: seq<Block>, pool: Txs, rows: Rows)
    decreases |chain|, 1
  {
    if chain == [] then pool == pool0 && rows == rows0
    else exists mid, between :: JoinedLast(pool0, rows0, chain, mid, between, pool, rows)
  }

  ghost predicate JoinedLast(pool0: Txs, rows0: Rows, chain: seq<Block>, mid: Txs, between: Rows, pool: Txs, rows: Rows)
    requires chain != []
    decreases |chain|, 0
  {
    && JoinedAll(pool0, rows0, chain[..|chain| - 1], mid, between)
    && JoinedBlock(mid, between, chain[|chain| - 1].txs, pool, rows)
  }

  lemma {:induction false} JoinedNext(pool0: Txs, rows0: Rows, chain: seq<Block>, i: nat, mid: Txs, between: Rows,
      pool: Txs, rows: Rows)
    requires i < |chain| && JoinedAll(pool0, rows0, chain[..i], mid, between)
    requires JoinedBlock(mid, between, chain[i].txs, pool, rows)
    ensures JoinedAll(pool0, rows0, chain[..i + 1], pool, rows)
  {
    assert chain[..i + 1][..i] == chain[..i];
    assert JoinedLast(pool0, rows0, chain[..i + 1], mid, between, pool, rows);
  }

  /** The set holds every pending transaction in conflict with a command of the blocks,
      and with a transaction all that are based on it. */
  ghost predicate ClosedForAll(pool: Txs, chain: seq<Block>, s: set<TxId>)
  {
    Downward(pool, s) && forall b, id | b in chain && Direct(pool, b.txs, id) :: id in s
  }

  ghost predicate HeldIn(chain: seq<Block>, id: TxId)
  {
    exists b | b in chain :: Holds(b.txs, id)
  }

  /** What becomes of the pool. A pending transaction stays unless it is in one of the
      blocks, or lies in every closed set: conflicts with one of them or is based on one
      that has to go. The transactions of the blocks are pending no more. */
  ghost predicate PoolAfter(was: Txs, chain: seq<Block>, now: Txs)
  {
    && Sub(now, was) && (forall id | id in now :: !HeldIn(chain, id))
    && forall s, id | ClosedForAll(was, chain, s) && id in Gone(was, now) :: id in s || HeldIn(chain, id)
  }

  lemma {:induction false} JoinedOne(pool0: Txs, rows0: Rows, txs: seq<Tx>, pool: Txs, rows: Rows)
    requires JoinedBlock(pool0, rows0, txs, pool, rows)
    ensures Sub(pool, pool0) && forall id | id in pool :: !Holds(txs, id)
    ensures forall s, id | ClosedSet(pool0, txs, s) && id in Gone(pool0, pool) :: id in s || Holds(txs, id)
  {
    var mid, ok :| BlockExecuted(pool0, rows0, txs, mid, rows, ok) && pool == mid - Ids(txs);
    var done, order, between :| ExecutedAfter(done, order, between, pool0, rows0, txs, mid, rows, ok);
    forall id ensures id in Ids(txs) <==> Holds(txs, id) {
      IdsAreHeld(txs, id);
    }
    forall s, id | ClosedSet(pool0, txs, s) && id in Gone(pool0, pool) ensures id in s || Holds(txs, id) {
      FoundInClosed(pool0, txs, order, s);
      assert id in Gone(pool0, mid) ==> id in order;
    }
  }

  lemma {:induction false} FewerClosed(was: Txs, now: Txs, txs: seq<Tx>, s: set<TxId>)
    requires Sub(now, was) && ClosedSet(was, txs, s)
    ensures ClosedSet(now, txs, s)
  {
    forall id | id in s ensures BasedOn(now, id) <= s {
      assert BasedOn(now, id) <= BasedOn(was, id);
    }
    forall id | Direct(now, txs, id) ensures id in s {
      var t: nat :| Hits(now, txs, t, id);
      assert Hits(was, txs, t, id);
    }
  }

  lemma {:induction false} JoinedPool(pool0: Txs, rows0: Rows, chain: seq<Block>, pool: Txs, rows: Rows)
    requires JoinedAll(pool0, rows0, chain, pool, rows)
    ensures PoolAfter(pool0, chain, pool)
    decreases |chain|
  {
    if chain != [] {
      var mid, between :| JoinedLast(pool0, rows0, chain, mid, between, pool, rows);
      JoinedPool(pool0, rows0, chain[..|chain| - 1], mid, between);
      JoinedOne(mid, between, chain[|chain| - 1].txs, pool, rows);
      PoolAfterNext(pool0, mid, chain, chain[|chain| - 1].txs, pool);
    }
  }

  lemma {:induction false} PoolAfterNext(pool0: Txs, mid: Txs, chain: seq<Block>, txs: seq<Tx>, pool: Txs)
    requires chain != [] && PoolAfter(pool0, chain[..|chain| - 1], mid) && txs == chain[|chain| - 1].txs
    requires Sub(pool, mid) && forall id | id in pool :: !Holds(txs, id)
    requires forall s, id | ClosedSet(mid, txs, s) && id in Gone(mid, pool) :: id in s || Holds(txs, id)
    ensures PoolAfter(pool0, chain, pool)
  {
    InitAndLast(chain);
    assert forall id :: HeldIn(chain, id) <==> HeldIn(chain[..|chain| - 1], id) || Holds(txs, id);
    forall s, id | ClosedForAll(pool0, chain, s) && id in Gone(pool0, pool) ensures id in s || HeldIn(chain, id) {
      ClosedForLast(pool0, mid, chain, s);
      assert id in Gone(pool0, mid) || id in Gone(mid, pool);
    }
  }

  lemma {:induction false} ClosedForLast(pool0: Txs, mid: Txs, chain: seq<Block>, s: set<TxId>)
    requires chain != [] && Sub(mid, pool0) && ClosedForAll(pool0, chain, s)
    ensures ClosedForAll(pool0, chain[..|chain| - 1], s) && ClosedSet(mid, chain[|chain| - 1].txs, s)
  {
    InitAndLast(chain);
    FewerClosed(pool0, mid, chain[|chain| - 1].txs, s);
  }

  // ----- last writers

  /** The index after blocks were entered one after the other. */
  function WrittenAll(refs: map<RefId, TxId>, chain: seq<Block>): map<RefId, TxId>
  {
    if chain == [] then refs else Written(WrittenAll(refs, chain[..|chain| - 1]), chain[|chain| - 1].txs)
  }

  /** The index after blocks were cancelled one after the other. */
  function CancelledAll(refs: map<RefId, TxId>, chain: seq<Block>): map<RefId, TxId>
    decreases |chain|
  {
    if chain == [] then refs else CancelledAll(Cancelled(refs, chain[0].txs), chain[1..])
  }

  lemma {:induction false} CancelledSnoc(refs: map<RefId, TxId>, chain: seq<Block>, i: nat)
    requires i < |chain|
    ensures CancelledAll(refs, chain[..i + 1]) == Cancelled(CancelledAll(refs, chain[..i]), chain[i].txs)
    decreases i
  {
    if i > 0 {
      CancelledSnoc(Cancelled(refs, chain[0].txs), chain[1..], i - 1);
      assert chain[..i + 1][1..] == chain[1..][..i] && chain[..i][1..] == chain[1..][..i - 1];
    } else {
      assert chain[..1][1..] == [];
    }
  }

  /** Pool, rows and index after the first blocks of a chain have joined. */
  ghost predicate JoinedTo(pool0: Txs, rows0: Rows, refs0: map<RefId, TxId>, chain: seq<Block>, i: nat, pool: Txs,
      rows: Rows, refs: map<RefId, TxId>)
  {
    && i <= |chain| && JoinedAll(pool0, rows0, chain[..i], pool, rows)
    && refs == WrittenAll(refs0, chain[..i]) && Sub(pool, pool0)
  }

  lemma {:induction false} JoinedToNext(pool0: Txs, rows0: Rows, refs0: map<RefId, TxId>, chain: seq<Block>, i: nat,
      was: Txs, between: Rows, refs: map<RefId, TxId>, pool: Txs, rows: Rows)
    requires i < |chain| && JoinedTo(pool0, rows0, refs0, chain, i, was, between, refs)
    requires JoinedBlock(was, between, chain[i].txs, pool, rows)
    ensures JoinedTo(pool0, rows0, refs0, chain, i + 1, pool, rows, Written(refs, chain[i].txs))
  {
    JoinedSub(was, between, chain[i].txs, pool, rows);
    JoinedNext(pool0, rows0, chain, i, was, between, pool, rows);
    assert chain[..i + 1][..i] == chain[..i];
  }

  lemma {:induction false} JoinedToEnd(pool0: Txs, rows0: Rows, refs0: map<RefId, TxId>, chain: seq<Block>, pool: Txs,
      rows: Rows, refs: map<RefId, TxId>)
    requires JoinedTo(pool0, rows0, refs0, chain, |chain|, pool, rows, refs)
    ensures JoinedAll(pool0, rows0, chain, pool, rows) && PoolAfter(pool0, chain, pool)
    ensures refs == WrittenAll(refs0, chain)
  {
    assert chain[..|chain|] == chain;
    JoinedPool(pool0, rows0, chain, pool, rows);
  }

  /** Rows and index after the first blocks of a chain were taken back. */
  ghost predicate LeftTo(rows0: Rows, refs0: map<RefId, TxId>, chain: seq<Block>, i: nat, rows: Rows,
      refs: map<RefId, TxId>)
  {
    i <= |chain| && UndoFirst(rows0, chain, i) == Some(rows) && refs == CancelledAll(refs0, chain[..i])
  }

  /** The first `i` blocks of the chain are taken back, and an undo of the next one has
      failed. */
  ghost predicate HalfLeft(rows0: Rows, refs0: map<RefId, TxId>, chain: seq<Block>, i: int, rows: Rows,
      refs: map<RefId, TxId>)
  {
    && 0 <= i < |chain| && refs == CancelledAll(refs0, chain[..i])
    && UndoFirst(rows0, chain, i) != None && StoppedAt(UndoFirst(rows0, chain, i).value, chain[i].txs, rows)
  }

  lemma {:induction false} LeftToNext(rows0: Rows, refs0: map<RefId, TxId>, chain: seq<Block>, i: nat, was: Rows,
      refs: map<RefId, TxId>)
    requires i < |chain| && LeftTo(rows0, refs0, chain, i, was, refs)
    ensures UndoTxs(was, chain[i].txs) != None ==>
      LeftTo(rows0, refs0, chain, i + 1, UndoTxs(was, chain[i].txs).value, Cancelled(refs, chain[i].txs))
    ensures UndoTxs(was, chain[i].txs) == None ==> UndoBlocks(rows0, chain) == None
  {
    CancelledSnoc(refs0, chain, i);
    if UndoTxs(was, chain[i].txs) == None {
      UndoEnds(rows0, chain, i + 1);
    }
  }

  lemma {:induction false} LeftToHalf(rows0: Rows, refs0: map<RefId, TxId>, chain: seq<Block>, i: nat, was: Rows,
      refs: map<RefId, TxId>, rows: Rows)
    requires i < |chain| && LeftTo(rows0, refs0, chain, i, was, refs) && StoppedAt(was, chain[i].txs, rows)
    ensures HalfLeft(rows0, refs0, chain, i, rows, refs)
  {
  }

  lemma {:induction false} LeftToEnd(rows0: Rows, refs0: map<RefId, TxId>, chain: seq<Block>, rows: Rows,
      refs: map<RefId, TxId>)
    requires LeftTo(rows0, refs0, chain, |chain|, rows, refs)
    ensures UndoBlocks(rows0, chain) == Some(rows) && refs == CancelledAll(refs0, chain)
  {
    UndoEnds(rows0, chain, |chain|);
    assert chain[..|chain|] == chain;
  }

  ghost predicate WritesIn(chain: seq<Block>, ref: RefId)
  {
    exists b | b in chain :: WritesRow(b, ref)
  }

  lemma {:induction false} InitOfConcat<T>(a: seq<T>, b: seq<T>)
    requires b != []
    ensures (a + b)[..|a + b| - 1] == a + b[..|b| - 1] && (a + b)[|a + b| - 1] == b[|b| - 1]
  {
  }

  lemma {:induction false} LastWriterConcat(a: seq<Entry>, b: seq<Entry>, ref: RefId)
    ensures LastWriter(a + b, ref) == OrElse(LastWriter(b, ref), LastWriter(a, ref))
  {
    if b == [] {
      assert a + b == a;
    } else {
      InitOfConcat(a, b);
      LastWriterConcat(a, b[..|b| - 1], ref);
    }
  }

  lemma {:induction false} WrittenRecord(refs: map<RefId, TxId>, b: Block, i: nat, ref: RefId)
    requires ref != NoRef && i <= |b.txs|
    ensures Get(Written(refs, b.txs[..i]), ref) == OrElse(LastWriter(Upto([], b, i), ref), Get(refs, ref))
  {
    if i == 0 {
      UptoEnds([], b);
    } else {
      WrittenRecord(refs, b, i - 1, ref);
      WriterNext([], b, i - 1, ref);
      assert b.txs[..i][..i - 1] == b.txs[..i - 1];
    }
  }

  lemma {:induction false} BlockWriter(b: Block, i: nat, ref: RefId)
    requires i <= |b.txs|
    ensures LastWriter(Upto([], b, i), ref) != None <==> exists t | 0 <= t < i :: Writes(b.txs[t], ref)
  {
    if i == 0 {
      UptoEnds([], b);
    } else {
      BlockWriter(b, i - 1, ref);
      WriterNext([], b, i - 1, ref);
    }
  }

  lemma {:induction false} OneBlock(refs: map<RefId, TxId>, b: Block, ref: RefId)
    requires ref != NoRef
    ensures Get(Written(refs, b.txs), ref) == OrElse(LastWriter(BlockEntries(b), ref), Get(refs, ref))
    ensures LastWriter(BlockEntries(b), ref) != None <==> WritesRow(b, ref)
  {
    WrittenRecord(refs, b, |b.txs|, ref);
    BlockWriter(b, |b.txs|, ref);
    WholeBlock(b);
  }

  lemma {:induction false} WholeBlock(b: Block)
    ensures Upto([], b, |b.txs|) == BlockEntries(b) && b.txs[..|b.txs|] == b.txs
  {
  }

  /** A row that the blocks write has their last writer as record, any other row keeps
      its record. */
  lemma {:induction false} WrittenByChain(refs: map<RefId, TxId>, chain: seq<Block>, ref: RefId)
    requires ref != NoRef
    ensures Get(WrittenAll(refs, chain), ref) == OrElse(LastWriter(PathEntries(chain), ref), Get(refs, ref))
    ensures LastWriter(PathEntries(chain), ref) != None <==> WritesIn(chain, ref)
  {
    if chain != [] {
      var init, last := chain[..|chain| - 1], chain[|chain| - 1];
      WrittenByChain(refs, init, ref);
      OneBlock(WrittenAll(refs, init), last, ref);
      WriterOfLast(chain, ref);
      WritesInLast(chain, ref);
    }
  }

  lemma {:induction false} WriterOfLast(chain: seq<Block>, ref: RefId)
    requires chain != []
    ensures LastWriter(PathEntries(chain), ref) ==
      OrElse(LastWriter(BlockEntries(chain[|chain| - 1]), ref), LastWriter(PathEntries(chain[..|chain| - 1]), ref))
  {
    LastWriterConcat(PathEntries(chain[..|chain| - 1]), BlockEntries(chain[|chain| - 1]), ref);
  }

  lemma {:induction false} WritesInLast(chain: seq<Block>, ref: RefId)
    requires chain != []
    ensures WritesIn(chain, ref) <==> WritesIn(chain[..|chain| - 1], ref) || WritesRow(chain[|chain| - 1], ref)
    ensures WritesIn(chain, ref) <==> WritesRow(chain[0], ref) || WritesIn(chain[1..], ref)
  {
    InitAndLast(chain);
    assert chain == [chain[0]] + chain[1..];
  }

  lemma {:induction false} CancelledByChain(refs: map<RefId, TxId>, chain: seq<Block>, ref: RefId)
    ensures Get(CancelledAll(refs, chain), ref) == Get(refs, ref) || Get(CancelledAll(refs, chain), ref) == None
    ensures !WritesIn(chain, ref) ==> Get(CancelledAll(refs, chain), ref) == Get(refs, ref)
    decreases |chain|
  {
    if chain != [] {
      CancelledOrKept(refs, chain[0].txs, ref);
      CancelledByChain(Cancelled(refs, chain[0].txs), chain[1..], ref);
      WritesInLast(chain, ref);
    }
  }

  /** A record that is right goes exactly when a block that is left writes its row. */
  lemma {:induction false} LeavingCancels(blocks: Blocks, h: Hash, top: Hash, refs: map<RefId, TxId>, ref: RefId)
    requires TreeOk(blocks) && h in blocks && top in blocks && UniqueIds(EntriesUnder(blocks, h))
    requires ref != NoRef && Get(refs, ref) == LastWriter(EntriesUnder(blocks, h), ref)
    ensures Get(CancelledAll(refs, Leaving(blocks, h, top)), ref) ==
      if WritesIn(Leaving(blocks, h, top), ref) then None else Get(refs, ref)
    decreases blocks[h].height
  {
    assert LinkOk(blocks, h);
    if !OnPath(blocks, h, top) && blocks[h].prev != NoHash {
      var b, rest, es := blocks[h], Leaving(blocks, blocks[h].prev, top), EntriesBelow(blocks, h);
      assert Leaving(blocks, h, top)[1..] == rest;
      WritesInLast(Leaving(blocks, h, top), ref);
      CancelledRecord(refs, es, b, ref);
      if WritesRow(b, ref) {
        CancelledByChain(Cancelled(refs, b.txs), rest, ref);
      } else {
        assert UniqueIds(es) by {
          assert forall i | 0 <= i < |es| :: es[i] == EntriesUnder(blocks, h)[i];
        }
        LeavingCancels(blocks, b.prev, top, Cancelled(refs, b.txs), ref);
      }
    }
  }

  lemma {:induction false} PathEntriesConcat(p: seq<Block>, q: seq<Block>)
    ensures PathEntries(p + q) == PathEntries(p) + PathEntries(q)
  {
    if q == [] {
      assert p + q == p;
    } else {
      var init, last := q[..|q| - 1], BlockEntries(q[|q| - 1]);
      InitOfConcat(p, q);
      PathEntriesConcat(p, init);
      assert PathEntries(p) + PathEntries(init) + last == PathEntries(p) + (PathEntries(init) + last);
    }
  }

  /** The blocks that are on a branch only, from the lowest up. */
  ghost function Joining(blocks: Blocks, top: Hash, other: Hash): seq<Block>
    requires TreeOk(blocks) && top in blocks && other in blocks
  {
    Reverse(Leaving(blocks, top, other))
  }

  /** The last writers on the branch are those of the blocks that are on it only, or
      else those on what it shares with the other. */
  lemma {:induction false} LastWriterSplits(blocks: Blocks, top: Hash, other: Hash, ref: RefId)
    returns (common: Hash)
    requires TreeOk(blocks) && top in blocks && other in blocks && ref != NoRef
    ensures OnPath(blocks, common, top) && OnPath(blocks, common, other)
    ensures forall x | OnPath(blocks, x, top) && OnPath(blocks, x, other) :: blocks[x].height <= blocks[common].height
    ensures LastWriter(EntriesUnder(blocks, top), ref) ==
      OrElse(LastWriter(PathEntries(Joining(blocks, top, other)), ref), LastWriter(EntriesUnder(blocks, common), ref))
    decreases blocks[top].height
  {
    common := PathSplits(blocks, top, other);
    PathEntriesConcat(Path(blocks, common), Joining(blocks, top, other));
    LastWriterConcat(EntriesUnder(blocks, common), PathEntries(Joining(blocks, top, other)), ref);
  }

  lemma {:induction false} PathSplits(blocks: Blocks, top: Hash, other: Hash) returns (common: Hash)
    requires TreeOk(blocks) && top in blocks && other in blocks
    ensures OnPath(blocks, common, top) && OnPath(blocks, common, other)
    ensures Path(blocks, top) == Path(blocks, common) + Joining(blocks, top, other)
    ensures forall x | OnPath(blocks, x, top) && OnPath(blocks, x, other) :: blocks[x].height <= blocks[common].height
    decreases blocks[top].height
  {
    assert LinkOk(blocks, top) && OnPath(blocks, top, top);
    if blocks[top].prev == NoHash {
      SameRoot(blocks, top, other);
    }
    if OnPath(blocks, top, other) {
      common := top;
    } else {
      common := PathSplits(blocks, blocks[top].prev, other);
      ReverseCons(Leaving(blocks, blocks[top].prev, other), blocks[top]);
      OnPathStep(blocks, common, top);
      forall x | OnPath(blocks, x, top) && OnPath(blocks, x, other) ensures blocks[x].height <= blocks[common].height {
        OnPathStep(blocks, x, top);
      }
    }
  }

  lemma {:induction false} NoEmptyRecord(refs: map<RefId, TxId>, txs: seq<Tx>)
    ensures Get(Written(refs, txs), NoRef) == Get(refs, NoRef) == Get(Cancelled(refs, txs), NoRef)
  {
    if txs != [] {
      NoEmptyRecord(refs, txs[..|txs| - 1]);
    }
  }

  lemma {:induction false} NoEmptyRecords(refs: map<RefId, TxId>, chain: seq<Block>)
    ensures Get(WrittenAll(refs, chain), NoRef) == Get(refs, NoRef) == Get(CancelledAll(refs, chain), NoRef)
    decreases |chain|
  {
    if chain != [] {
      NoEmptyRecord(WrittenAll(refs, chain[..|chain| - 1]), chain[|chain| - 1].txs);
      NoEmptyRecords(refs, chain[..|chain| - 1]);
      NoEmptyRecord(refs, chain[0].txs);
      NoEmptyRecords(Cancelled(refs, chain[0].txs), chain[1..]);
    }
  }

  lemma {:induction false} InReverse(chain: seq<Block>, b: Block)
    ensures b in Reverse(chain) <==> b in chain
  {
    if b in chain {
      var i :| 0 <= i < |chain| && chain[i] == b;
      assert Reverse(chain)[|chain| - 1 - i] == b;
    }
  }

  lemma {:induction false} WritesInReverse(chain: seq<Block>, ref: RefId)
    ensures WritesIn(Reverse(chain), ref) <==> WritesIn(chain, ref)
  {
    forall b ensures b in Reverse(chain) <==> b in chain {
      InReverse(chain, b);
    }
  }

  /** A row that no block of either branch writes has the same last writer on both. */
  lemma {:induction false} SameWriter(blocks: Blocks, a: Hash, b: Hash, ref: RefId)
    requires TreeOk(blocks) && a in blocks && b in blocks && ref != NoRef
    requires !WritesIn(Leaving(blocks, a, b), ref) && !WritesIn(Leaving(blocks, b, a), ref)
    ensures LastWriter(EntriesUnder(blocks, a), ref) == LastWriter(EntriesUnder(blocks, b), ref)
  {
    var c := LastWriterSplits(blocks, a, b, ref);
    var d := LastWriterSplits(blocks, b, a, ref);
    WritesInReverse(Leaving(blocks, a, b), ref);
    WritesInReverse(Leaving(blocks, b, a), ref);
    WrittenByChain(map[], Joining(blocks, a, b), ref);
    WrittenByChain(map[], Joining(blocks, b, a), ref);
    assert LinkOk(blocks, c) && LinkOk(blocks, d);
  }

  lemma {:induction false} OneBlockJoined(pool0: Txs, rows0: Rows, b: Block, pool: Txs, rows: Rows)
    requires JoinedBlock(pool0, rows0, b.txs, pool, rows)
    ensures PoolAfter(pool0, [b], pool)
  {
    assert [b][..0] == [] && JoinedAll(pool0, rows0, [b][..0], pool0, rows0);
    JoinedNext(pool0, rows0, [b], 0, pool0, rows0, pool, rows);
    assert [b][..1] == [b];
    JoinedPool(pool0, rows0, [b], pool, rows);
  }
}
