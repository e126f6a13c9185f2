/** What a miner puts into a block: pending transactions, without those whose
    inputs were used by an earlier one of the list. */
module MinerChoice {
  import opened Types
  import opened Ledger
  import opened Database
  import opened TransactionLookup
  import opened SqlHistory
  import opened Verifier
  import opened Safety
  import opened Pool
  import opened CascadeOrder
  import opened Cascade
  import RowReferences

  /** All inputs of a list of transactions. */
  function InputsOf(txs: seq<Tx>): set<OutPoint>
  {
    set tx, p | tx in txs && p in tx.vin :: p
  }

  ghost predicate DistinctIn(vin: seq<OutPoint>)
  {
    forall j, k | 0 <= j < k < |vin| :: vin[j] != vin[k]
  }

  /** No input is named twice, within a transaction or across them. */
  ghost predicate NoInputTwice(txs: seq<Tx>)
  {
    && (forall t | 0 <= t < |txs| :: DistinctIn(txs[t].vin))
    && (forall t, u | 0 <= t < u < |txs| :: Names(txs[t].vin) !! Names(txs[u].vin))
  }

  /** The inner loop: records inputs until one was used before. */
  method UseInputs(used: set<OutPoint>, tx: Tx) returns (conflict: bool, now: set<OutPoint>)
    ensures !conflict ==> now == used + Names(tx.vin) && Names(tx.vin) !! used && DistinctIn(tx.vin)
    ensures conflict ==> used <= now <= used + Names(tx.vin)
    ensures conflict <==> !(Names(tx.vin) !! used && DistinctIn(tx.vin))
  {
    now := used;
    for i := 0 to |tx.vin|
      invariant now == used + Names(tx.vin[..i])
      invariant Names(tx.vin[..i]) !! used && DistinctIn(tx.vin[..i])
    {
      var p := tx.vin[i];
      PrefixNames(tx.vin, i);
      if p in now {
        return true, now;
      }
      now := now + {p};
    }
    assert tx.vin[..|tx.vin|] == tx.vin;
    return false, now;
  }

  lemma {:induction false} PrefixNames(vin: seq<OutPoint>, i: nat)
    requires i < |vin|
    ensures Names(vin[..i + 1]) == Names(vin[..i]) + {vin[i]} && Names(vin[..i + 1]) <= Names(vin)
    ensures vin[i] in Names(vin[..i]) ==> !DistinctIn(vin)
    ensures vin[i] !in Names(vin[..i]) && DistinctIn(vin[..i]) ==> DistinctIn(vin[..i + 1])
  {
    assert vin[..i + 1] == vin[..i] + [vin[i]];
    if vin[i] in Names(vin[..i]) {
      var j :| 0 <= j < i && vin[..i][j] == vin[i];
      assert vin[j] == vin[i];
    }
  }

  ghost predicate Unshared(txs: seq<Tx>, t: nat)
    requires t < |txs|
  {
    DistinctIn(txs[t].vin) && Names(txs[t].vin) !! InputsOf(txs[..t])
  }

  /** `part` is made of the elements of `txs` at increasing positions. */
  ghost predicate PickedFrom(txs: seq<Tx>, part: seq<Tx>, picks: seq<nat>)
  {
    && |picks| == |part|
    && (forall i | 0 <= i < |picks| :: picks[i] < |txs| && txs[picks[i]] == part[i])
    && (forall i, j | 0 <= i < j < |picks| :: picks[i] < picks[j])
  }

  ghost predicate PickedBelow(txs: seq<Tx>, part: seq<Tx>, picks: seq<nat>, n: nat)
  {
    PickedFrom(txs, part, picks) && forall i | 0 <= i < |picks| :: picks[i] < n
  }

  lemma {:induction false} PickNext(txs: seq<Tx>, part: seq<Tx>, picks: seq<nat>, i: nat)
    requires i < |txs| && PickedBelow(txs, part, picks, i)
    ensures PickedBelow(txs, part + [txs[i]], picks + [i], i + 1)
  {
  }

  /** Whatever shares no input with an earlier transaction is picked. */
  ghost predicate PicksUnshared(txs: seq<Tx>, picks: seq<nat>, n: nat)
    requires n <= |txs|
  {
    forall t: nat {:trigger Unshared(txs, t)} | t < n && Unshared(txs, t) :: t in picks
  }

  lemma {:induction false} PickMore(txs: seq<Tx>, picks: seq<nat>, i: nat)
    requires i < |txs| && PicksUnshared(txs, picks, i)
    ensures PicksUnshared(txs, picks + [i], i + 1)
    ensures !Unshared(txs, i) ==> PicksUnshared(txs, picks, i + 1)
  {
  }

  /** detectConflictsForCurrentcy. The kept transactions are in their order, name no
      input twice, and a transaction that shares no input with an earlier one is kept. */
  method DetectConflicts(txs: seq<Tx>) returns (good: seq<Tx>, conflicts: seq<Tx>, ghost picks: seq<nat>)
    ensures SplitUp(txs, good, conflicts)
    ensures PickedFrom(txs, good, picks) && NoInputTwice(good)
    ensures AllUnshared(txs, |txs|) ==> good == txs && conflicts == []
    ensures PicksUnshared(txs, picks, |txs|)
  {
    good, conflicts, picks := [], [], [];
    var usedoutputs := {};
    for i := 0 to |txs|
      invariant Sifted(txs, i, good, conflicts, usedoutputs)
      invariant PickedBelow(txs, good, picks, i) && PicksUnshared(txs, picks, i)
    {
      var tx := txs[i];
      ghost var before := usedoutputs;
      var used;
      used, usedoutputs := UseInputs(usedoutputs, tx);
      PickMore(txs, picks, i);
      if used {
        SiftedOut(txs, i, good, conflicts, before, usedoutputs);
        conflicts := conflicts + [tx];
      } else {
        SiftedIn(txs, i, good, conflicts, before);
        PickNext(txs, good, picks, i);
        good, picks := good + [tx], picks + [i];
      }
    }
    assert txs[..|txs|] == txs;
  }

  /** The state of the loop after `i` transactions. */
  ghost predicate Sifted(txs: seq<Tx>, i: nat, good: seq<Tx>, conflicts: seq<Tx>, used: set<OutPoint>)
    requires i <= |txs|
  {
    && SplitUp(txs[..i], good, conflicts)
    && NoInputTwice(good) && InputsOf(good) <= used <= InputsOf(txs[..i])
    && (AllUnshared(txs, i) ==> good == txs[..i] && conflicts == [])
  }

  lemma {:induction false} SiftedOut(txs: seq<Tx>, i: nat, good: seq<Tx>, conflicts: seq<Tx>, used: set<OutPoint>,
      now: set<OutPoint>)
    requires i < |txs| && Sifted(txs, i, good, conflicts, used) && used <= now <= used + Names(txs[i].vin)
    requires !(Names(txs[i].vin) !! used && DistinctIn(txs[i].vin))
    ensures Sifted(txs, i + 1, good, conflicts + [txs[i]], now) && !Unshared(txs, i)
  {
    assert txs[..i + 1] == txs[..i] + [txs[i]];
    SplitGrows(txs, i, good, conflicts);
    OneMoreInputs(txs[..i], txs[i]);
    assert !Unshared(txs, i);
  }

  lemma {:induction false} SiftedIn(txs: seq<Tx>, i: nat, good: seq<Tx>, conflicts: seq<Tx>, used: set<OutPoint>)
    requires i < |txs| && Sifted(txs, i, good, conflicts, used)
    requires Names(txs[i].vin) !! used && DistinctIn(txs[i].vin)
    ensures Sifted(txs, i + 1, good + [txs[i]], conflicts, used + Names(txs[i].vin))
  {
    assert txs[..i + 1] == txs[..i] + [txs[i]];
    SplitGrows(txs, i, good, conflicts);
    OneMoreInputs(txs[..i], txs[i]);
    OneMoreInputs(good, txs[i]);
    OneMoreGood(good, txs[i], used);
    assert AllUnshared(txs, i + 1) ==> AllUnshared(txs, i);
  }

  ghost predicate AllUnshared(txs: seq<Tx>, i: nat)
    requires i <= |txs|
  {
    forall t {:trigger Unshared(txs, t)} | 0 <= t < i :: Unshared(txs, t)
  }

  /** Nothing is weeded out exactly when no input is named twice. */
  lemma {:induction false} UnsharedIsDistinct(txs: seq<Tx>)
    ensures AllUnshared(txs, |txs|) <==> NoInputTwice(txs)
  {
    if NoInputTwice(txs) {
      forall t | 0 <= t < |txs| ensures Unshared(txs, t) {
        NotSharedBefore(txs, t);
      }
    }
    if AllUnshared(txs, |txs|) {
      forall t | 0 <= t < |txs| ensures DistinctIn(txs[t].vin) {
        assert Unshared(txs, t);
      }
      forall t, u | 0 <= t < u < |txs| ensures Names(txs[t].vin) !! Names(txs[u].vin) {
        assert Unshared(txs, u) && txs[..u][t] == txs[t];
        assert Names(txs[t].vin) <= InputsOf(txs[..u]);
      }
    }
  }

  lemma {:induction false} NotSharedBefore(txs: seq<Tx>, t: nat)
    requires NoInputTwice(txs) && t < |txs|
    ensures Names(txs[t].vin) !! InputsOf(txs[..t])
  {
    forall p | p in InputsOf(txs[..t]) ensures p !in Names(txs[t].vin) {
      var u :| 0 <= u < t && p in txs[..t][u].vin;
      assert Names(txs[u].vin) !! Names(txs[t].vin) && p in Names(txs[u].vin);
    }
  }

  lemma {:induction false} OneMoreInputs(txs: seq<Tx>, tx: Tx)
    ensures InputsOf(txs + [tx]) == InputsOf(txs) + Names(tx.vin)
  {
    forall p | p in Names(tx.vin) ensures p in InputsOf(txs + [tx]) {
      assert tx in txs + [tx];
    }
  }

  lemma {:induction false} OneMoreGood(good: seq<Tx>, tx: Tx, used: set<OutPoint>)
    requires NoInputTwice(good) && InputsOf(good) <= used && Names(tx.vin) !! used && DistinctIn(tx.vin)
    ensures NoInputTwice(good + [tx])
  {
    var more := good + [tx];
    forall t, u | 0 <= t < u < |more| ensures Names(more[t].vin) !! Names(more[u].vin) {
      if u == |good| {
        assert good[t] in good;
        assert Names(good[t].vin) <= InputsOf(good);
      }
    }
  }

  /** So a block made of the kept transactions and a reward names no output twice:
      what verification leaves unchecked holds for the miner's own blocks. */
  lemma {:induction false} MinedIsDistinct(good: seq<Tx>, reward: Tx, b: Block)
    requires NoInputTwice(good) && reward.IsCoinbase() && b.txs == good + [reward]
    ensures DistinctInputs(b)
  {
  }

  // ----- a block of one's own passes verification

  /** Every transaction is in order after those before it. */
  ghost predicate VerifiedInOrder(es: seq<Entry>, txs: seq<Tx>, coins: int)
  {
    forall t | 0 <= t < |txs| :: TxOk(es, txs[..t], txs[t], coins)
  }

  ghost predicate BasedInOrder(es: seq<Entry>, txs: seq<Tx>)
  {
    forall t | 0 <= t < |txs| :: RowReferences.BaseOk(es, txs[..t], txs[t])
  }

  lemma {:induction false} OneMoreInOrder(es: seq<Entry>, txs: seq<Tx>, tx: Tx, coins: int)
    ensures VerifiedInOrder(es, txs, coins) && TxOk(es, txs, tx, coins) ==> VerifiedInOrder(es, txs + [tx], coins)
    ensures BasedInOrder(es, txs) && RowReferences.BaseOk(es, txs, tx) ==> BasedInOrder(es, txs + [tx])
  {
    assert (txs + [tx])[..|txs|] == txs;
    assert forall t | 0 <= t < |txs| :: (txs + [tx])[..t] == txs[..t];
  }

  // ----- what is cancelled in the pool

  /** Pool and rows after these transactions were cancelled one after the other, each
      unless it is not pending or its undo fails. */
  function Cancelling(pool: Txs, rows: Rows, txs: seq<Tx>): (Txs, Rows)
  {
    if txs == [] then (pool, rows)
    else
      var (p, r), id := Cancelling(pool, rows, txs[..|txs| - 1]), txs[|txs| - 1].id;
      if id in p && Undo(r, p[id].sql) != None then (p - {id}, Undo(r, p[id].sql).value) else (p, r)
  }

  /** Only these transactions go, and of them every one whose undo does not fail when its
      turn comes, so each one without a command. */
  lemma {:induction false} CancellingMeans(pool: Txs, rows: Rows, txs: seq<Tx>)
    ensures Sub(Cancelling(pool, rows, txs).0, pool)
    ensures forall id | id in Gone(pool, Cancelling(pool, rows, txs).0) :: exists i | 0 <= i < |txs| :: txs[i].id == id
    ensures forall i | 0 <= i < |txs| && txs[i].id in Cancelling(pool, rows, txs).0 ::
      Undo(Cancelling(pool, rows, txs[..i]).1, pool[txs[i].id].sql) == None && pool[txs[i].id].sql != NoSql
  {
    if txs != [] {
      var init := txs[..|txs| - 1];
      CancellingMeans(pool, rows, init);
      var was, now := Cancelling(pool, rows, init).0, Cancelling(pool, rows, txs).0;
      forall id | id in Gone(pool, now) ensures exists i | 0 <= i < |txs| :: txs[i].id == id {
        if id in Gone(pool, was) {
          var i :| 0 <= i < |init| && init[i].id == id;
          assert txs[i].id == id;
        }
      }
      forall i | 0 <= i < |txs| && txs[i].id in now
        ensures Undo(Cancelling(pool, rows, txs[..i]).1, pool[txs[i].id].sql) == None && pool[txs[i].id].sql != NoSql {
        if i < |init| {
          assert init[i] == txs[i] && init[..i] == txs[..i];
        }
      }
    }
  }

  lemma {:induction false} CancelOneMore(pool: Txs, rows: Rows, txs: seq<Tx>, tx: Tx)
    ensures Cancelling(pool, rows, txs + [tx]) ==
      var (p, r) := Cancelling(pool, rows, txs);
      if tx.id in p && Undo(r, p[tx.id].sql) != None then (p - {tx.id}, Undo(r, p[tx.id].sql).value) else (p, r)
  {
    assert (txs + [tx])[..|txs|] == txs;
  }

  // ----- which transactions are chosen

  /** A transaction may come next in a block on the top: its currency part is in
      order, and the base of its command fits. */
  ghost predicate Passes(refs: map<RefId, TxId>, es: seq<Entry>, before: seq<Tx>, tx: Tx, coins: int)
  {
    TxOk(es, before, tx, coins) && RowReferences.BaseFits(refs, before, tx)
  }

  /** Of the picked positions the first `n` lie before `t`. */
  ghost predicate SoMany(picks: seq<nat>, t: nat, n: nat)
  {
    n <= |picks| && forall i | 0 <= i < |picks| :: picks[i] < t <==> i < n
  }

  /** Of the first `m` positions exactly those are picked whose transaction passes
      after the picked ones before it. */
  ghost predicate RightlyPicked(refs: map<RefId, TxId>, es: seq<Entry>, txlist: seq<Tx>, m: nat, txs: seq<Tx>,
      picks: seq<nat>, coins: int)
  {
    && m <= |txlist| && PickedBelow(txlist, txs, picks, m)
    && forall t: nat, n: nat | t < m && SoMany(picks, t, n) ::
      t in picks <==> Passes(refs, es, txs[..n], txlist[t], coins)
  }

  lemma {:induction false} PickedNext(refs: map<RefId, TxId>, es: seq<Entry>, txlist: seq<Tx>, m: nat, txs: seq<Tx>,
      picks: seq<nat>, coins: int)
    requires m < |txlist| && RightlyPicked(refs, es, txlist, m, txs, picks, coins)
    ensures if Passes(refs, es, txs, txlist[m], coins)
      then RightlyPicked(refs, es, txlist, m + 1, txs + [txlist[m]], picks + [m], coins)
      else RightlyPicked(refs, es, txlist, m + 1, txs, picks, coins)
  {
    var more, moreTxs := picks + [m], txs + [txlist[m]];
    assert txs[..|txs|] == txs && moreTxs[..|txs|] == txs;
    assert |picks| > 0 ==> picks[|picks| - 1] < m;
    forall t: nat, n: nat | t <= m && SoMany(more, t, n) ensures SoMany(picks, t, n) && moreTxs[..n] == txs[..n] {
      SoManyLess(picks, m, t, n);
    }
    assert forall t: nat | t <= m :: t in more <==> t in picks || t == m;
  }

  lemma {:induction false} SoManyLess(picks: seq<nat>, m: nat, t: nat, n: nat)
    requires t <= m && SoMany(picks + [m], t, n)
    ensures SoMany(picks, t, n)
  {
    var more := picks + [m];
    assert more[|picks|] == m;
    assert forall i | 0 <= i < |picks| :: more[i] == picks[i];
  }

  /** So what is chosen is in order. */
  lemma {:induction false} PickedInOrder(refs: map<RefId, TxId>, es: seq<Entry>, txlist: seq<Tx>, txs: seq<Tx>,
      picks: seq<nat>, coins: int)
    requires RightlyPicked(refs, es, txlist, |txlist|, txs, picks, coins)
    ensures VerifiedInOrder(es, txs, coins) && (RowReferences.RefsOk(refs, es) ==> BasedInOrder(es, txs))
    ensures txs == [] <==> forall t | 0 <= t < |txlist| :: !Passes(refs, es, [], txlist[t], coins)
  {
    forall k | 0 <= k < |txs|
      ensures TxOk(es, txs[..k], txs[k], coins)
      ensures RowReferences.RefsOk(refs, es) ==> RowReferences.BaseOk(es, txs[..k], txs[k]) {
      assert SoMany(picks, picks[k], k) && picks[k] in picks;
      if RowReferences.RefsOk(refs, es) && txs[k].sql != NoSql {
        RowReferences.FitsBoth(refs, es, txs[..k], txs[k].sql, txs[k].base);
      }
    }
    if txs == [] {
      forall t | 0 <= t < |txlist| ensures !Passes(refs, es, [], txlist[t], coins) {
        assert SoMany(picks, t, 0) && txs[..0] == [];
      }
    } else {
      assert SoMany(picks, picks[0], 0) && picks[0] in picks && txs[..0] == [];
      assert Passes(refs, es, [], txlist[picks[0]], coins);
    }
  }

  /** The first `m` transactions are sorted out: those that pass after the chosen ones
      before them are chosen, the others have failed. */
  ghost predicate SortedOut(refs: map<RefId, TxId>, es: seq<Entry>, txlist: seq<Tx>, m: nat, txs: seq<Tx>,
      picks: seq<nat>, failed: seq<Tx>, others: seq<nat>, coins: int)
  {
    && RightlyPicked(refs, es, txlist, m, txs, picks, coins)
    && PickedBelow(txlist, failed, others, m) && (forall t: nat | t < m :: t in others <==> t !in picks)
    && SplitUp(txlist[..m], txs, failed)
  }

  lemma {:induction false} SortedOutNext(refs: map<RefId, TxId>, es: seq<Entry>, txlist: seq<Tx>, m: nat, txs: seq<Tx>,
      picks: seq<nat>, failed: seq<Tx>, others: seq<nat>, coins: int)
    returns (picked: seq<nat>, left: seq<nat>)
    requires m < |txlist| && SortedOut(refs, es, txlist, m, txs, picks, failed, others, coins)
    ensures if Passes(refs, es, txs, txlist[m], coins)
      then SortedOut(refs, es, txlist, m + 1, txs + [txlist[m]], picked, failed, left, coins)
      else SortedOut(refs, es, txlist, m + 1, txs, picked, failed + [txlist[m]], left, coins)
  {
    PickedNext(refs, es, txlist, m, txs, picks, coins);
    PickNext(txlist, failed, others, m);
    SplitGrows(txlist, m, txs, failed);
    assert m !in picks && m !in others;
    var passes := Passes(refs, es, txs, txlist[m], coins);
    picked, left := if passes then picks + [m] else picks, if passes then others else others + [m];
  }

  /** One round of the verifying loop. */
  method ChooseOne(pool: UnapprovedTransactions, db: DB, tx: Tx, txs0: seq<Tx>, failed0: seq<Tx>, coins: int,
      ghost indexed: map<Hash, Block>, ghost start: Txs, ghost rows: Rows)
    returns (txs: seq<Tx>, failed: seq<Tx>)
    requires pool.Valid() && LookupOk(db, indexed) && Live(EntriesUnder(db.blocks, db.topHash))
    requires (pool.table, db.rows) == Cancelling(start, rows, failed0)
    modifies pool, db`rows
    ensures pool.Valid() && (pool.table, db.rows) == Cancelling(start, rows, failed)
    ensures (txs, failed) == if Passes(db.rowRefs, EntriesUnder(db.blocks, db.topHash), txs0, tx, coins)
      then (txs0 + [tx], failed0) else (txs0, failed0 + [tx])
  {
    txs, failed := txs0, failed0;
    var vtx := VerifyPending(db, tx, txs, coins, indexed);
    if vtx {
      txs := txs + [tx];
    } else {
      CancelFailed(pool, db, tx, failed, start, rows);
      failed := failed + [tx];
    }
  }

  /** The verifying loop of GetUnapprovedTransactionsForNewBlock: chooses exactly the
      transactions that pass after the chosen ones before them. The others are
      cancelled in the pool. */
  method ChooseVerified(pool: UnapprovedTransactions, db: DB, txlist: seq<Tx>, coins: int,
      ghost indexed: map<Hash, Block>)
    returns (txs: seq<Tx>, failed: seq<Tx>, ghost picks: seq<nat>, ghost others: seq<nat>)
    requires pool.Valid() && LookupOk(db, indexed) && Live(EntriesUnder(db.blocks, db.topHash))
    modifies pool, db`rows
    ensures pool.Valid() && (pool.table, db.rows) == Cancelling(old(pool.table), old(db.rows), failed)
    ensures var es := EntriesUnder(db.blocks, db.topHash);
      && RightlyPicked(db.rowRefs, es, txlist, |txlist|, txs, picks, coins)
      && PickedFrom(txlist, failed, others) && (forall t: nat | t < |txlist| :: t in others <==> t !in picks)
      && SplitUp(txlist, txs, failed)
  {
    ghost var es, start, rows := EntriesUnder(db.blocks, db.topHash), pool.table, db.rows;
    txs, failed, picks, others := [], [], [], [];
    for i := 0 to |txlist|
      invariant pool.Valid() && (pool.table, db.rows) == Cancelling(start, rows, failed)
      invariant SortedOut(db.rowRefs, es, txlist, i, txs, picks, failed, others, coins)
    {
      picks, others := SortedOutNext(db.rowRefs, es, txlist, i, txs, picks, failed, others, coins);
      txs, failed := ChooseOne(pool, db, txlist[i], txs, failed, coins, indexed, start, rows);
    }
    assert txlist[..|txlist|] == txlist;
  }

  /** Every transaction of the list is in exactly one of the parts. */
  ghost predicate SplitUp(txs: seq<Tx>, a: seq<Tx>, b: seq<Tx>)
  {
    multiset(txs) == multiset(a) + multiset(b)
  }

  lemma {:induction false} SplitGrows(txs: seq<Tx>, i: nat, a: seq<Tx>, b: seq<Tx>)
    requires i < |txs| && SplitUp(txs[..i], a, b)
    ensures SplitUp(txs[..i + 1], a + [txs[i]], b) && SplitUp(txs[..i + 1], a, b + [txs[i]])
  {
    assert txs[..i + 1] == txs[..i] + [txs[i]];
  }

  method CancelFailed(pool: UnapprovedTransactions, db: DB, tx: Tx, ghost failed: seq<Tx>, ghost start: Txs,
      ghost rows: Rows)
    requires pool.Valid() && (pool.table, db.rows) == Cancelling(start, rows, failed)
    modifies pool, db`rows
    ensures pool.Valid() && (pool.table, db.rows) == Cancelling(start, rows, failed + [tx])
  {
    CancelOneMore(start, rows, failed, tx);
    var cancelled := CancelTransaction(pool, db, tx.id);
  }

  method VerifyPending(db: DB, tx: Tx, txs: seq<Tx>, coins: int, ghost indexed: map<Hash, Block>) returns (ok: bool)
    requires LookupOk(db, indexed) && Live(EntriesUnder(db.blocks, db.topHash))
    ensures ok <==> Passes(db.rowRefs, EntriesUnder(db.blocks, db.topHash), txs, tx, coins)
  {
    KnownIsSpends(db, db.topHash, indexed);
    ok := VerifyTransaction(db, tx, txs, NoHash, coins, indexed);
    if ok {
      ok := RowReferences.CheckBaseTransaction(db, tx, txs, EntriesUnder(db.blocks, db.topHash));
    }
  }

  /** GetUnapprovedTransactionsForNewBlock on what was taken from the pool: None exactly
      when no transaction of the list passes on the top, else the chosen transactions
      without those that were weeded out. Those that were not chosen and those that were
      weeded out are cancelled. */
  method ForNewBlock(pool: UnapprovedTransactions, db: DB, txlist: seq<Tx>, coins: int, ghost indexed: map<Hash, Block>)
    returns (r: Option<seq<Tx>>, txs: seq<Tx>, ghost chosen: seq<nat>, ghost picks: seq<nat>,
      ghost failed: seq<Tx>, ghost weeded: seq<Tx>)
    requires pool.Valid() && LookupOk(db, indexed) && Live(EntriesUnder(db.blocks, db.topHash))
    modifies pool, db`rows
    ensures pool.Valid() && (pool.table, db.rows) == Cancelling(old(pool.table), old(db.rows), failed + weeded)
    ensures var es := EntriesUnder(db.blocks, db.topHash);
      && RightlyPicked(db.rowRefs, es, txlist, |txlist|, txs, chosen, coins)
      && VerifiedInOrder(es, txs, coins) && (RowReferences.RefsOk(db.rowRefs, es) ==> BasedInOrder(es, txs))
      && (r == None <==> forall t | 0 <= t < |txlist| :: !Passes(db.rowRefs, es, [], txlist[t], coins))
    ensures SplitUp(txlist, txs, failed) && (r == None ==> txs == weeded == [])
    ensures r != None ==> PickedFrom(txs, r.value, picks) && NoInputTwice(r.value) && SplitUp(txs, r.value, weeded)
    ensures r != None ==> PicksUnshared(txs, picks, |txs|)
  {
    ghost var es, start, rows, others := EntriesUnder(db.blocks, db.topHash), pool.table, db.rows, [];
    var refused;
    txs, refused, chosen, others := ChooseVerified(pool, db, txlist, coins, indexed);
    failed, weeded, picks := refused, [], [];
    PickedInOrder(db.rowRefs, es, txlist, txs, chosen, coins);
    if txs == [] {
      assert failed + [] == failed;
      return None, txs, chosen, picks, failed, weeded;
    }
    var good, conflicts;
    good, conflicts, picks := DetectConflicts(txs);
    CancelWeeded(pool, db, conflicts, failed, start, rows);
    return Some(good), txs, chosen, picks, failed, conflicts;
  }

  method CancelWeeded(pool: UnapprovedTransactions, db: DB, conflicts: seq<Tx>, ghost failed: seq<Tx>,
      ghost start: Txs, ghost rows: Rows)
    requires pool.Valid() && (pool.table, db.rows) == Cancelling(start, rows, failed)
    modifies pool, db`rows
    ensures pool.Valid() && (pool.table, db.rows) == Cancelling(start, rows, failed + conflicts)
  {
    assert failed + conflicts[..0] == failed;
    for i := 0 to |conflicts|
      invariant pool.Valid() && (pool.table, db.rows) == Cancelling(start, rows, failed + conflicts[..i])
    {
      OneMoreWeeded(failed, conflicts, i);
      CancelFailed(pool, db, conflicts[i], failed + conflicts[..i], start, rows);
    }
    assert conflicts[..|conflicts|] == conflicts;
  }

  lemma {:induction false} OneMoreWeeded(failed: seq<Tx>, conflicts: seq<Tx>, i: nat)
    requires i < |conflicts|
    ensures failed + conflicts[..i + 1] == failed + conflicts[..i] + [conflicts[i]]
  {
  }

  // ----- what weeding out does to a list

  /** Every input has a source, on the branch or earlier in the list. */
  ghost predicate SourcesThere(es: seq<Entry>, before: seq<Tx>, tx: Tx)
  {
    !tx.IsCoinbase() ==> forall k | 0 <= k < |tx.vin| :: Source(es, before, tx.vin[k].txid) != None
  }

  /** What is found among the kept transactions is what was found in the list. */
  lemma {:induction false} SameSource(es: seq<Entry>, txs: seq<Tx>, good: seq<Tx>, picks: seq<nat>, t: nat, id: TxId)
    requires PickedFrom(txs, good, picks) && DistinctIds(txs) && t < |good|
    ensures Source(es, good[..t], id) == None || Source(es, good[..t], id) == Source(es, txs[..picks[t]], id)
  {
    if !HasTx(es, id) && FindBefore(good[..t], id) != None {
      var j :| 0 <= j < t && good[..t][j] == FindBefore(good[..t], id).value;
      assert picks[j] < picks[t];
      assert txs[..picks[t]][picks[j]] == good[j];
      assert FindBefore(txs[..picks[t]], id) != None;
      var i :| 0 <= i < picks[t] && txs[..picks[t]][i] == FindBefore(txs[..picks[t]], id).value;
      assert txs[i].id == id && txs[picks[j]].id == id && txs[picks[j]] == good[j];
      assert !(i < picks[j]) && !(picks[j] < i);
    }
  }

  lemma {:induction false} SameSum(es: seq<Entry>, a: seq<Tx>, b: seq<Tx>, vin: seq<OutPoint>)
    requires forall k | 0 <= k < |vin| :: Source(es, a, vin[k].txid) == Source(es, b, vin[k].txid)
    ensures SumIn(es, a, vin) == SumIn(es, b, vin)
  {
    if vin != [] {
      SameSum(es, a, b, vin[..|vin| - 1]);
    }
  }

  /** A kept transaction is still in order exactly when its sources were kept. */
  lemma {:induction false} KeptIsOkIff(es: seq<Entry>, txs: seq<Tx>, good: seq<Tx>, picks: seq<nat>, t: nat, coins: int)
    requires PickedFrom(txs, good, picks) && DistinctIds(txs) && t < |good| && VerifiedInOrder(es, txs, coins)
    ensures TxOk(es, good[..t], good[t], coins) <==> SourcesThere(es, good[..t], good[t])
  {
    var tx, a, b := good[t], good[..t], txs[..picks[t]];
    assert txs[picks[t]] == tx && TxOk(es, b, tx, coins);
    if !tx.IsCoinbase() {
      forall k | 0 <= k < |tx.vin| ensures InputOk(es, a, tx.signer, tx.vin[k]) <==>
        Source(es, a, tx.vin[k].txid) != None {
        SameSource(es, txs, good, picks, t, tx.vin[k].txid);
        assert InputOk(es, b, tx.signer, tx.vin[k]);
      }
      if SourcesThere(es, a, tx) {
        forall k | 0 <= k < |tx.vin| ensures Source(es, a, tx.vin[k].txid) == Source(es, b, tx.vin[k].txid) {
          SameSource(es, txs, good, picks, t, tx.vin[k].txid);
        }
        SameSum(es, a, b, tx.vin);
      }
    }
  }

  ghost predicate AllSourcesThere(es: seq<Entry>, good: seq<Tx>)
  {
    forall t | 0 <= t < |good| :: SourcesThere(es, good[..t], good[t])
  }

  /** A block that is made, as doPrepareNewBlock does, of the kept ones of verified
      transactions and a reward at the end is accepted by VerifyBlock exactly when no
      kept transaction spends an output of one that was weeded out; then it spends
      nothing twice. */
  lemma {:induction false} MinedIsAcceptedIff(es: seq<Entry>, txs: seq<Tx>, good: seq<Tx>, picks: seq<nat>, reward: Tx,
      b: Block, coins: int, min: int, max: int)
    requires Live(es) && VerifiedInOrder(es, txs, coins) && DistinctIds(txs)
    requires PickedFrom(txs, good, picks) && NoInputTwice(good)
    requires NoRewards(good) && RewardFor(reward, coins)
    requires b.txs == good + [reward] && min <= |good| <= max && FreshIds(es, b)
    ensures BlockAcceptable(es, b, coins, min, max) <==> AllSourcesThere(es, good)
    ensures AllSourcesThere(es, good) ==> Live(es + BlockEntries(b))
  {
    KeptAreOkIff(es, txs, good, picks, coins);
    MinedIsAccepted(es, good, reward, b, coins, min, max);
    if BlockAcceptable(es, b, coins, min, max) {
      AcceptedInOrder(es, good, reward, b, coins, min, max);
    }
  }

  lemma {:induction false} KeptAreOkIff(es: seq<Entry>, txs: seq<Tx>, good: seq<Tx>, picks: seq<nat>, coins: int)
    requires PickedFrom(txs, good, picks) && DistinctIds(txs) && VerifiedInOrder(es, txs, coins)
    ensures VerifiedInOrder(es, good, coins) <==> AllSourcesThere(es, good)
  {
    forall t | 0 <= t < |good| ensures TxOk(es, good[..t], good[t], coins) <==> SourcesThere(es, good[..t], good[t]) {
      KeptIsOkIff(es, txs, good, picks, t, coins);
    }
  }

  lemma {:induction false} AcceptedInOrder(es: seq<Entry>, good: seq<Tx>, reward: Tx, b: Block, coins: int, min: int,
      max: int)
    requires b.txs == good + [reward] && BlockAcceptable(es, b, coins, min, max)
    ensures VerifiedInOrder(es, good, coins)
  {
    forall t | 0 <= t < |good| ensures TxOk(es, good[..t], good[t], coins) {
      assert TxOk(es, b.txs[..t], b.txs[t], coins) && b.txs[..t] == good[..t];
    }
  }

  ghost predicate NoRewards(txs: seq<Tx>)
  {
    forall t | 0 <= t < |txs| :: !txs[t].IsCoinbase()
  }

  ghost predicate RewardFor(reward: Tx, coins: int)
  {
    reward.IsCoinbase() && |reward.vout| == 1 && reward.vout[0].value == coins && reward.sql == NoSql
  }

  /** Nothing has to be weeded out of a list of pending transactions of which none
      names one input twice. */
  lemma {:induction false} PoolNeedsNoWeeding(pool: Txs, txs: seq<Tx>)
    requires PoolOk(pool) && DistinctIds(txs)
    requires forall t | 0 <= t < |txs| :: txs[t].id in pool && pool[txs[t].id] == txs[t] && DistinctIn(txs[t].vin)
    ensures NoInputTwice(txs) && AllUnshared(txs, |txs|)
  {
    forall t, u | 0 <= t < u < |txs| ensures Names(txs[t].vin) !! Names(txs[u].vin) {
      assert !Conflict(pool[txs[t].id], pool[txs[u].id]);
    }
    UnsharedIsDistinct(txs);
  }

  /** A block of verified transactions that name no output twice. */
  lemma {:induction false} MinedIsAccepted(es: seq<Entry>, txs: seq<Tx>, reward: Tx, b: Block, coins: int, min: int,
      max: int)
    requires Live(es) && NoInputTwice(txs) && NoRewards(txs) && RewardFor(reward, coins)
    requires b.txs == txs + [reward] && min <= |txs| <= max && FreshIds(es, b)
    ensures VerifiedInOrder(es, txs, coins) ==> BlockAcceptable(es, b, coins, min, max) && Live(es + BlockEntries(b))
    ensures BasedInOrder(es, txs) ==> RowReferences.BlockBasesOk(es, b)
  {
    MinedIsDistinct(txs, reward, b);
    if VerifiedInOrder(es, txs, coins) {
      forall t | 0 <= t < |b.txs| ensures TxOk(es, b.txs[..t], b.txs[t], coins) {
        MinedAt(es, txs, reward, b, coins, t);
      }
      assert CoinbaseAt(b, |txs|);
      AcceptedIsLiveIff(es, b, coins, min, max);
    }
    if BasedInOrder(es, txs) {
      forall t | 0 <= t < |b.txs| ensures RowReferences.BaseOk(es, b.txs[..t], b.txs[t]) {
        MinedAt(es, txs, reward, b, coins, t);
      }
    }
  }

  lemma {:induction false} MinedAt(es: seq<Entry>, txs: seq<Tx>, reward: Tx, b: Block, coins: int, t: nat)
    requires b.txs == txs + [reward] && t < |b.txs|
    requires RewardFor(reward, coins)
    ensures VerifiedInOrder(es, txs, coins) ==> TxOk(es, b.txs[..t], b.txs[t], coins)
    ensures BasedInOrder(es, txs) ==> RowReferences.BaseOk(es, b.txs[..t], b.txs[t])
  {
    assert b.txs[..t] == txs[..t];
  }
}
