/** The currency part of block verification: what VerifyBlock accepts, stated on
    the branch below the block, and how far that goes towards "no double spend". */
module Verifier {
  import opened Types
  import opened BlockTree
  import opened Database
  import opened BranchQueries
  import opened Ledger
  import opened TransactionLookup

  // ----- what is accepted

  ghost function FindEntry(es: seq<Entry>, id: TxId): (r: Option<Tx>)
    ensures r == None <==> !HasTx(es, id)
    ensures r != None ==> r.value.id == id && exists k | 0 <= k < |es| :: es[k].tx == r.value
  {
    if es == [] then None
    else if es[|es| - 1].tx.id == id then Some(es[|es| - 1].tx)
    else
      var r := FindEntry(es[..|es| - 1], id);
      assert forall k | 0 <= k < |es| - 1 :: es[..|es| - 1][k] == es[k];
      r
  }

  ghost function FindBefore(txs: seq<Tx>, id: TxId): (r: Option<Tx>)
    ensures r == None <==> forall k | 0 <= k < |txs| :: txs[k].id != id
    ensures r != None ==> r.value.id == id && r.value in txs
  {
    if txs == [] then None else if txs[0].id == id then Some(txs[0]) else
      var r := FindBefore(txs[1..], id);
      assert forall k | 0 <= k < |txs[1..]| :: txs[1..][k] == txs[k + 1];
      assert forall k | 1 <= k < |txs| :: txs[k] == txs[1..][k - 1];
      r
  }

  /** The transaction that an input refers to: on the branch, else earlier in the block. */
  ghost function Source(es: seq<Entry>, before: seq<Tx>, id: TxId): Option<Tx>
  {
    if HasTx(es, id) then FindEntry(es, id) else FindBefore(before, id)
  }

  /** The input is an output of its source, locked to the signer, and not among the
      outputs that are known to be spent on the branch below the block. */
  ghost predicate InputOkBy(es: seq<Entry>, spent: set<OutPoint>, before: seq<Tx>, signer: KeyHash, p: OutPoint)
  {
    && Source(es, before, p.txid) != None
    && (HasTx(es, p.txid) ==> p !in spent)
    && 0 <= p.vout < |Source(es, before, p.txid).value.vout|
    && Source(es, before, p.txid).value.vout[p.vout].owner == signer
  }

  /** The same when every spending is known. */
  ghost predicate InputOk(es: seq<Entry>, before: seq<Tx>, signer: KeyHash, p: OutPoint)
  {
    InputOkBy(es, Spends(es), before, signer, p)
  }

  ghost function Value(es: seq<Entry>, before: seq<Tx>, p: OutPoint): int
  {
    var src := Source(es, before, p.txid);
    if src != None && 0 <= p.vout < |src.value.vout| then src.value.vout[p.vout].value else 0
  }

  ghost function SumIn(es: seq<Entry>, before: seq<Tx>, vin: seq<OutPoint>): int
  {
    if vin == [] then 0 else SumIn(es, before, vin[..|vin| - 1]) + Value(es, before, vin[|vin| - 1])
  }

  ghost function SumOut(vout: seq<TxOut>): int
  {
    if vout == [] then 0 else SumOut(vout[..|vout| - 1]) + vout[|vout| - 1].value
  }

  ghost predicate TxOkBy(es: seq<Entry>, spent: set<OutPoint>, before: seq<Tx>, tx: Tx, coins: int)
  {
    if tx.IsCoinbase() then |tx.vout| == 1 && tx.vout[0].value == coins
    else
      && (forall k | 0 <= k < |tx.vin| :: InputOkBy(es, spent, before, tx.signer, tx.vin[k]))
      && (forall j, k | 0 <= j < k < |tx.vin| && !HasTx(es, tx.vin[k].txid) :: tx.vin[j] != tx.vin[k])
      && (forall k | 0 <= k < |tx.vout| :: tx.vout[k].value >= 1)
      && SumIn(es, before, tx.vin) == SumOut(tx.vout)
  }

  ghost predicate TxOk(es: seq<Entry>, before: seq<Tx>, tx: Tx, coins: int)
  {
    TxOkBy(es, Spends(es), before, tx, coins)
  }

  ghost predicate CoinbaseAt(b: Block, t: nat)
  {
    t < |b.txs| && b.txs[t].IsCoinbase() && forall u | 0 <= u < |b.txs| && b.txs[u].IsCoinbase() :: u == t
  }

  ghost predicate BlockAcceptableBy(es: seq<Entry>, spent: set<OutPoint>, b: Block, coins: int, min: int, max: int)
  {
    && min <= |b.txs| - 1 <= max
    && (exists t :: CoinbaseAt(b, t))
    && (forall t | 0 <= t < |b.txs| :: TxOkBy(es, spent, b.txs[..t], b.txs[t], coins))
  }

  ghost predicate BlockAcceptable(es: seq<Entry>, b: Block, coins: int, min: int, max: int)
  {
    BlockAcceptableBy(es, Spends(es), b, coins, min, max)
  }

  // ----- verification

  datatype InputState = Missing | Spent | Found(tx: Tx)

  /** What is to be found out about an input. */
  ghost predicate StateIs(es: seq<Entry>, spent: set<OutPoint>, p: OutPoint, s: InputState)
  {
    if !HasTx(es, p.txid) then s == Missing
    else if p in spent then s == Spent
    else s == Found(FindEntry(es, p.txid).value)
  }

  /** One input of getCurrencyInputTransactionsState. */
  method StateOfInput(db: DB, p: OutPoint, tip: Hash, ghost indexed: Blocks) returns (s: InputState)
    requires SoundLookup(db, indexed) && TipOf(db, tip) in db.blocks
    requires Live(EntriesUnder(db.blocks, TipOf(db, tip)))
    ensures StateIs(EntriesUnder(db.blocks, TipOf(db, tip)), KnownSpent(db, TipOf(db, tip)), p, s)
  {
    var info := GetTransactionAllInfo(db, p.txid, tip, indexed);
    if info == None {
      return Missing;
    }
    var (tx, spentouts, holder) := info.value;
    var isSpent := HasOut(spentouts, p.vout);
    InfoTells(db.blocks, TipOf(db, tip), p, tx, holder, spentouts, KnownSpent(db, TipOf(db, tip)), isSpent);
    return if isSpent then Spent else Found(tx);
  }

  lemma {:induction false} InfoTells(blocks: Blocks, tip: Hash, p: OutPoint, tx: Tx, holder: Hash,
      spending: seq<SpentRec>, spent: set<OutPoint>, isSpent: bool)
    requires TreeOk(blocks) && tip in blocks && Live(EntriesUnder(blocks, tip))
    requires InfoOf(blocks, tip, p.txid, tx, holder, spending, spent)
    requires isSpent <==> exists r | r in spending :: r.out == p.vout
    ensures StateIs(EntriesUnder(blocks, tip), spent, p, if isSpent then Spent else Found(tx))
  {
    assert OutPoint(p.txid, p.vout) == p;
    SameEntry(EntriesUnder(blocks, tip), p.txid, tx, holder);
    assert HasTx(EntriesUnder(blocks, tip), p.txid);
  }

  lemma {:induction false} SameEntry(es: seq<Entry>, id: TxId, tx: Tx, holder: Hash)
    requires Live(es) && tx.id == id && exists k | 0 <= k < |es| :: es[k] == Entry(tx, holder)
    ensures FindEntry(es, id) == Some(tx)
  {
    var k :| 0 <= k < |es| && es[k] == Entry(tx, holder);
    assert HasTx(es, id);
    var j :| 0 <= j < |es| && es[j].tx == FindEntry(es, id).value;
    if j < k { LiveIds(es, j, k); }
    if k < j { LiveIds(es, k, j); }
  }

  method FindInList(prevTXs: seq<Tx>, id: TxId) returns (r: Option<Tx>)
    ensures r == FindBefore(prevTXs, id)
  {
    for i := 0 to |prevTXs|
      invariant FindBefore(prevTXs, id) == FindBefore(prevTXs[i..], id)
    {
      assert prevTXs[i..][1..] == prevTXs[i + 1..];
      if prevTXs[i].id == id {
        return Some(prevTXs[i]);
      }
    }
    return None;
  }

  /** The state of all inputs; None when one of them is already spent. */
  method StateOfInputs(db: DB, vin: seq<OutPoint>, tip: Hash, ghost indexed: Blocks)
    returns (r: Option<seq<InputState>>)
    requires SoundLookup(db, indexed) && TipOf(db, tip) in db.blocks
    requires Live(EntriesUnder(db.blocks, TipOf(db, tip)))
    ensures var es, spent := EntriesUnder(db.blocks, TipOf(db, tip)), KnownSpent(db, TipOf(db, tip));
      && (r == None <==> exists k | 0 <= k < |vin| :: HasTx(es, vin[k].txid) && vin[k] in spent)
      && (r != None ==> |r.value| == |vin| && forall k | 0 <= k < |vin| ::
            r.value[k] == if HasTx(es, vin[k].txid) then Found(FindEntry(es, vin[k].txid).value) else Missing)
  {
    ghost var es, spent := EntriesUnder(db.blocks, TipOf(db, tip)), KnownSpent(db, TipOf(db, tip));
    var states := [];
    for k := 0 to |vin|
      invariant StatesSoFar(es, spent, vin, k, states)
    {
      var s := StateOfInput(db, vin[k], tip, indexed);
      NextState(es, spent, vin, k, states, s);
      if s == Spent {
        return None;
      }
      states := states + [s];
    }
    AllStates(es, spent, vin, states);
    return Some(states);
  }

  ghost predicate StatesSoFar(es: seq<Entry>, spent: set<OutPoint>, vin: seq<OutPoint>, i: nat, states: seq<InputState>)
    requires i <= |vin|
  {
    |states| == i && forall j | 0 <= j < i :: StateIs(es, spent, vin[j], states[j]) && states[j] != Spent
  }

  lemma {:induction false} NextState(es: seq<Entry>, spent: set<OutPoint>, vin: seq<OutPoint>, i: nat,
      states: seq<InputState>, s: InputState)
    requires i < |vin| && StatesSoFar(es, spent, vin, i, states) && StateIs(es, spent, vin[i], s)
    ensures s != Spent ==> StatesSoFar(es, spent, vin, i + 1, states + [s])
    ensures s == Spent ==> exists k | 0 <= k < |vin| :: HasTx(es, vin[k].txid) && vin[k] in spent
  {
  }

  lemma {:induction false} AllStates(es: seq<Entry>, spent: set<OutPoint>, vin: seq<OutPoint>, states: seq<InputState>)
    requires StatesSoFar(es, spent, vin, |vin|, states)
    ensures forall k | 0 <= k < |vin| :: !(HasTx(es, vin[k].txid) && vin[k] in spent)
    ensures forall k | 0 <= k < |vin| ::
      states[k] == if HasTx(es, vin[k].txid) then Found(FindEntry(es, vin[k].txid).value) else Missing
  {
    forall k | 0 <= k < |vin| ensures !(HasTx(es, vin[k].txid) && vin[k] in spent) {
      assert StateIs(es, spent, vin[k], states[k]);
    }
  }

  ghost predicate Resolved(s: InputState, found: Option<Tx>, src: Tx)
  {
    if s == Missing then found == Some(src) else s == Found(src)
  }

  ghost predicate BadMissing(vin: seq<OutPoint>, states: seq<InputState>, prevTXs: seq<Tx>, k: int)
    requires |states| == |vin| && 0 <= k < |vin|
  {
    && states[k] == Missing
    && (FindBefore(prevTXs, vin[k].txid) == None || exists j | 0 <= j < k :: states[j] == Missing && vin[j] == vin[k])
  }

  /** CheckCurrencyInputsWereBefore: fills in the missing inputs from the earlier
      transactions of the block; refuses unknown and repeated ones. */
  method InputsWereBefore(vin: seq<OutPoint>, states: seq<InputState>, prevTXs: seq<Tx>) returns (r: Option<seq<Tx>>)
    requires |states| == |vin| && Spent !in states
    ensures r == None <==> exists k | 0 <= k < |vin| :: BadMissing(vin, states, prevTXs, k)
    ensures r != None ==> |r.value| == |vin| && forall k | 0 <= k < |vin| ::
      Resolved(states[k], FindBefore(prevTXs, vin[k].txid), r.value[k])
  {
    var res := [];
    var checked := [];
    for k := 0 to |vin|
      invariant |res| == k
      invariant forall p :: p in checked <==> exists j | 0 <= j < k :: states[j] == Missing && vin[j] == p
      invariant forall j | 0 <= j < k :: !BadMissing(vin, states, prevTXs, j)
      invariant forall j | 0 <= j < k ::
        Resolved(states[j], FindBefore(prevTXs, vin[j].txid), res[j])
    {
      if states[k] == Missing {
        if vin[k] in checked {
          assert BadMissing(vin, states, prevTXs, k);
          return None;
        }
        var prev := FindInList(prevTXs, vin[k].txid);
        if prev == None {
          assert BadMissing(vin, states, prevTXs, k);
          return None;
        }
        res := res + [prev.value];
        checked := checked + [vin[k]];
      } else {
        assert states[k] in states;
        res := res + [states[k].tx];
      }
    }
    return Some(res);
  }

  /** The checks of Verify against the input transactions: every output exists
      and belongs to the signer, no output is too small, the totals are equal. */
  ghost predicate Settled(tx: Tx, srcs: seq<Tx>)
    requires |srcs| == |tx.vin|
  {
    && (forall k | 0 <= k < |tx.vin| ::
          0 <= tx.vin[k].vout < |srcs[k].vout| && srcs[k].vout[tx.vin[k].vout].owner == tx.signer)
    && (forall k | 0 <= k < |tx.vout| :: tx.vout[k].value >= 1)
    && TotalOf(tx.vin, srcs) == SumOut(tx.vout)
  }

  ghost function TotalOf(vin: seq<OutPoint>, srcs: seq<Tx>): int
    requires |srcs| == |vin|
  {
    if vin == [] then 0 else
      var n := |vin| - 1;
      TotalOf(vin[..n], srcs[..n]) +
        (if 0 <= vin[n].vout < |srcs[n].vout| then srcs[n].vout[vin[n].vout].value else 0)
  }

  /** First loop of Verify: the total of the inputs; an index outside of the
      outputs stops the node's check here. */
  method TotalInput(vin: seq<OutPoint>, srcs: seq<Tx>) returns (total: Option<int>)
    requires |srcs| == |vin|
    ensures total == None <==> exists k | 0 <= k < |vin| :: !(0 <= vin[k].vout < |srcs[k].vout|)
    ensures total != None ==> total.value == TotalOf(vin, srcs)
  {
    var totalinput := 0;
    for k := 0 to |vin|
      invariant forall j | 0 <= j < k :: 0 <= vin[j].vout < |srcs[j].vout|
      invariant totalinput == TotalOf(vin[..k], srcs[..k])
    {
      if !(0 <= vin[k].vout < |srcs[k].vout|) {
        return None;
      }
      assert vin[..k + 1][..k] == vin[..k] && srcs[..k + 1][..k] == srcs[..k];
      totalinput := totalinput + srcs[k].vout[vin[k].vout].value;
    }
    assert vin[..|vin|] == vin && srcs[..|vin|] == srcs;
    return Some(totalinput);
  }

  /** Last loop of Verify: the total of the outputs, none of them too small. */
  method TotalOutput(vout: seq<TxOut>) returns (total: Option<int>)
    ensures total == None <==> exists k | 0 <= k < |vout| :: vout[k].value < 1
    ensures total != None ==> total.value == SumOut(vout)
  {
    var totaloutput := 0;
    for k := 0 to |vout|
      invariant forall j | 0 <= j < k :: vout[j].value >= 1
      invariant totaloutput == SumOut(vout[..k])
    {
      if vout[k].value < 1 {
        return None;
      }
      assert vout[..k + 1][..k] == vout[..k];
      totaloutput := totaloutput + vout[k].value;
    }
    assert vout[..|vout|] == vout;
    return Some(totaloutput);
  }

  /** Verify, without the signature. */
  method VerifyTx(tx: Tx, srcs: seq<Tx>, coins: int) returns (ok: bool)
    requires !tx.IsCoinbase() ==> |srcs| == |tx.vin|
    ensures ok <==> if tx.IsCoinbase() then |tx.vout| == 1 && tx.vout[0].value == coins else Settled(tx, srcs)
  {
    if tx.IsCoinbase() {
      return |tx.vout| > 0 && tx.vout[0].value == coins && |tx.vout| <= 1;
    }
    var totalinput := TotalInput(tx.vin, srcs);
    if totalinput == None {
      return false;
    }
    for k := 0 to |tx.vin|
      invariant forall j | 0 <= j < k :: srcs[j].vout[tx.vin[j].vout].owner == tx.signer
    {
      if srcs[k].vout[tx.vin[k].vout].owner != tx.signer {
        return false;
      }
    }
    var totaloutput := TotalOutput(tx.vout);
    return totalinput == totaloutput;
  }

  /** The input transactions that verification works with are the sources. */
  ghost predicate AreSources(es: seq<Entry>, before: seq<Tx>, vin: seq<OutPoint>, srcs: seq<Tx>)
  {
    |srcs| == |vin| && forall k | 0 <= k < |vin| :: Source(es, before, vin[k].txid) == Some(srcs[k])
  }

  lemma {:induction false} TotalIsSum(es: seq<Entry>, before: seq<Tx>, vin: seq<OutPoint>, srcs: seq<Tx>)
    requires AreSources(es, before, vin, srcs)
    ensures TotalOf(vin, srcs) == SumIn(es, before, vin)
  {
    if vin != [] {
      TotalIsSum(es, before, vin[..|vin| - 1], srcs[..|vin| - 1]);
    }
  }

  lemma {:induction false} SettledIsTxOk(es: seq<Entry>, spent: set<OutPoint>, before: seq<Tx>, tx: Tx, srcs: seq<Tx>,
      coins: int)
    requires !tx.IsCoinbase() && AreSources(es, before, tx.vin, srcs)
    requires forall k | 0 <= k < |tx.vin| && HasTx(es, tx.vin[k].txid) :: tx.vin[k] !in spent
    requires forall j, k | 0 <= j < k < |tx.vin| && !HasTx(es, tx.vin[k].txid) :: tx.vin[j] != tx.vin[k]
    ensures Settled(tx, srcs) <==> TxOkBy(es, spent, before, tx, coins)
  {
    TotalIsSum(es, before, tx.vin, srcs);
    if TxOkBy(es, spent, before, tx, coins) {
      forall k | 0 <= k < |tx.vin|
        ensures 0 <= tx.vin[k].vout < |srcs[k].vout| && srcs[k].vout[tx.vin[k].vout].owner == tx.signer
      {
        assert InputOkBy(es, spent, before, tx.signer, tx.vin[k]);
      }
    }
    if Settled(tx, srcs) {
      forall k | 0 <= k < |tx.vin| ensures InputOkBy(es, spent, before, tx.signer, tx.vin[k]) {
        assert Source(es, before, tx.vin[k].txid) == Some(srcs[k]);
      }
    }
  }

  /** VerifyTransaction (currency part) for a transaction of a block. */
  method VerifyTransaction(db: DB, tx: Tx, prevTXs: seq<Tx>, tip: Hash, coins: int, ghost indexed: Blocks)
    returns (ok: bool)
    requires SoundLookup(db, indexed) && TipOf(db, tip) in db.blocks
    requires Live(EntriesUnder(db.blocks, TipOf(db, tip)))
    ensures var es, spent := EntriesUnder(db.blocks, TipOf(db, tip)), KnownSpent(db, TipOf(db, tip));
      ok <==> TxOkBy(es, spent, prevTXs, tx, coins)
  {
    ghost var es, spent := EntriesUnder(db.blocks, TipOf(db, tip)), KnownSpent(db, TipOf(db, tip));
    if tx.IsCoinbase() {
      ok := VerifyTx(tx, [], coins);
      return;
    }
    var states := StateOfInputs(db, tx.vin, tip, indexed);
    if states == None {
      SpentIsBad(es, spent, prevTXs, tx, coins);
      return false;
    }
    var srcs := InputsWereBefore(tx.vin, states.value, prevTXs);
    if srcs == None {
      MissingIsBad(es, spent, prevTXs, tx, states.value, coins);
      return false;
    }
    GoodSources(es, prevTXs, tx.vin, states.value, srcs.value);
    SettledIsTxOk(es, spent, prevTXs, tx, srcs.value, coins);
    ok := VerifyTx(tx, srcs.value, coins);
  }

  lemma {:induction false} SpentIsBad(es: seq<Entry>, spent: set<OutPoint>, before: seq<Tx>, tx: Tx, coins: int)
    requires !tx.IsCoinbase()
    requires exists k | 0 <= k < |tx.vin| :: HasTx(es, tx.vin[k].txid) && tx.vin[k] in spent
    ensures !TxOkBy(es, spent, before, tx, coins)
  {
    var k :| 0 <= k < |tx.vin| && HasTx(es, tx.vin[k].txid) && tx.vin[k] in spent;
    assert !InputOkBy(es, spent, before, tx.signer, tx.vin[k]);
  }

  lemma {:induction false} MissingIsBad(es: seq<Entry>, spent: set<OutPoint>, before: seq<Tx>, tx: Tx,
      states: seq<InputState>, coins: int)
    requires !tx.IsCoinbase() && |states| == |tx.vin|
    requires forall k | 0 <= k < |tx.vin| :: states[k] == Missing <==> !HasTx(es, tx.vin[k].txid)
    requires exists k | 0 <= k < |tx.vin| :: BadMissing(tx.vin, states, before, k)
    ensures !TxOkBy(es, spent, before, tx, coins)
  {
    var k :| 0 <= k < |tx.vin| && BadMissing(tx.vin, states, before, k);
    if FindBefore(before, tx.vin[k].txid) == None {
      assert !InputOkBy(es, spent, before, tx.signer, tx.vin[k]);
    }
  }

  lemma {:induction false} GoodSources(es: seq<Entry>, before: seq<Tx>, vin: seq<OutPoint>, states: seq<InputState>,
      srcs: seq<Tx>)
    requires |states| == |vin| == |srcs|
    requires forall k | 0 <= k < |vin| ::
      states[k] == if HasTx(es, vin[k].txid) then Found(FindEntry(es, vin[k].txid).value) else Missing
    requires forall k | 0 <= k < |vin| :: !BadMissing(vin, states, before, k)
    requires forall k | 0 <= k < |vin| ::
      Resolved(states[k], FindBefore(before, vin[k].txid), srcs[k])
    ensures AreSources(es, before, vin, srcs)
    ensures forall j, k | 0 <= j < k < |vin| && !HasTx(es, vin[k].txid) :: vin[j] != vin[k]
  {
    forall k | 0 <= k < |vin| ensures Source(es, before, vin[k].txid) == Some(srcs[k]) {
      assert !BadMissing(vin, states, before, k);
    }
    forall j, k | 0 <= j < k < |vin| && !HasTx(es, vin[k].txid) ensures vin[j] != vin[k] {
      assert !BadMissing(vin, states, before, k);
    }
  }

  /** What the loop of VerifyBlock has seen of coinbase transactions. */
  ghost predicate CoinbaseSeen(b: Block, i: nat, used: bool, at: nat)
    requires i <= |b.txs|
  {
    if used then at < i && b.txs[at].IsCoinbase() && forall u | 0 <= u < i && b.txs[u].IsCoinbase() :: u == at
    else forall u | 0 <= u < i :: !b.txs[u].IsCoinbase()
  }

  /** The first transactions are verified, with what was seen of rewards. */
  ghost predicate VerifiedTo(es: seq<Entry>, spent: set<OutPoint>, b: Block, i: nat, used: bool, at: nat, coins: int)
    requires i <= |b.txs|
  {
    CoinbaseSeen(b, i, used, at) && forall t | 0 <= t < i :: TxOkBy(es, spent, b.txs[..t], b.txs[t], coins)
  }

  /** A second reward or a transaction that is not verified refuses the block. */
  lemma {:induction false} RefusedAt(es: seq<Entry>, spent: set<OutPoint>, b: Block, i: nat, used: bool, at: nat,
      coins: int, min: int, max: int)
    requires i < |b.txs| && VerifiedTo(es, spent, b, i, used, at, coins)
    requires (b.txs[i].IsCoinbase() && used) || !TxOkBy(es, spent, b.txs[..i], b.txs[i], coins)
    ensures !BlockAcceptableBy(es, spent, b, coins, min, max)
  {
    assert used ==> b.txs[at].IsCoinbase();
  }

  lemma {:induction false} OneMoreVerified(es: seq<Entry>, spent: set<OutPoint>, b: Block, i: nat, used: bool, at: nat,
      coins: int)
    requires i < |b.txs| && VerifiedTo(es, spent, b, i, used, at, coins) && !(used && b.txs[i].IsCoinbase())
    requires TxOkBy(es, spent, b.txs[..i], b.txs[i], coins)
    ensures
      var last := if b.txs[i].IsCoinbase() then i else at;
      VerifiedTo(es, spent, b, i + 1, used || b.txs[i].IsCoinbase(), last, coins)
  {
  }

  lemma {:induction false} OneMorePrevious(txs: seq<Tx>, i: nat)
    requires i < |txs|
    ensures txs[..i] + [txs[i]] == txs[..i + 1]
  {
  }

  lemma {:induction false} AllSeen(es: seq<Entry>, spent: set<OutPoint>, b: Block, used: bool, at: nat, coins: int,
      min: int, max: int)
    requires min <= |b.txs| - 1 <= max && VerifiedTo(es, spent, b, |b.txs|, used, at, coins)
    ensures BlockAcceptableBy(es, spent, b, coins, min, max) <==> used
  {
    if used {
      assert CoinbaseAt(b, at);
    }
  }

  /** A transaction that pays the one output it spends on to others is accepted. */
  lemma {:induction false} OneInputOk(es: seq<Entry>, spent: set<OutPoint>, before: seq<Tx>, tx: Tx, coins: int)
    requires |tx.vin| == 1 && tx.vin[0].txid != NoTx && |tx.vout| == 1 && tx.vout[0].value >= 1 && tx.vin[0].vout >= 0
    requires Source(es, before, tx.vin[0].txid) != None
    requires tx.vin[0].vout < |Source(es, before, tx.vin[0].txid).value.vout|
    requires Source(es, before, tx.vin[0].txid).value.vout[tx.vin[0].vout] == TxOut(tx.vout[0].value, tx.signer)
    requires HasTx(es, tx.vin[0].txid) ==> tx.vin[0] !in spent
    ensures TxOkBy(es, spent, before, tx, coins)
  {
    assert InputOkBy(es, spent, before, tx.signer, tx.vin[0]) && Value(es, before, tx.vin[0]) == tx.vout[0].value;
    assert tx.vin[..0] == [] && tx.vout[..0] == [];
    assert SumIn(es, before, tx.vin[..0]) == 0 && SumOut(tx.vout[..0]) == 0;
  }

  /** One transaction of the block: no second reward, and verified. */
  method VerifyNext(db: DB, tx: Tx, prevTXs: seq<Tx>, prev: Hash, coinbaseused: bool, coins: int, ghost indexed: Blocks)
    returns (ok: bool)
    requires SoundLookup(db, indexed) && prev in db.blocks && prev != NoHash && Live(EntriesUnder(db.blocks, prev))
    ensures ok <==>
      !(tx.IsCoinbase() && coinbaseused) &&
      TxOkBy(EntriesUnder(db.blocks, prev), KnownSpent(db, prev), prevTXs, tx, coins)
  {
    if tx.IsCoinbase() && coinbaseused {
      return false;
    }
    ok := VerifyTransaction(db, tx, prevTXs, prev, coins, indexed);
  }

  /** VerifyBlock without proof of work, signatures and the SQL part. What it takes for
      spent is what the index knows of the branch. */
  method VerifyBlock(db: DB, block: Block, coins: int, min: int, max: int, ghost indexed: Blocks) returns (ok: bool)
    requires SoundLookup(db, indexed) && block.prev in db.blocks && block.prev != NoHash
    requires Live(EntriesUnder(db.blocks, block.prev))
    ensures var es, spent := EntriesUnder(db.blocks, block.prev), KnownSpent(db, block.prev);
      ok <==> BlockAcceptableBy(es, spent, block, coins, min, max)
  {
    ghost var es, spent := EntriesUnder(db.blocks, block.prev), KnownSpent(db, block.prev);
    var txnum := |block.txs| - 1;
    if txnum < min || txnum > max {
      return false;
    }
    var coinbaseused := false;
    ghost var at := 0;
    var prevTXs := [];
    for i := 0 to |block.txs|
      invariant prevTXs == block.txs[..i] && VerifiedTo(es, spent, block, i, coinbaseused, at, coins)
    {
      var tx := block.txs[i];
      var good := VerifyNext(db, tx, prevTXs, block.prev, coinbaseused, coins, indexed);
      if !good {
        RefusedAt(es, spent, block, i, coinbaseused, at, coins, min, max);
        return false;
      }
      OneMoreVerified(es, spent, block, i, coinbaseused, at, coins);
      coinbaseused, at := coinbaseused || tx.IsCoinbase(), if tx.IsCoinbase() then i else at;
      OneMorePrevious(block.txs, i);
      prevTXs := prevTXs + [tx];
    }
    AllSeen(es, spent, block, coinbaseused, at, coins, min, max);
    return coinbaseused;
  }
}
