/** The meaning of a branch for money: its transactions in order, applied one
    after the other to an initially empty set of unspent outputs. */
module Ledger {
  import opened Types

  datatype Coin = Coin(owner: KeyHash, value: int, block: Hash)

  type Utxo = map<OutPoint, Coin>

  /** A transaction together with the block that holds it. */
  datatype Entry = Entry(tx: Tx, block: Hash)

  /** Outputs without an address never become spendable. */
  function OutsOf(tx: Tx, block: Hash): Utxo
  {
    map i: int | 0 <= i < |tx.vout| && tx.vout[i].owner != NoKey ::
      OutPoint(tx.id, i) := Coin(tx.vout[i].owner, tx.vout[i].value, block)
  }

  function Names(vin: seq<OutPoint>): set<OutPoint>
  {
    set p | p in vin
  }

  function InsOf(tx: Tx): set<OutPoint>
  {
    if tx.IsCoinbase() then {} else Names(tx.vin)
  }

  function Apply(m: Utxo, e: Entry): Utxo
  {
    (m - InsOf(e.tx)) + OutsOf(e.tx, e.block)
  }

  function Fold(m: Utxo, es: seq<Entry>): Utxo
  {
    if es == [] then m else Apply(Fold(m, es[..|es| - 1]), es[|es| - 1])
  }

  function Spends(es: seq<Entry>): set<OutPoint>
  {
    if es == [] then {} else Spends(es[..|es| - 1]) + InsOf(es[|es| - 1].tx)
  }

  function BlockEntries(b: Block): (es: seq<Entry>)
    ensures |es| == |b.txs| && forall i | 0 <= i < |es| :: es[i] == Entry(b.txs[i], b.hash)
  {
    seq(|b.txs|, i requires 0 <= i < |b.txs| => Entry(b.txs[i], b.hash))
  }

  function PathEntries(p: seq<Block>): seq<Entry>
  {
    if p == [] then [] else PathEntries(p[..|p| - 1]) + BlockEntries(p[|p| - 1])
  }

  function UtxoOf(p: seq<Block>): Utxo
  {
    Fold(map[], PathEntries(p))
  }

  lemma {:induction false} FoldConcat(m: Utxo, a: seq<Entry>, b: seq<Entry>)
    ensures Fold(m, a + b) == Fold(Fold(m, a), b)
  {
    if b == [] {
      assert a + b == a;
    } else {
      assert (a + b)[..|a + b| - 1] == a + b[..|b| - 1];
      FoldConcat(m, a, b[..|b| - 1]);
    }
  }

  lemma {:induction false} SpendsConcat(a: seq<Entry>, b: seq<Entry>)
    ensures Spends(a + b) == Spends(a) + Spends(b)
  {
    if b == [] {
      assert a + b == a;
    } else {
      assert (a + b)[..|a + b| - 1] == a + b[..|b| - 1];
      SpendsConcat(a, b[..|b| - 1]);
    }
  }

  lemma {:induction false} Regroup<K, V>(m: map<K, V>, s: set<K>, f: map<K, V>, i: set<K>, o: map<K, V>)
    ensures (((m - s) + f) - i) + o == (m - (s + i)) + ((f - i) + o)
  {
    var l, r := (((m - s) + f) - i) + o, (m - (s + i)) + ((f - i) + o);
    assert l.Keys == r.Keys;
    forall k | k in l ensures l[k] == r[k] { }
  }

  /** Later entries act on what was there before only by spending it. */
  lemma {:induction false} FoldSplits(m: Utxo, es: seq<Entry>)
    ensures Fold(m, es) == (m - Spends(es)) + Fold(map[], es)
  {
    if es != [] {
      var init := es[..|es| - 1];
      FoldSplits(m, init);
      FoldSplits(map[], init);
      var e := es[|es| - 1];
      Regroup(m, Spends(init), Fold(map[], init), InsOf(e.tx), OutsOf(e.tx, e.block));
    }
  }

  /** What later entries did not create was there before. */
  lemma {:induction false} FromFront(es: seq<Entry>, cs: seq<Entry>, p: OutPoint)
    requires p in Fold(map[], es + cs) && p !in Fold(map[], cs)
    ensures p in Fold(map[], es)
  {
    FoldConcat(map[], es, cs);
    FoldSplits(Fold(map[], es), cs);
  }

  lemma {:induction false} OneEntry(e: Entry)
    ensures Fold(map[], [e]) == OutsOf(e.tx, e.block) && Spends([e]) == InsOf(e.tx)
  {
    assert [e][..0] == [];
    assert Fold(map[], [e]) == Apply(map[], e);
  }

  /** The backward view: in front of `es`, an entry contributes those of its
      outputs that `es` does not spend. */
  lemma {:induction false} FoldFront(e: Entry, es: seq<Entry>)
    ensures Fold(map[], [e] + es) == (OutsOf(e.tx, e.block) - Spends(es)) + Fold(map[], es)
    ensures Spends([e] + es) == InsOf(e.tx) + Spends(es)
  {
    FoldConcat(map[], [e], es);
    FoldSplits(Fold(map[], [e]), es);
    SpendsConcat([e], es);
    OneEntry(e);
  }

  lemma {:induction false} UtxoGrows(p: seq<Block>, b: Block)
    ensures UtxoOf(p + [b]) == Fold(UtxoOf(p), BlockEntries(b))
    ensures PathEntries(p + [b]) == PathEntries(p) + BlockEntries(b)
  {
    assert (p + [b])[..|p|] == p;
    FoldConcat(map[], PathEntries(p), BlockEntries(b));
  }

  // ----- branches on which every transaction is in order

  ghost predicate HasTx(es: seq<Entry>, id: TxId)
  {
    exists i | 0 <= i < |es| :: es[i].tx.id == id
  }

  /** A transaction may follow `es`: its id is new, and its inputs are different
      outputs that are unspent. */
  ghost predicate MayFollow(es: seq<Entry>, tx: Tx)
  {
    && tx.id != NoTx
    && !HasTx(es, tx.id)
    && InsOf(tx) <= Fold(map[], es).Keys
    && (!tx.IsCoinbase() ==> forall i, j | 0 <= i < j < |tx.vin| :: tx.vin[i] != tx.vin[j])
  }

  ghost predicate Live(es: seq<Entry>)
  {
    es == [] || (Live(es[..|es| - 1]) && MayFollow(es[..|es| - 1], es[|es| - 1].tx))
  }

  lemma {:induction false} LivePrefix(a: seq<Entry>, b: seq<Entry>)
    requires Live(a + b)
    ensures Live(a)
  {
    if b == [] {
      assert a + b == a;
    } else {
      assert (a + b)[..|a + b| - 1] == a + b[..|b| - 1];
      LivePrefix(a, b[..|b| - 1]);
    }
  }

  lemma {:induction false} LiveAt(es: seq<Entry>, i: nat)
    requires Live(es) && i < |es|
    ensures Live(es[..i]) && MayFollow(es[..i], es[i].tx)
  {
    assert es == es[..i + 1] + es[i + 1..];
    LivePrefix(es[..i + 1], es[i + 1..]);
    assert es[..i + 1][..i] == es[..i];
  }

  lemma {:induction false} FoldHasTx(es: seq<Entry>, p: OutPoint)
    requires p in Fold(map[], es)
    ensures HasTx(es, p.txid)
  {
    var init := es[..|es| - 1];
    if p in OutsOf(es[|es| - 1].tx, es[|es| - 1].block) {
      assert es[|es| - 1].tx.id == p.txid;
    } else {
      FoldHasTx(init, p);
      var i :| 0 <= i < |init| && init[i].tx.id == p.txid;
      assert es[i].tx.id == p.txid;
    }
  }

  /** On a live branch ids are unique. */
  lemma {:induction false} LiveIds(es: seq<Entry>, i: nat, j: nat)
    requires Live(es) && i < j < |es|
    ensures es[i].tx.id != es[j].tx.id
  {
    LiveAt(es, j);
    assert es[..j][i] == es[i];
  }

  /** No output is spent twice on a live branch, and never by its own transaction. */
  lemma {:induction false} NoDoubleSpend(es: seq<Entry>, i: nat, j: nat)
    requires Live(es) && i < j < |es|
    ensures InsOf(es[i].tx) !! InsOf(es[j].tx)
  {
    forall p | p in InsOf(es[i].tx) && p in InsOf(es[j].tx) ensures false {
      SpentStaysSpent(es, p, i, j);
      LiveAt(es, j);
    }
  }

  lemma {:induction false} SpentStaysSpent(es: seq<Entry>, p: OutPoint, i: nat, j: nat)
    requires Live(es) && i < j <= |es| && p in InsOf(es[i].tx)
    ensures p !in Fold(map[], es[..j])
    decreases j
  {
    FoldStep(es, j);
    if i < j - 1 {
      SpentStaysSpent(es, p, i, j - 1);
    }
    SpentWasCreated(es, p, i, j - 1);
  }

  lemma {:induction false} FoldStep(es: seq<Entry>, j: nat)
    requires 0 < j <= |es|
    ensures Fold(map[], es[..j]) == Apply(Fold(map[], es[..j - 1]), es[j - 1])
  {
    assert es[..j][..j - 1] == es[..j - 1];
  }

  /** No entry from the spending one on creates the output. */
  lemma {:induction false} SpentWasCreated(es: seq<Entry>, p: OutPoint, i: nat, j: nat)
    requires Live(es) && i <= j < |es| && p in InsOf(es[i].tx)
    ensures es[j].tx.id != p.txid
  {
    LiveAt(es, i);
    FoldHasTx(es[..i], p);
    var s :| 0 <= s < i && es[..i][s].tx.id == p.txid;
    LiveIds(es, s, j);
  }

  /** What an unspent output is, said without the fold: an output with an address
      of some entry that no entry spends. */
  lemma {:induction false} UnspentIff(es: seq<Entry>, k: nat, v: int)
    requires Live(es) && k < |es|
    ensures OutPoint(es[k].tx.id, v) in Fold(map[], es) <==>
      0 <= v < |es[k].tx.vout| && es[k].tx.vout[v].owner != NoKey && OutPoint(es[k].tx.id, v) !in Spends(es)
    ensures OutPoint(es[k].tx.id, v) in Fold(map[], es) ==>
      Fold(map[], es)[OutPoint(es[k].tx.id, v)] == Coin(es[k].tx.vout[v].owner, es[k].tx.vout[v].value, es[k].block)
  {
    var p := OutPoint(es[k].tx.id, v);
    FoldAround(es, k);
    SpentLater(es, p, k);
    CreatedOnce(es, p, k);
    var outs := OutsOf(es[k].tx, es[k].block);
    assert p in outs <==> 0 <= v < |es[k].tx.vout| && es[k].tx.vout[v].owner != NoKey;
  }

  /** The branch seen from one of its entries. */
  lemma {:induction false} FoldAround(es: seq<Entry>, k: nat)
    requires k < |es|
    ensures Fold(map[], es) == (Fold(map[], es[..k]) - (InsOf(es[k].tx) + Spends(es[k + 1..])))
      + ((OutsOf(es[k].tx, es[k].block) - Spends(es[k + 1..])) + Fold(map[], es[k + 1..]))
    ensures Spends(es) == Spends(es[..k]) + (InsOf(es[k].tx) + Spends(es[k + 1..]))
  {
    var e, post := es[k], es[k + 1..];
    assert es == es[..k] + ([e] + post);
    FoldConcat(map[], es[..k], [e] + post);
    FoldSplits(Fold(map[], es[..k]), [e] + post);
    FoldFront(e, post);
    SpendsConcat(es[..k], [e] + post);
  }

  /** No other entry creates outputs of this transaction. */
  lemma {:induction false} CreatedOnce(es: seq<Entry>, p: OutPoint, k: nat)
    requires Live(es) && k < |es| && p.txid == es[k].tx.id
    ensures p !in Fold(map[], es[..k]) && p !in Fold(map[], es[k + 1..])
  {
    LiveAt(es, k);
    if p in Fold(map[], es[..k]) {
      FoldHasTx(es[..k], p);
    }
    if p in Fold(map[], es[k + 1..]) {
      FoldHasTx(es[k + 1..], p);
      var j :| 0 <= j < |es[k + 1..]| && es[k + 1..][j].tx.id == p.txid;
      LiveIds(es, k, k + 1 + j);
    }
  }

  /** An entry's outputs are spent, if at all, by a later entry. */
  lemma {:induction false} SpentLater(es: seq<Entry>, p: OutPoint, k: nat)
    requires Live(es) && k < |es| && p.txid == es[k].tx.id
    ensures p !in Spends(es[..k]) && p !in InsOf(es[k].tx)
  {
    if p in Spends(es[..k]) {
      var i := SpenderOf(es[..k], p);
      LiveAt(es, i);
      FoldHasTx(es[..i], p);
      var s :| 0 <= s < i && es[..i][s].tx.id == p.txid;
      LiveIds(es, s, k);
    }
    if p in InsOf(es[k].tx) {
      LiveAt(es, k);
      FoldHasTx(es[..k], p);
    }
  }

  lemma {:induction false} SpenderOf(es: seq<Entry>, p: OutPoint) returns (i: nat)
    requires p in Spends(es)
    ensures i < |es| && p in InsOf(es[i].tx)
  {
    if p in InsOf(es[|es| - 1].tx) {
      i := |es| - 1;
    } else {
      i := SpenderOf(es[..|es| - 1], p);
    }
  }

  lemma {:induction false} SpendsAt(es: seq<Entry>, i: nat)
    requires i < |es|
    ensures InsOf(es[i].tx) <= Spends(es)
  {
    if i < |es| - 1 {
      SpendsAt(es[..|es| - 1], i);
    }
  }

  /** Every entry after a branch may follow what is in front of it. */
  lemma {:induction false} FollowsAt(es: seq<Entry>, more: seq<Entry>, k: nat)
    requires Live(es + more) && k < |more|
    ensures Live(es + more[..k]) && MayFollow(es + more[..k], more[k].tx)
  {
    assert es + more == (es + more[..k] + [more[k]]) + more[k + 1..];
    LivePrefix(es + more[..k] + [more[k]], more[k + 1..]);
    Snoc(es + more[..k], more[k]);
  }

  // ----- part of a block on top of a branch

  ghost function Upto(es: seq<Entry>, b: Block, i: nat): seq<Entry>
    requires i <= |b.txs|
  {
    es + BlockEntries(b)[..i]
  }

  lemma {:induction false} Snoc(es: seq<Entry>, e: Entry)
    ensures Live(es + [e]) <==> Live(es) && MayFollow(es, e.tx)
    ensures Fold(map[], es + [e]) == Apply(Fold(map[], es), e)
    ensures Spends(es + [e]) == Spends(es) + InsOf(e.tx)
  {
    assert (es + [e])[..|es|] == es;
  }

  lemma {:induction false} UptoEnds(es: seq<Entry>, b: Block)
    ensures Upto(es, b, 0) == es && Upto(es, b, |b.txs|) == es + BlockEntries(b)
  {
    assert BlockEntries(b)[..|b.txs|] == BlockEntries(b);
  }

  lemma {:induction false} UptoNext(es: seq<Entry>, b: Block, i: nat)
    requires i < |b.txs|
    ensures Upto(es, b, i + 1) == Upto(es, b, i) + [Entry(b.txs[i], b.hash)]
    ensures Live(Upto(es, b, i + 1)) <==> Live(Upto(es, b, i)) && MayFollow(Upto(es, b, i), b.txs[i])
  {
    Snoc(Upto(es, b, i), Entry(b.txs[i], b.hash));
  }

  lemma {:induction false} UptoLive(es: seq<Entry>, b: Block, i: nat)
    requires Live(es + BlockEntries(b)) && i <= |b.txs|
    ensures Live(Upto(es, b, i)) && Live(es)
  {
    var bs := BlockEntries(b);
    assert es + bs == Upto(es, b, i) + bs[i..];
    LivePrefix(Upto(es, b, i), bs[i..]);
    LivePrefix(es, bs[..i]);
  }

  /** Where the entries of a branch with part of a block come from. */
  lemma {:induction false} UptoAt(es: seq<Entry>, b: Block, i: nat, k: nat)
    requires i <= |b.txs| && k < |es| + i
    ensures |Upto(es, b, i)| == |es| + i
    ensures Upto(es, b, i)[k] == if k < |es| then es[k] else Entry(b.txs[k - |es|], b.hash)
  {
  }
}
