/** Choosing unspent outputs for a payment: smallest first. */
module CoinSelection {
  import opened Types
  import opened Database
  import opened Ledger
  import opened Money
  import opened UnspentOutputs

  function PointOf(o: UnspentOut): OutPoint
  {
    OutPoint(o.txid, o.index)
  }

  function Points(outs: seq<UnspentOut>): (ps: seq<OutPoint>)
    ensures |ps| == |outs| && forall i | 0 <= i < |outs| :: ps[i] == PointOf(outs[i])
  {
    seq(|outs|, i requires 0 <= i < |outs| => PointOf(outs[i]))
  }

  function SumValues(outs: seq<UnspentOut>): int
  {
    if outs == [] then 0 else SumValues(outs[..|outs| - 1]) + outs[|outs| - 1].value
  }

  /** The outputs of `m` that belong to an owner and are not in `used`. */
  ghost function Mine(m: Utxo, owner: KeyHash, used: set<OutPoint>): Utxo
  {
    map p | p in m && m[p].owner == owner && p !in used :: m[p]
  }

  ghost predicate RecordOf(o: UnspentOut, n: Utxo)
  {
    PointOf(o) in n && n[PointOf(o)] == Coin(o.owner, o.value, o.block)
  }

  ghost predicate HasPoint(outs: seq<UnspentOut>, p: OutPoint)
  {
    exists k | 0 <= k < |outs| :: PointOf(outs[k]) == p
  }

  /** The list holds every output of `n`, once, and nothing else. */
  ghost predicate Lists(outs: seq<UnspentOut>, n: Utxo)
  {
    && (forall k | 0 <= k < |outs| :: RecordOf(outs[k], n))
    && (forall i, j | 0 <= i < j < |outs| :: PointOf(outs[i]) != PointOf(outs[j]))
    && (forall p | p in n :: HasPoint(outs, p))
  }

  lemma {:induction false} ListedTotal(outs: seq<UnspentOut>, n: Utxo)
    requires Lists(outs, n)
    ensures SumValues(outs) == Total(n)
  {
    if outs == [] {
      assert forall p :: p in n ==> HasPoint(outs, p);
      assert n == map[];
    } else {
      var init, last := outs[..|outs| - 1], outs[|outs| - 1];
      assert RecordOf(last, n);
      WithoutLast(outs, n);
      ListedTotal(init, n - {PointOf(last)});
      TotalRemove(n, PointOf(last));
    }
  }

  lemma {:induction false} WithoutLast(outs: seq<UnspentOut>, n: Utxo)
    requires outs != [] && Lists(outs, n)
    ensures Lists(outs[..|outs| - 1], n - {PointOf(outs[|outs| - 1])})
  {
    var init, p := outs[..|outs| - 1], PointOf(outs[|outs| - 1]);
    forall k | 0 <= k < |init| ensures RecordOf(init[k], n - {p}) {
      assert RecordOf(outs[k], n);
    }
    forall q | q in n - {p} ensures HasPoint(init, q) {
      assert HasPoint(outs, q);
      var k :| 0 <= k < |outs| && PointOf(outs[k]) == q;
      assert PointOf(init[k]) == q;
    }
  }

  lemma {:induction false} ListsJoin(a: seq<UnspentOut>, x: Utxo, b: seq<UnspentOut>, y: Utxo)
    requires Lists(a, x) && Lists(b, y) && x.Keys !! y.Keys
    ensures Lists(a + b, x + y)
  {
    var c, z := a + b, x + y;
    forall k | 0 <= k < |c| ensures RecordOf(c[k], z) {
      assert if k < |a| then RecordOf(a[k], x) else RecordOf(b[k - |a|], y);
    }
    forall i, j | 0 <= i < j < |c| ensures PointOf(c[i]) != PointOf(c[j]) {
      if i < |a| <= j {
        assert RecordOf(a[i], x) && RecordOf(b[j - |a|], y);
      }
    }
    forall p | p in z ensures HasPoint(c, p) {
      if p in y {
        assert HasPoint(b, p);
        var k :| 0 <= k < |b| && PointOf(b[k]) == p;
        assert PointOf(c[|a| + k]) == p;
      } else {
        assert HasPoint(a, p);
        var k :| 0 <= k < |a| && PointOf(a[k]) == p;
        assert PointOf(c[k]) == p;
      }
    }
  }

  // ----- collecting

  ghost function OfTxs(n: Utxo, ids: set<TxId>): Utxo
  {
    map p | p in n && p.txid in ids :: n[p]
  }

  predicate Wanted(o: UnspentOut, owner: KeyHash, pending: seq<OutPoint>)
  {
    o.owner == owner && PointOf(o) !in pending
  }

  /** The wanted records of one transaction's list. */
  method WantedOf(list: seq<UnspentOut>, owner: KeyHash, pending: seq<OutPoint>, ghost id: TxId, ghost m: Utxo)
    returns (outs: seq<UnspentOut>)
    requires ListOk(list, id, m)
    ensures Lists(outs, OfTxs(Mine(m, owner, Names(pending)), {id}))
  {
    outs := [];
    for i := 0 to |list|
      invariant forall o :: o in outs <==> o in list[..i] && Wanted(o, owner, pending)
      invariant forall a, b | 0 <= a < b < |outs| :: outs[a].index != outs[b].index
    {
      if Wanted(list[i], owner, pending) {
        forall a | 0 <= a < |outs| ensures outs[a].index != list[i].index {
          assert outs[a] in list[..i];
        }
        outs := outs + [list[i]];
      }
    }
    assert list[..|list|] == list;
    WantedAreListed(list, outs, owner, pending, id, m);
  }

  lemma {:induction false} WantedAreListed(list: seq<UnspentOut>, outs: seq<UnspentOut>, owner: KeyHash,
      pending: seq<OutPoint>, id: TxId, m: Utxo)
    requires ListOk(list, id, m)
    requires forall o :: o in outs <==> o in list && Wanted(o, owner, pending)
    requires forall a, b | 0 <= a < b < |outs| :: outs[a].index != outs[b].index
    ensures Lists(outs, OfTxs(Mine(m, owner, Names(pending)), {id}))
  {
    var n := OfTxs(Mine(m, owner, Names(pending)), {id});
    forall k | 0 <= k < |outs| ensures RecordOf(outs[k], n) {
      assert outs[k] in list;
      var j :| 0 <= j < |list| && list[j] == outs[k];
      assert OutOk(list[j], id, m);
    }
    forall p | p in n ensures HasPoint(outs, p) {
      assert OutPoint(id, p.vout) == p && HasIndex(list, p.vout);
      var j :| 0 <= j < |list| && list[j].index == p.vout;
      assert OutOk(list[j], id, m) && list[j] in outs;
      var k :| 0 <= k < |outs| && outs[k] == list[j];
      assert PointOf(outs[k]) == p;
    }
  }

  /** The first part of ChooseSpendableOutputs: all records, in any order. */
  method SpendableOutputs(db: DB, owner: KeyHash, pending: seq<OutPoint>, ghost m: Utxo) returns (outs: seq<UnspentOut>)
    requires Represents(db.unspent, m)
    ensures Lists(outs, Mine(m, owner, Names(pending)))
  {
    ghost var n := Mine(m, owner, Names(pending));
    outs := [];
    var left := db.unspent.Keys;
    while left != {}
      invariant left <= db.unspent.Keys
      invariant Lists(outs, OfTxs(n, db.unspent.Keys - left))
      decreases left
    {
      var id :| id in left;
      assert ListOk(ListAt(db.unspent, id), id, m);
      var more := WantedOf(db.unspent[id], owner, pending, id, m);
      ListsJoin(outs, OfTxs(n, db.unspent.Keys - left), more, OfTxs(n, {id}));
      OneMoreTxId(n, db.unspent.Keys - left, id);
      assert db.unspent.Keys - (left - {id}) == db.unspent.Keys - left + {id};
      outs := outs + more;
      left := left - {id};
    }
    AllTxIds(db.unspent, m, n);
  }

  lemma {:induction false} OneMoreTxId(n: Utxo, ids: set<TxId>, id: TxId)
    ensures OfTxs(n, ids) + OfTxs(n, {id}) == OfTxs(n, ids + {id})
  {
  }

  lemma {:induction false} AllTxIds(t: Table, m: Utxo, n: Utxo)
    requires Represents(t, m) && n.Keys <= m.Keys
    ensures OfTxs(n, t.Keys - {}) == n
  {
    forall p | p in n ensures p.txid in t {
      assert ListOk(ListAt(t, p.txid), p.txid, m);
      assert OutPoint(p.txid, p.vout) == p && HasIndex(ListAt(t, p.txid), p.vout);
    }
    assert OfTxs(n, t.Keys - {}).Keys == n.Keys;
  }

  // ----- sorting by value

  ghost predicate Ascending(outs: seq<UnspentOut>)
  {
    forall i, j | 0 <= i < j < |outs| :: outs[i].value <= outs[j].value
  }

  function Insert(o: UnspentOut, s: seq<UnspentOut>): (r: seq<UnspentOut>)
    requires Ascending(s)
    ensures Ascending(r) && multiset(r) == multiset(s) + multiset{o}
  {
    if s == [] || o.value <= s[0].value then
      assert [o] + s == [o] + s;
      [o] + s
    else
      var rest := Insert(o, s[1..]);
      assert s == [s[0]] + s[1..];
      InsertAbove(s[0], o, s[1..], rest);
      [s[0]] + rest
  }

  lemma {:induction false} InsertAbove(low: UnspentOut, o: UnspentOut, s: seq<UnspentOut>, r: seq<UnspentOut>)
    requires multiset(r) == multiset(s) + multiset{o} && Ascending(r)
    requires low.value <= o.value && forall i | 0 <= i < |s| :: low.value <= s[i].value
    ensures Ascending([low] + r)
  {
    forall i | 0 <= i < |r| ensures low.value <= r[i].value {
      assert r[i] in multiset(r);
      assert r[i] == o || r[i] in s;
    }
  }

  /** The library's sort by value. */
  function SortByValue(s: seq<UnspentOut>): (r: seq<UnspentOut>)
    ensures Ascending(r) && multiset(r) == multiset(s)
  {
    if s == [] then []
    else
      assert s == s[..|s| - 1] + [s[|s| - 1]];
      Insert(s[|s| - 1], SortByValue(s[..|s| - 1]))
  }

  lemma {:induction false} SortedLists(s: seq<UnspentOut>, r: seq<UnspentOut>, n: Utxo)
    requires Lists(s, n) && multiset(r) == multiset(s)
    ensures Lists(r, n) && SumValues(r) == SumValues(s)
  {
    forall k | 0 <= k < |r| ensures RecordOf(r[k], n) {
      assert r[k] in multiset(s);
      assert r[k] in s;
    }
    forall p | p in n ensures HasPoint(r, p) {
      assert HasPoint(s, p);
      var k :| 0 <= k < |s| && PointOf(s[k]) == p;
      assert s[k] in multiset(r);
      var j :| 0 <= j < |r| && r[j] == s[k];
      assert PointOf(r[j]) == p;
    }
    forall i, j | 0 <= i < j < |r| ensures PointOf(r[i]) != PointOf(r[j]) {
      OncePerPoint(s, r, n, i, j);
    }
    ListedTotal(s, n);
    ListedTotal(r, n);
  }

  lemma {:induction false} OncePerPoint(s: seq<UnspentOut>, r: seq<UnspentOut>, n: Utxo, i: nat, j: nat)
    requires Lists(s, n) && multiset(r) == multiset(s) && i < j < |r|
    ensures PointOf(r[i]) != PointOf(r[j])
  {
    assert r[i] in multiset(s) && r[j] in multiset(s);
    TwiceInside(r, i, j);
    OnceInside(s, r[i]);
    var a :| 0 <= a < |s| && s[a] == r[i];
    var b :| 0 <= b < |s| && s[b] == r[j];
    assert a != b;
  }

  lemma {:induction false} TwiceInside(r: seq<UnspentOut>, i: nat, j: nat)
    requires i < j < |r|
    ensures r[i] == r[j] ==> multiset(r)[r[i]] >= 2
  {
    assert r == r[..j] + [r[j]] + r[j + 1..];
    assert r[..j][i] == r[i];
    assert r[i] in multiset(r[..j]);
  }

  lemma {:induction false} OnceInside(s: seq<UnspentOut>, o: UnspentOut)
    requires forall i, j | 0 <= i < j < |s| :: PointOf(s[i]) != PointOf(s[j])
    ensures multiset(s)[o] <= 1
  {
    if s != [] {
      var init := s[..|s| - 1];
      OnceInside(init, o);
      assert s == init + [s[|s| - 1]];
      if s[|s| - 1] == o {
        assert forall k | 0 <= k < |init| :: init[k] != o;
        assert o !in init;
      }
    }
  }

  // ----- choosing

  /** What a choice of outputs is, seen against all of them in ascending order. */
  ghost predicate Chosen(all: seq<UnspentOut>, amount: int, chosen: seq<UnspentOut>)
  {
    && Ascending(all) && chosen <= all
    && (SumValues(all) < amount ==> chosen == all)
    && (SumValues(all) >= amount ==> SumValues(chosen) >= amount)
    && (SumValues(all) >= amount > 0 ==> chosen != [] && SumValues(chosen[..|chosen| - 1]) < amount)
  }

  /** ChooseSpendableOutputs: when all outputs together do not reach the amount,
      all of them; else the smallest ones until it is reached. */
  method ChooseSpendableOutputs(db: DB, owner: KeyHash, amount: int, pending: seq<OutPoint>, ghost m: Utxo)
    returns (accumulated: int, chosen: seq<UnspentOut>, ghost all: seq<UnspentOut>)
    requires Represents(db.unspent, m)
    ensures Lists(all, Mine(m, owner, Names(pending)))
    ensures accumulated == SumValues(chosen)
    ensures SumValues(all) < amount ==> chosen == all
    ensures SumValues(all) >= amount ==> Chosen(all, amount, chosen)
  {
    ghost var n := Mine(m, owner, Names(pending));
    var outs := SpendableOutputs(db, owner, pending, m);
    accumulated := TotalOfOutputs(outs);
    if accumulated < amount {
      return accumulated, outs, outs;
    }
    var sorted := SortByValue(outs);
    SortedLists(outs, sorted, n);
    all := sorted;
    accumulated, chosen := TakeUntil(sorted, amount);
  }

  /** The last loop: from the smallest output on, until the amount is reached. */
  method TakeUntil(sorted: seq<UnspentOut>, amount: int) returns (accumulated: int, chosen: seq<UnspentOut>)
    requires Ascending(sorted) && SumValues(sorted) >= amount
    ensures accumulated == SumValues(chosen) && Chosen(sorted, amount, chosen)
  {
    accumulated, chosen := 0, [];
    for k := 0 to |sorted|
      invariant chosen == sorted[..k] && accumulated == SumValues(chosen)
      invariant k > 0 ==> accumulated < amount
    {
      ghost var before := chosen;
      accumulated := accumulated + sorted[k].value;
      chosen := chosen + [sorted[k]];
      assert chosen[..k] == before;
      if accumulated >= amount {
        return;
      }
    }
    assert chosen == sorted;
  }

  method TotalOfOutputs(outs: seq<UnspentOut>) returns (total: int)
    ensures total == SumValues(outs)
  {
    total := 0;
    for i := 0 to |outs|
      invariant total == SumValues(outs[..i])
    {
      assert outs[..i + 1][..i] == outs[..i];
      total := total + outs[i].value;
    }
    assert outs[..|outs|] == outs;
  }

  // ----- smallest first uses the most outputs

  /** Value of the outputs at some positions. */
  ghost function SumAt(all: seq<UnspentOut>, picks: set<nat>, n: nat): int
    requires n <= |all|
  {
    if n == 0 then 0 else SumAt(all, picks, n - 1) + (if n - 1 in picks then all[n - 1].value else 0)
  }

  ghost predicate Positions(all: seq<UnspentOut>, picks: set<nat>)
  {
    forall i | i in picks :: 0 <= i < |all|
  }

  /** The picked outputs reach the amount, and none of them can be left out. */
  ghost predicate Irredundant(all: seq<UnspentOut>, amount: int, picks: set<nat>)
  {
    && SumAt(all, picks, |all|) >= amount
    && forall i | i in picks :: SumAt(all, picks - {i}, |all|) < amount
  }

  /** Any k outputs are worth at least the k smallest. */
  lemma {:induction false} SmallestAreLeast(all: seq<UnspentOut>, picks: set<nat>, n: nat, k: nat)
    requires Ascending(all) && n <= |all| && forall i | 0 <= i < |all| :: all[i].value >= 0
    requires (forall i | i in picks :: 0 <= i < n) && |picks| >= k
    ensures k <= n && SumAt(all, picks, n) >= SumValues(all[..k])
  {
    if n == 0 {
      assert forall i :: i !in picks;
      assert picks == {};
    } else if n - 1 in picks {
      SameBelow(all, picks, n - 1);
      if k > 0 {
        SmallestAreLeast(all, picks - {n - 1}, n - 1, k - 1);
        assert all[..k][..k - 1] == all[..k - 1];
      } else {
        SmallestAreLeast(all, picks - {n - 1}, n - 1, 0);
      }
    } else {
      SmallestAreLeast(all, picks, n - 1, k);
    }
  }

  lemma {:induction false} SameBelow(all: seq<UnspentOut>, picks: set<nat>, n: nat)
    requires n < |all|
    ensures SumAt(all, picks - {n}, n) == SumAt(all, picks, n)
  {
    SameOnPrefix(all, picks - {n}, picks, n);
  }

  lemma {:induction false} SameOnPrefix(all: seq<UnspentOut>, a: set<nat>, b: set<nat>, n: nat)
    requires n <= |all| && forall i | 0 <= i < n :: i in a <==> i in b
    ensures SumAt(all, a, n) == SumAt(all, b, n)
  {
    if n > 0 {
      SameOnPrefix(all, a, b, n - 1);
    }
  }

  /** With more outputs than the choice has, one is superfluous. */
  lemma {:induction false} MoreHasSpare(all: seq<UnspentOut>, amount: int, chosen: seq<UnspentOut>, picks: set<nat>)
    returns (i: nat)
    requires Chosen(all, amount, chosen) && SumValues(all) >= amount
    requires forall i | 0 <= i < |all| :: all[i].value >= 0
    requires Positions(all, picks) && |picks| > |chosen|
    ensures i in picks && SumAt(all, picks - {i}, |all|) >= amount
  {
    assert picks != {};
    i :| i in picks;
    SmallestAreLeast(all, picks - {i}, |all|, |chosen|);
    assert all[..|chosen|] == chosen;
  }

  /** No set of outputs that reaches the amount without a superfluous member has
      more members than the choice. */
  lemma {:induction false} NoneUsesMore(all: seq<UnspentOut>, amount: int, chosen: seq<UnspentOut>, picks: set<nat>)
    requires Chosen(all, amount, chosen) && SumValues(all) >= amount
    requires forall i | 0 <= i < |all| :: all[i].value >= 0
    requires Positions(all, picks) && Irredundant(all, amount, picks)
    ensures |picks| <= |chosen|
  {
    if |picks| > |chosen| {
      var i := MoreHasSpare(all, amount, chosen, picks);
    }
  }
}
