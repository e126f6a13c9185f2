/** The cascade of cancellations as an order: what has to go from the pool before a
    block is executed, and in which orders it can be found. */
module CascadeOrder {
  import opened Types
  import opened SqlHistory
  import opened Pool

  // ----- what has to go

  /** A pending transaction in conflict with an SQL transaction of the block. */
  ghost predicate Hits(pool: Txs, txs: seq<Tx>, t: nat, id: TxId)
  {
    t < |txs| && id in pool && txs[t].sql != NoSql && Conflict(txs[t], pool[id])
  }

  ghost predicate Direct(pool: Txs, txs: seq<Tx>, id: TxId)
  {
    exists t :: Hits(pool, txs, t, id)
  }

  /** With a transaction the set holds all that are based on it. */
  ghost predicate Downward(pool: Txs, s: set<TxId>)
  {
    forall id | id in s :: BasedOn(pool, id) <= s
  }

  /** The set holds everything that has to go. */
  ghost predicate ClosedSet(pool: Txs, txs: seq<Tx>, s: set<TxId>)
  {
    Downward(pool, s) && forall id | Direct(pool, txs, id) :: id in s
  }

  /** And nothing else. */
  ghost predicate LeastClosedSet(pool: Txs, txs: seq<Tx>, s: set<TxId>)
  {
    ClosedSet(pool, txs, s) && forall u | ClosedSet(pool, txs, u) :: s <= u
  }

  ghost predicate Sub(now: Txs, start: Txs)
  {
    forall id | id in now :: id in start && now[id] == start[id]
  }

  ghost function Gone(start: Txs, now: Txs): set<TxId>
  {
    start.Keys - now.Keys
  }

  function Members(order: seq<TxId>): set<TxId>
  {
    set id | id in order
  }

  // ----- orders of cancellation

  /** Running the undo statements of pending transactions in the given order. */
  function UndoRun(rows: Rows, pool: Txs, order: seq<TxId>): Option<Rows>
  {
    if order == [] then Some(rows)
    else
      var before, id := UndoRun(rows, pool, order[..|order| - 1]), order[|order| - 1];
      if before == None || id !in pool then None else Undo(before.value, pool[id].sql)
  }

  /** What conflicts with the first transactions of the block is cancelled. */
  ghost predicate EarlierGone(pool: Txs, txs: seq<Tx>, t: nat, before: seq<TxId>)
  {
    forall u: nat, x | u < t && Hits(pool, txs, u, x) :: x in before
  }

  /** First the conflicts are found, transaction by transaction of the block. */
  ghost predicate FoundAt(pool: Txs, txs: seq<Tx>, before: seq<TxId>, id: TxId, t: nat)
  {
    Hits(pool, txs, t, id) && EarlierGone(pool, txs, t, before)
  }

  ghost predicate DirectGone(pool: Txs, txs: seq<Tx>, before: seq<TxId>)
  {
    forall x | Direct(pool, txs, x) :: x in before
  }

  ghost predicate FollowersGone(pool: Txs, before: seq<TxId>, j: nat)
    requires j <= |before|
  {
    forall i | 0 <= i < j :: BasedOn(pool, before[i]) <= Members(before)
  }

  /** Then what is based on cancelled ones, in the order of their cancellation. */
  ghost predicate FoundOn(pool: Txs, txs: seq<Tx>, before: seq<TxId>, id: TxId, j: nat)
  {
    j < |before| && id in BasedOn(pool, before[j]) && DirectGone(pool, txs, before) && FollowersGone(pool, before, j)
  }

  ghost predicate FoundAfter(pool: Txs, txs: seq<Tx>, before: seq<TxId>, id: TxId)
  {
    && id in pool && id !in before
    && ((exists t :: FoundAt(pool, txs, before, id, t)) || (exists j :: FoundOn(pool, txs, before, id, j)))
  }

  /** An order in which the cascade may cancel. */
  ghost predicate Discovered(pool: Txs, txs: seq<Tx>, order: seq<TxId>)
  {
    order == [] ||
    (Discovered(pool, txs, order[..|order| - 1]) && FoundAfter(pool, txs, order[..|order| - 1], order[|order| - 1]))
  }

  lemma {:induction false} OneMoreFound(rows: Rows, pool: Txs, txs: seq<Tx>, order: seq<TxId>, id: TxId)
    ensures Discovered(pool, txs, order + [id]) <==> Discovered(pool, txs, order) && FoundAfter(pool, txs, order, id)
    ensures UndoRun(rows, pool, order + [id]) ==
      if UndoRun(rows, pool, order) == None || id !in pool
        then None else Undo(UndoRun(rows, pool, order).value, pool[id].sql)
  {
    assert (order + [id])[..|order|] == order;
  }

  lemma {:induction false} OneMoreMember(order: seq<TxId>, id: TxId)
    ensures Members(order + [id]) == Members(order) + {id} && (id in Members(order) <==> id in order)
  {
  }

  lemma {:induction false} FoundOnce(pool: Txs, txs: seq<Tx>, order: seq<TxId>)
    requires Discovered(pool, txs, order)
    ensures |order| == |Members(order)|
  {
    if order != [] {
      var init, last := order[..|order| - 1], order[|order| - 1];
      FoundOnce(pool, txs, init);
      assert order == init + [last];
      OneMoreMember(init, last);
    }
  }

  /** Each member was found after those before it. */
  lemma {:induction false} DiscoveredAt(pool: Txs, txs: seq<Tx>, order: seq<TxId>, j: nat)
    requires Discovered(pool, txs, order) && j < |order|
    ensures Discovered(pool, txs, order[..j]) && FoundAfter(pool, txs, order[..j], order[j])
  {
    if j < |order| - 1 {
      DiscoveredAt(pool, txs, order[..|order| - 1], j);
      assert order[..|order| - 1][..j] == order[..j];
    }
  }

  /** Whatever was found lies in every closed set. */
  lemma {:induction false} FoundInClosed(pool: Txs, txs: seq<Tx>, order: seq<TxId>, u: set<TxId>)
    requires Discovered(pool, txs, order) && ClosedSet(pool, txs, u)
    ensures forall id | id in order :: id in u && id in pool
    ensures forall id | FoundAfter(pool, txs, order, id) :: id in u
  {
    if order != [] {
      var init, last := order[..|order| - 1], order[|order| - 1];
      FoundInClosed(pool, txs, init, u);
      assert order == init + [last];
    }
    forall id | FoundAfter(pool, txs, order, id) ensures id in u {
      NextInClosed(pool, txs, order, id, u);
    }
  }

  lemma {:induction false} NextInClosed(pool: Txs, txs: seq<Tx>, order: seq<TxId>, id: TxId, u: set<TxId>)
    requires ClosedSet(pool, txs, u) && FoundAfter(pool, txs, order, id) && forall x | x in order :: x in u
    ensures id in u
  {
    if t: nat :| FoundAt(pool, txs, order, id, t) {
      assert Direct(pool, txs, id);
    } else {
      var j: nat :| FoundOn(pool, txs, order, id, j);
      assert order[j] in order && BasedOn(pool, order[j]) <= u;
    }
  }

  // ----- ranks

  /** How many bases lead to a conflict with the block, and with which of its
      transactions that conflict is. */
  datatype Ranks = Ranks(depth: map<TxId, nat>, root: map<TxId, nat>)

  ghost predicate FirstHit(pool: Txs, txs: seq<Tx>, id: TxId, t: nat)
  {
    Hits(pool, txs, t, id) && forall u: nat | u < t :: !Hits(pool, txs, u, id)
  }

  ghost predicate RankOk(pool: Txs, txs: seq<Tx>, s: set<TxId>, ranks: Ranks, x: TxId)
  {
    && x in pool && x in ranks.depth && x in ranks.root
    && if Direct(pool, txs, x) then ranks.depth[x] == 0 && FirstHit(pool, txs, x, ranks.root[x])
       else
         var y := pool[x].base;
         && pool[x].sql != NoSql && y in s && y in ranks.depth && y in ranks.root
         && ranks.depth[x] == ranks.depth[y] + 1 && ranks.root[x] == ranks.root[y]
  }

  ghost predicate RanksOk(pool: Txs, txs: seq<Tx>, s: set<TxId>, ranks: Ranks)
  {
    forall x | x in s :: RankOk(pool, txs, s, ranks, x)
  }

  /** Closer to the conflict, or as close to one with an earlier transaction. */
  predicate Less(ranks: Ranks, a: TxId, b: TxId)
  {
    && a in ranks.depth && b in ranks.depth && a in ranks.root && b in ranks.root
    && (ranks.depth[a] < ranks.depth[b] || (ranks.depth[a] == ranks.depth[b] && ranks.root[a] < ranks.root[b]))
  }

  /** What has a lower rank is found before. */
  lemma {:induction false} LowerFirst(pool: Txs, txs: seq<Tx>, order: seq<TxId>, s: set<TxId>, ranks: Ranks, d: TxId,
      x: TxId)
    requires Discovered(pool, txs, order) && FoundAfter(pool, txs, order, x) && RanksOk(pool, txs, s, ranks)
    requires d in s && x in s && Members(order) <= s && Less(ranks, d, x)
    ensures d in order
    decreases |order|
  {
    assert RankOk(pool, txs, s, ranks, d) && RankOk(pool, txs, s, ranks, x);
    if t: nat :| FoundAt(pool, txs, order, x, t) {
      assert Direct(pool, txs, x);
      assert !(ranks.root[x] < t) && !(t < ranks.root[x]);
    } else {
      var j: nat :| FoundOn(pool, txs, order, x, j);
      if !Direct(pool, txs, d) {
        LowerBase(pool, txs, order, s, ranks, d, x, j);
      }
    }
  }

  lemma {:induction false} LowerBase(pool: Txs, txs: seq<Tx>, order: seq<TxId>, s: set<TxId>, ranks: Ranks, d: TxId,
      x: TxId, j: nat)
    requires Discovered(pool, txs, order) && FoundOn(pool, txs, order, x, j) && RanksOk(pool, txs, s, ranks)
    requires d in s && x in s && Members(order) <= s && Less(ranks, d, x) && x !in order && !Direct(pool, txs, d)
    ensures d in order
    decreases |order|, 0
  {
    assert RankOk(pool, txs, s, ranks, d) && RankOk(pool, txs, s, ranks, x);
    var y, z := order[j], pool[d].base;
    assert !Direct(pool, txs, x) && y == pool[x].base && y in Members(order);
    assert RankOk(pool, txs, s, ranks, y) && RankOk(pool, txs, s, ranks, z) && Less(ranks, z, y);
    DiscoveredAt(pool, txs, order, j);
    assert Members(order[..j]) <= Members(order);
    LowerFirst(pool, txs, order[..j], s, ranks, z, y);
    var i :| 0 <= i < j && order[..j][i] == z;
    assert order[i] == z && d in BasedOn(pool, z);
  }

  /** Whatever was found has a rank. */
  lemma {:induction false} RanksOfOrder(pool: Txs, txs: seq<Tx>, order: seq<TxId>) returns (ranks: Ranks)
    requires Discovered(pool, txs, order)
    ensures RanksOk(pool, txs, Members(order), ranks) && ranks.depth.Keys == ranks.root.Keys == Members(order)
  {
    if order == [] {
      ranks := Ranks(map[], map[]);
    } else {
      var init, last := order[..|order| - 1], order[|order| - 1];
      InitAndLast(order);
      OneMoreMember(init, last);
      var before := RanksOfOrder(pool, txs, init);
      var depth, root := RankOfNext(pool, txs, init, last, before);
      ranks := Ranks(before.depth[last := depth], before.root[last := root]);
      NextRankOk(pool, txs, init, last, before, ranks);
      RanksGrow(pool, txs, Members(init), before, last, ranks);
    }
  }

  lemma {:induction false} NextRankOk(pool: Txs, txs: seq<Tx>, order: seq<TxId>, id: TxId, before: Ranks, ranks: Ranks)
    requires FoundAfter(pool, txs, order, id) && before.depth.Keys == before.root.Keys == Members(order)
    requires id in ranks.depth && id in ranks.root && id !in Members(order)
    requires ranks == Ranks(before.depth[id := ranks.depth[id]], before.root[id := ranks.root[id]])
    requires if Direct(pool, txs, id) then ranks.depth[id] == 0 && FirstHit(pool, txs, id, ranks.root[id])
      else
        && pool[id].sql != NoSql && pool[id].base in Members(order)
        && ranks.depth[id] == before.depth[pool[id].base] + 1 && ranks.root[id] == before.root[pool[id].base]
    ensures RankOk(pool, txs, Members(order), ranks, id)
  {
  }

  lemma {:induction false} RanksGrow(pool: Txs, txs: seq<Tx>, s: set<TxId>, before: Ranks, id: TxId, ranks: Ranks)
    requires RanksOk(pool, txs, s, before) && before.depth.Keys == before.root.Keys == s && id !in s
    requires id in ranks.depth && id in ranks.root
    requires ranks == Ranks(before.depth[id := ranks.depth[id]], before.root[id := ranks.root[id]])
    requires RankOk(pool, txs, s, ranks, id)
    ensures RanksOk(pool, txs, s + {id}, ranks)
  {
    forall x | x in s + {id} ensures RankOk(pool, txs, s + {id}, ranks, x) {
      if x != id {
        assert RankOk(pool, txs, s, before, x);
      }
    }
  }

  lemma {:induction false} RankOfNext(pool: Txs, txs: seq<Tx>, order: seq<TxId>, id: TxId, ranks: Ranks)
    returns (depth: nat, root: nat)
    requires FoundAfter(pool, txs, order, id) && ranks.depth.Keys == ranks.root.Keys == Members(order)
    ensures if Direct(pool, txs, id) then depth == 0 && FirstHit(pool, txs, id, root)
      else
        && pool[id].sql != NoSql && pool[id].base in Members(order)
        && depth == ranks.depth[pool[id].base] + 1 && root == ranks.root[pool[id].base]
  {
    if Direct(pool, txs, id) {
      var t: nat :| Hits(pool, txs, t, id);
      root := FirstOfHits(pool, txs, id, t);
      depth := 0;
    } else {
      var j: nat :| FoundOn(pool, txs, order, id, j);
      assert order[j] in Members(order) && pool[id].base == order[j];
      depth, root := ranks.depth[order[j]] + 1, ranks.root[order[j]];
    }
  }

  lemma {:induction false} FirstOfHits(pool: Txs, txs: seq<Tx>, id: TxId, t: nat) returns (first: nat)
    requires Hits(pool, txs, t, id)
    ensures FirstHit(pool, txs, id, first)
  {
    if u: nat :| u < t && Hits(pool, txs, u, id) {
      first := FirstOfHits(pool, txs, id, u);
    } else {
      first := t;
    }
  }

  // ----- when the order on a row is certain

  /** The members that belong to a set, in their order. */
  function Of(order: seq<TxId>, u: set<TxId>): seq<TxId>
  {
    if order == [] then []
    else
      var init, last := order[..|order| - 1], order[|order| - 1];
      Of(init, u) + if last in u then [last] else []
  }

  ghost predicate Rising(ranks: Ranks, ids: seq<TxId>)
  {
    forall i, j | 0 <= i < j < |ids| :: Less(ranks, ids[i], ids[j])
  }

  /** An order of everything that has to go. */
  ghost predicate Complete(pool: Txs, txs: seq<Tx>, order: seq<TxId>, ranks: Ranks)
  {
    && Discovered(pool, txs, order) && ClosedSet(pool, txs, Members(order))
    && RanksOk(pool, txs, Members(order), ranks)
  }

  lemma {:induction false} OfMembers(order: seq<TxId>, u: set<TxId>)
    ensures forall id :: id in Of(order, u) <==> id in order && id in u
  {
    if order != [] {
      InitAndLast(order);
      OfMembers(order[..|order| - 1], u);
    }
  }

  lemma {:induction false} OfAll(order: seq<TxId>, u: set<TxId>)
    requires Members(order) <= u
    ensures Of(order, u) == order
  {
    if order != [] {
      InitAndLast(order);
      OneMoreMember(order[..|order| - 1], order[|order| - 1]);
      OfAll(order[..|order| - 1], u);
    }
  }

  /** Any two of these members differ in rank. */
  ghost predicate RanksDiffer(ranks: Ranks, s: set<TxId>)
  {
    forall a, b | a in s && b in s && a != b :: Less(ranks, a, b) || Less(ranks, b, a)
  }

  /** Then they are found with rising ranks. */
  lemma {:induction false} FoundRising(pool: Txs, txs: seq<Tx>, s: set<TxId>, ranks: Ranks, u: set<TxId>,
      order: seq<TxId>)
    requires RanksOk(pool, txs, s, ranks) && RanksDiffer(ranks, s * u)
    requires Discovered(pool, txs, order) && Members(order) <= s
    ensures Rising(ranks, Of(order, u))
  {
    if order != [] {
      var init, last := order[..|order| - 1], order[|order| - 1];
      InitAndLast(order);
      OneMoreMember(init, last);
      FoundRising(pool, txs, s, ranks, u, init);
      OfMembers(init, u);
      if last in u {
        forall x | x in Of(init, u) ensures Less(ranks, x, last) {
          AllLower(pool, txs, s, ranks, u, init, last, x);
        }
        RisingFurther(ranks, Of(init, u), last);
      }
    }
  }

  lemma {:induction false} RisingFurther(ranks: Ranks, ids: seq<TxId>, id: TxId)
    requires Rising(ranks, ids) && forall x | x in ids :: Less(ranks, x, id)
    ensures Rising(ranks, ids + [id])
  {
  }

  lemma {:induction false} AllLower(pool: Txs, txs: seq<Tx>, s: set<TxId>, ranks: Ranks, u: set<TxId>, init: seq<TxId>,
      last: TxId, x: TxId)
    requires RanksOk(pool, txs, s, ranks) && RanksDiffer(ranks, s * u)
    requires Discovered(pool, txs, init) && FoundAfter(pool, txs, init, last) && Members(init) <= s
    requires x in init && x in u && last in s && last in u
    ensures Less(ranks, x, last)
  {
    assert x in Members(init) && x in s * u && last in s * u;
    if Less(ranks, last, x) {
      var i :| 0 <= i < |init| && init[i] == x;
      DiscoveredAt(pool, txs, init, i);
      assert Members(init[..i]) <= Members(init);
      LowerFirst(pool, txs, init[..i], s, ranks, last, x);
    }
  }

  // ----- there is always an order of everything that has to go

  lemma {:induction false} NextDirect(pool: Txs, txs: seq<Tx>, order: seq<TxId>, t: nat, x: TxId) returns (id: TxId)
    requires Hits(pool, txs, t, x) && x !in order
    ensures FoundAfter(pool, txs, order, id)
  {
    if EarlierGone(pool, txs, t, order) {
      assert FoundAt(pool, txs, order, x, t);
      id := x;
    } else {
      var u: nat, y :| u < t && Hits(pool, txs, u, y) && y !in order;
      id := NextDirect(pool, txs, order, u, y);
    }
  }

  lemma {:induction false} NextFollower(pool: Txs, txs: seq<Tx>, order: seq<TxId>, j: nat) returns (id: TxId)
    requires DirectGone(pool, txs, order) && j < |order| && !(BasedOn(pool, order[j]) <= Members(order))
    ensures FoundAfter(pool, txs, order, id)
  {
    if FollowersGone(pool, order, j) {
      id :| id in BasedOn(pool, order[j]) && id !in Members(order);
      assert FoundOn(pool, txs, order, id, j);
    } else {
      var i :| 0 <= i < j && !(BasedOn(pool, order[i]) <= Members(order));
      id := NextFollower(pool, txs, order, i);
    }
  }

  lemma {:induction false} NextOrDone(pool: Txs, txs: seq<Tx>, order: seq<TxId>) returns (next: Option<TxId>)
    ensures if next == None then ClosedSet(pool, txs, Members(order)) else FoundAfter(pool, txs, order, next.value)
  {
    next := None;
    if !DirectGone(pool, txs, order) {
      var x :| Direct(pool, txs, x) && x !in order;
      var t: nat :| Hits(pool, txs, t, x);
      var id := NextDirect(pool, txs, order, t, x);
      next := Some(id);
    } else if !Downward(pool, Members(order)) {
      var x :| x in Members(order) && !(BasedOn(pool, x) <= Members(order));
      var j :| 0 <= j < |order| && order[j] == x;
      var id := NextFollower(pool, txs, order, j);
      next := Some(id);
    }
  }

  lemma {:induction false} Completed(pool: Txs, txs: seq<Tx>, order: seq<TxId>) returns (one: seq<TxId>)
    requires Discovered(pool, txs, order)
    ensures Discovered(pool, txs, one) && ClosedSet(pool, txs, Members(one))
    decreases pool.Keys - Members(order)
  {
    var next := NextOrDone(pool, txs, order);
    if next == None {
      one := order;
    } else {
      OneMoreFound(map[], pool, txs, order, next.value);
      OneMoreMember(order, next.value);
      assert next.value in pool.Keys - Members(order);
      one := Completed(pool, txs, order + [next.value]);
    }
  }

  /** Whatever the pool and the block. */
  lemma {:induction false} CompleteExists(pool: Txs, txs: seq<Tx>) returns (one: seq<TxId>, ranks: Ranks)
    ensures Complete(pool, txs, one, ranks)
  {
    one := Completed(pool, txs, []);
    ranks := RanksOfOrder(pool, txs, one);
  }

  // ----- what all orders have in common

  /** Where the ranks of these members rise, every order has them in this order. */
  lemma {:induction false} SameOrder(pool: Txs, txs: seq<Tx>, one: seq<TxId>, ranks: Ranks, u: set<TxId>,
      other: seq<TxId>)
    requires Complete(pool, txs, one, ranks) && Rising(ranks, Of(one, u)) && Discovered(pool, txs, other)
    ensures Of(other, u) <= Of(one, u)
  {
    if other != [] {
      var init, last := other[..|other| - 1], other[|other| - 1];
      SameOrder(pool, txs, one, ranks, u, init);
      if last in u {
        OneFurther(pool, txs, one, ranks, u, init, last);
      }
    }
  }

  lemma {:induction false} OneFurther(pool: Txs, txs: seq<Tx>, one: seq<TxId>, ranks: Ranks, u: set<TxId>,
      init: seq<TxId>, id: TxId)
    requires Complete(pool, txs, one, ranks) && Rising(ranks, Of(one, u)) && Of(init, u) <= Of(one, u)
    requires Discovered(pool, txs, init) && FoundAfter(pool, txs, init, id) && id in u
    ensures Of(init, u) + [id] <= Of(one, u)
  {
    FoundInClosed(pool, txs, init, Members(one));
    OfMembers(one, u);
    OfMembers(init, u);
    assert id in Members(one);
    var m :| 0 <= m < |Of(one, u)| && Of(one, u)[m] == id;
    EarlierFound(pool, txs, one, ranks, u, init, m);
    NextPlace(ranks, Of(one, u), Of(init, u), m);
  }

  /** What comes earlier in the order has been found. */
  lemma {:induction false} EarlierFound(pool: Txs, txs: seq<Tx>, one: seq<TxId>, ranks: Ranks, u: set<TxId>,
      init: seq<TxId>, m: nat)
    requires Complete(pool, txs, one, ranks) && Rising(ranks, Of(one, u)) && m < |Of(one, u)|
    requires Discovered(pool, txs, init) && FoundAfter(pool, txs, init, Of(one, u)[m])
    ensures forall n | 0 <= n < m :: Of(one, u)[n] in Of(init, u)
  {
    FoundInClosed(pool, txs, init, Members(one));
    OfMembers(one, u);
    OfMembers(init, u);
    var s, ids := Members(one), Of(one, u);
    forall n | 0 <= n < m ensures ids[n] in Of(init, u) {
      assert ids[n] in s && ids[m] in s && Less(ranks, ids[n], ids[m]);
      LowerFirst(pool, txs, init, s, ranks, ids[n], ids[m]);
    }
  }

  lemma {:induction false} NotBefore(ranks: Ranks, ids: seq<TxId>, n: nat)
    requires Rising(ranks, ids) && n < |ids|
    ensures ids[n] !in ids[..n]
  {
    forall i | 0 <= i < n ensures ids[i] != ids[n] {
      assert Less(ranks, ids[i], ids[n]);
    }
  }

  lemma {:induction false} NextPlace(ranks: Ranks, ids: seq<TxId>, found: seq<TxId>, m: nat)
    requires Rising(ranks, ids) && found <= ids && m < |ids|
    requires ids[m] !in found && forall n | 0 <= n < m :: ids[n] in found
    ensures found + [ids[m]] <= ids
  {
    assert found == ids[..|found|];
    if |found| < |ids| {
      NotBefore(ranks, ids, |found|);
    }
  }

  /** Two orders of everything that has to go have the same members. */
  lemma {:induction false} SameMembers(pool: Txs, txs: seq<Tx>, one: seq<TxId>, other: seq<TxId>)
    requires Discovered(pool, txs, one) && ClosedSet(pool, txs, Members(one))
    requires Discovered(pool, txs, other) && ClosedSet(pool, txs, Members(other))
    ensures Members(one) == Members(other) && |one| == |other|
  {
    FoundInClosed(pool, txs, one, Members(other));
    FoundInClosed(pool, txs, other, Members(one));
    assert Members(one) == Members(other);
    FoundOnce(pool, txs, one);
    FoundOnce(pool, txs, other);
  }

  /** With ranks that rise all along there is only one order. */
  lemma {:induction false} OnlyOrder(pool: Txs, txs: seq<Tx>, one: seq<TxId>, ranks: Ranks, other: seq<TxId>)
    requires Complete(pool, txs, one, ranks) && Rising(ranks, one)
    requires Discovered(pool, txs, other) && ClosedSet(pool, txs, Members(other))
    ensures other == one
  {
    SameMembers(pool, txs, one, other);
    OfAll(one, Members(one));
    OfAll(other, Members(one));
    SameOrder(pool, txs, one, ranks, Members(one), other);
  }
}
