/** Turning the tables of an existing database into the first blocks: every table
    is dumped as its creation and one insert per row, and the statements are cut
    into blocks that must not be smaller than the minimum for their height. */
module ImportBatches {

  type Sql = string

  /** The dumps of the tables: the creation first, so none is empty. */
  ghost predicate DumpsOk(dumps: seq<seq<Sql>>)
  {
    forall t | 0 <= t < |dumps| :: |dumps[t]| > 0
  }

  function Concat(ss: seq<seq<Sql>>): (r: seq<Sql>)
  {
    if ss == [] then [] else Concat(ss[..|ss| - 1]) + ss[|ss| - 1]
  }

  const LIMIT := 1000

  /** ExecuteSQLTableDump: some statements of a dump; the creation is at offset 0. */
  function TableDump(dump: seq<Sql>, limit: nat, offset: nat): seq<Sql>
    requires offset < |dump| && limit > 0
  {
    if offset == 0 then
      var rows := dump[1..];
      if limit - 1 == 0 then [dump[0]] else [dump[0]] + rows[..Min(limit - 1, |rows|)]
    else
      var rows := dump[1..];
      rows[offset - 1..Min(offset - 1 + limit, |rows|)]
  }

  function Min(a: int, b: int): int
  {
    if a < b then a else b
  }

  lemma {:induction false} DumpIsSlice(dump: seq<Sql>, limit: nat, offset: nat)
    requires offset < |dump| && limit > 0
    ensures TableDump(dump, limit, offset) == dump[offset..Min(offset + limit, |dump|)]
    ensures |TableDump(dump, limit, offset)| > 0
  {
  }

  lemma {:induction false} ConcatNext(ss: seq<seq<Sql>>, x: seq<Sql>)
    ensures Concat(ss + [x]) == Concat(ss) + x
  {
    assert (ss + [x])[..|ss|] == ss;
  }

  lemma {:induction false} ConcatSize(ss: seq<seq<Sql>>, t: nat)
    requires t <= |ss|
    ensures |Concat(ss[..t])| <= |Concat(ss)|
  {
    if t < |ss| {
      ConcatSize(ss[..|ss| - 1], t);
      assert ss[..|ss| - 1][..t] == ss[..t];
    } else {
      assert ss[..t] == ss;
    }
  }

  /** The statements up to an offset of a table. */
  ghost function Loaded(dumps: seq<seq<Sql>>, t: nat, offset: nat): seq<Sql>
    requires t <= |dumps| && offset <= (if t < |dumps| then |dumps[t]| else 0)
  {
    Concat(dumps[..t]) + (if t < |dumps| then dumps[t][..offset] else [])
  }

  lemma {:induction false} LoadedSize(dumps: seq<seq<Sql>>, t: nat, offset: nat)
    requires DumpsOk(dumps) && t < |dumps| && offset <= |dumps[t]|
    ensures |Loaded(dumps, t, offset)| <= |Concat(dumps)|
    ensures offset == |dumps[t]| ==> Loaded(dumps, t, offset) == Loaded(dumps, t + 1, 0)
    ensures |Loaded(dumps, t, offset)| == |Concat(dumps)| <==> t == |dumps| - 1 && offset == |dumps[t]|
  {
    ConcatNext(dumps[..t], dumps[t]);
    assert dumps[..t] + [dumps[t]] == dumps[..t + 1];
    ConcatSize(dumps, t + 1);
    assert dumps[t][..|dumps[t]|] == dumps[t];
    if t == |dumps| - 1 {
      assert dumps[..t + 1] == dumps;
    } else {
      ConcatNext(dumps[..t + 1], dumps[t + 1]);
      assert dumps[..t + 1] + [dumps[t + 1]] == dumps[..t + 2];
      ConcatSize(dumps, t + 2);
    }
  }

  // ----- the loop

  /** Blocks made so far, the statements collected for the next one, and how many
      statements there are still to load. */
  ghost predicate BatchOk(blocks: seq<seq<Sql>>, list: seq<Sql>, left: int)
  {
    && (forall k | 0 <= k < |blocks| - 1 :: |blocks[k]| == LIMIT)
    && (left > 0 ==> forall k | 0 <= k < |blocks| :: |blocks[k]| == LIMIT)
    && (left > 0 ==> |list| + left > |blocks|)
    && (left > 0 ==> |list| < LIMIT || (|list| + left <= LIMIT + |blocks| + 2 && left <= |blocks| + 2))
    && (left == 0 ==> list == [] && (blocks != [] ==> LastOk(blocks)))
  }

  /** The last block holds at least as many statements as its height, and not many
      more than the limit. */
  ghost predicate LastOk(blocks: seq<seq<Sql>>)
    requires blocks != []
  {
    |blocks| <= |blocks[|blocks| - 1]| <= LIMIT + |blocks| + 1
  }

  /** The part of the loop that may make a block of the collected statements. */
  method MaybeMakeBlock(blocks0: seq<seq<Sql>>, list0: seq<Sql>, left: int)
    returns (blocks: seq<seq<Sql>>, list: seq<Sql>)
    requires left >= 0 && |list0| > 0
    requires forall k | 0 <= k < |blocks0| :: |blocks0[k]| == LIMIT
    requires |list0| + left > |blocks0| && (|list0| <= LIMIT || |list0| + left <= LIMIT + |blocks0| + 2)
    requires |list0| > LIMIT ==> left <= |blocks0| + 2
    ensures BatchOk(blocks, list, left)
    ensures Concat(blocks) + list == Concat(blocks0) + list0
  {
    blocks, list := blocks0, list0;
    var nextBlockHeigh := |blocks0| + 1;
    if |list| >= LIMIT || left == 0 {
      if left > nextBlockHeigh + 1 || left == 0 {
        ConcatNext(blocks, list);
        blocks, list := blocks + [list], [];
      }
    }
  }

  /** What is made, what is collected and what is counted after part of a table. */
  ghost predicate At(dumps: seq<seq<Sql>>, t: nat, offset: nat, blocks: seq<seq<Sql>>, list: seq<Sql>, loaded: int)
    requires t <= |dumps| && offset <= (if t < |dumps| then |dumps[t]| else 0)
  {
    && Concat(blocks) + list == Loaded(dumps, t, offset) && loaded == |Loaded(dumps, t, offset)|
    && BatchOk(blocks, list, |Concat(dumps)| - loaded)
  }

  /** One step of the inner loop. */
  method ImportSome(dumps: seq<seq<Sql>>, t: nat, offset0: nat, blocks0: seq<seq<Sql>>, list0: seq<Sql>, loaded0: int,
      totalcount: int)
    returns (blocks: seq<seq<Sql>>, list: seq<Sql>, loaded: int, offset: nat)
    requires DumpsOk(dumps) && t < |dumps| && offset0 < |dumps[t]| && totalcount == |Concat(dumps)|
    requires At(dumps, t, offset0, blocks0, list0, loaded0)
    ensures offset0 < offset <= |dumps[t]| && At(dumps, t, offset, blocks, list, loaded)
  {
    LoadedSize(dumps, t, offset0);
    list, loaded, offset := LoadSome(dumps, t, offset0, list0, loaded0);
    LoadedSize(dumps, t, offset);
    LoadedNext(dumps, t, offset0, offset, Concat(blocks0), list0, list);
    blocks, list := MaybeMakeBlock(blocks0, list, totalcount - loaded);
  }

  lemma {:induction false} LoadedNext(dumps: seq<seq<Sql>>, t: nat, o0: nat, o1: nat, made: seq<Sql>, list0: seq<Sql>,
      list: seq<Sql>)
    requires t < |dumps| && o0 <= o1 <= |dumps[t]| && list == list0 + dumps[t][o0..o1]
    requires made + list0 == Loaded(dumps, t, o0)
    ensures made + list == Loaded(dumps, t, o1) && |Loaded(dumps, t, o1)| == |Loaded(dumps, t, o0)| + (o1 - o0)
  {
    assert dumps[t][..o1] == dumps[t][..o0] + dumps[t][o0..o1];
    assert made + list == (made + list0) + dumps[t][o0..o1];
  }

  /** Loads more statements of a table, up to the limit where possible. */
  method LoadSome(dumps: seq<seq<Sql>>, t: nat, offset0: nat, list0: seq<Sql>, loaded0: int)
    returns (list: seq<Sql>, loaded: int, offset: nat)
    requires t < |dumps| && offset0 < |dumps[t]|
    ensures offset0 < offset <= |dumps[t]| && list == list0 + dumps[t][offset0..offset]
    ensures loaded == loaded0 + (offset - offset0) && (|list0| < LIMIT ==> |list| <= LIMIT)
  {
    var limitL := LIMIT - |list0|;
    if limitL < 1 {
      limitL := LIMIT;
    }
    var sqls := TableDump(dumps[t], limitL, offset0);
    DumpIsSlice(dumps[t], limitL, offset0);
    list := list0 + sqls;
    loaded := loaded0 + |sqls|;
    offset := offset0 + |sqls|;
  }

  /** addExistentTables. The blocks hold the dumps in order, all blocks but the last
      hold exactly the limit, and the step behind the loop has nothing to do. */
  method AddExistentTables(dumps: seq<seq<Sql>>) returns (blocks: seq<seq<Sql>>, final: bool)
    requires DumpsOk(dumps)
    ensures Concat(blocks) == Concat(dumps) && !final
    ensures forall k | 0 <= k < |blocks| - 1 :: |blocks[k]| == LIMIT
    ensures blocks != [] ==> LastOk(blocks)
  {
    var totalcount := CountAll(dumps);
    var totalloaded := 0;
    var sqlslist: seq<Sql> := [];
    blocks := [];
    NothingLoaded(dumps);
    for t := 0 to |dumps|
      invariant At(dumps, t, 0, blocks, sqlslist, totalloaded)
    {
      var offset := 0;
      while offset < |dumps[t]|
        invariant 0 <= offset <= |dumps[t]| && At(dumps, t, offset, blocks, sqlslist, totalloaded)
        decreases |dumps[t]| - offset
      {
        blocks, sqlslist, totalloaded, offset :=
          ImportSome(dumps, t, offset, blocks, sqlslist, totalloaded, totalcount);
      }
      LoadedSize(dumps, t, |dumps[t]|);
    }
    AllLoaded(dumps);
    final := |sqlslist| > 0;
    if final {
      blocks := blocks + [sqlslist];
    }
  }

  lemma {:induction false} AllLoaded(dumps: seq<seq<Sql>>)
    ensures Loaded(dumps, |dumps|, 0) == Concat(dumps)
  {
    assert dumps[..|dumps|] == dumps;
  }

  lemma {:induction false} NothingLoaded(dumps: seq<seq<Sql>>)
    ensures At(dumps, 0, 0, [], [], 0)
  {
  }

  method CountAll(dumps: seq<seq<Sql>>) returns (total: nat)
    ensures total == |Concat(dumps)|
  {
    total := 0;
    for t := 0 to |dumps|
      invariant total == |Concat(dumps[..t])|
    {
      assert dumps[..t + 1][..t] == dumps[..t];
      total := total + |dumps[t]|;
    }
    assert dumps[..|dumps|] == dumps;
  }

  // ----- the minimum for a height

  /** GetTransactionLimitsPerBlock: the minimum grows with the height up to a maximum. */
  function MinimumAt(height: int, maxMin: int): int
  {
    if height > maxMin then maxMin else if height < 1 then 1 else height
  }

  ghost predicate MeetsMinimum(blocks: seq<seq<Sql>>, maxMin: int)
  {
    forall k | 0 <= k < |blocks| :: |blocks[k]| >= MinimumAt(k + 1, maxMin)
  }

  /** Every imported block is big enough for its height exactly when the greatest
      minimum is not above the limit, or there are too few blocks to reach it. */
  lemma {:induction false} MinimumMetIff(blocks: seq<seq<Sql>>, maxMin: int)
    requires forall k | 0 <= k < |blocks| - 1 :: |blocks[k]| == LIMIT
    requires blocks != [] ==> LastOk(blocks)
    ensures MeetsMinimum(blocks, maxMin) <==> maxMin <= LIMIT || |blocks| <= LIMIT + 1
  {
    if maxMin > LIMIT && |blocks| > LIMIT + 1 {
      assert |blocks[LIMIT]| == LIMIT < MinimumAt(LIMIT + 1, maxMin);
    }
  }
}
