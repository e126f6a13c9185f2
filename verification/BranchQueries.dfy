/** Questions about branches: where two tips split, which of some blocks lies
    under a tip, and whether a block lies between two others. The chain table is
    a shortcut; the walk along parents is the specification. */
module BranchQueries {
  import opened Types
  import opened Slices
  import opened BlockTree
  import opened ChainTable
  import opened Database
  import opened BlockchainManager

  // ----- where two branches split

  /** `m` is on both paths and no common block is higher. */
  ghost predicate HighestCommon(blocks: Blocks, m: Hash, a: Hash, b: Hash)
    requires TreeOk(blocks) && a in blocks && b in blocks
  {
    && OnPath(blocks, m, a) && OnPath(blocks, m, b)
    && forall x {:trigger OnPath(blocks, x, a), OnPath(blocks, x, b)} | OnPath(blocks, x, a) && OnPath(blocks, x, b) ::
         blocks[x].height <= blocks[m].height
  }

  /** A walk down from `tip` stands at block `b` and has left the listed blocks. */
  ghost predicate Walking(blocks: Blocks, tip: Hash, b: Block, left: seq<Block>)
    requires TreeOk(blocks) && tip in blocks
  {
    && b.height <= blocks[tip].height && Path(blocks, tip)[b.height] == b
    && Reverse(left) == Path(blocks, tip)[b.height + 1..]
  }

  lemma {:induction false} WalkStart(blocks: Blocks, tip: Hash)
    requires TreeOk(blocks) && tip in blocks
    ensures Walking(blocks, tip, blocks[tip], [])
  {
  }

  lemma {:induction false} WalkStep(blocks: Blocks, tip: Hash, b: Block, left: seq<Block>)
    requires TreeOk(blocks) && tip in blocks && Walking(blocks, tip, b, left) && b.height > 0
    ensures b.prev in blocks && blocks[b.prev].height == b.height - 1
    ensures Walking(blocks, tip, blocks[b.prev], left + [b])
  {
    PathParent(blocks, tip, b.height);
    PathAt(blocks, tip, b.height - 1);
    ReverseCons(left, b);
  }

  /** Walks down from `from` to the block of the given height, listing what it leaves. */
  method WalkDown(db: DB, from: Hash, height: nat) returns (left: seq<Block>, block: Block)
    requires TreeOk(db.blocks) && from in db.blocks && height <= db.blocks[from].height
    ensures Walking(db.blocks, from, block, left) && block.height == height
  {
    left := [];
    block := db.blocks[from];
    WalkStart(db.blocks, from);
    while block.height != height
      invariant height <= block.height && Walking(db.blocks, from, block, left)
      decreases block.height
    {
      WalkStep(db.blocks, from, block, left);
      left := left + [block];
      block := db.blocks[block.prev];
    }
  }

  /** Neighbours on a path are child and parent. */
  lemma {:induction false} PathParent(blocks: Blocks, h: Hash, k: nat)
    requires TreeOk(blocks) && h in blocks && 0 < k <= blocks[h].height
    ensures var b := Path(blocks, h)[k];
      b.prev != NoHash && b.prev in blocks && Path(blocks, h)[k - 1] == blocks[b.prev]
  {
    PathAt(blocks, h, k);
    var b := Path(blocks, h)[k];
    assert LinkOk(blocks, b.hash);
    assert Path(blocks, b.hash)[k - 1] == Path(blocks, b.prev)[k - 1];
  }

  ghost predicate MeetAt(blocks: Blocks, a: Hash, b: Hash, k: nat)
    requires TreeOk(blocks) && a in blocks && b in blocks
  {
    k <= blocks[a].height && k <= blocks[b].height && Path(blocks, a)[k] == Path(blocks, b)[k]
  }

  /** Different blocks at one height are not the genesis block, and the paths meet only below. */
  lemma {:induction false} MeetBelow(blocks: Blocks, side: Hash, top: Hash, a: Block, b: Block)
    requires TreeOk(blocks) && side in blocks && top in blocks
    requires a.height == b.height <= blocks[side].height && b.height <= blocks[top].height
    requires Path(blocks, side)[a.height] == a && Path(blocks, top)[b.height] == b && a.hash != b.hash
    requires MeetUpTo(blocks, side, top, a.height)
    ensures a.height > 0 && MeetUpTo(blocks, side, top, a.height - 1)
  {
    SameRoot(blocks, side, top);
    assert !MeetAt(blocks, side, top, a.height);
  }

  ghost predicate MeetUpTo(blocks: Blocks, a: Hash, b: Hash, h: nat)
    requires TreeOk(blocks) && a in blocks && b in blocks
  {
    forall k: nat | MeetAt(blocks, a, b, k) :: k <= h
  }

  /** The second part of GetSideBranch: both sides walk down in step. */
  method WalkTogether(db: DB, ghost side: Hash, ghost top: Hash, side0: Block, top0: Block, sides: seq<Block>,
      mains: seq<Block>)
    returns (sideBlocks: seq<Block>, mainBlocks: seq<Block>, common: Block)
    requires TreeOk(db.blocks) && side in db.blocks && top in db.blocks
    requires side0.height == top0.height && MeetUpTo(db.blocks, side, top, side0.height)
    requires Walking(db.blocks, side, side0, sides) && Walking(db.blocks, top, top0, mains)
    ensures Walking(db.blocks, side, common, sideBlocks) && Walking(db.blocks, top, common, mainBlocks)
    ensures MeetUpTo(db.blocks, side, top, common.height)
  {
    sideBlocks, mainBlocks := sides, mains;
    var sideblock, topblock := side0, top0;
    while sideblock.hash != topblock.hash
      invariant sideblock.height == topblock.height && MeetUpTo(db.blocks, side, top, sideblock.height)
      invariant Walking(db.blocks, side, sideblock, sideBlocks)
      invariant Walking(db.blocks, top, topblock, mainBlocks)
      decreases sideblock.height
    {
      MeetBelow(db.blocks, side, top, sideblock, topblock);
      WalkStep(db.blocks, side, sideblock, sideBlocks);
      WalkStep(db.blocks, top, topblock, mainBlocks);
      mainBlocks := mainBlocks + [topblock];
      sideBlocks := sideBlocks + [sideblock];
      sideblock, topblock := db.blocks[sideblock.prev], db.blocks[topblock.prev];
    }
    common := sideblock;
    PathAt(db.blocks, side, sideblock.height);
    PathAt(db.blocks, top, topblock.height);
  }

  /** The first part: the higher of the two tips walks down to the other's height. */
  method LevelTips(db: DB, side: Hash, top: Hash)
    returns (sides: seq<Block>, sideblock: Block, mains: seq<Block>, topblock: Block)
    requires TreeOk(db.blocks) && side in db.blocks && top in db.blocks
    ensures sideblock.height == topblock.height && MeetUpTo(db.blocks, side, top, sideblock.height)
    ensures Walking(db.blocks, side, sideblock, sides) && Walking(db.blocks, top, topblock, mains)
  {
    sideblock, topblock := db.blocks[side], db.blocks[top];
    sides, mains := [], [];
    WalkStart(db.blocks, side);
    WalkStart(db.blocks, top);
    if sideblock.height > topblock.height {
      sides, sideblock := WalkDown(db, side, topblock.height);
    } else if sideblock.height < topblock.height {
      mains, topblock := WalkDown(db, top, sideblock.height);
    }
  }

  /** The result of GetSideBranch: the highest common ancestor, the side branch
      from its tip down and the main branch from the split up. */
  ghost predicate Splits(blocks: Blocks, side: Hash, top: Hash, sideBlocks: seq<Block>, mainBlocks: seq<Block>,
      common: Block)
    requires TreeOk(blocks) && side in blocks && top in blocks
  {
    && HighestCommon(blocks, common.hash, side, top) && blocks[common.hash] == common
    && sideBlocks == Reverse(Path(blocks, side)[common.height + 1..])
    && mainBlocks == Path(blocks, top)[common.height + 1..]
  }

  method GetSideBranch(db: DB, hash: Hash, currentTip: Hash) returns (r: Result<(seq<Block>, seq<Block>, Block)>)
    requires TreeOk(db.blocks)
    ensures hash !in db.blocks || currentTip !in db.blocks ==> r == Err(BlockNotFound)
    ensures hash in db.blocks && currentTip in db.blocks ==>
      if db.blocks[hash].height < 1 || db.blocks[currentTip].height < 1 then r == Err(GenesisBranch)
      else r.Ok? && Splits(db.blocks, hash, currentTip, r.value.0, r.value.1, r.value.2)
  {
    if hash !in db.blocks || currentTip !in db.blocks {
      return Err(BlockNotFound);
    }
    if db.blocks[hash].height < 1 || db.blocks[currentTip].height < 1 {
      return Err(GenesisBranch);
    }
    var sides, sideblock, mains, topblock := LevelTips(db, hash, currentTip);
    var sideBlocks, mainBlocks, common := WalkTogether(db, hash, currentTip, sideblock, topblock, sides, mains);
    WalksSplit(db.blocks, hash, currentTip, common, sideBlocks, mainBlocks);
    mainBlocks := ReverseList(mainBlocks);
    return Ok((sideBlocks, mainBlocks, common));
  }

  /** Two walks that have met give the split. */
  lemma {:induction false} WalksSplit(blocks: Blocks, a: Hash, b: Hash, common: Block, left: seq<Block>,
      right: seq<Block>)
    requires TreeOk(blocks) && a in blocks && b in blocks
    requires Walking(blocks, a, common, left) && Walking(blocks, b, common, right)
    requires MeetUpTo(blocks, a, b, common.height)
    ensures Splits(blocks, a, b, left, Reverse(right), common)
  {
    ReverseTwice(left);
    PathAt(blocks, a, common.height);
    forall x | OnPath(blocks, x, a) && OnPath(blocks, x, b) ensures blocks[x].height <= common.height {
      assert MeetAt(blocks, a, b, blocks[x].height);
    }
  }

  /** With the common part the two halves make up both branches. */
  lemma {:induction false} SplitCovers(blocks: Blocks, side: Hash, top: Hash, sideBlocks: seq<Block>,
      mainBlocks: seq<Block>, common: Block)
    requires TreeOk(blocks) && side in blocks && top in blocks
    requires Splits(blocks, side, top, sideBlocks, mainBlocks, common)
    ensures Path(blocks, side) == Path(blocks, common.hash) + Reverse(sideBlocks)
    ensures Path(blocks, top) == Path(blocks, common.hash) + mainBlocks
  {
    var left := Path(blocks, side)[common.height + 1..];
    assert Reverse(sideBlocks) == left by {
      ReverseTwice(left);
    }
    assert OnPath(blocks, common.hash, side) && OnPath(blocks, common.hash, top) && blocks[common.hash] == common;
    BranchParts(blocks, common.hash, side);
    BranchParts(blocks, common.hash, top);
  }

  lemma {:induction false} BranchParts(blocks: Blocks, m: Hash, tip: Hash)
    requires TreeOk(blocks) && tip in blocks && OnPath(blocks, m, tip)
    ensures Path(blocks, tip) == Path(blocks, m) + Path(blocks, tip)[blocks[m].height + 1..]
  {
    PathAt(blocks, tip, blocks[m].height);
    assert LinkOk(blocks, m);
  }

  /** No block is in both halves. */
  lemma {:induction false} SplitDisjoint(blocks: Blocks, side: Hash, top: Hash, sideBlocks: seq<Block>,
      mainBlocks: seq<Block>, common: Block, b: Block)
    requires TreeOk(blocks) && side in blocks && top in blocks
    requires Splits(blocks, side, top, sideBlocks, mainBlocks, common)
    ensures !(b in sideBlocks && b in mainBlocks)
  {
    if b in sideBlocks && b in mainBlocks {
      var left := Path(blocks, side)[common.height + 1..];
      var i :| 0 <= i < |sideBlocks| && sideBlocks[i] == b;
      assert left[|left| - 1 - i] == b;
      AboveSplit(blocks, side, common.height, b);
      AboveSplit(blocks, top, common.height, b);
    }
  }

  lemma {:induction false} AboveSplit(blocks: Blocks, tip: Hash, k: nat, b: Block)
    requires TreeOk(blocks) && tip in blocks && k <= blocks[tip].height && b in Path(blocks, tip)[k + 1..]
    ensures OnPath(blocks, b.hash, tip) && blocks[b.hash].height > k
  {
    var i :| 0 <= i < |Path(blocks, tip)[k + 1..]| && Path(blocks, tip)[k + 1..][i] == b;
    PathAt(blocks, tip, k + 1 + i);
  }

  lemma {:induction false} SplitAtSideTip(blocks: Blocks, common: Hash, side: Hash, top: Hash)
    requires TreeOk(blocks) && side in blocks && top in blocks && HighestCommon(blocks, common, side, top)
    ensures common == side <==> OnPath(blocks, side, top)
  {
    assert LinkOk(blocks, side) && LinkOk(blocks, common);
    assert OnPath(blocks, side, side);
  }

  /** GetBranchesReplacement: the main part and the side part, or nothing when the
      side tip already lies under `tip`. Where GetSideBranch has an error the code
      reads the hash of the missing common block for its log before it looks at the
      error: NilBlock stands for the program stopping there. */
  method GetBranchesReplacement(db: DB, side: Hash, tip: Hash) returns (r: Result<Option<(seq<Block>, seq<Block>)>>)
    requires TreeOk(db.blocks)
    ensures r.Err? <==>
      side !in db.blocks || tip !in db.blocks || db.blocks[side].height < 1 || db.blocks[tip].height < 1
    ensures r.Err? ==> r.error == NilBlock
    ensures r.Ok? ==> (r.value == None <==> OnPath(db.blocks, side, tip))
    ensures r.Ok? && r.value != None ==>
      exists common :: Splits(db.blocks, side, tip, r.value.value.1, r.value.value.0, common)
  {
    var br := GetSideBranch(db, side, tip);
    if br.Err? {
      return Err(NilBlock);
    }
    var (sideBlocks, mainBlocks, common) := br.value;
    assert Splits(db.blocks, side, tip, sideBlocks, mainBlocks, common);
    SplitAtSideTip(db.blocks, common.hash, side, tip);
    if common.hash == side {
      return Ok(None);
    }
    return Ok(Some((mainBlocks, sideBlocks)));
  }

  // ----- choosing a block under a tip

  /** The tip that is meant: the empty hash stands for the main chain's top. */
  ghost function TipOf(db: DB, tip: Hash): Hash
    reads db`topHash
  {
    if tip == NoHash then db.topHash else tip
  }

  ghost predicate UnderTip(blocks: Blocks, hashes: seq<Hash>, tip: Hash, r: Option<Hash>)
    requires TreeOk(blocks) && tip in blocks
  {
    && (r == None ==> forall h | h in hashes :: !OnPath(blocks, h, tip))
    && (r != None ==> r.value in hashes && OnPath(blocks, r.value, tip))
  }

  /** ChooseHashUnderTip for the main chain: the first listed hash in the table. */
  method ChooseInMainChain(db: DB, hashes: seq<Hash>) returns (r: Result<Option<Hash>>)
    requires StoreOk(db) && NoHash !in hashes
    ensures r.Ok? && UnderTip(db.blocks, hashes, db.topHash, r.value)
  {
    for i := 0 to |hashes|
      invariant forall k | 0 <= k < i :: !OnPath(db.blocks, hashes[k], db.topHash)
    {
      InChainIsOnPath(db.blocks, db.topHash, db.chain, hashes[i]);
      var exists_ := db.BlockInChain(hashes[i]);
      if exists_ == Ok(true) {
        return Ok(Some(hashes[i]));
      }
    }
    return Ok(None);
  }

  /** ChooseHashUnderTip for a tip off the main chain: walks down until it meets
      a listed hash or a main chain block. */
  method ChooseOnSideBranch(db: DB, hashes: seq<Hash>, tip: Hash) returns (found: Option<Hash>, newTop: Hash)
    requires StoreOk(db) && tip in db.blocks
    ensures found != None ==> UnderTip(db.blocks, hashes, tip, found)
    ensures found == None ==> OnPath(db.blocks, newTop, tip) && OnPath(db.blocks, newTop, db.topHash)
    ensures found == None ==>
      forall h | h in hashes && OnPath(db.blocks, h, tip) :: db.blocks[h].height < db.blocks[newTop].height
  {
    var cur := tip;
    while true
      invariant OnPath(db.blocks, cur, tip)
      invariant forall h | h in hashes && OnPath(db.blocks, h, tip) :: db.blocks[h].height <= db.blocks[cur].height
      decreases db.blocks[cur].height
    {
      var block := db.blocks[cur];
      assert LinkOk(db.blocks, cur);
      if block.hash in hashes {
        return Some(block.hash), cur;
      }
      forall h | h in hashes && OnPath(db.blocks, h, tip) ensures db.blocks[h].height < block.height {
        assert h != cur && LinkOk(db.blocks, h);
      }
      InChainIsOnPath(db.blocks, db.topHash, db.chain, cur);
      var exists_ := db.BlockInChain(block.hash);
      if exists_ == Ok(true) {
        return None, block.hash;
      }
      GenesisInChain(db.blocks, db.topHash, db.chain, cur);
      OnPathStep(db.blocks, block.prev, cur);
      OnPathTrans(db.blocks, block.prev, cur, tip);
      cur := block.prev;
    }
  }

  /** The last part: listed main chain blocks lower than a main chain block. */
  method ChooseBelow(db: DB, hashes: seq<Hash>, top: Hash) returns (r: Option<Hash>)
    requires StoreOk(db) && NoHash !in hashes && OnPath(db.blocks, top, db.topHash)
    requires top !in hashes
    ensures UnderTip(db.blocks, hashes, top, r)
  {
    for i := 0 to |hashes|
      invariant forall k | 0 <= k < i :: !OnPath(db.blocks, hashes[k], top)
    {
      var h := hashes[i];
      InChainIsOnPath(db.blocks, db.topHash, db.chain, h);
      var exists_ := db.BlockInChain(h);
      if OnPath(db.blocks, h, top) {
        OnPathTrans(db.blocks, h, top, db.topHash);
        assert LinkOk(db.blocks, h) && LinkOk(db.blocks, top);
      }
      if exists_ == Ok(true) {
        if db.blocks[h].height < db.blocks[top].height {
          OnPathOrder(db.blocks, h, top, db.topHash);
          return Some(h);
        }
      }
    }
    return None;
  }

  /** ChooseHashUnderTip: a listed hash that the walk from the tip meets, exactly
      when there is one. */
  method ChooseHashUnderTip(db: DB, hashes: seq<Hash>, tip: Hash) returns (r: Result<Option<Hash>>)
    requires StoreOk(db) && NoHash !in hashes
    ensures TipOf(db, tip) in db.blocks ==> r.Ok? && UnderTip(db.blocks, hashes, TipOf(db, tip), r.value)
    ensures TipOf(db, tip) !in db.blocks ==>
      r == if hashes == [] then Ok(None) else if tip in hashes then Ok(Some(tip)) else Err(BlockNotFound)
  {
    if hashes == [] {
      return Ok(None);
    }
    if tip == NoHash {
      r := ChooseInMainChain(db, hashes);
      return;
    }
    if tip in hashes {
      return Ok(Some(tip));
    }
    if tip !in db.blocks {
      return Err(BlockNotFound);
    }
    var top := tip;
    InChainIsOnPath(db.blocks, db.topHash, db.chain, tip);
    var exists_ := db.BlockInChain(tip);
    if exists_ != Ok(true) {
      var found;
      found, top := ChooseOnSideBranch(db, hashes, tip);
      if found != None {
        return Ok(found);
      }
    }
    var below := ChooseBelow(db, hashes, top);
    UnderLowerTip(db.blocks, hashes, tip, top, below);
    return Ok(below);
  }

  /** Continuing from a block below which all candidates lie loses none of them. */
  lemma {:induction false} UnderLowerTip(blocks: Blocks, hashes: seq<Hash>, tip: Hash, top: Hash, r: Option<Hash>)
    requires TreeOk(blocks) && tip in blocks && OnPath(blocks, top, tip)
    requires forall h | h in hashes && OnPath(blocks, h, tip) :: blocks[h].height <= blocks[top].height
    requires UnderTip(blocks, hashes, top, r)
    ensures UnderTip(blocks, hashes, tip, r)
  {
    if r == None {
      forall h | h in hashes ensures !OnPath(blocks, h, tip) {
        if OnPath(blocks, h, tip) { OnPathOrder(blocks, h, top, tip); }
      }
    } else {
      OnPathTrans(blocks, r.value, top, tip);
    }
  }

  // ----- ranges of blocks

  /** The side branch part of CheckBlockIsInRange. */
  method RangeOnSideBranch(db: DB, h: Hash, bottom: Hash, top: Hash) returns (known: Option<bool>, newTop: Hash)
    requires StoreOk(db) && top in db.blocks
    ensures known == Some(true) ==> OnPath(db.blocks, h, top)
    ensures known != None && OnPath(db.blocks, bottom, top) ==>
      (known.value <==> OnPath(db.blocks, h, top) && db.blocks[h].height >= db.blocks[bottom].height)
    ensures known == Some(false) ==> OnPath(db.blocks, bottom, top)
    ensures known == None ==>
      && OnPath(db.blocks, newTop, top) && OnPath(db.blocks, newTop, db.topHash)
      && (OnPath(db.blocks, bottom, top) ==> OnPath(db.blocks, bottom, newTop))
      && (OnPath(db.blocks, h, top) ==> db.blocks[h].height <= db.blocks[newTop].height)
  {
    var cur := top;
    while true
      invariant OnPath(db.blocks, cur, top) && (OnPath(db.blocks, bottom, top) ==> OnPath(db.blocks, bottom, cur))
      invariant OnPath(db.blocks, h, top) ==> db.blocks[h].height <= db.blocks[cur].height
      decreases db.blocks[cur].height
    {
      var block := db.blocks[cur];
      assert LinkOk(db.blocks, cur);
      if h == block.hash {
        return Some(true), cur;
      }
      if OnPath(db.blocks, h, top) { assert LinkOk(db.blocks, h); }
      if bottom == block.hash {
        return Some(false), cur;
      }
      InChainIsOnPath(db.blocks, db.topHash, db.chain, cur);
      var exists_ := db.BlockInChain(block.hash);
      if exists_ == Ok(true) {
        return None, block.hash;
      }
      GenesisInChain(db.blocks, db.topHash, db.chain, cur);
      OnPathStep(db.blocks, bottom, cur);
      OnPathStep(db.blocks, block.prev, cur);
      OnPathTrans(db.blocks, block.prev, cur, top);
      cur := block.prev;
    }
  }

  /** What CheckBlockIsInRange may answer for a stored tip. When `bottom` lies
      under the tip, as where it is called, the answer is whether `h` is on the
      path between them. Otherwise a true answer still means that `h` is under the
      tip, and a false one that it is not at the height of `bottom` or above. */
  ghost predicate RangeAnswer(blocks: Blocks, h: Hash, bottom: Hash, tip: Hash, r: Result<bool>)
    requires TreeOk(blocks) && tip in blocks
  {
    && (OnPath(blocks, bottom, tip) ==> r == Ok(OnPath(blocks, h, tip) && blocks[h].height >= blocks[bottom].height))
    && (r == Ok(true) ==> OnPath(blocks, h, tip))
    && (r == Ok(false) && bottom in blocks ==> !(OnPath(blocks, h, tip) && blocks[h].height >= blocks[bottom].height))
    && (r.Err? ==> bottom !in blocks)
  }

  /** CheckBlockIsInRange: is `h` on the path from `top` down to `bottom`? */
  method CheckBlockIsInRange(db: DB, h: Hash, bottom: Hash, top: Hash) returns (r: Result<bool>)
    requires StoreOk(db) && h != NoHash
    ensures TipOf(db, top) in db.blocks ==> RangeAnswer(db.blocks, h, bottom, TipOf(db, top), r)
    ensures TipOf(db, top) !in db.blocks ==> r == Err(BlockNotFound)
  {
    ghost var tip := TipOf(db, top);
    var mainTop := top;
    if top != NoHash {
      InChainIsOnPath(db.blocks, db.topHash, db.chain, top);
      var exists_ := db.BlockInChain(top);
      if exists_ != Ok(true) {
        if top !in db.blocks {
          return Err(BlockNotFound);
        }
        var known;
        known, mainTop := RangeOnSideBranch(db, h, bottom, top);
        if known != None {
          return Ok(known.value);
        }
      }
    } else {
      mainTop := db.topHash;
    }
    InChainIsOnPath(db.blocks, db.topHash, db.chain, h);
    InRangeBelow(db.blocks, h, mainTop, tip, db.topHash);
    var exists_ := db.BlockInChain(h);
    if exists_ != Ok(true) {
      return Ok(false);
    }
    if bottom !in db.blocks {
      return Err(BlockNotFound);
    }
    return Ok(db.blocks[h].height >= db.blocks[bottom].height && db.blocks[h].height <= db.blocks[mainTop].height);
  }

  /** Under a main chain block, "on the tip's path" means "in the main chain and not higher". */
  lemma {:induction false} InRangeBelow(blocks: Blocks, h: Hash, mid: Hash, tip: Hash, mainTop: Hash)
    requires TreeOk(blocks) && tip in blocks && mainTop in blocks
    requires OnPath(blocks, mid, tip) && OnPath(blocks, mid, mainTop)
    requires OnPath(blocks, h, tip) ==> blocks[h].height <= blocks[mid].height
    ensures OnPath(blocks, h, tip) <==> OnPath(blocks, h, mainTop) && blocks[h].height <= blocks[mid].height
  {
    if OnPath(blocks, h, tip) {
      OnPathOrder(blocks, h, mid, tip);
      OnPathTrans(blocks, h, mid, mainTop);
    }
    if OnPath(blocks, h, mainTop) && blocks[h].height <= blocks[mid].height {
      OnPathOrder(blocks, h, mid, mainTop);
      OnPathTrans(blocks, h, mid, tip);
    }
  }

  // ----- reading the chain upwards

  const MAX_BLOCKS := 1000

  function CountOf(maxcount: int): nat
  {
    if 0 < maxcount < MAX_BLOCKS then maxcount else MAX_BLOCKS
  }

  function Least(a: nat, b: nat): nat
  {
    if a < b then a else b
  }

  /** GetNextBlocks: from a main chain block upwards along the chain table, until the top,
      1000 blocks or the requested number is reached. A block off the main chain comes
      alone. */
  method GetNextBlocks(db: DB, startfrom: Hash, maxcount: int) returns (r: Result<seq<Block>>)
    requires StoreOk(db)
    ensures startfrom !in db.blocks ==> r.Err?
    ensures startfrom in db.blocks && !OnPath(db.blocks, startfrom, db.topHash) ==> r == Ok([db.blocks[startfrom]])
    ensures OnPath(db.blocks, startfrom, db.topHash) ==> r.Ok?
    ensures OnPath(db.blocks, startfrom, db.topHash) ==>
      var p, h, n := Path(db.blocks, db.topHash), db.blocks[startfrom].height, |r.value|;
      && 0 < n <= 1000 && h + n <= |p| && r.value == p[h..h + n]
      && (maxcount > 0 ==> n <= maxcount) && (h + n == |p| || n == 1000 || n == maxcount)
  {
    if startfrom == NoHash {
      assert NoHash in db.blocks ==> LinkOk(db.blocks, NoHash);
      return Err(EmptyHash);
    }
    if startfrom !in db.blocks {
      return Err(BlockNotFound);
    }
    InChainIsOnPath(db.blocks, db.topHash, db.chain, startfrom);
    if startfrom !in db.chain {
      return Ok([db.blocks[startfrom]]);
    }
    var blocks := WalkUp(db, startfrom, CountOf(maxcount));
    return Ok(blocks);
  }

  /** The loop of GetNextBlocks on the main chain. */
  method WalkUp(db: DB, startfrom: Hash, count: nat) returns (blocks: seq<Block>)
    requires StoreOk(db) && OnPath(db.blocks, startfrom, db.topHash) && count > 0
    ensures var p, h := Path(db.blocks, db.topHash), db.blocks[startfrom].height;
      blocks == p[h..Least(h + count, |p|)]
  {
    ghost var p, h := Path(db.blocks, db.topHash), db.blocks[startfrom].height;
    blocks := [];
    var hash := startfrom;
    while true
      invariant OnPath(db.blocks, hash, db.topHash) && db.blocks[hash].height == h + |blocks|
      invariant |blocks| < count && blocks == p[h..h + |blocks|]
      decreases count - |blocks|
    {
      LinkUp(db.blocks, db.topHash, db.chain, hash);
      blocks := blocks + [db.blocks[hash]];
      var nextHash := db.chain[hash].next;
      if |blocks| >= count || nextHash == NoHash {
        return;
      }
      hash := nextHash;
    }
  }

  /** What the chain record of a main chain block says about the block above it. */
  lemma {:induction false} LinkUp(blocks: Blocks, top: Hash, chain: Chain, h: Hash)
    requires ChainOk(blocks, top, chain) && OnPath(blocks, h, top)
    ensures h in chain && Path(blocks, top)[blocks[h].height] == blocks[h]
    ensures chain[h].next == NoHash <==> blocks[h].height == blocks[top].height
    ensures chain[h].next != NoHash ==>
      OnPath(blocks, chain[h].next, top) && blocks[chain[h].next].height == blocks[h].height + 1
  {
    var p, k := Path(blocks, top), blocks[h].height;
    assert LinkOk(blocks, h) && RecordOk(chain, p, k);
    if k < blocks[top].height {
      PathAt(blocks, top, k + 1);
      assert LinkOk(blocks, p[k + 1].hash);
    }
  }
}
