/** The Merkle root of a list of byte strings, computed level by level. The hash is
    a parameter; all that is known of it is the length of its values. */
module Merkle {

  type Bytes = seq<bv8>

  const HASH_LENGTH := 32

  ghost predicate IsHash(h: Bytes -> Bytes)
  {
    forall x {:trigger h(x)} :: |h(x)| == HASH_LENGTH
  }

  // ----- levels

  /** An odd level repeats its last element. */
  function Padded<T>(s: seq<T>): (r: seq<T>)
    ensures Even(r) && |s| <= |r| <= |s| + 1
  {
    if Even(s) then s else s + [s[|s| - 1]]
  }

  predicate Even<T>(s: seq<T>)
  {
    |s| % 2 == 0
  }

  /** The level above: the hash of each pair. */
  function Pairs(h: Bytes -> Bytes, s: seq<Bytes>): (r: seq<Bytes>)
    requires Even(s)
    ensures |r| == |s| / 2
  {
    if s == [] then [] else Pairs(h, s[..|s| - 2]) + [h(s[|s| - 2] + s[|s| - 1])]
  }

  lemma {:induction false} PairAt(h: Bytes -> Bytes, s: seq<Bytes>, i: nat)
    requires Even(s) && 2 * i + 1 < |s|
    ensures Pairs(h, s)[i] == h(s[2 * i] + s[2 * i + 1])
  {
    if 2 * i + 2 < |s| {
      PairAt(h, s[..|s| - 2], i);
    }
  }

  function Leaves(h: Bytes -> Bytes, data: seq<Bytes>): (r: seq<Bytes>)
    ensures |r| == |data| && forall i | 0 <= i < |r| :: r[i] == h(data[i])
  {
    seq(|data|, i requires 0 <= i < |data| => h(data[i]))
  }

  /** The level reached after some rounds. */
  function Level(h: Bytes -> Bytes, s: seq<Bytes>, rounds: nat): (r: seq<Bytes>)
    requires Even(s)
    ensures Even(r)
    decreases rounds
  {
    if rounds == 0 then s else Padded(Pairs(h, Level(h, s, rounds - 1)))
  }

  function Bottom(h: Bytes -> Bytes, data: seq<Bytes>): seq<Bytes>
  {
    Leaves(h, Padded(data))
  }

  ghost function Root(h: Bytes -> Bytes, data: seq<Bytes>): Bytes
    requires data != []
  {
    LevelsEnd(h, Bottom(h, data), |Padded(data)| / 2);
    Level(h, Bottom(h, data), |Padded(data)| / 2)[0]
  }

  // ----- the loops

  datatype MerkleNode = Leaf(data: Bytes) | Inner(left: MerkleNode, right: MerkleNode, data: Bytes)

  /** A node's data is the hash of what it holds or of its children's data. */
  ghost predicate WellHashed(h: Bytes -> Bytes, node: MerkleNode)
  {
    node.Inner? ==>
      && node.data == h(node.left.data + node.right.data)
      && WellHashed(h, node.left) && WellHashed(h, node.right)
  }

  ghost function DataOf(nodes: seq<MerkleNode>): (r: seq<Bytes>)
    ensures |r| == |nodes| && forall i | 0 <= i < |r| :: r[i] == nodes[i].data
  {
    seq(|nodes|, i requires 0 <= i < |nodes| => nodes[i].data)
  }

  /** The leaves under a node, from left to right. */
  ghost function LeavesOf(node: MerkleNode): seq<Bytes>
  {
    match node
    case Leaf(data) => [data]
    case Inner(left, right, _) => LeavesOf(left) + LeavesOf(right)
  }

  ghost function AllLeaves(nodes: seq<MerkleNode>): seq<Bytes>
  {
    if nodes == [] then [] else AllLeaves(nodes[..|nodes| - 1]) + LeavesOf(nodes[|nodes| - 1])
  }

  lemma {:induction false} OneMoreNode(nodes: seq<MerkleNode>, j: nat)
    requires j < |nodes|
    ensures AllLeaves(nodes[..j + 1]) == AllLeaves(nodes[..j]) + LeavesOf(nodes[j])
  {
    assert nodes[..j + 1][..j] == nodes[..j];
  }

  lemma {:induction false} PrefixOfLeaves(nodes: seq<MerkleNode>, j: nat)
    requires j <= |nodes|
    ensures AllLeaves(nodes[..j]) <= AllLeaves(nodes)
    decreases |nodes| - j
  {
    if j < |nodes| {
      OneMoreNode(nodes, j);
      PrefixOfLeaves(nodes, j + 1);
    } else {
      assert nodes[..j] == nodes;
    }
  }

  /** The first `n` nodes above stand for the first pairs of nodes. */
  ghost predicate Paired(h: Bytes -> Bytes, nodes: seq<MerkleNode>, above: seq<MerkleNode>, n: nat)
  {
    && 2 * n <= |nodes| && n <= |above|
    && forall k | 0 <= k < n ::
      above[k] == Inner(nodes[2 * k], nodes[2 * k + 1], h(nodes[2 * k].data + nodes[2 * k + 1].data))
  }

  lemma {:induction false} PairedData(h: Bytes -> Bytes, nodes: seq<MerkleNode>, above: seq<MerkleNode>)
    requires 2 * |above| == |nodes| && Paired(h, nodes, above, |above|)
    ensures DataOf(above) == Pairs(h, DataOf(nodes))
  {
    forall k | 0 <= k < |above| ensures DataOf(above)[k] == Pairs(h, DataOf(nodes))[k] {
      PairAt(h, DataOf(nodes), k);
    }
  }

  lemma {:induction false} PairedHashes(h: Bytes -> Bytes, nodes: seq<MerkleNode>, above: seq<MerkleNode>)
    requires 2 * |above| == |nodes| && Paired(h, nodes, above, |above|) && forall n | n in nodes :: WellHashed(h, n)
    ensures forall n | n in above :: WellHashed(h, n)
  {
    forall n | n in above ensures WellHashed(h, n) {
      var k :| 0 <= k < |above| && above[k] == n;
      assert nodes[2 * k] in nodes && nodes[2 * k + 1] in nodes;
    }
  }

  /** A level and the one above it have the same leaves. */
  lemma {:induction false} PairedLeaves(h: Bytes -> Bytes, nodes: seq<MerkleNode>, above: seq<MerkleNode>, n: nat)
    requires Paired(h, nodes, above, n)
    ensures AllLeaves(above[..n]) == AllLeaves(nodes[..2 * n])
  {
    if n > 0 {
      PairedLeaves(h, nodes, above, n - 1);
      OnePairMore(nodes, 2 * n - 2, above, n - 1);
    }
  }

  lemma {:induction false} OnePairMore(nodes: seq<MerkleNode>, j: nat, above: seq<MerkleNode>, k: nat)
    requires j + 1 < |nodes| && k < |above| && AllLeaves(above[..k]) == AllLeaves(nodes[..j])
    requires above[k].Inner? && above[k].left == nodes[j] && above[k].right == nodes[j + 1]
    ensures AllLeaves(above[..k + 1]) == AllLeaves(nodes[..j + 2])
  {
    OneMoreNode(above, k);
    OneMoreNode(nodes, j);
    OneMoreNode(nodes, j + 1);
    Regrouped(AllLeaves(nodes[..j]), LeavesOf(nodes[j]), LeavesOf(nodes[j + 1]));
  }

  lemma {:induction false} Regrouped(a: seq<Bytes>, b: seq<Bytes>, c: seq<Bytes>)
    ensures a + b + c == a + (b + c)
  {
  }

  /** One round: pairs the nodes of a level; the last node of an odd level is repeated. */
  method NextLevel(h: Bytes -> Bytes, nodes: seq<MerkleNode>) returns (newLevel: seq<MerkleNode>)
    requires Even(nodes) && forall n | n in nodes :: WellHashed(h, n)
    ensures DataOf(newLevel) == Padded(Pairs(h, DataOf(nodes))) && forall n | n in newLevel :: WellHashed(h, n)
    ensures |nodes| / 2 <= |newLevel| && AllLeaves(newLevel[..|nodes| / 2]) == AllLeaves(nodes)
  {
    newLevel := [];
    var j := 0;
    while j < |nodes|
      invariant 0 <= j <= |nodes| && j == 2 * |newLevel|
      invariant Paired(h, nodes, newLevel, |newLevel|)
    {
      newLevel := newLevel + [Inner(nodes[j], nodes[j + 1], h(nodes[j].data + nodes[j + 1].data))];
      j := j + 2;
    }
    PairedData(h, nodes, newLevel);
    PairedHashes(h, nodes, newLevel);
    PairedLeaves(h, nodes, newLevel, |newLevel|);
    ghost var paired := newLevel;
    assert newLevel[..|newLevel|] == newLevel && nodes[..|nodes|] == nodes;
    if |newLevel| % 2 != 0 {
      newLevel := newLevel + [newLevel[|newLevel| - 1]];
      assert DataOf(newLevel) == DataOf(paired) + [DataOf(paired)[|paired| - 1]];
    }
    assert newLevel[..|nodes| / 2] == paired;
  }

  method MakeLeaves(h: Bytes -> Bytes, data: seq<Bytes>) returns (nodes: seq<MerkleNode>)
    ensures DataOf(nodes) == Leaves(h, data) && forall n | n in nodes :: WellHashed(h, n) && n.Leaf?
  {
    nodes := [];
    for i := 0 to |data|
      invariant |nodes| == i && forall k | 0 <= k < i :: nodes[k] == Leaf(h(data[k]))
      invariant forall n | n in nodes :: WellHashed(h, n)
    {
      nodes := nodes + [Leaf(h(data[i]))];
    }
  }

  lemma {:induction false} LeavesAreData(h: Bytes -> Bytes, nodes: seq<MerkleNode>, data: seq<Bytes>, j: nat)
    requires j <= |data| <= |nodes| && forall k | 0 <= k < j :: nodes[k].Leaf? && nodes[k].data == h(data[k])
    ensures AllLeaves(nodes[..j]) == Leaves(h, data)[..j]
  {
    if j > 0 {
      LeavesAreData(h, nodes, data, j - 1);
      OneMoreNode(nodes, j - 1);
    }
  }

  /** NewMerkleTree. No list access is out of range on a list that is not empty. The
      leaves of the tree, from left to right, begin with the hashes of the data. */
  method NewMerkleTree(h: Bytes -> Bytes, data0: seq<Bytes>) returns (root: MerkleNode)
    requires data0 != []
    ensures root.data == Root(h, data0) && WellHashed(h, root)
    ensures |LeavesOf(root)| >= |data0| && forall i | 0 <= i < |data0| :: LeavesOf(root)[i] == h(data0[i])
  {
    var data := data0;
    if |data| % 2 != 0 {
      data := data + [data[|data| - 1]];
    }
    assert data == Padded(data0);
    var nodes := MakeLeaves(h, data);
    assert forall k | 0 <= k < |data0| :: DataOf(nodes)[k] == h(data[k]) && nodes[k] in nodes;
    LeavesAreData(h, nodes, data0, |data0|);
    assert Leaves(h, data0)[..|data0|] == Leaves(h, data0);
    root := BuildUp(h, nodes, data0, |data| / 2);
    BeginsWith(h, data0, LeavesOf(root));
  }

  /** The first `enough` nodes of a level hold all data. */
  ghost predicate HoldsData(h: Bytes -> Bytes, data: seq<Bytes>, nodes: seq<MerkleNode>, enough: nat)
  {
    enough <= |nodes| && Leaves(h, data) <= AllLeaves(nodes[..enough])
  }

  lemma {:induction false} StillHolds(h: Bytes -> Bytes, data: seq<Bytes>, nodes: seq<MerkleNode>, enough: nat,
      above: seq<MerkleNode>)
    requires HoldsData(h, data, nodes, enough) && |nodes| / 2 <= |above|
    requires AllLeaves(above[..|nodes| / 2]) == AllLeaves(nodes)
    ensures HoldsData(h, data, above, |nodes| / 2)
  {
    PrefixOfLeaves(nodes, enough);
  }

  lemma {:induction false} OneHolds(h: Bytes -> Bytes, data: seq<Bytes>, nodes: seq<MerkleNode>)
    requires |nodes| > 0 && HoldsData(h, data, nodes, 1)
    ensures Leaves(h, data) <= LeavesOf(nodes[0])
  {
    OneMoreNode(nodes, 0);
  }

  /** The nodes after some rounds; the last round has left `enough` before an odd level
      was filled up. */
  ghost predicate Built(h: Bytes -> Bytes, data: seq<Bytes>, nodes: seq<MerkleNode>, i: nat, enough: nat)
  {
    && DataOf(nodes) == Level(h, Bottom(h, data), i) && (forall n | n in nodes :: WellHashed(h, n))
    && HoldsData(h, data, nodes, enough) && (i > 0 ==> enough == |Level(h, Bottom(h, data), i - 1)| / 2)
  }

  lemma {:induction false} BuiltNext(h: Bytes -> Bytes, data: seq<Bytes>, nodes: seq<MerkleNode>, i: nat, enough: nat,
      above: seq<MerkleNode>)
    requires Built(h, data, nodes, i, enough) && Even(nodes)
    requires DataOf(above) == Padded(Pairs(h, DataOf(nodes))) && forall n | n in above :: WellHashed(h, n)
    requires |nodes| / 2 <= |above| && AllLeaves(above[..|nodes| / 2]) == AllLeaves(nodes)
    ensures Built(h, data, above, i + 1, |nodes| / 2)
  {
    StillHolds(h, data, nodes, enough, above);
    assert |nodes| == |DataOf(nodes)| == |Level(h, Bottom(h, data), i)|;
  }

  lemma {:induction false} BuiltEnd(h: Bytes -> Bytes, data: seq<Bytes>, nodes: seq<MerkleNode>, enough: nat)
    requires data != [] && Built(h, data, nodes, |Padded(data)| / 2, enough)
    ensures nodes != [] && nodes[0].data == Root(h, data) && WellHashed(h, nodes[0])
    ensures Leaves(h, data) <= LeavesOf(nodes[0])
  {
    var rounds := |Padded(data)| / 2;
    RootIsLast(h, data);
    LevelSize(h, Bottom(h, data), rounds - 1);
    assert enough == 1;
    assert nodes[0].data == DataOf(nodes)[0] && nodes[0] in nodes;
    OneHolds(h, data, nodes);
  }

  /** The rounds that lead from the leaves to the root. */
  method BuildUp(h: Bytes -> Bytes, leaves: seq<MerkleNode>, ghost data: seq<Bytes>, rounds: nat)
    returns (root: MerkleNode)
    requires data != [] && rounds == |Padded(data)| / 2 && Built(h, data, leaves, 0, |data|)
    ensures root.data == Root(h, data) && WellHashed(h, root) && Leaves(h, data) <= LeavesOf(root)
  {
    var nodes := leaves;
    ghost var enough: nat := |data|;
    for i := 0 to rounds
      invariant Built(h, data, nodes, i, enough)
    {
      ghost var below := nodes;
      assert |nodes| == |DataOf(nodes)|;
      nodes := NextLevel(h, nodes);
      BuiltNext(h, data, below, i, enough, nodes);
      enough := |below| / 2;
    }
    BuiltEnd(h, data, nodes, enough);
    root := nodes[0];
  }

  lemma {:induction false} BeginsWith(h: Bytes -> Bytes, data: seq<Bytes>, all: seq<Bytes>)
    requires Leaves(h, data) <= all
    ensures |all| >= |data| && forall i | 0 <= i < |data| :: all[i] == h(data[i])
  {
    forall i | 0 <= i < |data| ensures all[i] == h(data[i]) {
      assert all[i] == Leaves(h, data)[i];
    }
  }

  // ----- the number of rounds

  lemma {:induction false} LevelSize(h: Bytes -> Bytes, s: seq<Bytes>, rounds: nat)
    requires Even(s) && |s| > 0
    ensures |Level(h, s, rounds)| >= 2
    ensures |Level(h, s, rounds)| == 2 || |Level(h, s, rounds)| <= |s| - 2 * rounds
    decreases rounds
  {
    if rounds > 0 {
      LevelSize(h, s, rounds - 1);
      NextSize(h, Level(h, s, rounds - 1));
    }
  }

  /** A round halves a level, and makes the result even. */
  lemma {:induction false} NextSize(h: Bytes -> Bytes, level: seq<Bytes>)
    requires Even(level) && |level| >= 2
    ensures |level| == 2 ==> |Padded(Pairs(h, level))| == 2
    ensures |level| > 2 ==> 2 <= |Padded(Pairs(h, level))| <= |level| - 2
  {
    assert |Pairs(h, level)| == |level| / 2;
    assert |Padded(Pairs(h, level))| <= |level| / 2 + 1;
  }

  /** Half as many rounds as there are leaves always end in one node and its copy;
      rounds that are left over pair the root with itself. */
  lemma {:induction false} LevelsEnd(h: Bytes -> Bytes, s: seq<Bytes>, rounds: nat)
    requires Even(s) && |s| > 0 && rounds == |s| / 2
    ensures |Level(h, s, rounds)| == 2 && Level(h, s, rounds)[0] == Level(h, s, rounds)[1]
  {
    LevelSize(h, s, rounds - 1);
    LevelSize(h, s, rounds);
  }

  // ----- binding

  /** Equal hashes of different values. */
  ghost predicate Collision(h: Bytes -> Bytes, x: Bytes, y: Bytes)
  {
    x != y && h(x) == h(y)
  }

  ghost predicate AllHashes(s: seq<Bytes>)
  {
    forall i | 0 <= i < |s| :: |s[i]| == HASH_LENGTH
  }

  lemma {:induction false} LevelIsHashes(h: Bytes -> Bytes, s: seq<Bytes>, rounds: nat)
    requires IsHash(h) && Even(s) && AllHashes(s)
    ensures AllHashes(Level(h, s, rounds))
    decreases rounds
  {
    if rounds > 0 {
      LevelIsHashes(h, s, rounds - 1);
      PairsAreHashes(h, Level(h, s, rounds - 1));
    }
  }

  lemma {:induction false} PairsAreHashes(h: Bytes -> Bytes, s: seq<Bytes>)
    requires IsHash(h) && Even(s)
    ensures AllHashes(Pairs(h, s)) && AllHashes(Padded(Pairs(h, s)))
  {
    if s != [] {
      PairsAreHashes(h, s[..|s| - 2]);
    }
  }

  /** Different levels of one size with the same level above give a collision. */
  lemma {:induction false} PairsBind(h: Bytes -> Bytes, s: seq<Bytes>, t: seq<Bytes>) returns (x: Bytes, y: Bytes)
    requires |s| == |t| && Even(s) && AllHashes(s) && AllHashes(t) && s != t
    requires Pairs(h, s) == Pairs(h, t)
    ensures Collision(h, x, y)
  {
    var k :| 0 <= k < |s| && s[k] != t[k];
    var i := k / 2;
    x, y := s[2 * i] + s[2 * i + 1], t[2 * i] + t[2 * i + 1];
    PairAt(h, s, i);
    PairAt(h, t, i);
    assert s[2 * i] == x[..HASH_LENGTH] && s[2 * i + 1] == x[HASH_LENGTH..];
    assert t[2 * i] == y[..HASH_LENGTH] && t[2 * i + 1] == y[HASH_LENGTH..];
    assert k == 2 * i || k == 2 * i + 1;
  }

  lemma {:induction false} PaddedDiffer<T>(s: seq<T>, t: seq<T>)
    requires |s| == |t|
    ensures s != t ==> Padded(s) != Padded(t)
    ensures |Padded(s)| == |Padded(t)|
  {
    assert s == Padded(s)[..|s|] && t == Padded(t)[..|t|];
  }

  lemma {:induction false} SameSizes(h: Bytes -> Bytes, s: seq<Bytes>, t: seq<Bytes>, rounds: nat)
    requires |s| == |t| && Even(s)
    ensures |Level(h, s, rounds)| == |Level(h, t, rounds)|
    decreases rounds
  {
    if rounds > 0 {
      SameSizes(h, s, t, rounds - 1);
    }
  }

  ghost predicate Differ(h: Bytes -> Bytes, s: seq<Bytes>, t: seq<Bytes>, rounds: nat)
    requires Even(s) && Even(t)
  {
    Level(h, s, rounds) != Level(h, t, rounds)
  }

  /** The round in which two runs of levels become equal. */
  lemma {:induction false} MergingRound(h: Bytes -> Bytes, s: seq<Bytes>, t: seq<Bytes>, rounds: nat) returns (k: nat)
    requires Even(s) && Even(t) && Differ(h, s, t, 0) && !Differ(h, s, t, rounds)
    ensures Differ(h, s, t, k) && !Differ(h, s, t, k + 1)
    decreases rounds
  {
    k := rounds - 1;
    if !Differ(h, s, t, rounds - 1) {
      k := MergingRound(h, s, t, rounds - 1);
    }
  }

  lemma {:induction false} LevelsBind(h: Bytes -> Bytes, s: seq<Bytes>, t: seq<Bytes>, rounds: nat)
    returns (x: Bytes, y: Bytes)
    requires IsHash(h) && |s| == |t| && Even(s) && AllHashes(s) && AllHashes(t) && s != t
    requires Level(h, s, rounds) == Level(h, t, rounds)
    ensures Collision(h, x, y)
  {
    var k := MergingRound(h, s, t, rounds);
    x, y := LastRoundBinds(h, s, t, k);
  }

  lemma {:induction false} LastRoundBinds(h: Bytes -> Bytes, s: seq<Bytes>, t: seq<Bytes>, rounds: nat)
    returns (x: Bytes, y: Bytes)
    requires IsHash(h) && |s| == |t| && Even(s) && AllHashes(s) && AllHashes(t)
    requires Differ(h, s, t, rounds) && !Differ(h, s, t, rounds + 1)
    ensures Collision(h, x, y)
  {
    SameSizes(h, s, t, rounds);
    LevelIsHashes(h, s, rounds);
    LevelIsHashes(h, t, rounds);
    x, y := RoundBinds(h, Level(h, s, rounds), Level(h, t, rounds));
  }

  lemma {:induction false} RoundBinds(h: Bytes -> Bytes, a: seq<Bytes>, b: seq<Bytes>) returns (x: Bytes, y: Bytes)
    requires |a| == |b| && Even(a) && AllHashes(a) && AllHashes(b) && a != b
    requires Padded(Pairs(h, a)) == Padded(Pairs(h, b))
    ensures Collision(h, x, y)
  {
    PaddedDiffer(Pairs(h, a), Pairs(h, b));
    x, y := PairsBind(h, a, b);
  }

  lemma {:induction false} LeavesBind(h: Bytes -> Bytes, a: seq<Bytes>, b: seq<Bytes>) returns (x: Bytes, y: Bytes)
    requires |a| == |b| && a != b && Leaves(h, a) == Leaves(h, b)
    ensures Collision(h, x, y)
  {
    var k :| 0 <= k < |a| && a[k] != b[k];
    assert Leaves(h, a)[k] == h(a[k]) && Leaves(h, b)[k] == h(b[k]);
    x, y := a[k], b[k];
  }

  lemma {:induction false} RootIsLast(h: Bytes -> Bytes, data: seq<Bytes>)
    requires data != []
    ensures Level(h, Bottom(h, data), |Padded(data)| / 2) == [Root(h, data), Root(h, data)]
  {
    LevelsEnd(h, Bottom(h, data), |Padded(data)| / 2);
  }

  /** Binding: two different lists of one length with the same root exhibit a
      collision of the hash. */
  lemma {:induction false} RootBinds(h: Bytes -> Bytes, a: seq<Bytes>, b: seq<Bytes>) returns (x: Bytes, y: Bytes)
    requires IsHash(h) && |a| == |b| > 0 && a != b
    ensures Root(h, a) == Root(h, b) ==> Collision(h, x, y)
  {
    x, y := [], [];
    RootIsLast(h, a);
    RootIsLast(h, b);
    PaddedDiffer(a, b);
    if Root(h, a) != Root(h, b) {
      return;
    }
    if Bottom(h, a) != Bottom(h, b) {
      assert AllHashes(Bottom(h, a)) && AllHashes(Bottom(h, b));
      x, y := LevelsBind(h, Bottom(h, a), Bottom(h, b), |Padded(a)| / 2);
    } else {
      x, y := LeavesBind(h, Padded(a), Padded(b));
    }
  }

  /** Across lengths it does not bind: repeating the last element of an odd list
      keeps the root. */
  lemma {:induction false} RootIgnoresRepetition(h: Bytes -> Bytes, data: seq<Bytes>)
    requires |data| % 2 == 1
    ensures Root(h, data) == Root(h, data + [data[|data| - 1]])
  {
    assert Padded(data) == Padded(data + [data[|data| - 1]]);
  }
}
