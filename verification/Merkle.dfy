/** The Merkle tree of src/crypto/merkle.rs: a flat array filled level by level,
    its authentication paths and the verifier, all measured against one recursive
    definition of a tree node. */
module Merkle {
  import opened Basics
  import Hash

  /** The digest operations the tree uses: the hash of a datum, the hash of two
      concatenated digests, and the all-zero digest that stands for "no data". */
  datatype Hasher<!T, !D> = Hasher(leaf: T -> D, combine: (D, D) -> D, zero: D)

  /** No two hashed things collide, and nothing hashes to the all-zero digest. */
  ghost predicate CollisionFree<T(!new), D(!new)>(c: Hasher<T, D>) {
    && (forall x, y :: c.leaf(x) == c.leaf(y) ==> x == y)
    && (forall x, y, x', y' :: c.combine(x, y) == c.combine(x', y') ==> x == x' && y == y')
    && (forall x, y, z :: c.leaf(x) != c.combine(y, z))
    && (forall x :: c.leaf(x) != c.zero)
    && (forall x, y :: c.combine(x, y) != c.zero)
  }

  function Pow2(n: nat): (r: nat)
    ensures r >= 1
  {
    if n == 0 then 1 else 2 * Pow2(n - 1)
  }

  lemma {:induction false} Pow2Monotone(m: nat, n: nat)
    requires m <= n
    ensures Pow2(m) <= Pow2(n)
    decreases n
  {
    if m < n {
      Pow2Monotone(m, n - 1);
    }
  }

  /** The integer ceiling of the base-2 logarithm: the least h with n <= 2^h. */
  function CeilLog2(n: nat): (h: nat)
    requires n > 0
    ensures n <= Pow2(h)
    ensures h > 0 ==> Pow2(h - 1) < n
  {
    if n == 1 then 0 else
      var h := 1 + CeilLog2((n + 1) / 2);
      assert h >= 2 ==> Pow2(h - 1) == 2 * Pow2(h - 2);
      h
  }

  lemma CeilLog2Least(n: nat, m: nat)
    requires n > 0 && n <= Pow2(m)
    ensures CeilLog2(n) <= m
  {
    if m < CeilLog2(n) {
      Pow2Monotone(m, CeilLog2(n) - 1);
    }
  }

  /** The datum under leaf i once the last one has been repeated to fill the level. */
  function Datum<T>(data: seq<T>, i: nat): T
    requires data != []
  {
    if i < |data| then data[i] else data[|data| - 1]
  }

  /** The recursive tree: node j of level k, counting levels from the leaves. */
  function TreeNode<T, D>(c: Hasher<T, D>, data: seq<T>, k: nat, j: nat): D
    requires data != []
    decreases k
  {
    if k == 0 then c.leaf(Datum(data, j))
    else c.combine(TreeNode(c, data, k - 1, 2 * j), TreeNode(c, data, k - 1, 2 * j + 1))
  }

  /** The root the recursive tree defines. */
  function TreeRoot<T, D>(c: Hasher<T, D>, data: seq<T>): D {
    if data == [] then c.zero else TreeNode(c, data, CeilLog2(|data|), 0)
  }

  /** Where level k starts in the array of a tree of height h. */
  function LevelStart(h: nat, k: nat): (r: nat)
    requires k <= h
    ensures r + Pow2(h - k) <= 2 * Pow2(h)
  {
    Pow2Monotone(h + 1 - k, h + 1);
    Pow2(h + 1) - Pow2(h + 1 - k)
  }

  lemma FirstLevelStart(h: nat)
    ensures LevelStart(h, 0) == 0
  {
  }

  lemma NextLevelStart(h: nat, k: nat)
    requires k < h
    ensures LevelStart(h, k + 1) == LevelStart(h, k) + Pow2(h - k)
  {
    assert Pow2(h + 1 - k) == 2 * Pow2(h - k);
  }

  /** Level k of a tree of height h, from left to right. */
  function Level<T, D>(c: Hasher<T, D>, data: seq<T>, h: nat, k: nat): (r: seq<D>)
    requires data != [] && k <= h
    ensures |r| == Pow2(h - k)
  {
    seq(Pow2(h - k), j requires j >= 0 => TreeNode(c, data, k, j))
  }

  /** Levels 0 to k laid out one after the other. */
  function Flat<T, D>(c: Hasher<T, D>, data: seq<T>, h: nat, k: nat): seq<D>
    requires data != [] && k <= h
  {
    if k == 0 then Level(c, data, h, 0) else Flat(c, data, h, k - 1) + Level(c, data, h, k)
  }

  lemma {:induction false} FlatLength<T, D>(c: Hasher<T, D>, data: seq<T>, h: nat, k: nat)
    requires data != [] && k <= h
    ensures |Flat(c, data, h, k)| == LevelStart(h, k) + Pow2(h - k)
  {
    if k > 0 {
      FlatLength(c, data, h, k - 1);
      NextLevelStart(h, k - 1);
    } else {
      assert Pow2(h + 1) == 2 * Pow2(h);
    }
  }

  /** Node j of level l sits at LevelStart(h, l) + j. */
  lemma {:induction false} FlatAt<T, D>(c: Hasher<T, D>, data: seq<T>, h: nat, k: nat, l: nat, j: nat)
    requires data != [] && l <= k <= h && j < Pow2(h - l)
    ensures LevelStart(h, l) + j < |Flat(c, data, h, k)|
    ensures Flat(c, data, h, k)[LevelStart(h, l) + j] == TreeNode(c, data, l, j)
  {
    FlatLength(c, data, h, k);
    if l < k {
      FlatAt(c, data, h, k - 1, l, j);
    } else if k > 0 {
      FlatLength(c, data, h, k - 1);
      NextLevelStart(h, k - 1);
    }
  }

  datatype MerkleTree<D> = MerkleTree(allNodes: seq<D>, modHeight: nat)

  /** The flat array is the recursive tree, level after level. */
  predicate Represents<T, D(==)>(t: MerkleTree<D>, c: Hasher<T, D>, data: seq<T>) {
    if data == [] then t.allNodes == [] && t.modHeight == 0 else
      && t.modHeight == CeilLog2(|data|)
      && t.allNodes == Flat(c, data, t.modHeight, t.modHeight)
  }

  /** The layout: 2^(h+1)-1 nodes, all of them below 2^32 up to height 31. */
  lemma LayoutSize<T, D>(t: MerkleTree<D>, c: Hasher<T, D>, data: seq<T>)
    requires data != [] && Represents(t, c, data)
    ensures |t.allNodes| == Pow2(t.modHeight + 1) - 1
    ensures t.modHeight <= 31 ==> |t.allNodes| < 0x1_0000_0000
  {
    FlatLength(c, data, t.modHeight, t.modHeight);
    if t.modHeight <= 31 {
      SmallPowers(t.modHeight);
    }
  }

  /** The slots of a node's children come before the node's own slot. */
  lemma ChildSlots(h: nat, k: nat, j: nat)
    requires 0 < k <= h && j < Pow2(h - k)
    ensures 2 * j + 1 < Pow2(h - (k - 1))
    ensures LevelStart(h, k - 1) + 2 * j + 1 < LevelStart(h, k) + j
  {
    assert Pow2(h - (k - 1)) == 2 * Pow2(h - k);
    NextLevelStart(h, k - 1);
  }

  /** The layout, node by node: the first level holds the hashed data, and every node
      above it combines the two nodes of the level below. */
  lemma LayoutNode<T, D>(t: MerkleTree<D>, c: Hasher<T, D>, data: seq<T>, k: nat, j: nat)
    requires data != [] && Represents(t, c, data)
    requires k <= t.modHeight && j < Pow2(t.modHeight - k)
    ensures LevelStart(t.modHeight, k) + j < |t.allNodes|
    ensures k == 0 ==> t.allNodes[j] == c.leaf(if j < |data| then data[j] else data[|data| - 1])
    ensures k > 0 ==>
              var below := LevelStart(t.modHeight, k - 1) + 2 * j;
              && below + 1 < LevelStart(t.modHeight, k) + j
              && t.allNodes[LevelStart(t.modHeight, k) + j] == c.combine(t.allNodes[below], t.allNodes[below + 1])
  {
    hide Represents, Flat, CeilLog2, Level;
    var h := t.modHeight;
    ItsFlat(t, c, data);
    FlatAt(c, data, h, h, k, j);
    if k == 0 {
      FirstLevelStart(h);
    } else {
      ChildSlots(h, k, j);
      FlatAt(c, data, h, h, k - 1, 2 * j);
      FlatAt(c, data, h, h, k - 1, 2 * j + 1);
    }
  }

  lemma ItsFlat<T, D>(t: MerkleTree<D>, c: Hasher<T, D>, data: seq<T>)
    requires data != [] && Represents(t, c, data)
    ensures t.allNodes == Flat(c, data, t.modHeight, t.modHeight)
  {
    hide Flat, CeilLog2;
  }

  /** Builds the array: the padded leaves first, then each level from the one below.
      Every index is computed in 32 bits, as the source does. */
  method New<T, D(==)>(c: Hasher<T, D>, data: seq<T>) returns (t: MerkleTree<D>)
    requires |data| <= 0x8000_0000
    ensures Represents(t, c, data)
    ensures data != [] ==> t.modHeight <= 31
  {
    if |data| == 0 {
      return MerkleTree([], 0);
    }
    var h := CeilLog2(|data|);
    SmallPowers(31);
    CeilLog2Least(|data|, 31);
    SmallPowers(h);
    var allNodes := PadLeaves(c, data, Pow2(h), h);
    var offset: u32 := 0;
    for k := 0 to h
      invariant offset == LevelStart(h, k)
      invariant allNodes == Flat(c, data, h, k)
    {
      NextLevelBound(c, data, h, k);
      var next: u32 := |allNodes|;
      allNodes := PushLevel(c, allNodes, offset, Pow2(h - 1 - k), data, h, k);
      offset := next;
    }
    t := MerkleTree(allNodes, h);
  }

  /** The first loop of New: the hashed data, the last one repeated up to a power of two. */
  method PadLeaves<T, D>(c: Hasher<T, D>, data: seq<T>, dest: u32, ghost h: nat) returns (allNodes: seq<D>)
    requires data != [] && dest == Pow2(h)
    ensures allNodes == Flat(c, data, h, 0)
  {
    allNodes := [];
    for i := 0 to dest
      invariant allNodes == Level(c, data, h, 0)[..i]
    {
      if i < |data| {
        allNodes := allNodes + [c.leaf(data[i])];
      } else {
        allNodes := allNodes + [c.leaf(data[|data| - 1])];
      }
    }
  }

  /** No offset of New leaves 32 bits. */
  lemma NextLevelBound<T, D>(c: Hasher<T, D>, data: seq<T>, h: nat, k: nat)
    requires data != [] && k < h <= 31
    ensures |Flat(c, data, h, k)| == LevelStart(h, k + 1) < 0x1_0000_0000
    ensures Pow2(h - 1 - k) <= 0x8000_0000
  {
    FlatLength(c, data, h, k);
    NextLevelStart(h, k);
    SmallPowers(h);
    SmallPowers(h - 1 - k);
  }

  /** The inner loop of New: one more level, computed from the level at `offset`. */
  method PushLevel<T, D>(c: Hasher<T, D>, nodes: seq<D>, offset: u32, range: u32,
                         ghost data: seq<T>, ghost h: nat, ghost k: nat)
    returns (allNodes: seq<D>)
    requires data != [] && k < h && range == Pow2(h - 1 - k)
    requires nodes == Flat(c, data, h, k) && offset == LevelStart(h, k)
    ensures allNodes == Flat(c, data, h, k + 1)
  {
    allNodes := nodes;
    for i := 0 to range
      invariant allNodes == nodes + Level(c, data, h, k + 1)[..i]
    {
      assert Pow2(h - k) == 2 * range;
      FlatAt(c, data, h, k, k, 2 * i);
      FlatAt(c, data, h, k, k, 2 * i + 1);
      allNodes := allNodes + [c.combine(allNodes[offset + i * 2], allNodes[offset + i * 2 + 1])];
    }
  }

  lemma SmallPowers(h: nat)
    requires h <= 31
    ensures Pow2(h) <= Pow2(31) == 0x8000_0000
  {
    assert Pow2(6) == 64;
    assert Pow2(12) == 4096;
    assert Pow2(18) == 0x4_0000;
    assert Pow2(24) == 0x100_0000;
    Pow2Monotone(h, 31);
  }

  function Root<D>(t: MerkleTree<D>, zero: D): D {
    if |t.allNodes| == 0 then zero else t.allNodes[|t.allNodes| - 1]
  }

  /** The last slot of the array is the root of the recursive tree. */
  lemma RootIsTreeRoot<T, D>(t: MerkleTree<D>, c: Hasher<T, D>, data: seq<T>)
    requires Represents(t, c, data)
    ensures Root(t, c.zero) == TreeRoot(c, data)
  {
    if data != [] {
      var h := t.modHeight;
      FlatLength(c, data, h, h);
      FlatAt(c, data, h, h, h, 0);
    }
  }

  function Sibling(i: nat): nat {
    if i % 2 != 0 then i - 1 else i + 1
  }

  lemma SiblingInLevel(h: nat, k: nat, idx: nat)
    requires k < h <= 31 && idx < Pow2(h - k)
    ensures Sibling(idx) < Pow2(h - k) && idx / 2 < Pow2(h - (k + 1))
    ensures LevelStart(h, k) + Pow2(h - k) == LevelStart(h, k + 1) < 0x1_0000_0000
    ensures Pow2(h - k) <= 0x8000_0000
  {
    assert Pow2(h - k) == 2 * Pow2(h - (k + 1));
    NextLevelStart(h, k);
    SmallPowers(h);
    SmallPowers(h - k);
  }

  /** The siblings met on the way from node idx of level k up to level h. */
  function PathFrom<T, D>(c: Hasher<T, D>, data: seq<T>, h: nat, k: nat, idx: nat): (r: seq<D>)
    requires data != [] && k <= h
    ensures |r| == h - k
    decreases h - k
  {
    if k == h then [] else
      [TreeNode(c, data, k, Sibling(idx))] + PathFrom(c, data, h, k + 1, idx / 2)
  }

  lemma PathStep<T, D>(c: Hasher<T, D>, data: seq<T>, h: nat, k: nat, idx: nat, full: seq<D>)
    requires data != [] && k < h && |full| == h && full[k..] == PathFrom(c, data, h, k, idx)
    ensures full[k] == TreeNode(c, data, k, Sibling(idx))
    ensures full[k + 1..] == PathFrom(c, data, h, k + 1, idx / 2)
  {
    assert full[k] == full[k..][0];
    assert full[k + 1..] == full[k..][1..];
  }

  lemma NoDataNoHeight<T, D>(t: MerkleTree<D>, c: Hasher<T, D>, data: seq<T>)
    requires Represents(t, c, data)
    ensures data == [] ==> t.modHeight == 0
  {
  }

  /** The slot Proof reads at level k holds the sibling of node idx. */
  lemma SiblingSlot<T, D>(t: MerkleTree<D>, c: Hasher<T, D>, data: seq<T>, k: nat, idx: nat)
    requires data != [] && Represents(t, c, data) && k < t.modHeight && idx < Pow2(t.modHeight - k)
    ensures var at := LevelStart(t.modHeight, k) + Sibling(idx);
            at < |t.allNodes| && t.allNodes[at] == TreeNode(c, data, k, Sibling(idx))
  {
    assert Pow2(t.modHeight - k) == 2 * Pow2(t.modHeight - k - 1);
    FlatAt(c, data, t.modHeight, t.modHeight, k, Sibling(idx));
  }

  lemma HalveFirst(n: nat, k: nat)
    ensures n / 2 / Pow2(k) == n / Pow2(k + 1)
  {
    var p := Pow2(k);
    var q, r := n / 2 / p, n / 2 % p;
    assert n / 2 == q * p + r;
    assert n == q * (2 * p) + (2 * r + n % 2);
    QuotientIs(n, 2 * p, q, 2 * r + n % 2);
  }

  lemma QuotientIs(n: nat, d: nat, q: nat, r: nat)
    requires d > 0 && n == q * d + r && r < d
    ensures n / d == q
  {
    var q', r' := n / d, n % d;
    assert n == q' * d + r' && r' < d;
    assert (q' + 1) * d == q' * d + d;
    assert (q + 1) * d == q * d + d;
    if q' < q {
      Hash.MulMonotone(q' + 1, q, d);
    } else if q < q' {
      Hash.MulMonotone(q + 1, q', d);
    }
  }

  lemma {:induction false} PathAt<T, D>(c: Hasher<T, D>, data: seq<T>, h: nat, k: nat, idx: nat, i: nat)
    requires data != [] && k + i < h
    ensures PathFrom(c, data, h, k, idx)[i] == TreeNode(c, data, k + i, Sibling(idx / Pow2(i)))
    decreases i
  {
    hide TreeNode;
    if i > 0 {
      PathAt(c, data, h, k + 1, idx / 2, i - 1);
      HalveFirst(idx, i - 1);
    } else {
      assert idx / Pow2(0) == idx;
    }
  }

  lemma {:induction false} AncestorInLevel(h: nat, index: nat, i: nat)
    requires i <= h && index < Pow2(h)
    ensures index / Pow2(i) < Pow2(h - i)
  {
    if i > 0 {
      AncestorInLevel(h - 1, index / 2, i - 1);
      HalveFirst(index, i - 1);
    } else {
      assert index / Pow2(0) == index;
    }
  }

  /** Digest i of a path is the neighbour, on level i of the array, of node j = index / 2^i. */
  lemma PathSlot<T, D>(t: MerkleTree<D>, c: Hasher<T, D>, data: seq<T>, index: nat, i: nat, j: nat)
    requires data != [] && Represents(t, c, data) && index < Pow2(t.modHeight) && i < t.modHeight
    requires j == index / Pow2(i)
    ensures var at := LevelStart(t.modHeight, i) + (if j % 2 == 0 then j + 1 else j - 1);
            at < |t.allNodes| && PathFrom(c, data, t.modHeight, 0, index)[i] == t.allNodes[at]
  {
    hide PathFrom, TreeNode, Represents;
    AncestorInLevel(t.modHeight, index, i);
    PathAt(c, data, t.modHeight, 0, index, i);
    SiblingSlot(t, c, data, i, j);
  }

  /** The authentication path of leaf `index`, read out of the flat array. The tree over no
      data has height 0 and gives the empty path, whatever the index. */
  method Proof<T, D(==)>(t: MerkleTree<D>, index: nat, ghost c: Hasher<T, D>, ghost data: seq<T>)
    returns (ret: seq<D>)
    requires Represents(t, c, data) && t.modHeight <= 31
    requires data != [] ==> index < Pow2(t.modHeight)
    ensures ret == if data == [] then [] else PathFrom(c, data, t.modHeight, 0, index)
  {
    hide Represents, Flat, TreeNode, Pow2, LevelStart, PathFrom, CeilLog2;
    ret := [];
    var h := t.modHeight;
    NoDataNoHeight(t, c, data);
    FirstLevelStart(h);
    SmallPowers(h);
    ghost var full := if data == [] then [] else PathFrom(c, data, h, 0, index);
    var idx: u32 := index % 0x1_0000_0000;
    var offset: u32 := 0;
    for i := 0 to h
      invariant data != [] ==> idx < Pow2(h - i)
      invariant offset == LevelStart(h, i)
      invariant ret == full[..i] && (data != [] ==> full[i..] == PathFrom(c, data, h, i, idx))
    {
      SiblingInLevel(h, i, idx);
      SiblingSlot(t, c, data, i, idx);
      PathStep(c, data, h, i, idx, full);
      if idx % 2 != 0 {
        ret := ret + [t.allNodes[offset + idx - 1]];
      } else {
        ret := ret + [t.allNodes[offset + idx + 1]];
      }
      idx := idx / 2;
      offset := offset + Pow2(h - i);
    }
  }

  /** The digest reached by folding a path into cur. */
  function Climb<T, D>(c: Hasher<T, D>, cur: D, idx: nat, proof: seq<D>): D
    decreases |proof|
  {
    if proof == [] then cur else
      Climb(c, if idx % 2 == 0 then c.combine(cur, proof[0]) else c.combine(proof[0], cur),
            idx / 2, proof[1..])
  }

  method Verify<T, D(==)>(c: Hasher<T, D>, root: D, datum: D, proof: seq<D>, index: nat) returns (ok: bool)
    ensures ok <==> root == Climb(c, datum, index, proof)
  {
    var cur := datum;
    var idx := index;
    for i := 0 to |proof|
      invariant Climb(c, cur, idx, proof[i..]) == Climb(c, datum, index, proof)
    {
      assert proof[i..][1..] == proof[i + 1..];
      if idx % 2 == 0 {
        cur := c.combine(cur, proof[i]);
      } else {
        cur := c.combine(proof[i], cur);
      }
      idx := idx / 2;
    }
    ok := root == cur;
  }

  /** Folding the path of a node gives the root above it. */
  lemma {:induction false} ClimbReachesRoot<T, D>(c: Hasher<T, D>, data: seq<T>, h: nat, k: nat, idx: nat)
    requires data != [] && k <= h && idx < Pow2(h - k)
    ensures Climb(c, TreeNode(c, data, k, idx), idx, PathFrom(c, data, h, k, idx)) == TreeNode(c, data, h, 0)
    decreases h - k
  {
    if k < h {
      ClimbReachesRoot(c, data, h, k + 1, idx / 2);
      assert PathFrom(c, data, h, k, idx)[1..] == PathFrom(c, data, h, k + 1, idx / 2);
      assert idx % 2 == 0 ==> 2 * (idx / 2) == idx;
      assert idx % 2 != 0 ==> 2 * (idx / 2) + 1 == idx;
    }
  }

  /** What a verifier computes, level by level: bit i of the index says on which side the
      i-th digest of the path goes. */
  lemma {:induction false} ClimbLevels<T, D>(c: Hasher<T, D>, index: nat, proof: seq<D>, levels: seq<D>)
    requires |levels| == |proof| + 1
    requires forall i: nat :: i < |proof| ==>
               && (index / Pow2(i) % 2 == 0 ==> levels[i + 1] == c.combine(levels[i], proof[i]))
               && (index / Pow2(i) % 2 == 1 ==> levels[i + 1] == c.combine(proof[i], levels[i]))
    ensures Climb(c, levels[0], index, proof) == levels[|proof|]
    decreases |proof|
  {
    if proof != [] {
      forall i: nat | i < |proof| - 1
        ensures index / 2 / Pow2(i) == index / Pow2(i + 1)
      {
        HalveFirst(index, i);
      }
      assert index / Pow2(0) == index;
      ClimbLevels(c, index / 2, proof[1..], levels[1..]);
    }
  }

  /** Only the node itself, with its own siblings, climbs to the root. */
  lemma {:induction false} ClimbIsUnique<T(!new), D(!new)>(
    c: Hasher<T, D>, data: seq<T>, h: nat, k: nat, idx: nat, d: D, proof: seq<D>)
    requires CollisionFree(c) && data != [] && k <= h && idx < Pow2(h - k) && |proof| == h - k
    requires Climb(c, d, idx, proof) == TreeNode(c, data, h, 0)
    ensures d == TreeNode(c, data, k, idx) && proof == PathFrom(c, data, h, k, idx)
    decreases h - k
  {
    if k < h {
      var up := if idx % 2 == 0 then c.combine(d, proof[0]) else c.combine(proof[0], d);
      ClimbIsUnique(c, data, h, k + 1, idx / 2, up, proof[1..]);
      assert idx % 2 == 0 ==> 2 * (idx / 2) == idx;
      assert idx % 2 != 0 ==> 2 * (idx / 2) + 1 == idx;
      assert proof == [proof[0]] + proof[1..];
    }
  }

  /** Completeness and soundness together: at an index inside the padded leaves, a
      path of the tree's height is accepted exactly when the datum is the leaf there
      and the path is the one Proof returns. */
  lemma AcceptedIffGenuine<T(!new), D(!new)>(
    c: Hasher<T, D>, data: seq<T>, index: nat, datum: D, proof: seq<D>)
    requires CollisionFree(c) && data != []
    requires index < Pow2(CeilLog2(|data|)) && |proof| == CeilLog2(|data|)
    ensures TreeRoot(c, data) == Climb(c, datum, index, proof) <==>
            datum == c.leaf(Datum(data, index)) && proof == PathFrom(c, data, CeilLog2(|data|), 0, index)
  {
    var h := CeilLog2(|data|);
    ClimbReachesRoot(c, data, h, 0, index);
    if TreeRoot(c, data) == Climb(c, datum, index, proof) {
      ClimbIsUnique(c, data, h, 0, index, datum, proof);
    }
  }

  /** Completeness needs no assumption on the hash: every datum's own path verifies. */
  method VerifyOwnProof<T, D(==)>(c: Hasher<T, D>, data: seq<T>, i: nat) returns (ok: bool)
    requires i < |data| <= 0x8000_0000
    ensures ok
  {
    var t := New(c, data);
    var proof := Proof(t, i, c, data);
    ok := Verify(c, Root(t, c.zero), c.leaf(data[i]), proof, i);
    RootIsTreeRoot(t, c, data);
    ClimbReachesRoot(c, data, t.modHeight, 0, i);
  }

  /** The leaves under a node are those under its two children. */
  lemma SplitSpan(k: nat, j: nat)
    requires k > 0
    ensures j * Pow2(k) == (2 * j) * Pow2(k - 1)
    ensures (j + 1) * Pow2(k) == (2 * j + 2) * Pow2(k - 1)
    ensures j * Pow2(k) <= (2 * j + 1) * Pow2(k - 1) <= (j + 1) * Pow2(k)
  {
    var p := Pow2(k - 1);
    assert (2 * j) * p <= (2 * j + 1) * p <= (2 * j + 2) * p;
  }

  /** The two lists, each padded, agree on the leaves lo to hi. */
  ghost predicate SameData<T>(d1: seq<T>, d2: seq<T>, lo: nat, hi: nat)
    requires d1 != [] && d2 != []
  {
    forall i: nat :: lo <= i < hi ==> Datum(d1, i) == Datum(d2, i)
  }

  /** Equal nodes of two trees sit at the same level over equal data. */
  lemma {:induction false} EqualNodesEqualData<T(!new), D(!new)>(
    c: Hasher<T, D>, d1: seq<T>, d2: seq<T>, k1: nat, k2: nat, j: nat)
    requires CollisionFree(c) && d1 != [] && d2 != []
    requires TreeNode(c, d1, k1, j) == TreeNode(c, d2, k2, j)
    ensures k1 == k2
    ensures SameData(d1, d2, j * Pow2(k1), (j + 1) * Pow2(k1))
    decreases k1
  {
    if k1 > 0 && k2 > 0 {
      EqualNodesEqualData(c, d1, d2, k1 - 1, k2 - 1, 2 * j);
      EqualNodesEqualData(c, d1, d2, k1 - 1, k2 - 1, 2 * j + 1);
      SplitSpan(k1, j);
    }
  }

  lemma {:induction false} EqualDataEqualNodes<T, D>(c: Hasher<T, D>, d1: seq<T>, d2: seq<T>, k: nat, j: nat)
    requires d1 != [] && d2 != []
    requires SameData(d1, d2, j * Pow2(k), (j + 1) * Pow2(k))
    ensures TreeNode(c, d1, k, j) == TreeNode(c, d2, k, j)
    decreases k
  {
    if k > 0 {
      SplitSpan(k, j);
      EqualDataEqualNodes(c, d1, d2, k - 1, 2 * j);
      EqualDataEqualNodes(c, d1, d2, k - 1, 2 * j + 1);
    }
  }

  /** Same tree height, and the same data once the last one is repeated. */
  predicate SamePadded<T(==)>(d1: seq<T>, d2: seq<T>) {
    if d1 == [] || d2 == [] then d1 == d2 else
      && CeilLog2(|d1|) == CeilLog2(|d2|)
      && forall i: nat | i < Pow2(CeilLog2(|d1|)) :: Datum(d1, i) == Datum(d2, i)
  }

  /** What a root commits to, exactly: the padded list. */
  lemma RootsEqualIffSamePadded<T(!new), D(!new)>(c: Hasher<T, D>, d1: seq<T>, d2: seq<T>)
    requires CollisionFree(c)
    ensures TreeRoot(c, d1) == TreeRoot(c, d2) <==> SamePadded(d1, d2)
  {
    if d1 != [] && d2 != [] {
      if TreeRoot(c, d1) == TreeRoot(c, d2) {
        EqualNodesEqualData(c, d1, d2, CeilLog2(|d1|), CeilLog2(|d2|), 0);
      }
      if SamePadded(d1, d2) {
        EqualDataEqualNodes(c, d1, d2, CeilLog2(|d1|), 0);
      }
    }
  }

  /** A root commits to a duplicate-free list, whatever the two lengths. */
  lemma RootCommits<T(!new), D(!new)>(c: Hasher<T, D>, d1: seq<T>, d2: seq<T>)
    requires CollisionFree(c) && Distinct(d1) && Distinct(d2)
    requires TreeRoot(c, d1) == TreeRoot(c, d2)
    ensures d1 == d2
  {
    RootsEqualIffSamePadded(c, d1, d2);
    if d1 != [] && d2 != [] {
      if |d1| < |d2| {
        ShorterListDiffers(d1, d2);
      } else if |d2| < |d1| {
        ShorterListDiffers(d2, d1);
      }
      forall i | 0 <= i < |d1|
        ensures d1[i] == d2[i]
      {
        assert Datum(d1, i) == Datum(d2, i);
      }
    }
  }

  lemma ShorterListDiffers<T>(d1: seq<T>, d2: seq<T>)
    requires d1 != [] && Distinct(d2) && |d1| < |d2|
    ensures !SamePadded(d1, d2)
  {
    var n := |d1|;
    assert Datum(d1, n - 1) == Datum(d1, n);
    assert Datum(d2, n - 1) != Datum(d2, n);
  }

  /** The side condition is needed: repeating the last datum can leave the root as it was. */
  lemma RepeatedTailSameRoot<T, D>(c: Hasher<T, D>, a: T, b: T)
    ensures TreeRoot(c, [a, b, b]) == TreeRoot(c, [a, b, b, b])
  {
    var d1, d2 := [a, b, b], [a, b, b, b];
    assert CeilLog2(3) == 2 && CeilLog2(4) == 2 && Pow2(2) == 4;
    EqualDataEqualNodes(c, d1, d2, 2, 0);
  }
}
