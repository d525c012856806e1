/** The block tree of src/blockchain.rs and its longest-chain rule. */
module Blockchains {
  import opened Types

  /** The tree as a value. */
  datatype Chain = Chain(
    blocks: map<H256, ProposerBlock>,
    heights: map<H256, nat>,
    longest: nat,
    tip: H256)

  function NewChain(w: World): Chain {
    Chain(map[w.Genesis() := w.genesis], map[w.Genesis() := 0], 0, w.Genesis())
  }

  /** One insert; without the parent's height the source panics. */
  function Inserted(w: World, c: Chain, b: ProposerBlock): Chain {
    if b.header.proposerParent !in c.heights then c else
      var h := w.Hash(b);
      var currHeight := c.heights[b.header.proposerParent] + 1;
      Chain(c.blocks[h := b], c.heights[h := currHeight],
            if currHeight > c.longest then currHeight else c.longest,
            if currHeight > c.longest then h else c.tip)
  }

  /** Blocks and heights have the same keys, every block sits under its own hash and one
      above its parent, and the tip is among the highest. */
  ghost predicate ChainInv(w: World, c: Chain) {
    && c.heights.Keys == c.blocks.Keys
    && w.Genesis() in c.blocks && c.heights[w.Genesis()] == 0
    && (forall h :: h in c.blocks ==> c.blocks[h] == w.proposerOf(h) && w.Hash(c.blocks[h]) == h)
    && (forall h :: h in c.blocks && h != w.Genesis() ==>
          && c.blocks[h].header.proposerParent in c.blocks
          && c.heights[h] == c.heights[c.blocks[h].header.proposerParent] + 1)
    && (forall h :: h in c.blocks ==> c.heights[h] <= c.longest)
    && c.tip in c.blocks && c.heights[c.tip] == c.longest
  }

  /** b may be inserted: it is the block its hash stands for, and its parent is there. */
  predicate Insertable(w: World, c: Chain, b: ProposerBlock) {
    w.Occurs(b) && b.header.proposerParent in c.blocks
  }

  lemma NewChainInv(w: World)
    requires w.Good()
    ensures ChainInv(w, NewChain(w))
  {
  }

  /** Nothing with a parent in the tree has the genesis hash. */
  lemma NotGenesis(w: World, c: Chain, b: ProposerBlock)
    requires w.Good() && ChainInv(w, c) && Insertable(w, c, b)
    ensures w.Hash(b) != w.Genesis()
  {
  }

  lemma KnownBlock(w: World, c: Chain, b: ProposerBlock)
    requires w.Good() && ChainInv(w, c) && Insertable(w, c, b) && w.Hash(b) in c.blocks
    ensures c.blocks[w.Hash(b)] == b
    ensures b.header.proposerParent in c.heights && w.Hash(b) in c.heights
    ensures c.heights[b.header.proposerParent] + 1 == c.heights[w.Hash(b)] <= c.longest
  {
    NotGenesis(w, c, b);
  }

  lemma ReinsertNoChange(w: World, c: Chain, b: ProposerBlock)
    requires w.Good() && ChainInv(w, c) && Insertable(w, c, b) && w.Hash(b) in c.blocks
    ensures Inserted(w, c, b) == c
  {
    hide ChainInv, Insertable;
    KnownBlock(w, c, b);
    var h := w.Hash(b);
    SameUpdate(c.blocks, h, b);
    SameUpdate(c.heights, h, c.heights[h]);
  }

  lemma SameUpdate<K, V>(m: map<K, V>, k: K, v: V)
    requires k in m && m[k] == v
    ensures m[k := v] == m
  {
  }

  lemma InsertFresh(w: World, c: Chain, b: ProposerBlock)
    requires w.Good() && ChainInv(w, c) && Insertable(w, c, b) && w.Hash(b) !in c.blocks
    ensures ChainInv(w, Inserted(w, c, b))
  {
    var c' := Inserted(w, c, b);
    assert forall h :: h in c.blocks ==> c'.blocks[h] == c.blocks[h] && c'.heights[h] == c.heights[h];
  }

  /** Inserting a block that is there already changes nothing, a new one adds it; the
      longest height grows by at most one, and the tip moves only to a strictly higher block. */
  lemma InsertStep(w: World, c: Chain, b: ProposerBlock)
    requires w.Good() && ChainInv(w, c) && Insertable(w, c, b)
    ensures ChainInv(w, Inserted(w, c, b))
    ensures Inserted(w, c, b).blocks == c.blocks[w.Hash(b) := b]
    ensures w.Hash(b) in c.blocks ==> Inserted(w, c, b) == c
    ensures c.longest <= Inserted(w, c, b).longest <= c.longest + 1
    ensures Inserted(w, c, b).tip == if Inserted(w, c, b).longest > c.longest then w.Hash(b) else c.tip
    ensures forall h :: h in c.blocks ==> Inserted(w, c, b).heights[h] == c.heights[h]
  {
    if w.Hash(b) in c.blocks {
      ReinsertNoChange(w, c, b);
    } else {
      InsertFresh(w, c, b);
    }
  }

  // ---------------------------------------------------------------------------
  // Paths to genesis

  /** The blocks from genesis to h. */
  ghost function PathTo(w: World, c: Chain, h: H256): (p: seq<ProposerBlock>)
    requires ChainInv(w, c) && h in c.blocks
    ensures |p| == c.heights[h] + 1
    ensures p[0] == w.proposerOf(w.Genesis())
    ensures w.Hash(p[|p| - 1]) == h
    decreases c.heights[h]
  {
    if h == w.Genesis() then [c.blocks[h]] else
      PathTo(w, c, c.blocks[h].header.proposerParent) + [c.blocks[h]]
  }

  /** Every block of a path is in the tree, at the height of its position, and names the
      block before it as its parent. */
  lemma {:induction false} PathShape(w: World, c: Chain, h: H256, i: nat)
    requires ChainInv(w, c) && h in c.blocks && i <= c.heights[h]
    ensures var p := PathTo(w, c, h);
            && w.Hash(p[i]) in c.blocks && c.blocks[w.Hash(p[i])] == p[i]
            && c.heights[w.Hash(p[i])] == i
            && (i > 0 ==> w.Hash(p[i]) != w.Genesis() && p[i].header.proposerParent == w.Hash(p[i - 1]))
    decreases c.heights[h]
  {
    if i < c.heights[h] {
      PathShape(w, c, c.blocks[h].header.proposerParent, i);
    }
  }

  // ---------------------------------------------------------------------------
  // Whole runs of inserts

  function ChainAfter(w: World, bs: seq<ProposerBlock>): Chain {
    if bs == [] then NewChain(w) else Inserted(w, ChainAfter(w, bs[..|bs| - 1]), bs[|bs| - 1])
  }

  /** Every block's parent was there when it was inserted. */
  predicate InsertableRun(w: World, bs: seq<ProposerBlock>) {
    bs != [] ==>
      var init, b := bs[..|bs| - 1], bs[|bs| - 1];
      InsertableRun(w, init) && Insertable(w, ChainAfter(w, init), b)
  }

  ghost function Hashes(w: World, bs: seq<ProposerBlock>): set<H256> {
    set b | b in bs :: w.Hash(b)
  }

  lemma NoHashes(w: World)
    ensures Hashes(w, []) == {}
  {
  }

  lemma HashesPush(w: World, init: seq<ProposerBlock>, b: ProposerBlock)
    ensures Hashes(w, init + [b]) == Hashes(w, init) + {w.Hash(b)}
  {
    assert forall x :: x in init + [b] <==> x in init || x == b;
  }

  /** The blocks inserted are the blocks held. */
  lemma {:induction false} InsertsInv(w: World, bs: seq<ProposerBlock>)
    requires w.Good() && InsertableRun(w, bs)
    ensures ChainInv(w, ChainAfter(w, bs))
    ensures ChainAfter(w, bs).blocks.Keys == {w.Genesis()} + Hashes(w, bs)
  {
    hide ChainInv, Inserted, Hashes, Insertable;
    if bs == [] {
      NoHashes(w);
      NewChainInv(w);
    } else {
      var init, b := bs[..|bs| - 1], bs[|bs| - 1];
      InsertsInv(w, init);
      RunStep(w, init, b);
      assert bs == init + [b];
    }
  }

  lemma RunStep(w: World, init: seq<ProposerBlock>, b: ProposerBlock)
    requires w.Good() && ChainInv(w, ChainAfter(w, init)) && Insertable(w, ChainAfter(w, init), b)
    requires ChainAfter(w, init).blocks.Keys == {w.Genesis()} + Hashes(w, init)
    ensures ChainInv(w, ChainAfter(w, init + [b]))
    ensures ChainAfter(w, init + [b]).blocks.Keys == {w.Genesis()} + Hashes(w, init + [b])
  {
    hide ChainInv, Inserted, Hashes, Insertable;
    assert (init + [b])[..|init|] == init;
    InsertStep(w, ChainAfter(w, init), b);
    HashesPush(w, init, b);
  }

  /** bs[i] is the tip, it has the maximum height, and everything inserted before it is lower. */
  ghost predicate FirstAmongHighest(w: World, c: Chain, bs: seq<ProposerBlock>, i: nat) {
    && i < |bs| && w.Hash(bs[i]) == c.tip
    && forall j | 0 <= j < i :: w.Hash(bs[j]) in c.heights && c.heights[w.Hash(bs[j])] < c.longest
  }

  lemma SameKeys(w: World, c: Chain)
    requires ChainInv(w, c)
    ensures c.heights.Keys == c.blocks.Keys
    ensures forall h :: h in c.blocks ==> c.heights[h] <= c.longest
  {
  }

  /** A block that became the tip is higher than all before it. */
  lemma TipMoves(w: World, init: seq<ProposerBlock>, b: ProposerBlock)
    requires w.Good() && InsertableRun(w, init) && Insertable(w, ChainAfter(w, init), b)
    requires Inserted(w, ChainAfter(w, init), b).longest > ChainAfter(w, init).longest
    ensures FirstAmongHighest(w, Inserted(w, ChainAfter(w, init), b), init + [b], |init|)
  {
    hide ChainInv, Inserted, ChainAfter, InsertableRun;
    var c, c' := ChainAfter(w, init), Inserted(w, ChainAfter(w, init), b);
    InsertsInv(w, init);
    InsertStep(w, c, b);
    SameKeys(w, c);
    SameKeys(w, c');
    forall j | 0 <= j < |init|
      ensures w.Hash((init + [b])[j]) in c'.heights && c'.heights[w.Hash((init + [b])[j])] < c'.longest
    {
      assert (init + [b])[j] == init[j] && init[j] in init;
      assert w.Hash(init[j]) in Hashes(w, init);
    }
  }

  /** A tip that did not move is still the first among the highest. */
  lemma TipStays(w: World, init: seq<ProposerBlock>, b: ProposerBlock, i: nat)
    requires w.Good() && InsertableRun(w, init) && Insertable(w, ChainAfter(w, init), b)
    requires Inserted(w, ChainAfter(w, init), b).longest <= ChainAfter(w, init).longest
    requires FirstAmongHighest(w, ChainAfter(w, init), init, i)
    ensures FirstAmongHighest(w, Inserted(w, ChainAfter(w, init), b), init + [b], i)
  {
    hide ChainInv, Inserted, ChainAfter, InsertableRun, Insertable;
    var c, c' := ChainAfter(w, init), Inserted(w, ChainAfter(w, init), b);
    InsertsInv(w, init);
    InsertStep(w, c, b);
    SameKeys(w, c);
    SameKeys(w, c');
    forall j | 0 <= j < i
      ensures w.Hash((init + [b])[j]) in c'.heights && c'.heights[w.Hash((init + [b])[j])] < c'.longest
    {
      assert (init + [b])[j] == init[j] && w.Hash(init[j]) in c.heights;
    }
  }

  /** The first-seen rule: the tip is the earliest inserted of the highest blocks. */
  lemma {:induction false} FirstSeen(w: World, bs: seq<ProposerBlock>) returns (i: nat)
    requires w.Good() && InsertableRun(w, bs) && bs != []
    ensures ChainAfter(w, bs).longest > 0
    ensures FirstAmongHighest(w, ChainAfter(w, bs), bs, i)
  {
    hide ChainInv, Inserted, FirstAmongHighest, Insertable;
    var init, b := bs[..|bs| - 1], bs[|bs| - 1];
    assert bs == init + [b];
    InsertsInv(w, init);
    InsertStep(w, ChainAfter(w, init), b);
    if ChainAfter(w, bs).longest > ChainAfter(w, init).longest {
      TipMoves(w, init, b);
      i := |init|;
    } else {
      if init == [] {
        FirstBlockMoves(w, init, b);
      }
      i := FirstSeen(w, init);
      TipStays(w, init, b, i);
    }
  }

  lemma FirstBlockMoves(w: World, init: seq<ProposerBlock>, b: ProposerBlock)
    requires w.Good() && Insertable(w, ChainAfter(w, init), b) && init == []
    ensures Inserted(w, ChainAfter(w, init), b).longest > ChainAfter(w, init).longest
  {
  }

  lemma TipHeight(w: World, c: Chain)
    requires ChainInv(w, c)
    ensures c.tip in c.blocks && c.heights[c.tip] == c.longest
    ensures PathTo(w, c, c.tip)[0] == c.blocks[w.Genesis()] && w.Hash(c.blocks[w.Genesis()]) == w.Genesis()
  {
  }

  // ---------------------------------------------------------------------------
  // The object

  class Blockchain {
    const w: World
    var blocks: map<H256, ProposerBlock>
    var heights: map<H256, nat>
    var longest: nat
    var tipNodeHash: H256

    function View(): Chain
      reads this
    {
      Chain(blocks, heights, longest, tipNodeHash)
    }

    constructor (w: World)
      requires w.Good()
      ensures this.w == w && View() == NewChain(w) && ChainInv(w, View())
      ensures tipNodeHash in blocks && blocks.Keys == {tipNodeHash} && heights == map[tipNodeHash := 0]
      ensures var g := blocks[tipNodeHash];
              && g.content == [0] && g.header.nonce == 1 && g.header.timestamp == 1
              && g.header.transactionDifficulty == Hash.BigEndian([127] + seq(31, _ => 255))
              && g.header.proposerDifficulty == Hash.BigEndian([15] + seq(31, _ => 255))
              && g.header.proposerParent == g.header.merkleTransaction == g.header.merkleProposer == w.h256Hash(0)
    {
      this.w := w;
      var zeroTree := Merkle.New(w.PropHasher(), [0]);
      Merkle.RootIsTreeRoot(zeroTree, w.PropHasher(), [0]);
      var root := Merkle.Root(zeroTree, 0);
      var header := Header(root, 1, 1, TRANSACTION_DIFFICULTY, PROPOSER_DIFFICULTY, root, root);
      var genesisBlock := ProposerBlock(header, [0]);
      assert genesisBlock == w.genesis;
      blocks := map[w.Hash(genesisBlock) := genesisBlock];
      heights := map[w.Hash(genesisBlock) := 0];
      longest, tipNodeHash := 0, w.Hash(genesisBlock);
      new;
      NewChainInv(w);
      Difficulties();
    }

    method Insert(b: ProposerBlock)
      requires b.header.proposerParent in heights
      modifies this
      ensures View() == Inserted(w, old(View()), b)
    {
      var h := w.Hash(b);
      blocks := blocks[h := b];
      var currHeight := heights[b.header.proposerParent] + 1;
      heights := heights[h := currHeight];
      if currHeight > longest {
        longest := currHeight;
        tipNodeHash := h;
      }
    }

    method Tip() returns (h: H256)
      ensures h == tipNodeHash
    {
      h := tipNodeHash;
    }

    /** The complete path from genesis to the tip. */
    method AllBlocksInLongestChain() returns (result: seq<H256>)
      requires ChainInv(w, View())
      ensures |result| == longest + 1
      ensures result[0] == w.Genesis() && result[longest] == tipNodeHash
      ensures var p := PathTo(w, View(), tipNodeHash);
              forall i :: 0 <= i <= longest ==> result[i] == w.Hash(p[i])
    {
      hide PathTo, ChainInv;
      SameKeys(w, View());
      TipHeight(w, View());
      ghost var p := PathTo(w, View(), tipNodeHash);
      result := [];
      var currNode := tipNodeHash;
      if longest == 0 {
        result := result + [tipNodeHash];
        return;
      }
      for i := 0 to longest + 1
        invariant |result| == i
        invariant forall j :: 0 <= j < i ==> result[j] == w.Hash(p[longest - j])
        invariant i <= longest ==> currNode == w.Hash(p[longest - i])
      {
        PathShape(w, View(), tipNodeHash, longest - i);
        result := result + [currNode];
        currNode := blocks[currNode].header.proposerParent;
      }
      result := Reversed(result);
    }
  }

  function Reversed<T>(s: seq<T>): (r: seq<T>)
    ensures |r| == |s|
    ensures forall i :: 0 <= i < |s| ==> r[i] == s[|s| - 1 - i]
  {
    seq(|s|, i requires 0 <= i < |s| => s[|s| - 1 - i])
  }
}
