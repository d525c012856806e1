/** The miner of src/miner.rs: what it selects, what it builds, what it stores, and why
    the nodes it sends its blocks to come to the same result. */
module Miner {
  import opened Basics
  import opened Types
  import opened Ledgers
  import opened Blockchains
  import opened Nodes
  import opened Workers
  import opened Delivery
  import Supply

  const NUM_TRANS_IN_TRANS_BLOCK: nat := 10
  const NUM_REF_IN_PROPOSER_BLOCK: nat := 10

  // ---------------------------------------------------------------------------
  // Content selection

  /** Up to ten pooled transactions all of whose inputs are live, in map iteration order;
      fewer only when there are no more. */
  method SelectTransactions(w: World, pool: map<H256, SignedTransaction>, currState: Ledger)
    returns (content: seq<SignedTransaction>)
    requires forall k | k in pool :: Indexed(w, k, pool[k])
    ensures Distinct(content) && |content| <= NUM_TRANS_IN_TRANS_BLOCK
    ensures forall tx | tx in content ::
              w.txHash(tx) in pool && pool[w.txHash(tx)] == tx && AllLive(currState, tx.transaction)
    ensures |content| < NUM_TRANS_IN_TRANS_BLOCK ==>
              forall k | k in pool && AllLive(currState, pool[k].transaction) :: pool[k] in content
  {
    content := [];
    var keys := pool.Keys;
    while keys != {}
      invariant keys <= pool.Keys && |content| <= NUM_TRANS_IN_TRANS_BLOCK
      invariant Distinct(content)
      invariant forall tx | tx in content ::
                  w.txHash(tx) in pool.Keys - keys && pool[w.txHash(tx)] == tx && AllLive(currState, tx.transaction)
      invariant forall k | k in pool.Keys - keys && AllLive(currState, pool[k].transaction) :: pool[k] in content
      decreases keys
    {
      if |content| >= NUM_TRANS_IN_TRANS_BLOCK {
        break;
      }
      var k :| k in keys;
      assert Indexed(w, k, pool[k]);
      var t := pool[k].transaction;
      var valid := true;
      for idx := 0 to |t.inputPrevious|
        invariant valid <==> forall i | 0 <= i < idx :: InputCoin(t, i) in currState
      {
        if InputCoin(t, idx) !in currState {
          valid := false;
          break;
        }
      }
      if valid {
        content := content + [pool[k]];
      }
      keys := keys - {k};
    }
  }

  /** Up to ten pooled tx blocks that no ancestor refers to, in map iteration order; fewer
      only when there are no more. */
  method SelectRefs(pool: map<H256, TXBlock>, pointed: seq<H256>) returns (content: seq<H256>)
    ensures Supply.Filtered(pointed, content) && |content| <= NUM_REF_IN_PROPOSER_BLOCK
    ensures forall r | r in content :: r in pool
    ensures |content| < NUM_REF_IN_PROPOSER_BLOCK ==> forall r | r in pool :: r in pointed || r in content
  {
    content := [];
    var keys := pool.Keys;
    while keys != {}
      invariant keys <= pool.Keys && |content| <= NUM_REF_IN_PROPOSER_BLOCK
      invariant Supply.Filtered(pointed, content)
      invariant forall r | r in content :: r in pool.Keys - keys
      invariant forall r | r in pool.Keys - keys :: r in pointed || r in content
      decreases keys
    {
      if |content| >= NUM_REF_IN_PROPOSER_BLOCK {
        break;
      }
      var r :| r in keys;
      if r !in pointed {
        Supply.FilteredPush(pointed, content, r);
        content := content + [r];
      }
      keys := keys - {r};
    }
  }

  // ---------------------------------------------------------------------------
  // What the hash of a built block commits to

  /** The header carries the Merkle root of the content, which lists nothing twice. */
  ghost predicate WellBuilt(w: World, b: ProposerBlock) {
    Distinct(b.content) && b.header.merkleProposer == Merkle.TreeRoot(w.PropHasher(), b.content)
  }

  ghost predicate WellBuiltTx(w: World, tb: TXBlock) {
    Distinct(tb.content) && tb.header.merkleTransaction == Merkle.TreeRoot(w.TxHasher(), tb.content)
  }

  ghost predicate HashesWell(w: World) {
    && (forall x, y :: w.headerHash(x) == w.headerHash(y) ==> x == y)
    && Merkle.CollisionFree(w.PropHasher()) && Merkle.CollisionFree(w.TxHasher())
  }

  /** The hash covers the header only, yet it determines a built block entirely: the root in
      the header commits to the content. */
  lemma HashDeterminesBlock(w: World, b: ProposerBlock, b': ProposerBlock)
    requires HashesWell(w) && WellBuilt(w, b) && WellBuilt(w, b') && w.Hash(b) == w.Hash(b')
    ensures b == b'
  {
    Merkle.RootCommits(w.PropHasher(), b.content, b'.content);
  }

  lemma HashDeterminesTxBlock(w: World, tb: TXBlock, tb': TXBlock)
    requires HashesWell(w) && WellBuiltTx(w, tb) && WellBuiltTx(w, tb') && w.TxBlockHash(tb) == w.TxBlockHash(tb')
    ensures tb == tb'
  {
    Merkle.RootCommits(w.TxHasher(), tb.content, tb'.content);
  }

  /** Built blocks are the ones their hashes stand for. HashDeterminesBlock says that this
      can be so for all of them at once. */
  ghost predicate BuiltBlocksOccur(w: World) {
    (forall b :: WellBuilt(w, b) ==> w.Occurs(b)) && (forall tb :: WellBuiltTx(w, tb) ==> w.TxBlockOccurs(tb))
  }

  // ---------------------------------------------------------------------------
  // One round of mining

  /** What a round comes to. In the last case the block was built and its reference list
      written, but its transactions cannot be folded: the miner's thread panics. */
  datatype Mined = Nothing | Proposer(b: ProposerBlock) | Transactions(tb: TXBlock) | Panicked(b: ProposerBlock)

  /** What the miner puts on top of a node's tip. */
  ghost predicate BuiltOn(w: World, db: Db, b: ProposerBlock) {
    && WellBuilt(w, b) && b.content != []
    && b.header.proposerParent == db.chain.tip
    && db.chain.tip in db.chain.blocks
    && b.header.proposerDifficulty == db.chain.blocks[db.chain.tip].header.proposerDifficulty
    && w.Hash(b) < b.header.proposerDifficulty
    && Referenced(db.txBlockPool, b)
    && db.chain.tip in db.txBlockRef && Supply.Filtered(db.txBlockRef[db.chain.tip], b.content)
  }

  ghost predicate TxBuiltOn(w: World, db: Db, tb: TXBlock) {
    && WellBuiltTx(w, tb) && tb.content != []
    && tb.header.proposerDifficulty <= w.TxBlockHash(tb) < tb.header.transactionDifficulty
    && db.chain.tip in db.globState
    && forall tx | tx in tb.content :: w.txHash(tx) in db.txPool && AllLive(db.globState[db.chain.tip], tx.transaction)
  }

  /** The header made for a round carries the tip, the tip's difficulties, and the given
      nonce and time. */
  ghost predicate HeaderOn(db: Db, header: Header, nonce: u32, timestamp: nat) {
    && header.proposerParent == db.chain.tip && db.chain.tip in db.chain.blocks
    && header.nonce == nonce && header.timestamp == timestamp
    && var parentHeader := db.chain.blocks[db.chain.tip].header;
    && header.proposerDifficulty == parentHeader.proposerDifficulty
    && header.transactionDifficulty == parentHeader.transactionDifficulty
  }

  /** A round with this header comes to nothing: the hash is too high, or there is nothing
      to put into the kind of block it is low enough for. */
  ghost predicate NothingToMine(w: World, db: Db, header: Header)
    requires db.chain.tip in db.txBlockRef && db.chain.tip in db.globState
  {
    var h := w.headerHash(header);
    if h < header.proposerDifficulty then forall r | r in db.txBlockPool :: r in db.txBlockRef[db.chain.tip]
    else if h < header.transactionDifficulty then
      forall k | k in db.txPool :: !AllLive(db.globState[db.chain.tip], db.txPool[k].transaction)
    else true
  }

  /** The inputs of every pooled transaction can be counted in 32 bits. */
  ghost predicate PoolCountable(w: World, db: Db) {
    forall r :: r in db.txBlockPool ==> Countable(w, [r])
  }

  /** The transactions a round has selected: at most ten, each once, all of them pooled with
      all their coins in the tip's ledger, and fewer than ten only if there are no more. */
  ghost predicate SelectedTxs(w: World, db: Db, txs: seq<SignedTransaction>)
    requires db.chain.tip in db.globState
  {
    var s := db.globState[db.chain.tip];
    && |txs| <= 10 && Distinct(txs)
    && (forall tx :: tx in txs ==>
          && w.txHash(tx) in db.txPool && db.txPool[w.txHash(tx)] == tx && CoinsIn(tx.transaction, s))
    && (|txs| < 10 ==> forall k :: k in db.txPool && CoinsIn(db.txPool[k].transaction, s) ==> db.txPool[k] in txs)
  }

  /** The tx blocks a round has selected: at most ten, each once, all of them pooled and none
      of them listed at the tip, and fewer than ten only if there are no more. */
  ghost predicate SelectedRefs(db: Db, refs: seq<H256>)
    requires db.chain.tip in db.txBlockRef
  {
    && |refs| <= 10 && Distinct(refs)
    && (forall r :: r in refs ==> r in db.txBlockPool && r !in db.txBlockRef[db.chain.tip])
    && (|refs| < 10 ==> forall r :: r in db.txBlockPool ==> r in db.txBlockRef[db.chain.tip] || r in refs)
  }

  lemma SelectionsAre(w: World, db: Db, txs: seq<SignedTransaction>, refs: seq<H256>)
    requires db.chain.tip in db.globState && db.chain.tip in db.txBlockRef
    requires var s := db.globState[db.chain.tip];
             && Distinct(txs) && |txs| <= NUM_TRANS_IN_TRANS_BLOCK
             && (forall tx | tx in txs ::
                   w.txHash(tx) in db.txPool && db.txPool[w.txHash(tx)] == tx && AllLive(s, tx.transaction))
             && (|txs| < NUM_TRANS_IN_TRANS_BLOCK ==>
                   forall k | k in db.txPool && AllLive(s, db.txPool[k].transaction) :: db.txPool[k] in txs)
    requires Supply.Filtered(db.txBlockRef[db.chain.tip], refs) && |refs| <= NUM_REF_IN_PROPOSER_BLOCK
    requires forall r | r in refs :: r in db.txBlockPool
    requires |refs| < NUM_REF_IN_PROPOSER_BLOCK ==>
               forall r | r in db.txBlockPool :: r in db.txBlockRef[db.chain.tip] || r in refs
    ensures SelectedTxs(w, db, txs) && SelectedRefs(db, refs)
  {
    hide AllLive, CoinsIn;
    forall t: Transaction
      ensures AllLive(db.globState[db.chain.tip], t) <==> CoinsIn(t, db.globState[db.chain.tip])
    {
      LiveIsIn(t, db.globState[db.chain.tip]);
    }
  }

  /** One pass of miner_loop with a given nonce and time. A proposer block is stored exactly
      as a worker stores it, although the reference list is concatenated here; a tx block
      takes its transactions out of the pool. */
  method MineOnce(n: Node, nonce: u32, timestamp: nat)
    returns (mined: Mined, header: Header, txs: seq<SignedTransaction>, refs: seq<H256>)
    requires n.Valid() && BuiltBlocksOccur(n.w)
    requires PoolCountable(n.w, n.View())
    modifies n`txBlockRef, n`txPool, n`globState, n`txBlockPool, n.chain
    ensures !mined.Panicked? ==> n.Valid()
    ensures HeaderOn(old(n.View()), header, nonce, timestamp)
    ensures old(n.chain.tipNodeHash in n.txBlockRef && n.chain.tipNodeHash in n.globState)
    ensures SelectedTxs(n.w, old(n.View()), txs) && SelectedRefs(old(n.View()), refs)
    ensures header.merkleTransaction == Merkle.TreeRoot(n.w.TxHasher(), txs)
    ensures header.merkleProposer == Merkle.TreeRoot(n.w.PropHasher(), refs)
    ensures mined.Proposer? || mined.Panicked? ==> mined.b.content == refs
    ensures mined.Transactions? ==> mined.tb.content == txs
    ensures mined.Nothing? <==> NothingToMine(n.w, old(n.View()), header)
    ensures mined.Nothing? ==> n.View() == old(n.View())
    ensures mined.Proposer? || mined.Panicked? ==> mined.b.header == header
    ensures mined.Transactions? ==> mined.tb.header == header
    ensures mined.Proposer? ==>
              && BuiltOn(n.w, old(n.View()), mined.b) && FoldsOn(n.w, old(n.View()), mined.b)
              && n.View() == Process(n.w, old(n.View()), mined.b)
    ensures mined.Panicked? ==>
              && BuiltOn(n.w, old(n.View()), mined.b) && !FoldsOn(n.w, old(n.View()), mined.b)
              && n.View() == ListWritten(n.w, old(n.View()), mined.b)
    ensures mined.Transactions? ==>
              && TxBuiltOn(n.w, old(n.View()), mined.tb)
              && n.View() == PoolTxBlock(n.w, old(n.View()), mined.tb)
  {
    hide ChainInv, Cached, Bucketed, Pooled, Process, AllLive, CoinsIn, Merkle.TreeRoot, SelectedTxs, SelectedRefs;
    ghost var db := n.View();
    TipIsCached(n.w, db);
    var newParent := n.chain.Tip();
    var currState := n.globState[newParent];
    txs := SelectTransactions(n.w, n.txPool, currState);
    var pointed := n.txBlockRef[newParent];
    refs := SelectRefs(n.txBlockPool, pointed);
    SelectionsAre(n.w, db, txs, refs);
    var parentHeader := n.chain.blocks[newParent].header;
    header := BuildHeader(n.w, newParent, parentHeader, nonce, timestamp, txs, refs);
    var h := n.w.headerHash(header);
    if h < parentHeader.proposerDifficulty {
      if |refs| == 0 {
        mined := Nothing;
        return;
      }
      assert refs[0] in refs;
      var b := ProposerBlock(header, refs);
      assert WellBuilt(n.w, b);
      ChosenCountable(n.w, db, b.content);
      var panicked := Publish(n, b, pointed, currState);
      mined := if panicked then Mined.Panicked(b) else Mined.Proposer(b);
    } else if h < parentHeader.transactionDifficulty {
      if |txs| == 0 {
        mined := Nothing;
        return;
      }
      assert txs[0] in txs;
      var tb := TXBlock(header, txs);
      assert WellBuiltTx(n.w, tb);
      PublishTx(n, tb);
      mined := Transactions(tb);
    } else {
      mined := Nothing;
    }
  }

  lemma ChosenCountable(w: World, db: Db, content: seq<H256>)
    requires PoolCountable(w, db) && forall r | r in content :: r in db.txBlockPool
    ensures Countable(w, content)
  {
    forall r, tx | r in content && tx in w.txBlockOf(r).content
      ensures |tx.transaction.inputPrevious| < 0x1_0000_0000
    {
      assert r in [r] && Countable(w, [r]);
    }
  }

  lemma TipIsCached(w: World, db: Db)
    requires NodeInv(w, db)
    ensures db.chain.tip in db.chain.blocks && db.chain.tip in db.globState && db.chain.tip in db.txBlockRef
  {
    CachedKeys(w, db);
  }

  /** The header over both candidate contents. */
  method BuildHeader(w: World, parent: H256, parentHeader: Header, nonce: u32, timestamp: nat,
                     txs: seq<SignedTransaction>, refs: seq<H256>) returns (header: Header)
    requires |txs| <= 10 && |refs| <= 10
    ensures header == Header(parent, nonce, timestamp,
                             parentHeader.transactionDifficulty, parentHeader.proposerDifficulty,
                             Merkle.TreeRoot(w.TxHasher(), txs), Merkle.TreeRoot(w.PropHasher(), refs))
  {
    var txTree := Merkle.New(w.TxHasher(), txs);
    var refTree := Merkle.New(w.PropHasher(), refs);
    Merkle.RootIsTreeRoot(txTree, w.TxHasher(), txs);
    Merkle.RootIsTreeRoot(refTree, w.PropHasher(), refs);
    header := Header(parent, nonce, timestamp, parentHeader.transactionDifficulty, parentHeader.proposerDifficulty,
                     Merkle.Root(txTree, 0), Merkle.Root(refTree, 0));
  }

  /** The miner's own copy of the storing section: the list is concatenated, the ledger is
      the one read when the round began. */
  method Publish(n: Node, b: ProposerBlock, pointed: seq<H256>, currState: Ledger) returns (panicked: bool)
    requires n.Valid() && n.w.Occurs(b) && BuiltOn(n.w, n.View(), b) && Countable(n.w, b.content)
    requires n.chain.tipNodeHash in n.globState && currState == n.globState[n.chain.tipNodeHash]
    requires n.chain.tipNodeHash in n.txBlockRef && pointed == n.txBlockRef[n.chain.tipNodeHash]
    modifies n`txBlockRef, n`txPool, n`globState, n.chain
    ensures panicked <==> !FoldsOn(n.w, old(n.View()), b)
    ensures !panicked ==> n.Valid() && n.View() == Process(n.w, old(n.View()), b)
    ensures panicked ==> n.View() == ListWritten(n.w, old(n.View()), b)
  {
    hide ApplyRefs, RefsFold, ExtendRefs, ChainInv, Inserted, Cached, Bucketed;
    ghost var db := n.View();
    var h := n.w.Hash(b);
    IsReady(n.w, db, b);
    ProcessStep(n.w, db, b);
    ListIsDistinct(n.w, db, db.chain.tip);
    Supply.LoopIsConcatIffFiltered(pointed, b.content);
    var concatenated := pointed + b.content;
    n.txBlockRef := n.txBlockRef[h := concatenated];
    var newState;
    panicked, newState := UpdateLedger(n.w, n.txBlockPool, currState, b.content);
    if panicked {
      return;
    }
    n.txPool := PrunePool(n.txPool, newState);
    n.globState := n.globState[h := newState];
    n.chain.Insert(b);
  }

  /** What a panic in the fold leaves behind: only the reference list has been written. */
  function ListWritten(w: World, db: Db, b: ProposerBlock): Db {
    var p := b.header.proposerParent;
    if p !in db.txBlockRef then db else
      db.(txBlockRef := db.txBlockRef[w.Hash(b) := db.txBlockRef[p] + b.content])
  }

  lemma ListIsDistinct(w: World, db: Db, h: H256)
    requires w.Good() && NodeInv(w, db) && h in db.chain.blocks
    ensures h in db.txBlockRef && Distinct(db.txBlockRef[h])
  {
    hide Bucketed, Pooled;
    CachesReplay(w, db, h);
    Supply.RefsDistinct(w, PathTo(w, db.chain, h));
  }

  method PublishTx(n: Node, tb: TXBlock)
    requires n.Valid() && n.w.TxBlockOccurs(tb)
    modifies n`txPool, n`txBlockPool
    ensures n.Valid()
    ensures n.View() == PoolTxBlock(n.w, old(n.View()), tb) && TakenIn(n.w, old(n.View()), tb, n.View())
  {
    hide ChainInv, Cached, Bucketed, TakenIn;
    ghost var db := n.View();
    for i := 0 to |tb.content|
      invariant n.txBlockPool == db.txBlockPool
      invariant n.txPool == db.txPool - (set tx | tx in tb.content[..i] :: n.w.txHash(tx))
    {
      var id := n.w.txHash(tb.content[i]);
      assert tb.content[..i + 1] == tb.content[..i] + [tb.content[i]];
      if id in n.txPool {
        n.txPool := n.txPool - {id};
      }
    }
    assert tb.content[..|tb.content|] == tb.content;
    n.txBlockPool := n.txBlockPool[n.w.TxBlockHash(tb) := tb];
    TakesIn(n.w, db, tb);
    CachesApart(n.w, db, n.View());
  }

  // ---------------------------------------------------------------------------
  // Miner and receiver

  /** Two nodes agree on every block both have, whatever else they hold. */
  lemma {:induction false} NodesAgree(w: World, db: Db, db': Db, h: H256)
    requires w.Good() && NodeInv(w, db) && NodeInv(w, db') && h in db.chain.blocks && h in db'.chain.blocks
    ensures StoredAlike(db, db', h)
    decreases db.chain.heights[h]
  {
    hide ApplyRefs, ExtendRefs, Bucketed, Pooled;
    assert EntryOk(w, db, h) && EntryOk(w, db', h);
    if h != w.Genesis() {
      NodesAgree(w, db, db', db.chain.blocks[h].header.proposerParent);
    }
  }

  /** Both nodes have the block, with the same ledger and reference list. */
  ghost predicate StoredAlike(db: Db, db': Db, h: H256) {
    && h in db.chain.blocks && h in db'.chain.blocks
    && h in db.globState && h in db'.globState && db.globState[h] == db'.globState[h]
    && h in db.txBlockRef && h in db'.txBlockRef && db.txBlockRef[h] == db'.txBlockRef[h]
  }

  /** A block mined on one node and delivered to another that has its parent is accepted
      there exactly when its tx blocks are correctly signed, which neither the miner nor the
      tx block pool checks; and then it gets the ledger and the reference list the miner stored. */
  lemma ReceiverAgrees(w: World, db: Db, b: ProposerBlock, db': Db)
    requires w.Good() && NodeInv(w, db) && BuiltOn(w, db, b) && w.Occurs(b) && NodeInv(w, db')
    requires b.header.proposerParent in db'.chain.blocks && w.Hash(b) !in db'.chain.blocks
    ensures w.Hash(b) in Deliver(w, db', b).chain.blocks <==> SigsOk(w, b)
    ensures var mine, theirs, h := Process(w, db, b), Deliver(w, db', b), w.Hash(b);
            SigsOk(w, b) ==> StoredAlike(mine, theirs, h) && theirs.chain.blocks[h] == b
  {
    hide NodeInv, Process, Deliver, SigsOk, BuiltOn;
    if SigsOk(w, b) {
      MinedFacts(w, db, b);
      ProcessStep(w, db, b);
      DeliverStores(w, db', b);
      NodesAgree(w, Process(w, db, b), Deliver(w, db', b), w.Hash(b));
    } else {
      BadlySignedRefused(w, db', b);
    }
  }

  lemma BadlySignedRefused(w: World, db: Db, b: ProposerBlock)
    requires !SigsOk(w, b) && b.header.proposerParent in db.chain.blocks
    ensures Deliver(w, db, b) == db
  {
    hide SigsOk, Process, NewParent, PowOk;
  }

  lemma MinedFacts(w: World, db: Db, b: ProposerBlock)
    requires NodeInv(w, db) && BuiltOn(w, db, b) && w.Occurs(b)
    ensures PowOk(w, b) && Insertable(w, db.chain, b)
  {
  }

  /** A mined tx block is taken in by a node that does not hold it exactly when its hash is
      not the proposer difficulty itself: there the miner's strict test and the receiver's
      test leave a gap. */
  lemma TxBlockAcceptedIff(w: World, db: Db, tb: TXBlock, db': Db)
    requires TxBuiltOn(w, db, tb) && w.TxBlockHash(tb) !in db'.txBlockPool
    ensures w.TxBlockHash(tb) in DeliverTxBlock(w, db', tb).txBlockPool <==>
            w.TxBlockHash(tb) != tb.header.proposerDifficulty
  {
  }
}
