/** The three message arms of src/network/worker.rs, each told case by case in terms of
    hashes, coins and signatures. */
module Arms {
  import opened Basics
  import opened Types
  import opened Ledgers
  import opened Blockchains
  import opened Admission
  import opened Nodes
  import opened Delivery

  // ---------------------------------------------------------------------------
  // A proposer block

  /** A block the chain has, or whose hash is above its difficulty, is ignored altogether. */
  lemma IgnoresBlock(w: World, db: Db, b: ProposerBlock)
    requires w.Hash(b) in db.chain.blocks || w.Hash(b) > b.header.proposerDifficulty
    ensures Deliver(w, db, b) == db
  {
    hide NewParent, Process, SigsOk;
  }

  /** One whose parent is missing goes to the end of the parent's bucket, unchecked. */
  lemma BuffersBlock(w: World, db: Db, b: ProposerBlock)
    requires w.Hash(b) !in db.chain.blocks && w.Hash(b) <= b.header.proposerDifficulty
    requires b.header.proposerParent !in db.chain.blocks
    ensures var p, r := b.header.proposerParent, Deliver(w, db, b);
            && r == db.(orphans := r.orphans)
            && r.orphans.Keys == db.orphans.Keys + {p}
            && r.orphans[p] == (if p in db.orphans then db.orphans[p] else []) + [b]
            && forall k :: k in db.orphans && k != p ==> r.orphans[k] == db.orphans[k]
  {
    hide NewParent, Process, SigsOk;
  }

  /** One with a single wrong signature in its tx blocks is ignored. */
  lemma RefusesBlock(w: World, db: Db, b: ProposerBlock, r: H256, tx: SignedTransaction)
    requires b.header.proposerParent in db.chain.blocks
    requires r in b.content && tx in w.txBlockOf(r).content
    requires !w.verify(tx.transaction, tx.sig.key, tx.sig.signature)
    ensures Deliver(w, db, b) == db
  {
    hide NewParent, Process;
    assert !SignedOk(w, tx);
  }

  /** r holds b, one above its parent, with the ledger and the list made from the parent's. */
  ghost predicate StoredOver(w: World, db: Db, b: ProposerBlock, r: Db) {
    var h, p := w.Hash(b), b.header.proposerParent;
    && h in r.chain.blocks && r.chain.blocks[h] == b
    && p in db.chain.heights && h in r.chain.heights && r.chain.heights[h] == db.chain.heights[p] + 1
    && p in db.globState && h in r.globState && r.globState[h] == ApplyRefs(w, db.globState[p], b.content)
    && p in db.txBlockRef && h in r.txBlockRef && r.txBlockRef[h] == ExtendRefs(db.txBlockRef[p], b.content)
  }

  /** Any other is stored, one above its parent, with the ledger its transactions make of the
      parent's and its references added to the parent's; a hash equal to the difficulty will do. */
  lemma StoresBlock(w: World, db: Db, b: ProposerBlock)
    requires w.Good() && NodeInv(w, db) && w.Occurs(b) && w.Hash(b) !in db.chain.blocks
    requires w.Hash(b) <= b.header.proposerDifficulty && b.header.proposerParent in db.chain.blocks
    requires forall r, tx :: r in b.content && tx in w.txBlockOf(r).content ==>
               w.verify(tx.transaction, tx.sig.key, tx.sig.signature)
    ensures StoredOver(w, db, b, Deliver(w, db, b))
  {
    hide NewParent, Process, NodeInv, ApplyRefs, ExtendRefs, StoredOver, Keeps;
    assert SigsOk(w, b);
    var db1 := Process(w, db, b);
    NodeParts(w, db);
    IsReady(w, db, b);
    ProcessStep(w, db, b);
    ProcessExactly(w, db, b);
    NewParentExtends(w, db1, b);
    NewParentKeeps(w, db1, b);
    StaysStored(w, db, b, db1, Deliver(w, db, b));
  }

  lemma StaysStored(w: World, db: Db, b: ProposerBlock, db1: Db, r: Db)
    requires StoredOver(w, db, b, db1) && Keeps(db1, r)
    ensures StoredOver(w, db, b, r)
  {
    hide ApplyRefs, ExtendRefs;
  }

  /** What has been published stays as it is, and so does every height. */
  ghost predicate Keeps(db: Db, db': Db) {
    KeepsEntries(db, db') && KeepsBlocks(db.chain, db'.chain)
  }

  ghost predicate KeepsBlocks(c: Chain, c': Chain) {
    && (forall h :: h in c.blocks ==> h in c'.blocks && c'.blocks[h] == c.blocks[h])
    && (forall h :: h in c.heights ==> h in c'.heights && c'.heights[h] == c.heights[h])
  }

  lemma NewParentKeeps(w: World, db: Db, b: ProposerBlock)
    requires w.Good() && NodeInv(w, db) && w.Hash(b) in db.chain.blocks
    ensures Keeps(db, NewParent(w, db, b))
    decreases db.orphans.Keys, 0
  {
    hide NodeInv, Keeps;
    KeepsSelf(db);
    if w.Hash(b) in db.orphans {
      var db1 := db.(orphans := db.orphans - {w.Hash(b)});
      BucketInsertable(w, db, w.Hash(b));
      AdoptKeeps(w, db1, db.orphans[w.Hash(b)]);
      KeepsAlike(db, db1, NewParent(w, db, b));
    }
  }

  lemma KeepsSelf(db: Db)
    ensures Keeps(db, db)
  {
  }

  lemma KeepsAlike(a: Db, b: Db, c: Db)
    requires Keeps(b, c) && b == a.(orphans := b.orphans)
    ensures Keeps(a, c)
  {
  }

  lemma KeepsTransitive(a: Db, b: Db, c: Db)
    requires Keeps(a, b) && Keeps(b, c)
    ensures Keeps(a, c)
  {
  }

  lemma AdoptKeeps(w: World, db: Db, kids: seq<ProposerBlock>)
    requires w.Good() && NodeInv(w, db) && AllInsertable(w, db.chain, kids)
    ensures Keeps(db, Adopt(w, db, kids))
    decreases db.orphans.Keys, |kids|
  {
    hide NodeInv, Process, SigsOk, Keeps, AdoptOne;
    if kids == [] {
      KeepsSelf(db);
    } else {
      assert kids[0] in kids;
      var db1 := AdoptOne(w, db, kids);
      AdoptOneExtends(w, db, kids);
      AdoptOneKeeps(w, db, kids);
      assert forall x :: x in kids[1..] ==> x in kids;
      AdoptKeeps(w, db1, kids[1..]);
      KeepsTransitive(db, db1, Adopt(w, db, kids));
    }
  }

  lemma AdoptOneKeeps(w: World, db: Db, kids: seq<ProposerBlock>)
    requires w.Good() && kids != [] && NodeInv(w, db) && Insertable(w, db.chain, kids[0])
    ensures Keeps(db, AdoptOne(w, db, kids))
    decreases db.orphans.Keys, |kids|, 0
  {
    hide NodeInv, SigsOk, Process, Keeps;
    KeepsSelf(db);
    if SigsOk(w, kids[0]) {
      var db1 := Process(w, db, kids[0]);
      ProcessStep(w, db, kids[0]);
      StoreKeepsAll(w, db, kids[0]);
      ProcessOrphans(w, db, kids[0]);
      NewParentKeeps(w, db1, kids[0]);
      KeepsTransitive(db, db1, NewParent(w, db1, kids[0]));
    }
  }

  lemma StoreKeepsAll(w: World, db: Db, b: ProposerBlock)
    requires w.Good() && NodeInv(w, db) && Insertable(w, db.chain, b)
    ensures Keeps(db, Process(w, db, b))
  {
    hide NodeInv, Inserted, Insertable, Process, KeepsEntries, KeepsBlocks, ChainInv, Cached;
    NodeParts(w, db);
    IsReady(w, db, b);
    CachedKeys(w, db);
    InsertStep(w, db.chain, b);
    ProcessMaps(w, db, b);
    InsertKeeps(w, db.chain, b);
    if w.Hash(b) in db.chain.blocks {
      ProcessAgain(w, db, b);
      SameEntries(db, Process(w, db, b));
    }
  }

  lemma SameEntries(db: Db, db': Db)
    requires db'.globState == db.globState && db'.txBlockRef == db.txBlockRef
    ensures KeepsEntries(db, db')
  {
  }

  lemma InsertKeeps(w: World, c: Chain, b: ProposerBlock)
    requires w.Good() && ChainInv(w, c) && Insertable(w, c, b)
    ensures KeepsBlocks(c, Inserted(w, c, b))
  {
    hide ChainInv, Insertable, Inserted;
    InsertStep(w, c, b);
    SameKeys(w, c);
    SameKeys(w, Inserted(w, c, b));
    if w.Hash(b) in c.blocks {
      KnownBlock(w, c, b);
    }
  }

  /** Storing, part by part. The pool keeps exactly the transactions all of whose input coins
      are in the new block's ledger. */
  lemma ProcessExactly(w: World, db: Db, b: ProposerBlock)
    requires w.Good() && NodeInv(w, db) && Insertable(w, db.chain, b) && w.Hash(b) !in db.chain.blocks
    ensures StoredOver(w, db, b, Process(w, db, b)) && Keeps(db, Process(w, db, b))
    ensures var h, r := w.Hash(b), Process(w, db, b);
            && r.orphans == db.orphans && r.txBlockPool == db.txBlockPool
            && (forall k :: k in r.txPool <==> k in db.txPool && CoinsIn(db.txPool[k].transaction, r.globState[h]))
            && (forall k :: k in r.txPool ==> r.txPool[k] == db.txPool[k])
  {
    hide ApplyRefs, ExtendRefs, ChainInv, Cached, Bucketed, Pooled;
    hide Keeps, Prune;
    IsReady(w, db, b);
    StoreKeepsAll(w, db, b);
    PruneExactly(db.txPool, ApplyRefs(w, db.globState[b.header.proposerParent], b.content));
  }

  // ---------------------------------------------------------------------------
  // A tx block

  /** A tx block that is not held and whose hash is in the range is pooled under its hash, and
      none of its transactions stays in the transaction pool; everything else does. Any other
      tx block is ignored. */
  lemma TxBlockArm(w: World, db: Db, tb: TXBlock)
    ensures var h, r := w.TxBlockHash(tb), DeliverTxBlock(w, db, tb);
            if h !in db.txBlockPool && tb.header.proposerDifficulty < h <= tb.header.transactionDifficulty
            then TakenIn(w, db, tb, r) else r == db
  {
    TakesIn(w, db, tb);
  }

  /** A tx block the miner has built is taken in the same way, without a test. */
  lemma MinedTxBlockArm(w: World, db: Db, tb: TXBlock)
    ensures TakenIn(w, db, tb, Handle(w, db, MinedTx(tb)))
  {
    TakesIn(w, db, tb);
  }

  // ---------------------------------------------------------------------------
  // A transaction

  /** A transaction is pooled, under its hash, exactly when it was not pooled before, its
      signature verifies under its key, every input is a coin of the tip's ledger owned by
      that key, and its outputs do not exceed the coin looked at last; nothing else changes. */
  lemma TransactionArm(w: World, db: Db, tx: SignedTransaction)
    requires db.chain.tip in db.globState
    ensures var h, s, r := w.txHash(tx), db.globState[db.chain.tip], Handle(w, db, Tx(tx));
            if h !in db.txPool && Payable(w, s, tx) then r == db.(txPool := db.txPool[h := tx]) else r == db
  {
    FundedIs(w, db.globState[db.chain.tip], tx);
  }

  /** tx is signed by the owner of all its coins and does not pay out more than the last. */
  predicate Payable(w: World, s: Ledger, tx: SignedTransaction) {
    var t := tx.transaction;
    var n := |t.inputPrevious|;
    && w.verify(t, tx.sig.key, tx.sig.signature)
    && AllThere(s, t) && AllMatch(w, s, tx)
    && n <= |t.outputValue| && SumFirst(t.outputValue, n) <= LastValue(s, t)
  }
}
