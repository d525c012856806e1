/** One node: the shared maps of src/main.rs, and the message handlers of
    src/network/worker.rs that change them. */
module Nodes {
  import opened Types
  import opened Ledgers
  import opened Blockchains
  import opened Admission

  /** Everything the node's threads share, as a value. */
  datatype Db = Db(
    chain: Chain,
    orphans: map<H256, seq<ProposerBlock>>,
    txPool: map<H256, SignedTransaction>,
    globState: map<H256, Ledger>,
    txBlockPool: map<H256, TXBlock>,
    txBlockRef: map<H256, seq<H256>>)

  /** Genesis holds the ICO ledger and an empty reference list. */
  function InitDb(w: World): Db {
    Db(NewChain(w), map[], map[], map[w.Genesis() := w.ico], map[], map[w.Genesis() := []])
  }

  // ---------------------------------------------------------------------------
  // What a handler does, as functions

  predicate PowOk(w: World, b: ProposerBlock) {
    w.Hash(b) <= b.header.proposerDifficulty
  }

  predicate SignedOk(w: World, tx: SignedTransaction) {
    w.verify(tx.transaction, tx.sig.key, tx.sig.signature)
  }

  predicate SigsOk(w: World, b: ProposerBlock) {
    forall r | r in b.content :: forall tx | tx in w.txBlockOf(r).content :: SignedOk(w, tx)
  }

  /** The contains-loop: references not yet listed are appended in order. */
  function ExtendRefs(refs: seq<H256>, mine: seq<H256>): seq<H256> {
    if mine == [] then refs else
      var r := ExtendRefs(refs, mine[..|mine| - 1]);
      if mine[|mine| - 1] in r then r else r + [mine[|mine| - 1]]
  }

  /** Everything known about the parent is there to be looked up. */
  predicate Ready(db: Db, b: ProposerBlock) {
    var p := b.header.proposerParent;
    p in db.chain.heights && p in db.txBlockRef && p in db.globState
  }

  /** The reference list, the ledger, the pruned pool and the block, in that order. */
  function Process(w: World, db: Db, b: ProposerBlock): Db {
    if !Ready(db, b) then db else
      var h, p := w.Hash(b), b.header.proposerParent;
      var state := ApplyRefs(w, db.globState[p], b.content);
      db.(txBlockRef := db.txBlockRef[h := ExtendRefs(db.txBlockRef[p], b.content)],
          txPool := Prune(db.txPool, state),
          globState := db.globState[h := state],
          chain := Inserted(w, db.chain, b))
  }

  /** b has just entered the chain: the blocks waiting for it are taken out and processed. */
  function NewParent(w: World, db: Db, b: ProposerBlock): (r: Db)
    ensures r.orphans.Keys <= db.orphans.Keys
    ensures r.txBlockPool == db.txBlockPool
    decreases db.orphans.Keys, 0
  {
    var h := w.Hash(b);
    if h !in db.orphans then db else
      Adopt(w, db.(orphans := db.orphans - {h}), db.orphans[h])
  }

  function Adopt(w: World, db: Db, kids: seq<ProposerBlock>): (r: Db)
    ensures r.orphans.Keys <= db.orphans.Keys
    ensures r.txBlockPool == db.txBlockPool
    decreases db.orphans.Keys, |kids|
  {
    if kids == [] then db else
      Adopt(w, AdoptOne(w, db, kids), kids[1..])
  }

  /** The first of the waiting blocks; one with a bad signature is dropped. */
  function AdoptOne(w: World, db: Db, kids: seq<ProposerBlock>): (r: Db)
    requires kids != []
    ensures r.orphans.Keys <= db.orphans.Keys
    ensures r.txBlockPool == db.txBlockPool
    decreases db.orphans.Keys, |kids|, 0
  {
    if SigsOk(w, kids[0]) then NewParent(w, Process(w, db, kids[0]), kids[0]) else db
  }

  function Buffer(orphans: map<H256, seq<ProposerBlock>>, b: ProposerBlock): map<H256, seq<ProposerBlock>> {
    var p := b.header.proposerParent;
    orphans[p := if p in orphans then orphans[p] + [b] else [b]]
  }

  /** One delivered proposer block. */
  function Deliver(w: World, db: Db, b: ProposerBlock): Db {
    if w.Hash(b) in db.chain.blocks then db
    else if !PowOk(w, b) then db
    else if b.header.proposerParent !in db.chain.blocks then db.(orphans := Buffer(db.orphans, b))
    else if !SigsOk(w, b) then db
    else NewParent(w, Process(w, db, b), b)
  }

  /** A tx block joins its pool, and its transactions leave theirs. */
  function PoolTxBlock(w: World, db: Db, tb: TXBlock): Db {
    db.(txPool := db.txPool - (set tx | tx in tb.content :: w.txHash(tx)),
        txBlockPool := db.txBlockPool[w.TxBlockHash(tb) := tb])
  }

  /** r is db with tb pooled and tb's transactions gone. */
  ghost predicate TakenIn(w: World, db: Db, tb: TXBlock, r: Db) {
    var h := w.TxBlockHash(tb);
    && h in r.txBlockPool && r.txBlockPool[h] == tb
    && (forall k :: k != h ==> (k in r.txBlockPool <==> k in db.txBlockPool))
    && (forall k :: k != h && k in db.txBlockPool ==> r.txBlockPool[k] == db.txBlockPool[k])
    && (forall k :: k in r.txPool <==> k in db.txPool && forall tx :: tx in tb.content ==> w.txHash(tx) != k)
    && (forall k :: k in r.txPool ==> r.txPool[k] == db.txPool[k])
    && r == db.(txPool := r.txPool, txBlockPool := r.txBlockPool)
  }

  lemma TakesIn(w: World, db: Db, tb: TXBlock)
    ensures TakenIn(w, db, tb, PoolTxBlock(w, db, tb))
  {
  }

  /** One delivered tx block. */
  function DeliverTxBlock(w: World, db: Db, tb: TXBlock): Db {
    var h := w.TxBlockHash(tb);
    if h in db.txBlockPool || h > tb.header.transactionDifficulty || h <= tb.header.proposerDifficulty then db
    else PoolTxBlock(w, db, tb)
  }

  /** One delivered transaction, judged against the ledger of the tip. */
  function DeliverTx(w: World, db: Db, tip: H256, tx: SignedTransaction): Db {
    if tip in db.globState && Admissible(w, db.txPool, db.globState[tip], tx) then
      db.(txPool := db.txPool[w.txHash(tx) := tx])
    else db
  }

  // ---------------------------------------------------------------------------
  // The invariant of the caches

  /** The entry of h, given its parent's. */
  ghost predicate EntryOk(w: World, db: Db, h: H256)
    requires h in db.txBlockRef && h in db.globState
  {
    if h == w.Genesis() then db.globState[h] == w.ico && db.txBlockRef[h] == [] else
      var b := w.proposerOf(h);
      var p := b.header.proposerParent;
      && p in db.txBlockRef && p in db.globState
      && db.globState[h] == ApplyRefs(w, db.globState[p], b.content)
      && db.txBlockRef[h] == ExtendRefs(db.txBlockRef[p], b.content)
  }

  /** Exactly the blocks of the tree have a ledger and a reference list, both extending
      those of the parent. */
  ghost predicate Cached(w: World, db: Db) {
    && db.globState.Keys == db.chain.blocks.Keys
    && db.txBlockRef.Keys == db.chain.blocks.Keys
    && forall h :: h in db.chain.blocks ==> EntryOk(w, db, h)
  }

  /** Waiting blocks sit under their parent's hash. */
  ghost predicate Bucketed(w: World, orphans: map<H256, seq<ProposerBlock>>) {
    forall k, b :: k in orphans && b in orphans[k] ==> w.Occurs(b) && b.header.proposerParent == k
  }

  /** The tx block pool holds what its keys stand for. */
  ghost predicate Pooled(w: World, pool: map<H256, TXBlock>) {
    forall h :: h in pool ==> pool[h] == w.txBlockOf(h)
  }

  ghost predicate NodeInv(w: World, db: Db) {
    ChainInv(w, db.chain) && Cached(w, db) && Bucketed(w, db.orphans) && Pooled(w, db.txBlockPool)
  }

  lemma InitInv(w: World)
    requires w.Good()
    ensures NodeInv(w, InitDb(w))
  {
    NewChainInv(w);
  }

  /** Entries that are in db are in db', unchanged. */
  ghost predicate KeepsEntries(db: Db, db': Db) {
    && (forall k :: k in db.txBlockRef ==> k in db'.txBlockRef && db'.txBlockRef[k] == db.txBlockRef[k])
    && (forall k :: k in db.globState ==> k in db'.globState && db'.globState[k] == db.globState[k])
  }

  lemma EntryKept(w: World, db: Db, db': Db, h: H256)
    requires h in db.txBlockRef && h in db.globState && EntryOk(w, db, h) && KeepsEntries(db, db')
    ensures EntryOk(w, db', h)
  {
    hide ApplyRefs, ExtendRefs;
  }

  lemma ProcessFresh(w: World, db: Db, b: ProposerBlock)
    requires w.Good() && NodeInv(w, db) && Insertable(w, db.chain, b) && w.Hash(b) !in db.chain.blocks
    ensures Ready(db, b) && NodeInv(w, Process(w, db, b))
  {
    hide ApplyRefs, ExtendRefs, ChainInv, Inserted, Prune, Bucketed, Pooled, EntryOk;
    InsertStep(w, db.chain, b);
    IsReady(w, db, b);
    CachedKeys(w, db);
    var h, db' := w.Hash(b), Process(w, db, b);
    NewEntry(w, db, b);
    ProcessMaps(w, db, b);
    hide Process;
    forall x | x in db'.chain.blocks
      ensures EntryOk(w, db', x)
    {
      if x != h {
        EntryKept(w, db, db', x);
      }
    }
  }

  lemma IsReady(w: World, db: Db, b: ProposerBlock)
    requires ChainInv(w, db.chain) && Cached(w, db) && Insertable(w, db.chain, b)
    ensures Ready(db, b)
  {
    CachedKeys(w, db);
    SameKeys(w, db.chain);
  }

  lemma ProcessMaps(w: World, db: Db, b: ProposerBlock)
    requires Ready(db, b)
    requires db.globState.Keys == db.txBlockRef.Keys == db.chain.blocks.Keys
    requires Inserted(w, db.chain, b).blocks == db.chain.blocks[w.Hash(b) := b]
    ensures w.Hash(b) !in db.chain.blocks ==> KeepsEntries(db, Process(w, db, b))
    ensures var db' := Process(w, db, b);
            && db'.globState.Keys == db'.txBlockRef.Keys == db'.chain.blocks.Keys == db.chain.blocks.Keys + {w.Hash(b)}
            && db'.chain == Inserted(w, db.chain, b)
            && db'.orphans == db.orphans && db'.txBlockPool == db.txBlockPool
  {
    hide ApplyRefs, ExtendRefs, Inserted, Prune;
  }

  lemma NewEntry(w: World, db: Db, b: ProposerBlock)
    requires w.Good() && ChainInv(w, db.chain) && Insertable(w, db.chain, b) && Ready(db, b)
    requires w.Hash(b) !in db.chain.blocks
    ensures EntryOk(w, Process(w, db, b), w.Hash(b))
  {
    hide ApplyRefs, ExtendRefs, ChainInv, Inserted, Prune;
    NotGenesis(w, db.chain, b);
  }

  lemma CachedKeys(w: World, db: Db)
    requires Cached(w, db)
    ensures db.globState.Keys == db.txBlockRef.Keys == db.chain.blocks.Keys
  {
  }

  lemma ProcessAgain(w: World, db: Db, b: ProposerBlock)
    requires w.Good() && NodeInv(w, db) && Insertable(w, db.chain, b) && w.Hash(b) in db.chain.blocks
    ensures Ready(db, b)
    ensures Process(w, db, b) == db.(txPool := Prune(db.txPool, db.globState[w.Hash(b)]))
  {
    hide ApplyRefs, ExtendRefs, ChainInv, Inserted, Prune;
    NotGenesis(w, db.chain, b);
    InsertStep(w, db.chain, b);
    SameKeys(w, db.chain);
    CachedKeys(w, db);
    var h := w.Hash(b);
    assert EntryOk(w, db, h);
    SameUpdate(db.globState, h, db.globState[h]);
    SameUpdate(db.txBlockRef, h, db.txBlockRef[h]);
  }

  /** The caches are apart from the buffer and the pools. */
  lemma CachesApart(w: World, db: Db, db': Db)
    requires NodeInv(w, db) && Bucketed(w, db'.orphans) && Pooled(w, db'.txBlockPool)
    requires db'.chain == db.chain && db'.globState == db.globState && db'.txBlockRef == db.txBlockRef
    ensures NodeInv(w, db')
  {
    hide ChainInv, EntryOk, Bucketed, Pooled;
    forall h | h in db.chain.blocks
      ensures EntryOk(w, db', h)
    {
      EntryKept(w, db, db', h);
    }
  }

  /** Storing a block keeps the invariant and adds that block; storing it again changes
      nothing but the pool. */
  lemma ProcessStep(w: World, db: Db, b: ProposerBlock)
    requires w.Good() && NodeInv(w, db) && Insertable(w, db.chain, b)
    ensures Ready(db, b)
    ensures NodeInv(w, Process(w, db, b))
    ensures Process(w, db, b).chain.blocks == db.chain.blocks[w.Hash(b) := b]
    ensures w.Hash(b) in db.chain.blocks ==> Process(w, db, b) == db.(txPool := Process(w, db, b).txPool)
  {
    hide ApplyRefs, ExtendRefs, ChainInv, Inserted, Prune, Cached, Bucketed, Pooled;
    InsertStep(w, db.chain, b);
    if w.Hash(b) in db.chain.blocks {
      ProcessAgain(w, db, b);
      CachesApart(w, db, db.(txPool := Prune(db.txPool, db.globState[w.Hash(b)])));
    } else {
      ProcessFresh(w, db, b);
    }
  }

  // ---------------------------------------------------------------------------
  // Whole handlers, on any node

  ghost predicate AllInsertable(w: World, c: Chain, bs: seq<ProposerBlock>) {
    forall b :: b in bs ==> Insertable(w, c, b)
  }

  /** db' satisfies the invariant and has every block of db. */
  ghost predicate Extends(w: World, db: Db, db': Db) {
    NodeInv(w, db') && db.chain.blocks.Keys <= db'.chain.blocks.Keys
  }

  lemma NewParentExtends(w: World, db: Db, b: ProposerBlock)
    requires w.Good() && NodeInv(w, db) && w.Hash(b) in db.chain.blocks
    ensures Extends(w, db, NewParent(w, db, b))
    decreases db.orphans.Keys, 0
  {
    hide NodeInv;
    var h := w.Hash(b);
    if h in db.orphans {
      BucketInsertable(w, db, h);
      AdoptExtends(w, db.(orphans := db.orphans - {h}), db.orphans[h]);
    }
  }

  lemma BucketInsertable(w: World, db: Db, h: H256)
    requires NodeInv(w, db) && h in db.chain.blocks && h in db.orphans
    ensures NodeInv(w, db.(orphans := db.orphans - {h})) && AllInsertable(w, db.chain, db.orphans[h])
  {
    hide ChainInv, Cached, Pooled;
    CachesApart(w, db, db.(orphans := db.orphans - {h}));
  }

  lemma AdoptExtends(w: World, db: Db, kids: seq<ProposerBlock>)
    requires w.Good() && NodeInv(w, db) && AllInsertable(w, db.chain, kids)
    ensures Extends(w, db, Adopt(w, db, kids))
    decreases db.orphans.Keys, |kids|
  {
    hide NodeInv, Process, SigsOk;
    if kids != [] {
      assert kids[0] in kids;
      AdoptOneExtends(w, db, kids);
      var db1 := AdoptOne(w, db, kids);
      assert forall b :: b in kids[1..] ==> b in kids;
      AdoptExtends(w, db1, kids[1..]);
    }
  }

  lemma AdoptOneExtends(w: World, db: Db, kids: seq<ProposerBlock>)
    requires w.Good() && kids != [] && NodeInv(w, db) && Insertable(w, db.chain, kids[0])
    ensures Extends(w, db, AdoptOne(w, db, kids))
    decreases db.orphans.Keys, |kids|, 0
  {
    hide NodeInv, SigsOk;
    if SigsOk(w, kids[0]) {
      ProcessStep(w, db, kids[0]);
      NewParentExtends(w, Process(w, db, kids[0]), kids[0]);
    }
  }

  /** A new block that passes every test is stored by any node that has its parent; a hash
      equal to the difficulty passes. */
  lemma DeliverStores(w: World, db: Db, b: ProposerBlock)
    requires w.Good() && NodeInv(w, db) && Insertable(w, db.chain, b) && SigsOk(w, b)
    requires w.Hash(b) <= b.header.proposerDifficulty
    ensures NodeInv(w, Deliver(w, db, b)) && w.Hash(b) in Deliver(w, db, b).chain.blocks
    ensures Deliver(w, db, b).chain.blocks[w.Hash(b)] == b
  {
    hide NodeInv, Process, NewParent, SigsOk;
    if w.Hash(b) !in db.chain.blocks {
      ProcessStep(w, db, b);
      NewParentExtends(w, Process(w, db, b), b);
    }
    HeldIsItself(w, Deliver(w, db, b), b);
  }

  lemma HeldIsItself(w: World, db: Db, b: ProposerBlock)
    requires NodeInv(w, db) && w.Occurs(b) && w.Hash(b) in db.chain.blocks
    ensures db.chain.blocks[w.Hash(b)] == b
  {
    hide Cached, Bucketed, Pooled;
  }
}
