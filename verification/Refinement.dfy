/** The two models of a worker agree: a worker that is not interrupted, run section by
    section, does to the shared maps exactly what Deliver says. */
module Refinement {
  import opened Basics
  import opened Types
  import opened Ledgers
  import opened Blockchains
  import opened Nodes
  import opened Workers
  import opened Interleaving
  import Miner

  /** n sections of one worker with nobody in between. */
  function Solo(w: World, db: Db, k: Worker, n: nat): (Db, Worker)
    decreases n
  {
    if n == 0 then (db, k) else
      var (db', k') := WorkerStep(w, db, k);
      Solo(w, db', k', n - 1)
  }

  ghost predicate Leads(w: World, db: Db, k: Worker, db': Db, k': Worker) {
    exists n: nat :: Solo(w, db, k, n) == (db', k')
  }

  lemma {:induction false} SoloAdd(w: World, db: Db, k: Worker, n: nat, m: nat)
    ensures Solo(w, db, k, n + m) == Solo(w, Solo(w, db, k, n).0, Solo(w, db, k, n).1, m)
    decreases n
  {
    hide WorkerStep;
    if n > 0 {
      var (db', k') := WorkerStep(w, db, k);
      SoloAdd(w, db', k', n - 1, m);
    }
  }

  lemma LeadsSelf(w: World, db: Db, k: Worker)
    ensures Leads(w, db, k, db, k)
  {
    assert Solo(w, db, k, 0) == (db, k);
  }

  lemma LeadsStep(w: World, db: Db, k: Worker)
    ensures Leads(w, db, k, WorkerStep(w, db, k).0, WorkerStep(w, db, k).1)
  {
    hide WorkerStep;
    var (db', k') := WorkerStep(w, db, k);
    assert Solo(w, db', k', 0) == (db', k');
    assert Solo(w, db, k, 1) == (db', k');
  }

  lemma LeadsOn(w: World, db: Db, k: Worker, db1: Db, k1: Worker, db2: Db, k2: Worker)
    requires Leads(w, db, k, db1, k1) && Leads(w, db1, k1, db2, k2)
    ensures Leads(w, db, k, db2, k2)
  {
    hide WorkerStep, Solo;
    var n: nat :| Solo(w, db, k, n) == (db1, k1);
    var m: nat :| Solo(w, db1, k1, m) == (db2, k2);
    SoloAdd(w, db, k, n, m);
  }

  /** One more section first. */
  lemma LeadsFirst(w: World, db: Db, k: Worker, db2: Db, k2: Worker)
    requires Leads(w, WorkerStep(w, db, k).0, WorkerStep(w, db, k).1, db2, k2)
    ensures Leads(w, db, k, db2, k2)
  {
    hide WorkerStep, Leads;
    LeadsStep(w, db, k);
    LeadsOn(w, db, k, WorkerStep(w, db, k).0, WorkerStep(w, db, k).1, db2, k2);
  }

  // ---------------------------------------------------------------------------
  // The loops

  predicate SignedFrom(w: World, b: ProposerBlock, i: nat)
    requires i <= |b.content|
  {
    forall r | r in b.content[i..] :: TxBlockSigned(w, w.txBlockOf(r))
  }

  lemma {:induction false} SigsLoop(w: World, db: Db, b: ProposerBlock, i: nat, todo: seq<Item>)
    requires i <= |b.content| && Referenced(db.txBlockPool, b) && Pooled(w, db.txBlockPool)
    ensures Leads(w, db, Worker(CheckSigs(b, i), todo),
                  db, Worker(if SignedFrom(w, b, i) then ReadRef(b) else Idle, todo))
    decreases |b.content| - i
  {
    hide Leads, TxBlockSigned;
    var k := Worker(CheckSigs(b, i), todo);
    LeadsStep(w, db, k);
    if i < |b.content| {
      var r := b.content[i];
      assert b.content[i..] == [r] + b.content[i + 1..];
      if TxBlockSigned(w, w.txBlockOf(r)) {
        SigsLoop(w, db, b, i + 1, todo);
        LeadsFirst(w, db, k, db, Worker(if SignedFrom(w, b, i + 1) then ReadRef(b) else Idle, todo));
      }
    }
  }

  lemma AllSigned(w: World, b: ProposerBlock)
    ensures SignedFrom(w, b, 0) <==> SigsOk(w, b)
  {
    assert b.content[0..] == b.content;
  }

  lemma {:induction false} FoldLoop(w: World, db: Db, b: ProposerBlock, i: nat, s: Ledger, todo: seq<Item>)
    requires FoldedTo(w, db, b, i, s) && Referenced(db.txBlockPool, b) && Pooled(w, db.txBlockPool)
    ensures var state := ApplyRefs(w, db.globState[b.header.proposerParent], b.content);
            Leads(w, db, Worker(Fold(b, i, s), todo), db, Worker(PruneTxs(b, state), todo))
    decreases |b.content| - i
  {
    hide Leads, ApplyRefs;
    var k := Worker(Fold(b, i, s), todo);
    if i < |b.content| {
      FoldNext(w, db, b, i, s);
      var s' := ApplyTxs(w, s, db.txBlockPool[b.content[i]].content);
      FoldLoop(w, db, b, i + 1, s', todo);
      var state := ApplyRefs(w, db.globState[b.header.proposerParent], b.content);
      LeadsFirst(w, db, k, db, Worker(PruneTxs(b, state), todo));
    } else {
      assert b.content[..|b.content|] == b.content;
      LeadsStep(w, db, k);
    }
  }

  /** From the first read to the chain insert: the storing section. */
  lemma StoreSections(w: World, db: Db, b: ProposerBlock, todo: seq<Item>)
    requires Ready(db, b) && Referenced(db.txBlockPool, b) && Pooled(w, db.txBlockPool)
    ensures Leads(w, db, Worker(ReadRef(b), todo), Process(w, db, b), Worker(OrphanProbe(b), todo))
  {
    hide Leads, ApplyRefs, ExtendRefs, Inserted, Prune;
    var p := b.header.proposerParent;
    var list, state := ExtendRefs(db.txBlockRef[p], b.content), ApplyRefs(w, db.globState[p], b.content);
    var db1 := WithRef(w, db, b, list);
    WriteSections(w, db1, b, state, todo);
    NothingFolded(w, db1, b);
    FoldLoop(w, db1, b, 0, db1.globState[p], todo);
    LeadsOn(w, db1, Worker(Fold(b, 0, db1.globState[p]), todo), db1, Worker(PruneTxs(b, state), todo),
            Written(w, db1, b, state), Worker(OrphanProbe(b), todo));
    LeadsFirst(w, db1, Worker(ReadState(b), todo), Written(w, db1, b, state), Worker(OrphanProbe(b), todo));
    LeadsFirst(w, db, Worker(WriteRef(b, list), todo), Written(w, db1, b, state), Worker(OrphanProbe(b), todo));
    LeadsFirst(w, db, Worker(ReadRef(b), todo), Written(w, db1, b, state), Worker(OrphanProbe(b), todo));
  }

  /** The last three writes. */
  function Written(w: World, db: Db, b: ProposerBlock, state: Ledger): Db {
    WithBlock(w, WithState(w, db.(txPool := Prune(db.txPool, state)), b, state), b)
  }

  lemma WriteSections(w: World, db: Db, b: ProposerBlock, state: Ledger, todo: seq<Item>)
    requires b.header.proposerParent in db.chain.heights
    ensures Leads(w, db, Worker(PruneTxs(b, state), todo), Written(w, db, b, state), Worker(OrphanProbe(b), todo))
  {
    hide Leads, Inserted, Prune;
    var db1 := db.(txPool := Prune(db.txPool, state));
    var db2 := WithState(w, db1, b, state);
    var end := Worker(OrphanProbe(b), todo);
    LeadsStep(w, db2, Worker(InsertChain(b), todo));
    LeadsFirst(w, db1, Worker(WriteState(b, state), todo), WithBlock(w, db2, b), end);
    LeadsFirst(w, db, Worker(PruneTxs(b, state), todo), WithBlock(w, db2, b), end);
  }

  // ---------------------------------------------------------------------------
  // new_parent

  /** Every waiting block has its tx blocks pooled. */
  ghost predicate Stocked(db: Db) {
    forall k, b :: k in db.orphans && b in db.orphans[k] ==> Referenced(db.txBlockPool, b)
  }

  ghost predicate KidsOk(w: World, db: Db, kids: seq<ProposerBlock>) {
    forall c :: c in kids ==> Insertable(w, db.chain, c) && Referenced(db.txBlockPool, c)
  }

  /** What a handler under way keeps. */
  ghost predicate Keeps(w: World, db: Db, db': Db) {
    && NodeInv(w, db') && Stocked(db')
    && db.chain.blocks.Keys <= db'.chain.blocks.Keys && db'.txBlockPool == db.txBlockPool
  }

  lemma StoreKeeps(w: World, db: Db, b: ProposerBlock)
    requires w.Good() && NodeInv(w, db) && Stocked(db) && Insertable(w, db.chain, b)
    ensures Ready(db, b) && Keeps(w, db, Process(w, db, b)) && w.Hash(b) in Process(w, db, b).chain.blocks
  {
    hide NodeInv, Process;
    ProcessStep(w, db, b);
    StoreLeaves(w, db, b);
  }

  lemma StoreLeaves(w: World, db: Db, b: ProposerBlock)
    ensures Process(w, db, b).orphans == db.orphans && Process(w, db, b).txBlockPool == db.txBlockPool
  {
  }

  lemma KeepsTransitive(w: World, a: Db, b: Db, c: Db)
    requires Keeps(w, a, b) && Keeps(w, b, c)
    ensures Keeps(w, a, c)
  {
    hide NodeInv;
  }

  /** Taking the bucket of a block in the chain out of the buffer. */
  lemma TakeOut(w: World, db: Db, b: ProposerBlock)
    requires NodeInv(w, db) && Stocked(db) && w.Hash(b) in db.chain.blocks && w.Hash(b) in db.orphans
    ensures var db' := db.(orphans := db.orphans - {w.Hash(b)});
            Keeps(w, db, db') && KidsOk(w, db', db.orphans[w.Hash(b)])
  {
    hide ChainInv, Cached, Pooled;
    CachesApart(w, db, db.(orphans := db.orphans - {w.Hash(b)}));
  }

  lemma NewParentSections(w: World, db: Db, b: ProposerBlock, todo: seq<Item>)
    requires w.Good() && NodeInv(w, db) && Stocked(db) && w.Hash(b) in db.chain.blocks
    ensures Keeps(w, db, NewParent(w, db, b))
    ensures Leads(w, db, Worker(OrphanProbe(b), todo), NewParent(w, db, b), Worker(Idle, todo))
    decreases db.orphans.Keys, 0
  {
    hide NodeInv, Leads;
    var h, db' := w.Hash(b), NewParent(w, db, b);
    LeadsStep(w, db, Worker(OrphanProbe(b), todo));
    if h in db.orphans {
      var kids, db1 := db.orphans[h], db.(orphans := db.orphans - {h});
      TakeOut(w, db, b);
      AdoptSections(w, db1, kids, todo);
      KeepsTransitive(w, db, db1, db');
      LeadsFirst(w, db, Worker(OrphanDrop(b, kids), todo), db', Worker(Idle, todo));
      LeadsFirst(w, db, Worker(OrphanFetch(b), todo), db', Worker(Idle, todo));
      LeadsFirst(w, db, Worker(OrphanProbe(b), todo), db', Worker(Idle, todo));
    }
  }

  lemma AdoptSections(w: World, db: Db, kids: seq<ProposerBlock>, todo: seq<Item>)
    requires w.Good() && NodeInv(w, db) && Stocked(db) && KidsOk(w, db, kids)
    ensures Keeps(w, db, Adopt(w, db, kids))
    ensures Leads(w, db, Worker(Idle, Orphans(kids) + todo), Adopt(w, db, kids), Worker(Idle, todo))
    decreases db.orphans.Keys, |kids|
  {
    hide NodeInv, Leads;
    if kids == [] {
      assert Orphans(kids) + todo == todo;
      LeadsSelf(w, db, Worker(Idle, todo));
    } else {
      var rest := Orphans(kids[1..]) + todo;
      assert Orphans(kids) + todo == [Orphaned(kids[0])] + rest;
      AdoptOneSections(w, db, kids, rest);
      var db1 := AdoptOne(w, db, kids);
      KidsStayOk(w, db, db1, kids);
      AdoptSections(w, db1, kids[1..], todo);
      KeepsTransitive(w, db, db1, Adopt(w, db, kids));
      LeadsOn(w, db, Worker(Idle, Orphans(kids) + todo), db1, Worker(Idle, rest),
              Adopt(w, db, kids), Worker(Idle, todo));
    }
  }

  lemma KidsStayOk(w: World, db: Db, db': Db, kids: seq<ProposerBlock>)
    requires KidsOk(w, db, kids) && kids != [] && Keeps(w, db, db')
    ensures KidsOk(w, db', kids[1..])
  {
    hide NodeInv;
    forall c | c in kids[1..]
      ensures Insertable(w, db'.chain, c) && Referenced(db'.txBlockPool, c)
    {
      assert c in kids;
    }
  }

  lemma AdoptOneSections(w: World, db: Db, kids: seq<ProposerBlock>, rest: seq<Item>)
    requires w.Good() && kids != [] && NodeInv(w, db) && Stocked(db) && KidsOk(w, db, kids)
    ensures Keeps(w, db, AdoptOne(w, db, kids))
    ensures Leads(w, db, Worker(Idle, [Orphaned(kids[0])] + rest), AdoptOne(w, db, kids), Worker(Idle, rest))
    decreases db.orphans.Keys, |kids|, 0
  {
    hide NodeInv, Leads, Process, SigsOk, SignedFrom, NewParent;
    var c := kids[0];
    assert c in kids;
    var start := Worker(Idle, [Orphaned(c)] + rest);
    assert start.todo[1..] == rest;
    CheckSections(w, db, c, rest);
    if SigsOk(w, c) {
      StoreKeeps(w, db, c);
      StoreLeaves(w, db, c);
      var db1 := Process(w, db, c);
      NewParentSections(w, db1, c, rest);
      KeepsTransitive(w, db, db1, NewParent(w, db1, c));
      LeadsOn(w, db, Worker(CheckSigs(c, 0), rest), db1, Worker(OrphanProbe(c), rest),
              NewParent(w, db1, c), Worker(Idle, rest));
      LeadsFirst(w, db, start, NewParent(w, db1, c), Worker(Idle, rest));
    } else {
      LeadsFirst(w, db, start, db, Worker(Idle, rest));
    }
  }

  /** The signature check and, if it succeeds, the storing section. */
  lemma CheckSections(w: World, db: Db, b: ProposerBlock, todo: seq<Item>)
    requires w.Good() && NodeInv(w, db) && Insertable(w, db.chain, b) && Referenced(db.txBlockPool, b)
    ensures if SigsOk(w, b)
            then Leads(w, db, Worker(CheckSigs(b, 0), todo), Process(w, db, b), Worker(OrphanProbe(b), todo))
            else Leads(w, db, Worker(CheckSigs(b, 0), todo), db, Worker(Idle, todo))
  {
    hide ChainInv, Cached, Bucketed, Leads, Process, SigsOk, SignedFrom;
    SigsLoop(w, db, b, 0, todo);
    AllSigned(w, b);
    if SigsOk(w, b) {
      IsReady(w, db, b);
      StoreSections(w, db, b, todo);
      LeadsOn(w, db, Worker(CheckSigs(b, 0), todo), db, Worker(ReadRef(b), todo),
              Process(w, db, b), Worker(OrphanProbe(b), todo));
    }
  }

  /** Every pooled tx block holds transactions with long enough vectors. */
  ghost predicate Shaped(db: Db) {
    forall h, tx :: h in db.txBlockPool && tx in db.txBlockPool[h].content ==> WellShaped(tx.transaction)
  }

  lemma ShapedRefs(w: World, db: Db, b: ProposerBlock)
    requires NodeInv(w, db) && Shaped(db) && Referenced(db.txBlockPool, b) && Ready(db, b)
    ensures FoldsOn(w, db, b)
  {
    hide ChainInv, Cached, Bucketed, WellShaped, RefsFold;
    forall r, tx | r in b.content && tx in w.txBlockOf(r).content
      ensures WellShaped(tx.transaction)
    {
      assert tx in db.txBlockPool[r].content;
    }
    ShapedRefsFold(w, db.globState[b.header.proposerParent], b.content);
  }

  /** With the tx blocks of every waiting block pooled, new_parent looks up none in vain. */
  lemma StockedAdoptable(w: World, db: Db, b: ProposerBlock)
    requires w.Good() && NodeInv(w, db) && Stocked(db) && Shaped(db) && w.Hash(b) in db.chain.blocks
    ensures Adoptable(w, db, b)
    decreases db.orphans.Keys, 0
  {
    hide NodeInv, KidsOk, AllAdoptable;
    if w.Hash(b) in db.orphans {
      TakeOut(w, db, b);
      StockedKids(w, db.(orphans := db.orphans - {w.Hash(b)}), db.orphans[w.Hash(b)]);
    }
  }

  lemma StockedKids(w: World, db: Db, kids: seq<ProposerBlock>)
    requires w.Good() && NodeInv(w, db) && Stocked(db) && Shaped(db) && KidsOk(w, db, kids)
    ensures AllAdoptable(w, db, kids)
    decreases db.orphans.Keys, |kids|
  {
    hide NodeInv, Process, SigsOk, AdoptOne, Adoptable;
    if kids != [] {
      var c := kids[0];
      assert c in kids;
      if SigsOk(w, c) {
        StoreKeeps(w, db, c);
        StoreLeaves(w, db, c);
        ShapedRefs(w, db, c);
        StockedAdoptable(w, Process(w, db, c), c);
      }
      AdoptOneSections(w, db, kids, []);
      KidsStayOk(w, db, AdoptOne(w, db, kids), kids);
      StockedKids(w, AdoptOne(w, db, kids), kids[1..]);
    }
  }

  /** So a node to which blocks are delivered only after their tx blocks handles them all. */
  lemma StockedHandleable(w: World, db: Db, b: ProposerBlock)
    requires w.Good() && NodeInv(w, db) && Stocked(db) && Shaped(db) && w.Occurs(b) && Referenced(db.txBlockPool, b)
    ensures Handleable(w, db, b)
  {
    hide NodeInv, Process, SigsOk, PowOk, Adoptable;
    if b.header.proposerParent in db.chain.blocks && SigsOk(w, b) {
      StoreKeeps(w, db, b);
      StoreLeaves(w, db, b);
      ShapedRefs(w, db, b);
      StockedAdoptable(w, Process(w, db, b), b);
    }
  }

  /** A delivered block, handled without interruption. */
  lemma SoloIsDeliver(w: World, db: Db, b: ProposerBlock, rest: seq<Item>)
    requires w.Good() && NodeInv(w, db) && Stocked(db) && w.Occurs(b) && Referenced(db.txBlockPool, b)
    ensures Leads(w, db, Worker(Idle, [Fresh(b)] + rest), Deliver(w, db, b), Worker(Idle, rest))
  {
    hide NodeInv, Leads, Process, SigsOk, NewParent, PowOk, Buffer;
    var db', end := Deliver(w, db, b), Worker(Idle, rest);
    var start := Worker(Idle, [Fresh(b)] + rest);
    assert start.todo[1..] == rest;
    if w.Hash(b) in db.chain.blocks || !PowOk(w, b) {
      LeadsStep(w, db, Worker(SeenTest(b), rest));
    } else {
      if b.header.proposerParent in db.chain.blocks {
        ParentThere(w, db, b, rest);
      } else {
        ParentMissing(w, db, b, rest);
      }
      LeadsFirst(w, db, Worker(SeenTest(b), rest), db', end);
    }
    LeadsFirst(w, db, start, db', end);
  }

  lemma ParentMissing(w: World, db: Db, b: ProposerBlock, rest: seq<Item>)
    requires b.header.proposerParent !in db.chain.blocks
    ensures Leads(w, db, Worker(ParentTest(b), rest), db.(orphans := Buffer(db.orphans, b)), Worker(Idle, rest))
  {
    hide Leads;
    var db', end := db.(orphans := Buffer(db.orphans, b)), Worker(Idle, rest);
    if b.header.proposerParent in db.orphans {
      LeadsStep(w, db, Worker(OrphanPush(b), rest));
    } else {
      LeadsStep(w, db, Worker(OrphanInsert(b), rest));
    }
    LeadsFirst(w, db, Worker(OrphanTest(b), rest), db', end);
    LeadsFirst(w, db, Worker(ParentTest(b), rest), db', end);
  }

  lemma ParentThere(w: World, db: Db, b: ProposerBlock, rest: seq<Item>)
    requires w.Good() && NodeInv(w, db) && Stocked(db) && w.Occurs(b) && Referenced(db.txBlockPool, b)
    requires b.header.proposerParent in db.chain.blocks
    ensures Leads(w, db, Worker(ParentTest(b), rest),
                  if SigsOk(w, b) then NewParent(w, Process(w, db, b), b) else db, Worker(Idle, rest))
  {
    hide NodeInv, Leads, Process, SigsOk, NewParent;
    CheckSections(w, db, b, rest);
    var end := Worker(Idle, rest);
    if SigsOk(w, b) {
      StoreKeeps(w, db, b);
      var db1 := Process(w, db, b);
      NewParentSections(w, db1, b, rest);
      LeadsOn(w, db, Worker(CheckSigs(b, 0), rest), db1, Worker(OrphanProbe(b), rest), NewParent(w, db1, b), end);
      LeadsFirst(w, db, Worker(ParentTest(b), rest), NewParent(w, db1, b), end);
    } else {
      LeadsFirst(w, db, Worker(ParentTest(b), rest), db, end);
    }
  }

  // ---------------------------------------------------------------------------
  // The miner

  /** b can come out of a mining round of a node in state db. */
  ghost predicate Minable(w: World, db: Db, b: ProposerBlock) {
    && w.Occurs(b) && b.content != []
    && b.header.proposerParent == db.chain.tip && Choosable(db, b)
    && w.Hash(b) < b.header.proposerDifficulty
  }

  /** The content and the header are among the miner's free choices. */
  ghost predicate Choosable(db: Db, b: ProposerBlock) {
    var tip := db.chain.tip;
    && tip in db.chain.blocks && tip in db.globState && tip in db.txBlockRef
    && b.header.transactionDifficulty == db.chain.blocks[tip].header.transactionDifficulty
    && b.header.proposerDifficulty == db.chain.blocks[tip].header.proposerDifficulty
    && Referenced(db.txBlockPool, b) && Supply.Filtered(db.txBlockRef[tip], b.content)
  }

  /** The miner with everything read, about to build the header. */
  ghost function BuildPc(db: Db, b: ProposerBlock): MinerPc
    requires Choosable(db, b)
  {
    var tip := db.chain.tip;
    Build(tip, db.globState[tip], db.txBlockRef[tip], b.content, db.chain.blocks[tip].header)
  }

  /** What one round of the atomic miner stores is minable here. */
  lemma BuiltIsMinable(w: World, db: Db, b: ProposerBlock, nonce: u32, timestamp: nat)
    requires NodeInv(w, db) && Miner.BuiltOn(w, db, b) && Miner.HeaderOn(db, b.header, nonce, timestamp) && w.Occurs(b)
    ensures Minable(w, db, b)
  {
    hide ChainInv, Bucketed, Pooled, Supply.Filtered, Merkle.TreeRoot;
    CachedKeys(w, db);
  }

  /** n sections of a mining round with the content and the header of b, nobody in between. */
  ghost predicate Round(w: World, db: Db, m: MinerPc, b: ProposerBlock, n: nat, db': Db, m': MinerPc)
    decreases n
  {
    if n == 0 then db == db' && m == m' else
      && Enabled(w, Sys(db, map[], m), Mine(b.content, b.header))
      && var (db1, m1) := MinerStep(w, db, m, b.content, b.header);
      Round(w, db1, m1, b, n - 1, db', m')
  }

  ghost predicate RoundLeads(w: World, db: Db, m: MinerPc, b: ProposerBlock, db': Db, m': MinerPc) {
    exists n: nat :: Round(w, db, m, b, n, db', m')
  }

  lemma RoundSelf(w: World, db: Db, m: MinerPc, b: ProposerBlock)
    ensures RoundLeads(w, db, m, b, db, m)
  {
    assert Round(w, db, m, b, 0, db, m);
  }

  /** One more section first. */
  lemma RoundFirst(w: World, db: Db, m: MinerPc, b: ProposerBlock, db': Db, m': MinerPc)
    requires Enabled(w, Sys(db, map[], m), Mine(b.content, b.header))
    requires var (db1, m1) := MinerStep(w, db, m, b.content, b.header); RoundLeads(w, db1, m1, b, db', m')
    ensures RoundLeads(w, db, m, b, db', m')
  {
    hide MinerStep, Enabled;
    var (db1, m1) := MinerStep(w, db, m, b.content, b.header);
    var n: nat :| Round(w, db1, m1, b, n, db', m');
    assert Round(w, db, m, b, n + 1, db', m');
  }

  lemma {:induction false} MinedFold(w: World, db: Db, b: ProposerBlock, i: nat, s: Ledger, db': Db, m': MinerPc)
    requires FoldedTo(w, db, b, i, s) && Referenced(db.txBlockPool, b) && Pooled(w, db.txBlockPool)
    requires var state := ApplyRefs(w, db.globState[b.header.proposerParent], b.content);
             RoundLeads(w, db, PruneMined(b, state), b, db', m')
    ensures RoundLeads(w, db, FoldMined(b, i, s), b, db', m')
    decreases |b.content| - i
  {
    hide RoundLeads, ApplyRefs;
    if i < |b.content| {
      FoldNext(w, db, b, i, s);
      MinedFold(w, db, b, i + 1, ApplyTxs(w, s, db.txBlockPool[b.content[i]].content), db', m');
    } else {
      assert b.content[..|b.content|] == b.content;
    }
    RoundFirst(w, db, FoldMined(b, i, s), b, db', m');
  }

  /** From the first write to the chain insert: the miner's storing section. */
  lemma MinedStores(w: World, db: Db, b: ProposerBlock)
    requires Ready(db, b) && Referenced(db.txBlockPool, b) && Pooled(w, db.txBlockPool)
    ensures var p := b.header.proposerParent;
            RoundLeads(w, db, PutRef(b, db.globState[p], ExtendRefs(db.txBlockRef[p], b.content)), b,
                       Process(w, db, b), Start)
  {
    hide RoundLeads, ApplyRefs, ExtendRefs, Inserted, Prune;
    var p := b.header.proposerParent;
    var list, state := ExtendRefs(db.txBlockRef[p], b.content), ApplyRefs(w, db.globState[p], b.content);
    var db1 := WithRef(w, db, b, list);
    var db2 := db1.(txPool := Prune(db1.txPool, state));
    var db3 := WithState(w, db2, b, state);
    var end := Process(w, db, b);
    assert WithBlock(w, db3, b) == end;
    RoundSelf(w, end, Start, b);
    RoundFirst(w, db3, PutChain(b), b, end, Start);
    RoundFirst(w, db2, PutState(b, state), b, end, Start);
    RoundFirst(w, db1, PruneMined(b, state), b, end, Start);
    NothingFolded(w, db1, b);
    MinedFold(w, db1, b, 0, db1.globState[p], end, Start);
    RoundFirst(w, db, PutRef(b, db.globState[p], list), b, end, Start);
  }

  /** From the start to the header, all reading. */
  lemma RoundReads(w: World, db: Db, b: ProposerBlock, db': Db, m': MinerPc)
    requires Choosable(db, b) && w.Occurs(b) && b.header.proposerParent == db.chain.tip
    requires RoundLeads(w, db, BuildPc(db, b), b, db', m')
    ensures RoundLeads(w, db, Start, b, db', m')
  {
    hide RoundLeads, Supply.Filtered;
    var tip := db.chain.tip;
    var s, list := db.globState[tip], db.txBlockRef[tip];
    assert BuildPc(db, b) == Build(tip, s, list, b.content, db.chain.blocks[tip].header);
    RoundFirst(w, db, GetHeader(tip, s, list, b.content), b, db', m');
    assert forall r :: r in b.content ==> r in db.txBlockPool;
    RoundFirst(w, db, Pick(tip, s, list), b, db', m');
    RoundFirst(w, db, GetRefs(tip, s), b, db', m');
    RoundFirst(w, db, GetState(tip), b, db', m');
    RoundFirst(w, db, Start, b, db', m');
  }

  /** A mining round, run without interruption, does to the shared maps exactly what Process
      says. */
  lemma RoundIsProcess(w: World, db: Db, b: ProposerBlock)
    requires w.Good() && NodeInv(w, db) && Minable(w, db, b)
    ensures RoundLeads(w, db, Start, b, Process(w, db, b), Start)
  {
    hide ChainInv, Cached, Bucketed, RoundLeads, Process, ExtendRefs, Choosable;
    var tip := db.chain.tip;
    ChoosableParts(w, db, b);
    IsReady(w, db, b);
    MinedStores(w, db, b);
    Miner.ListIsDistinct(w, db, tip);
    Supply.LoopIsConcatIffFiltered(db.txBlockRef[tip], b.content);
    BuildsIt(w, db, b);
    RoundFirst(w, db, BuildPc(db, b), b, Process(w, db, b), Start);
    RoundReads(w, db, b, Process(w, db, b), Start);
  }

  lemma ChoosableParts(w: World, db: Db, b: ProposerBlock)
    requires Choosable(db, b)
    ensures var tip := db.chain.tip;
            && tip in db.chain.blocks && tip in db.globState && tip in db.txBlockRef
            && Referenced(db.txBlockPool, b) && Supply.Filtered(db.txBlockRef[tip], b.content)
  {
  }

  lemma BuildsIt(w: World, db: Db, b: ProposerBlock)
    requires Minable(w, db, b)
    ensures Choosable(db, b) && Enabled(w, Sys(db, map[], BuildPc(db, b)), Mine(b.content, b.header))
    ensures var tip := db.chain.tip;
            MinerStep(w, db, BuildPc(db, b), b.content, b.header)
            == (db, PutRef(b, db.globState[tip], db.txBlockRef[tip] + b.content))
  {
    hide Supply.Filtered;
    assert ProposerBlock(b.header, b.content) == b;
  }

  /** A round whose hash is too high, or that has nothing to refer to, changes nothing. */
  lemma RoundMisses(w: World, db: Db, b: ProposerBlock)
    requires w.Occurs(b) && Choosable(db, b) && b.header.proposerParent == db.chain.tip
    requires w.Hash(b) >= b.header.proposerDifficulty || b.content == []
    ensures RoundLeads(w, db, Start, b, db, Start)
  {
    hide RoundLeads, Supply.Filtered;
    var tip := db.chain.tip;
    assert ProposerBlock(b.header, b.content) == b;
    RoundSelf(w, db, Start, b);
    RoundFirst(w, db, BuildPc(db, b), b, db, Start);
    RoundReads(w, db, b, db, Start);
  }

  /** Atomicity matters for the buffer: two workers that have both found the bucket of one
      block cannot both fetch it; the one that comes after the removal panics. */
  lemma RacingFetchers(w: World, s: Sys, i: nat, j: nat, b: ProposerBlock)
    requires i in s.workers && j in s.workers && i != j && w.Hash(b) in s.db.orphans
    requires s.workers[i].pc == OrphanFetch(b) && s.workers[j].pc == OrphanFetch(b)
    ensures var s' := Next(w, Next(w, Next(w, s, Work(i)), Work(i)), Work(j));
            s'.workers[j].pc == BucketGone
  {
    hide ApplyRefs, ExtendRefs, Inserted;
    var s1 := Next(w, s, Work(i));
    assert s1.workers[i].pc == OrphanDrop(b, s.db.orphans[w.Hash(b)]) && s1.db == s.db;
    var s2 := Next(w, s1, Work(i));
    assert w.Hash(b) !in s2.db.orphans && s2.workers[j] == s.workers[j];
  }
}
