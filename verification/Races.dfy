/** The orphan buffer under interleaving: a worker can find a bucket gone, and a block can
    be left waiting under a parent that is there, exactly when there are two workers. */
module Races {
  import opened Types
  import opened Ledgers
  import opened Blockchains
  import opened Nodes
  import opened Workers
  import opened Interleaving
  import opened Refinement

  // ---------------------------------------------------------------------------
  // What can go wrong

  ghost predicate AtMostOneWorker(s: Sys) {
    forall i, j :: i in s.workers && j in s.workers ==> i == j
  }

  /** Some worker has looked a bucket up that was no longer there, and is dead. */
  ghost predicate BucketLost(s: Sys) {
    exists id :: id in s.workers && s.workers[id].pc.BucketGone?
  }

  /** All workers are idle, and yet a block waits under a parent that is in the chain. */
  ghost predicate Stranded(s: Sys) {
    && (forall id :: id in s.workers ==> s.workers[id] == Worker(Idle, []))
    && exists k :: k in s.db.orphans && k in s.db.chain.blocks && s.db.orphans[k] != []
  }

  /** The worker is about to put a block into the buffer. */
  predicate AboutToBuffer(pc: WorkerPc) {
    pc.OrphanTest? || pc.OrphanPush? || pc.OrphanInsert?
  }

  /** Nobody builds on a block before its miner has published it: when the miner inserts
      one, no block waits for it or is about to. */
  ghost predicate Causal(w: World, s: Sys, a: Action) {
    a.Mine? && s.miner.PutChain? ==>
      && w.Hash(s.miner.b) !in s.db.orphans
      && forall id :: id in s.workers && AboutToBuffer(s.workers[id].pc) ==>
           s.workers[id].pc.b.header.proposerParent != w.Hash(s.miner.b)
  }

  ghost predicate CausalRun(w: World, s: Sys, acts: seq<Action>) {
    acts != [] ==>
      var init := acts[..|acts| - 1];
      CausalRun(w, s, init) && Causal(w, After(w, s, init), acts[|acts| - 1])
  }

  /** A run, all of whose actions are causal if that is asked for. */
  ghost predicate Runs(w: World, s: Sys, acts: seq<Action>, causal: bool) {
    Run(w, s, acts) && (causal ==> CausalRun(w, s, acts))
  }

  // ---------------------------------------------------------------------------
  // One worker

  /** A worker that has found a bucket finds it again. */
  ghost predicate BucketKept(w: World, s: Sys) {
    forall id :: id in s.workers ==>
      var pc := s.workers[id].pc;
      !pc.BucketGone? && (pc.OrphanFetch? || pc.OrphanDrop? ==> w.Hash(pc.b) in s.db.orphans)
  }

  lemma BucketKeptNext(w: World, s: Sys, a: Action)
    requires AtMostOneWorker(s) && BucketKept(w, s) && Enabled(w, s, a)
    ensures AtMostOneWorker(Next(w, s, a)) && BucketKept(w, Next(w, s, a))
  {
    hide WorkerStep, MinerStep;
    match a {
      case Work(id) => FetchStep(w, s.db, s.workers[id]);
      case Mine(content, header) => MinerLeavesBuffer(w, s.db, s.miner, content, header);
      case _ =>
    }
  }

  lemma FetchStep(w: World, db: Db, k: Worker)
    requires !k.pc.BucketGone? && (k.pc.OrphanFetch? || k.pc.OrphanDrop? ==> w.Hash(k.pc.b) in db.orphans)
    ensures var (db', k') := WorkerStep(w, db, k);
            !k'.pc.BucketGone? && (k'.pc.OrphanFetch? || k'.pc.OrphanDrop? ==> w.Hash(k'.pc.b) in db'.orphans)
  {
    hide ApplyTxs, ExtendRefs, Inserted, Prune, TxBlockSigned, PowOk;
  }

  lemma MinerLeavesBuffer(w: World, db: Db, m: MinerPc, content: seq<H256>, header: Header)
    ensures var (db', m') := MinerStep(w, db, m, content, header);
            && db'.orphans == db.orphans
            && db'.chain.blocks.Keys == db.chain.blocks.Keys + if m.PutChain? && db' != db then {w.Hash(m.b)} else {}
  {
    hide ApplyTxs, Prune;
  }

  /** With at most one worker no bucket is ever lost, and one that was found is fetched:
      the miner and the other threads do not touch the buffer. */
  lemma {:induction false} OneWorkerKeepsBuckets(w: World, s: Sys, acts: seq<Action>)
    requires Initial(w, s) && AtMostOneWorker(s) && Runs(w, s, acts, false)
    ensures AtMostOneWorker(After(w, s, acts)) && BucketKept(w, After(w, s, acts))
  {
    hide Next, Enabled, AtMostOneWorker;
    if acts != [] {
      OneWorkerKeepsBuckets(w, s, acts[..|acts| - 1]);
      BucketKeptNext(w, After(w, s, acts[..|acts| - 1]), acts[|acts| - 1]);
    }
  }

  /** The worker is between inserting the block with hash k and removing its bucket. */
  predicate Opens(w: World, pc: WorkerPc, k: H256) {
    (pc.OrphanProbe? || pc.OrphanFetch? || pc.OrphanDrop?) && w.Hash(pc.b) == k
  }

  /** Only a worker that has just inserted a block leaves a bucket under a hash that is in
      the chain, and a worker about to buffer a block is right that its parent is missing. */
  ghost predicate Tidy(w: World, s: Sys) {
    && (forall k :: k in s.db.orphans && k in s.db.chain.blocks ==>
          exists id :: id in s.workers && Opens(w, s.workers[id].pc, k))
    && (forall id :: id in s.workers && AboutToBuffer(s.workers[id].pc) ==>
          s.workers[id].pc.b.header.proposerParent !in s.db.chain.blocks)
  }

  /** The same, as far as one worker is concerned. */
  ghost predicate TidyFor(w: World, db: Db, pc: WorkerPc) {
    && (forall k :: k in db.orphans && k in db.chain.blocks ==> Opens(w, pc, k))
    && (AboutToBuffer(pc) ==> pc.b.header.proposerParent !in db.chain.blocks)
  }

  lemma TidyWorker(w: World, db: Db, k: Worker)
    requires TidyFor(w, db, k.pc)
    ensures TidyFor(w, WorkerStep(w, db, k).0, WorkerStep(w, db, k).1.pc)
  {
    hide ApplyTxs, ExtendRefs, Prune, TxBlockSigned, PowOk, Inserted;
    if k.pc.InsertChain? {
      InsertOne(w, db.chain, k.pc.b);
    } else if Buffering(k.pc) {
      TidyBuffering(w, db, k);
    } else {
      QuietStep(w, db, k);
      hide WithRef, WithState, WithBlock;
    }
  }

  lemma InsertOne(w: World, c: Chain, b: ProposerBlock)
    ensures Inserted(w, c, b).blocks.Keys <= c.blocks.Keys + {w.Hash(b)}
  {
  }

  lemma TidyBuffering(w: World, db: Db, k: Worker)
    requires TidyFor(w, db, k.pc) && Buffering(k.pc)
    ensures TidyFor(w, WorkerStep(w, db, k).0, WorkerStep(w, db, k).1.pc)
  {
  }

  lemma TidyNext(w: World, s: Sys, a: Action)
    requires AtMostOneWorker(s) && Tidy(w, s) && Enabled(w, s, a) && Causal(w, s, a)
    ensures Tidy(w, Next(w, s, a))
  {
    hide WorkerStep, MinerStep;
    match a {
      case Work(id) =>
        TidyWorker(w, s.db, s.workers[id]);
        TidyAlone(w, Next(w, s, a), id);
      case Mine(content, header) =>
        MinerLeavesBuffer(w, s.db, s.miner, content, header);
      case _ =>
    }
  }

  lemma TidyAlone(w: World, s: Sys, id: nat)
    requires AtMostOneWorker(s) && id in s.workers && TidyFor(w, s.db, s.workers[id].pc)
    ensures Tidy(w, s)
  {
  }

  lemma {:induction false} OneWorkerIsTidy(w: World, s: Sys, acts: seq<Action>)
    requires Initial(w, s) && AtMostOneWorker(s) && Runs(w, s, acts, true)
    ensures AtMostOneWorker(After(w, s, acts)) && Tidy(w, After(w, s, acts))
  {
    hide Next, Enabled, AtMostOneWorker, Causal, Tidy;
    if acts == [] {
      InitialTidy(w, s);
    } else {
      var s' := After(w, s, acts[..|acts| - 1]);
      OneWorkerIsTidy(w, s, acts[..|acts| - 1]);
      TidyNext(w, s', acts[|acts| - 1]);
      StillOne(w, s', acts[|acts| - 1]);
    }
  }

  lemma InitialTidy(w: World, s: Sys)
    requires Initial(w, s)
    ensures Tidy(w, s)
  {
  }

  lemma StillOne(w: World, s: Sys, a: Action)
    requires AtMostOneWorker(s) && Enabled(w, s, a)
    ensures AtMostOneWorker(Next(w, s, a))
  {
    hide WorkerStep, MinerStep;
  }

  lemma TidyIsNotStranded(w: World, s: Sys)
    requires Tidy(w, s)
    ensures !Stranded(s)
  {
  }

  // ---------------------------------------------------------------------------
  // Making runs

  /** s' is reached from s with the deliveries of got, by causal actions if that is asked for. */
  ghost predicate Reaches(w: World, s: Sys, s': Sys, got: set<ProposerBlock>, causal: bool) {
    exists acts :: Runs(w, s, acts, causal) && After(w, s, acts) == s' && ReceivedIn(acts) == got
  }

  lemma ReachesSelf(w: World, s: Sys, causal: bool)
    ensures Reaches(w, s, s, {}, causal)
  {
    var none: seq<Action> := [];
    assert Runs(w, s, none, causal) && After(w, s, none) == s && ReceivedIn(none) == {};
  }

  /** One more action, whatever it delivers. */
  lemma ReachesAction(w: World, s: Sys, s': Sys, a: Action, got: set<ProposerBlock>, causal: bool)
    requires Reaches(w, s, s', got, causal) && Enabled(w, s', a) && (causal ==> Causal(w, s', a))
    ensures Reaches(w, s, Next(w, s', a), got + ReceivedBy(a), causal)
  {
    hide Enabled, Causal, Next, ReceivedBy;
    var acts :| Runs(w, s, acts, causal) && After(w, s, acts) == s' && ReceivedIn(acts) == got;
    var more := acts + [a];
    assert more[..|more| - 1] == acts && more[|more| - 1] == a;
    assert Run(w, s, more) && (causal ==> CausalRun(w, s, more));
    assert Runs(w, s, more, causal) && After(w, s, more) == Next(w, s', a) && ReceivedIn(more) == got + ReceivedBy(a);
  }

  /** One more action that delivers nothing. */
  lemma ReachesStep(w: World, s: Sys, s': Sys, a: Action, got: set<ProposerBlock>, causal: bool)
    requires Reaches(w, s, s', got, causal) && Enabled(w, s', a) && (causal ==> Causal(w, s', a)) && !a.Receive?
    ensures Reaches(w, s, Next(w, s', a), got, causal)
  {
    hide Reaches, Enabled, Causal, Next;
    ReachesAction(w, s, s', a, got, causal);
    assert got + ReceivedBy(a) == got;
  }

  /** n sections of one worker, with the others standing still. */
  lemma {:induction false} ReachesSolo(w: World, s: Sys, s': Sys, id: nat, n: nat,
                                       got: set<ProposerBlock>, causal: bool)
    requires Reaches(w, s, s', got, causal) && id in s'.workers
    ensures var (db, k) := Solo(w, s'.db, s'.workers[id], n);
            Reaches(w, s, s'.(db := db, workers := s'.workers[id := k]), got, causal)
    decreases n
  {
    hide Reaches, WorkerStep;
    if n == 0 {
      assert s'.(db := s'.db, workers := s'.workers[id := s'.workers[id]]) == s';
    } else {
      ReachesStep(w, s, s', Work(id), got, causal);
      var s1 := Next(w, s', Work(id));
      ReachesSolo(w, s, s1, id, n - 1, got, causal);
      var (db, k) := Solo(w, s1.db, s1.workers[id], n - 1);
      assert s1.(db := db, workers := s1.workers[id := k]) == s'.(db := db, workers := s'.workers[id := k]);
    }
  }

  lemma ReachesLed(w: World, s: Sys, s': Sys, id: nat, db: Db, k: Worker, got: set<ProposerBlock>, causal: bool)
    requires Reaches(w, s, s', got, causal) && id in s'.workers && Leads(w, s'.db, s'.workers[id], db, k)
    ensures Reaches(w, s, s'.(db := db, workers := s'.workers[id := k]), got, causal)
  {
    hide Reaches, Solo;
    var n: nat :| Solo(w, s'.db, s'.workers[id], n) == (db, k);
    ReachesSolo(w, s, s', id, n, got, causal);
  }

  /** One block is delivered to an idle worker. */
  lemma ReachesReceive(w: World, s: Sys, s': Sys, id: nat, b: ProposerBlock, got: set<ProposerBlock>, causal: bool)
    requires Reaches(w, s, s', got, causal) && id in s'.workers && s'.workers[id] == Worker(Idle, [])
    requires Deliverable(w, s'.db, b)
    ensures Reaches(w, s, s'.(workers := s'.workers[id := Worker(Idle, [Fresh(b)])]), got + {b}, causal)
  {
    hide Reaches, Deliverable;
    ReachesAction(w, s, s', Receive(id, [b]), got, causal);
    assert ReceivedBy(Receive(id, [b])) == {b};
    assert Freshes([b]) == [Fresh(b)];
  }

  /** The references are hashes of tx blocks that occur. */
  predicate RefsOccur(w: World, refs: seq<H256>) {
    forall r | r in refs :: w.TxBlockHash(w.txBlockOf(r)) == r
  }

  function StockPool(w: World, pool: map<H256, TXBlock>, refs: seq<H256>): map<H256, TXBlock> {
    if refs == [] then pool else
      StockPool(w, pool, refs[..|refs| - 1])[refs[|refs| - 1] := w.txBlockOf(refs[|refs| - 1])]
  }

  lemma {:induction false} StockHolds(w: World, pool: map<H256, TXBlock>, refs: seq<H256>)
    requires Pooled(w, pool)
    ensures Pooled(w, StockPool(w, pool, refs))
    ensures forall r :: r in refs ==> r in StockPool(w, pool, refs)
  {
    if refs != [] {
      StockHolds(w, pool, refs[..|refs| - 1]);
    }
  }

  lemma {:induction false} ReachesStock(w: World, s: Sys, refs: seq<H256>, causal: bool)
    requires RefsOccur(w, refs)
    ensures Reaches(w, s, s.(db := s.db.(txBlockPool := StockPool(w, s.db.txBlockPool, refs))), {}, causal)
  {
    hide Reaches;
    if refs == [] {
      ReachesSelf(w, s, causal);
    } else {
      var init, r := refs[..|refs| - 1], refs[|refs| - 1];
      ReachesStock(w, s, init, causal);
      var s' := s.(db := s.db.(txBlockPool := StockPool(w, s.db.txBlockPool, init)));
      assert r in refs;
      ReachesStep(w, s, s', AddTxBlock(w.txBlockOf(r)), {}, causal);
    }
  }

  // ---------------------------------------------------------------------------
  // A parent and its child

  /** b is a valid child of genesis, c a child of b with a small enough hash, and their tx
      blocks occur. */
  ghost predicate Family(w: World, b: ProposerBlock, c: ProposerBlock) {
    && w.Occurs(b) && PowOk(w, b) && SigsOk(w, b) && b.header.proposerParent == w.Genesis()
    && w.Occurs(c) && PowOk(w, c) && c.header.proposerParent == w.Hash(b)
    && RefsOccur(w, b.content) && RefsOccur(w, c.content)
  }

  lemma FamilyHashes(w: World, b: ProposerBlock, c: ProposerBlock)
    requires w.Good() && Family(w, b, c)
    ensures w.Hash(b) != w.Genesis() && w.Hash(c) != w.Genesis() && w.Hash(c) != w.Hash(b)
  {
    hide SigsOk, PowOk, RefsOccur;
  }

  /** The initial state with the tx blocks of b and c pooled. */
  function StockedWith(w: World, s: Sys, b: ProposerBlock, c: ProposerBlock): Sys {
    s.(db := s.db.(txBlockPool := StockPool(w, s.db.txBlockPool, b.content + c.content)))
  }

  lemma StockedFacts(w: World, s: Sys, b: ProposerBlock, c: ProposerBlock, causal: bool)
    requires w.Good() && Initial(w, s) && w.Occurs(b) && w.Occurs(c)
    requires RefsOccur(w, b.content) && RefsOccur(w, c.content)
    ensures var s1 := StockedWith(w, s, b, c);
            && Reaches(w, s, s1, {}, causal) && NodeInv(w, s1.db) && Stocked(s1.db)
            && Deliverable(w, s1.db, b) && Deliverable(w, s1.db, c)
            && s1.db == InitDb(w).(txBlockPool := s1.db.txBlockPool)
  {
    hide Reaches, NodeInv;
    var refs := b.content + c.content;
    ReachesStock(w, s, refs, causal);
    InitInv(w);
    StockHolds(w, map[], refs);
    StockKeepsInv(w, InitDb(w), StockPool(w, map[], refs));
  }

  lemma StockKeepsInv(w: World, db: Db, pool: map<H256, TXBlock>)
    requires NodeInv(w, db) && Pooled(w, pool)
    ensures NodeInv(w, db.(txBlockPool := pool))
  {
    hide ChainInv, Cached, Pooled;
    CachesApart(w, db, db.(txBlockPool := pool));
  }

  // ---------------------------------------------------------------------------
  // Two workers

  /** The first three sections: a new block with a small enough hash passes both tests and
      either goes on to its signatures or to the buffer. */
  lemma Accepted(w: World, db: Db, b: ProposerBlock)
    requires w.Hash(b) !in db.chain.blocks && PowOk(w, b)
    ensures Leads(w, db, Worker(Idle, [Fresh(b)]), db,
                  Worker(if b.header.proposerParent in db.chain.blocks then CheckSigs(b, 0) else OrphanTest(b), []))
  {
    hide Leads, PowOk;
    var end := Worker(if b.header.proposerParent in db.chain.blocks then CheckSigs(b, 0) else OrphanTest(b), []);
    assert [Fresh(b)][1..] == [];
    LeadsStep(w, db, Worker(ParentTest(b), []));
    LeadsFirst(w, db, Worker(SeenTest(b), []), db, end);
    LeadsFirst(w, db, Worker(Idle, [Fresh(b)]), db, end);
  }

  /** Storing a block for whose hash there is a bucket ends at the fetch. */
  lemma StoreToFetch(w: World, db: Db, b: ProposerBlock)
    requires w.Good() && NodeInv(w, db) && Insertable(w, db.chain, b) && Referenced(db.txBlockPool, b)
    requires SigsOk(w, b) && w.Hash(b) in db.orphans
    ensures Leads(w, db, Worker(CheckSigs(b, 0), []), Process(w, db, b), Worker(OrphanFetch(b), []))
    ensures NodeInv(w, Process(w, db, b)) && Insertable(w, Process(w, db, b).chain, b)
    ensures Process(w, db, b).orphans == db.orphans && Process(w, db, b).txBlockPool == db.txBlockPool
  {
    hide NodeInv, Process, SigsOk, Leads;
    CheckSections(w, db, b, []);
    ProcessStep(w, db, b);
    StoreLeaves(w, db, b);
    LeadsStep(w, Process(w, db, b), Worker(OrphanProbe(b), []));
    LeadsOn(w, db, Worker(CheckSigs(b, 0), []), Process(w, db, b), Worker(OrphanProbe(b), []),
            Process(w, db, b), Worker(OrphanFetch(b), []));
  }

  /** Both workers have b at the signature check, c waits for it: the later fetch fails. */
  lemma BothStore(w: World, s: Sys, s': Sys, i: nat, j: nat, b: ProposerBlock, got: set<ProposerBlock>)
    requires w.Good() && Reaches(w, s, s', got, false) && NodeInv(w, s'.db) && SigsOk(w, b)
    requires Insertable(w, s'.db.chain, b) && Referenced(s'.db.txBlockPool, b) && w.Hash(b) in s'.db.orphans
    requires i in s'.workers && j in s'.workers && i != j
    requires s'.workers[i] == Worker(CheckSigs(b, 0), []) == s'.workers[j]
    ensures exists s'' :: Reaches(w, s, s'', got, false) && BucketLost(s'')
  {
    hide NodeInv, Reaches, Process, SigsOk, Leads, Insertable, Referenced, WorkerStep;
    var db1 := Process(w, s'.db, b);
    StoreToFetch(w, s'.db, b);
    ReachesLed(w, s, s', i, db1, Worker(OrphanFetch(b), []), got, false);
    var s1 := s'.(db := db1, workers := s'.workers[i := Worker(OrphanFetch(b), [])]);
    SameRefs(s'.db, db1, b);
    var db2 := Process(w, db1, b);
    StoreToFetch(w, db1, b);
    ReachesLed(w, s, s1, j, db2, Worker(OrphanFetch(b), []), got, false);
    var s2 := s1.(db := db2, workers := s1.workers[j := Worker(OrphanFetch(b), [])]);
    RacingFetchers(w, s2, i, j, b);
    ReachesStep(w, s, s2, Work(i), got, false);
    ReachesStep(w, s, Next(w, s2, Work(i)), Work(i), got, false);
    ReachesStep(w, s, Next(w, Next(w, s2, Work(i)), Work(i)), Work(j), got, false);
    assert BucketLost(Next(w, Next(w, Next(w, s2, Work(i)), Work(i)), Work(j)));
  }

  lemma SameRefs(db: Db, db': Db, b: ProposerBlock)
    requires Referenced(db.txBlockPool, b) && db'.txBlockPool == db.txBlockPool
    ensures Referenced(db'.txBlockPool, b)
  {
  }

  /** The child, delivered first, waits for its parent. */
  lemma ChildWaits(w: World, db: Db, b: ProposerBlock, c: ProposerBlock)
    requires w.Good() && Family(w, b, c) && NodeInv(w, db) && Stocked(db)
    requires Deliverable(w, db, b) && Deliverable(w, db, c)
    requires db == InitDb(w).(txBlockPool := db.txBlockPool)
    ensures var db' := db.(orphans := map[w.Hash(b) := [c]]);
            && Leads(w, db, Worker(Idle, [Fresh(c)]), db', Worker(Idle, []))
            && NodeInv(w, db') && Stocked(db') && Deliverable(w, db', b) && Insertable(w, db'.chain, b)
            && w.Hash(b) !in db'.chain.blocks
  {
    hide NodeInv, Leads, PowOk, SigsOk;
    FamilyHashes(w, b, c);
    var db' := db.(orphans := map[w.Hash(b) := [c]]);
    assert Deliver(w, db, c) == db';
    assert [Fresh(c)] + [] == [Fresh(c)];
    SoloIsDeliver(w, db, c, []);
    WaitingKeepsInv(w, db, db', b, c);
  }

  lemma WaitingKeepsInv(w: World, db: Db, db': Db, b: ProposerBlock, c: ProposerBlock)
    requires NodeInv(w, db) && w.Occurs(c) && c.header.proposerParent == w.Hash(b)
    requires db' == db.(orphans := map[w.Hash(b) := [c]])
    ensures NodeInv(w, db')
  {
    hide ChainInv, Cached, Pooled;
    CachesApart(w, db, db');
  }

  /** Both workers receive b while its child waits; both store it; one of them comes late. */
  lemma LostRun(w: World, s: Sys, b: ProposerBlock, c: ProposerBlock, i: nat, j: nat)
    requires w.Good() && Initial(w, s) && Family(w, b, c) && i in s.workers && j in s.workers && i != j
    ensures exists s', got :: Reaches(w, s, s', got, false) && BucketLost(s')
  {
    hide NodeInv, Reaches, SigsOk, PowOk, Leads, Stocked, Deliverable, RefsOccur;
    StockedFacts(w, s, b, c, false);
    var s1 := StockedWith(w, s, b, c);
    var db := s1.db.(orphans := map[w.Hash(b) := [c]]);
    ChildWaits(w, s1.db, b, c);
    ReachesReceive(w, s, s1, i, c, {}, false);
    var s2 := s1.(workers := s1.workers[i := Worker(Idle, [Fresh(c)])]);
    ReachesLed(w, s, s2, i, db, Worker(Idle, []), {} + {c}, false);
    var s3 := s2.(db := db, workers := s2.workers[i := Worker(Idle, [])]);
    ReachesReceive(w, s, s3, i, b, {} + {c}, false);
    var s4 := s3.(workers := s3.workers[i := Worker(Idle, [Fresh(b)])]);
    ReachesReceive(w, s, s4, j, b, {} + {c} + {b}, false);
    var s5 := s4.(workers := s4.workers[j := Worker(Idle, [Fresh(b)])]);
    var got := {} + {c} + {b} + {b};
    Accepted(w, db, b);
    ReachesLed(w, s, s5, i, db, Worker(CheckSigs(b, 0), []), got, false);
    var s6 := s5.(db := db, workers := s5.workers[i := Worker(CheckSigs(b, 0), [])]);
    ReachesLed(w, s, s6, j, db, Worker(CheckSigs(b, 0), []), got, false);
    var s7 := s6.(db := db, workers := s6.workers[j := Worker(CheckSigs(b, 0), [])]);
    PooledForBoth(w, db, b);
    BothStore(w, s, s7, i, j, b, got);
  }

  lemma PooledForBoth(w: World, db: Db, b: ProposerBlock)
    requires Deliverable(w, db, b)
    ensures Referenced(db.txBlockPool, b)
  {
  }

  /** One worker finds the parent of c missing; before it goes on, the other stores that
      parent and, finding no bucket, becomes idle; then c is put into the buffer. */
  lemma StrandedRun(w: World, s: Sys, b: ProposerBlock, c: ProposerBlock, i: nat, j: nat)
    requires w.Good() && Initial(w, s) && Family(w, b, c) && i in s.workers && j in s.workers && i != j
    ensures exists s', got :: Reaches(w, s, s', got, true) && Stranded(s')
  {
    hide NodeInv, Reaches, SigsOk, PowOk, Leads, Stocked, Deliverable, RefsOccur, Process, WorkerStep;
    StockedFacts(w, s, b, c, true);
    FamilyHashes(w, b, c);
    var s1 := StockedWith(w, s, b, c);
    ReachesReceive(w, s, s1, i, c, {}, true);
    var s2 := s1.(workers := s1.workers[i := Worker(Idle, [Fresh(c)])]);
    Accepted(w, s1.db, c);
    ReachesLed(w, s, s2, i, s1.db, Worker(OrphanTest(c), []), {} + {c}, true);
    var s3 := s2.(db := s1.db, workers := s2.workers[i := Worker(OrphanTest(c), [])]);
    ReachesReceive(w, s, s3, j, b, {} + {c}, true);
    var s4 := s3.(workers := s3.workers[j := Worker(Idle, [Fresh(b)])]);
    var db := Process(w, s1.db, b);
    ParentStored(w, s1.db, b);
    ReachesLed(w, s, s4, j, db, Worker(Idle, []), {} + {c} + {b}, true);
    var s5 := s4.(db := db, workers := s4.workers[j := Worker(Idle, [])]);
    Buffered(w, db, c);
    ReachesLed(w, s, s5, i, db.(orphans := map[w.Hash(b) := [c]]), Worker(Idle, []), {} + {c} + {b}, true);
    var s6 := s5.(db := db.(orphans := map[w.Hash(b) := [c]]), workers := s5.workers[i := Worker(Idle, [])]);
    assert Stranded(s6) by {
      assert w.Hash(b) in s6.db.orphans && s6.db.orphans[w.Hash(b)] == [c];
    }
  }

  lemma ParentStored(w: World, db: Db, b: ProposerBlock)
    requires w.Good() && NodeInv(w, db) && Stocked(db) && Deliverable(w, db, b)
    requires PowOk(w, b) && SigsOk(w, b) && b.header.proposerParent in db.chain.blocks
    requires w.Hash(b) !in db.chain.blocks && db.orphans == map[]
    ensures var db' := Process(w, db, b);
            && Leads(w, db, Worker(Idle, [Fresh(b)]), db', Worker(Idle, []))
            && w.Hash(b) in db'.chain.blocks && db'.orphans == map[]
  {
    hide NodeInv, SigsOk, PowOk, Leads, Process;
    assert [Fresh(b)] + [] == [Fresh(b)];
    SoloIsDeliver(w, db, b, []);
    StoreKeeps(w, db, b);
    StoreLeaves(w, db, b);
  }

  lemma Buffered(w: World, db: Db, c: ProposerBlock)
    requires db.orphans == map[]
    ensures Leads(w, db, Worker(OrphanTest(c), []),
                  db.(orphans := map[c.header.proposerParent := [c]]), Worker(Idle, []))
  {
    hide Leads;
    var db' := db.(orphans := map[c.header.proposerParent := [c]]);
    LeadsStep(w, db, Worker(OrphanInsert(c), []));
    LeadsFirst(w, db, Worker(OrphanTest(c), []), db', Worker(Idle, []));
  }

  // ---------------------------------------------------------------------------
  // The theorems

  /** A worker can find a bucket gone exactly when there are two workers. */
  lemma BucketLostIffTwoWorkers(w: World, s: Sys, b: ProposerBlock, c: ProposerBlock)
    requires w.Good() && Initial(w, s) && Family(w, b, c)
    ensures (exists s', got :: Reaches(w, s, s', got, false) && BucketLost(s')) <==> !AtMostOneWorker(s)
  {
    hide Initial, Family, BucketLost, BucketKept, Runs, After;
    if AtMostOneWorker(s) {
      forall acts | Runs(w, s, acts, false)
        ensures !BucketLost(After(w, s, acts))
      {
        OneWorkerKeepsBuckets(w, s, acts);
        KeptIsNotLost(w, After(w, s, acts));
      }
    } else {
      var i, j :| i in s.workers && j in s.workers && i != j;
      LostRun(w, s, b, c, i, j);
    }
  }

  lemma KeptIsNotLost(w: World, s: Sys)
    requires BucketKept(w, s)
    ensures !BucketLost(s)
  {
  }

  /** By causal actions, a block can be left waiting under a parent that is in the chain
      exactly when there are two workers. */
  lemma StrandedIffTwoWorkers(w: World, s: Sys, b: ProposerBlock, c: ProposerBlock)
    requires w.Good() && Initial(w, s) && Family(w, b, c)
    ensures (exists s', got :: Reaches(w, s, s', got, true) && Stranded(s')) <==> !AtMostOneWorker(s)
  {
    hide Initial, Family, Stranded, Tidy, Runs, After;
    if AtMostOneWorker(s) {
      forall acts | Runs(w, s, acts, true)
        ensures !Stranded(After(w, s, acts))
      {
        OneWorkerIsTidy(w, s, acts);
        TidyIsNotStranded(w, After(w, s, acts));
      }
    } else {
      var i, j :| i in s.workers && j in s.workers && i != j;
      StrandedRun(w, s, b, c, i, j);
    }
  }

  // ---------------------------------------------------------------------------
  // Without causality

  lemma {:induction false} ReachesRound(w: World, s: Sys, s': Sys, b: ProposerBlock, n: nat, db: Db, m: MinerPc,
                                        got: set<ProposerBlock>)
    requires Reaches(w, s, s', got, false) && Round(w, s'.db, s'.miner, b, n, db, m)
    ensures Reaches(w, s, s'.(db := db, miner := m), got, false)
    decreases n
  {
    hide Reaches, MinerStep;
    if n == 0 {
      assert s'.(db := db, miner := m) == s';
    } else {
      ReachesStep(w, s, s', Mine(b.content, b.header), got, false);
      ReachesRound(w, s, Next(w, s', Mine(b.content, b.header)), b, n - 1, db, m, got);
    }
  }

  /** If a child of a block being mined could come in before that block is published, one
      worker would be enough to strand it: that is what Causal excludes. */
  lemma MinerStrands(w: World, s: Sys, b: ProposerBlock, c: ProposerBlock, i: nat)
    requires w.Good() && Initial(w, s) && Family(w, b, c) && i in s.workers
    requires Minable(w, StockedWith(w, s, b, c).db, b)
    ensures exists s', got :: Reaches(w, s, s', got, false) && Stranded(s')
  {
    hide NodeInv, Reaches, SigsOk, PowOk, Leads, Stocked, Deliverable, RefsOccur, Minable, Round, Process, WorkerStep;
    StockedFacts(w, s, b, c, false);
    FamilyHashes(w, b, c);
    var s1 := StockedWith(w, s, b, c);
    ReachesReceive(w, s, s1, i, c, {}, false);
    var s2 := s1.(workers := s1.workers[i := Worker(Idle, [Fresh(c)])]);
    Accepted(w, s1.db, c);
    ReachesLed(w, s, s2, i, s1.db, Worker(OrphanTest(c), []), {} + {c}, false);
    var s3 := s2.(db := s1.db, workers := s2.workers[i := Worker(OrphanTest(c), [])]);
    RoundIsProcess(w, s3.db, b);
    var db := Process(w, s3.db, b);
    MinedIsThere(w, s3.db, b);
    var n: nat :| Round(w, s3.db, Start, b, n, db, Start);
    ReachesRound(w, s, s3, b, n, db, Start, {} + {c});
    var s4 := s3.(db := db, miner := Start);
    Buffered(w, db, c);
    ReachesLed(w, s, s4, i, db.(orphans := map[w.Hash(b) := [c]]), Worker(Idle, []), {} + {c}, false);
    var s5 := s4.(db := db.(orphans := map[w.Hash(b) := [c]]), workers := s4.workers[i := Worker(Idle, [])]);
    assert Stranded(s5) by {
      assert w.Hash(b) in s5.db.orphans && s5.db.orphans[w.Hash(b)] == [c];
    }
  }

  lemma MinedIsThere(w: World, db: Db, b: ProposerBlock)
    requires w.Good() && NodeInv(w, db) && Minable(w, db, b)
    ensures w.Hash(b) in Process(w, db, b).chain.blocks && Process(w, db, b).orphans == db.orphans
  {
    hide NodeInv, Process, Supply.Filtered;
    ProcessStep(w, db, b);
    StoreLeaves(w, db, b);
  }
}
