/** What a node holds under interleaving whenever its workers are idle: exactly what the
    blocks it got amount to, if it has one worker, or if parents are delivered first. With
    two workers and blocks out of order, one can be lost. */
module WhenIdle {
  import opened Types
  import opened Blockchains
  import opened Nodes
  import opened Interleaving
  import opened Races
  import opened Origin

  // ---------------------------------------------------------------------------
  // Every received block is somewhere

  /** The block a worker is dealing with. */
  predicate InHand(pc: WorkerPc, b: ProposerBlock) {
    && !pc.Idle? && !pc.LookupFailed? && !pc.BucketGone?
    && !pc.OrphanProbe? && !pc.OrphanFetch? && !pc.OrphanDrop?
    && pc.b == b
  }

  /** b is in the chain, refused, waiting, in the worker's hands or still to be taken up. */
  ghost predicate Somewhere(w: World, db: Db, k: Worker, b: ProposerBlock) {
    || Delivery.Accounted(w, db, {}, b)
    || InHand(k.pc, b)
    || Fresh(b) in k.todo || Orphaned(b) in k.todo
  }

  ghost predicate AllSomewhere(w: World, db: Db, k: Worker, got: set<ProposerBlock>) {
    forall b :: b in got ==> Somewhere(w, db, k, b)
  }

  /** What the worker has found out about the buffer still holds. */
  ghost predicate Steady(w: World, db: Db, pc: WorkerPc) {
    match pc
    case OrphanPush(b) => b.header.proposerParent in db.orphans
    case OrphanInsert(b) => b.header.proposerParent !in db.orphans
    case OrphanFetch(b) => w.Hash(b) in db.orphans
    case OrphanDrop(b, kids) => w.Hash(b) in db.orphans && db.orphans[w.Hash(b)] == kids
    case BucketGone => false
    case _ => true
  }

  lemma SteadyStep(w: World, db: Db, k: Worker)
    requires Steady(w, db, k.pc)
    ensures Steady(w, WorkerStep(w, db, k).0, WorkerStep(w, db, k).1.pc)
  {
    hide Ledgers.ApplyTxs, ExtendRefs, Inserted, Ledgers.Prune, TxBlockSigned, PowOk;
  }

  /** What is in the chain, refused or waiting stays so while the maps grow and no bucket goes. */
  lemma AccountedStays(w: World, db: Db, db': Db, b: ProposerBlock)
    requires Delivery.Accounted(w, db, {}, b) && Grows(db, db')
    requires Delivery.Waiting(db, b) ==> Delivery.Waiting(db', b)
    ensures Delivery.Accounted(w, db', {}, b)
  {
    hide PowOk, SigsOk, KeepsEntries;
  }

  lemma BufferingKeeps(w: World, db: Db, k: Worker, b: ProposerBlock)
    requires Steady(w, db, k.pc) && Buffering(k.pc) && Somewhere(w, db, k, b)
    ensures Somewhere(w, WorkerStep(w, db, k).0, WorkerStep(w, db, k).1, b)
  {
    hide PowOk, SigsOk;
    match k.pc {
      case OrphanDrop(x, kids) =>
        if b in kids {
          var i :| 0 <= i < |kids| && kids[i] == b;
          assert Orphans(kids)[i] == Orphaned(b);
        }
      case _ =>
    }
  }

  /** The sections that do not touch the buffer. */
  lemma OtherKeeps(w: World, db: Db, k: Worker, b: ProposerBlock)
    requires WorkerOk(w, db, k) && Pooled(w, db.txBlockPool) && !Buffering(k.pc)
    requires Grows(db, WorkerStep(w, db, k).0) && WorkerOk(w, WorkerStep(w, db, k).0, WorkerStep(w, db, k).1)
    requires Somewhere(w, db, k, b)
    ensures Somewhere(w, WorkerStep(w, db, k).0, WorkerStep(w, db, k).1, b)
  {
    hide WorkerOk, Grows, Delivery.Accounted, WorkerStep, PowOk, SigsOk;
    var (db', k') := WorkerStep(w, db, k);
    BufferUntouched(w, db, k);
    if Delivery.Accounted(w, db, {}, b) {
      AccountedStays(w, db, db', b);
    } else if InHand(k.pc, b) {
      HandMoves(w, db, k, b);
    } else {
      TodoMoves(w, db, k, b);
    }
  }

  lemma BufferUntouched(w: World, db: Db, k: Worker)
    requires !Buffering(k.pc)
    ensures WorkerStep(w, db, k).0.orphans == db.orphans
  {
    hide Ledgers.ApplyTxs, ExtendRefs, Inserted, Ledgers.Prune, TxBlockSigned, PowOk;
  }

  lemma TodoMoves(w: World, db: Db, k: Worker, b: ProposerBlock)
    requires !Buffering(k.pc) && (Fresh(b) in k.todo || Orphaned(b) in k.todo)
    ensures var k' := WorkerStep(w, db, k).1;
            InHand(k'.pc, b) || Fresh(b) in k'.todo || Orphaned(b) in k'.todo
  {
    hide Ledgers.ApplyTxs, ExtendRefs, Inserted, Ledgers.Prune, TxBlockSigned, PowOk;
  }

  /** The block in hand stays there until it is in the chain or refused. */
  lemma HandMoves(w: World, db: Db, k: Worker, b: ProposerBlock)
    requires WorkerOk(w, db, k) && Pooled(w, db.txBlockPool) && !Buffering(k.pc) && InHand(k.pc, b)
    requires WorkerOk(w, WorkerStep(w, db, k).0, WorkerStep(w, db, k).1)
    ensures InHand(WorkerStep(w, db, k).1.pc, b) || Delivery.Accounted(w, WorkerStep(w, db, k).0, {}, b)
  {
    hide Ledgers.ApplyTxs, Ledgers.ApplyRefs, ExtendRefs, Inserted, Ledgers.Prune, PowOk, SigsOk, TxBlockSigned, ItemOk;
    match k.pc {
      case CheckSigs(x, i) =>
        if i < |x.content| && !TxBlockSigned(w, db.txBlockPool[x.content[i]]) {
          BadRefRefuses(w, db, x, i);
        }
      case _ =>
    }
  }

  lemma BadRefRefuses(w: World, db: Db, b: ProposerBlock, i: nat)
    requires Storable(w, db, b) && Pooled(w, db.txBlockPool) && i < |b.content|
    requires b.content[i] in db.txBlockPool && !TxBlockSigned(w, db.txBlockPool[b.content[i]])
    ensures !SigsOk(w, b) && b.header.proposerParent in db.chain.blocks
  {
    assert b.content[i] in b.content;
  }

  lemma WorkerKeeps(w: World, db: Db, k: Worker, got: set<ProposerBlock>)
    requires w.Good() && SharedInv(w, db) && WorkerOk(w, db, k) && Steady(w, db, k.pc) && AllSomewhere(w, db, k, got)
    ensures AllSomewhere(w, WorkerStep(w, db, k).0, WorkerStep(w, db, k).1, got)
    ensures Steady(w, WorkerStep(w, db, k).0, WorkerStep(w, db, k).1.pc)
  {
    hide SharedInv, WorkerOk, WorkerStep, Steady, Somewhere, Grows;
    SteadyStep(w, db, k);
    WorkStep(w, db, k);
    SharedFacts(w, db);
    forall b | b in got
      ensures Somewhere(w, WorkerStep(w, db, k).0, WorkerStep(w, db, k).1, b)
    {
      if Buffering(k.pc) {
        BufferingKeeps(w, db, k, b);
      } else {
        OtherKeeps(w, db, k, b);
      }
    }
  }

  /** The other threads let the maps grow and leave the buffer alone. */
  lemma OthersKeep(w: World, db: Db, db': Db, k: Worker, got: set<ProposerBlock>)
    requires Grows(db, db') && db'.orphans == db.orphans && Steady(w, db, k.pc) && AllSomewhere(w, db, k, got)
    ensures AllSomewhere(w, db', k, got) && Steady(w, db', k.pc)
  {
    hide Grows, Delivery.Accounted;
    forall b | b in got
      ensures Somewhere(w, db', k, b)
    {
      assert Somewhere(w, db, k, b);
      if Delivery.Accounted(w, db, {}, b) {
        AccountedStays(w, db, db', b);
      }
    }
  }

  // ---------------------------------------------------------------------------
  // Whole runs

  /** The one worker, if there is one, answers for every received block. */
  ghost predicate Answered(w: World, s: Sys, got: set<ProposerBlock>) {
    && (got != {} ==> s.workers.Keys != {})
    && forall id :: id in s.workers ==>
         Steady(w, s.db, s.workers[id].pc) && AllSomewhere(w, s.db, s.workers[id], got)
  }

  lemma AnsweredNext(w: World, s: Sys, a: Action, got: set<ProposerBlock>)
    requires w.Good() && SysInv(w, s) && Enabled(w, s, a) && AtMostOneWorker(s) && Answered(w, s, got)
    ensures Answered(w, Next(w, s, a), got + ReceivedBy(a))
  {
    hide SharedInv, WorkerOk, MinerOk, WorkerStep, MinerStep, Steady, AllSomewhere, Grows;
    NextInv(w, s, a);
    match a {
      case Work(id) =>
        assert got + ReceivedBy(a) == got;
        WorkerKeeps(w, s.db, s.workers[id], got);
      case Receive(id, bs) =>
        ReceiveAnswered(w, s, id, bs, got);
      case Mine(content, header) =>
        assert got + ReceivedBy(a) == got;
        MinerLeavesBuffer(w, s.db, s.miner, content, header);
        OthersKeepAll(w, s, Next(w, s, a), got);
      case _ =>
        assert got + ReceivedBy(a) == got;
        OthersKeepAll(w, s, Next(w, s, a), got);
    }
  }

  lemma ReceiveAnswered(w: World, s: Sys, id: nat, bs: seq<ProposerBlock>, got: set<ProposerBlock>)
    requires AtMostOneWorker(s) && Answered(w, s, got) && id in s.workers && s.workers[id] == Worker(Idle, [])
    ensures Answered(w, Next(w, s, Receive(id, bs)), got + ReceivedBy(Receive(id, bs)))
  {
    hide Steady, AllSomewhere;
    var s' := Next(w, s, Receive(id, bs));
    TakesUp(w, s.db, bs, got);
    assert id in s'.workers.Keys;
    forall x | x in s'.workers
      ensures s'.db == s.db && s'.workers[x] == Worker(Idle, Freshes(bs))
    {
      assert x == id;
    }
  }

  lemma OthersKeepAll(w: World, s: Sys, s': Sys, got: set<ProposerBlock>)
    requires Answered(w, s, got) && Grows(s.db, s'.db) && s'.db.orphans == s.db.orphans && s'.workers == s.workers
    ensures Answered(w, s', got)
  {
    hide Grows, Steady, AllSomewhere;
    forall id | id in s'.workers
      ensures Steady(w, s'.db, s'.workers[id].pc) && AllSomewhere(w, s'.db, s'.workers[id], got)
    {
      OthersKeep(w, s.db, s'.db, s.workers[id], got);
    }
  }

  /** A message reaches an idle worker. */
  lemma TakesUp(w: World, db: Db, bs: seq<ProposerBlock>, got: set<ProposerBlock>)
    requires AllSomewhere(w, db, Worker(Idle, []), got)
    ensures forall id :: AllSomewhere(w, db, Worker(Idle, Freshes(bs)), got + ReceivedBy(Receive(id, bs)))
    ensures Steady(w, db, Idle)
  {
    hide Delivery.Accounted;
    forall b | b in got || b in bs
      ensures Somewhere(w, db, Worker(Idle, Freshes(bs)), b)
    {
      if b in got {
        assert Somewhere(w, db, Worker(Idle, []), b);
      } else {
        var i :| 0 <= i < |bs| && bs[i] == b;
        assert Freshes(bs)[i] == Fresh(b);
      }
    }
  }

  lemma {:induction false} AnsweredAfter(w: World, s: Sys, acts: seq<Action>)
    requires w.Good() && Initial(w, s) && AtMostOneWorker(s) && Run(w, s, acts)
    ensures Answered(w, After(w, s, acts), ReceivedIn(acts)) && AtMostOneWorker(After(w, s, acts))
  {
    hide Answered, SysInv, Next, Enabled, AtMostOneWorker, ReceivedBy;
    if acts == [] {
      InitialAnswered(w, s);
    } else {
      var init, a := acts[..|acts| - 1], acts[|acts| - 1];
      AnsweredAfter(w, s, init);
      InterleavedInv(w, s, init);
      AnsweredNext(w, After(w, s, init), a, ReceivedIn(init));
      StillOne(w, After(w, s, init), a);
    }
  }

  lemma InitialAnswered(w: World, s: Sys)
    requires Initial(w, s)
    ensures Answered(w, s, {})
  {
  }

  lemma {:induction false} ReceivedOccur(w: World, s: Sys, acts: seq<Action>)
    requires Run(w, s, acts)
    ensures forall b :: b in ReceivedIn(acts) ==> w.Occurs(b)
  {
    hide After;
    if acts != [] {
      ReceivedOccur(w, s, acts[..|acts| - 1]);
    }
  }

  /** A mined block is in the chain from the moment it is inserted. */
  lemma {:induction false} MinedAreHeld(w: World, s: Sys, acts: seq<Action>)
    requires w.Good() && Initial(w, s) && Run(w, s, acts)
    ensures Delivery.MinedHeld(w, After(w, s, acts).db.chain, Got(w, s, acts))
  {
    hide SysInv, Enabled, Next, MinedBy;
    if acts != [] {
      var init, a := acts[..|acts| - 1], acts[|acts| - 1];
      MinedAreHeld(w, s, init);
      InterleavedInv(w, s, init);
      NextInv(w, After(w, s, init), a);
      InsertedIsHeld(w, After(w, s, init), a);
      KeepsBlocks(After(w, s, init).db, Next(w, After(w, s, init), a).db);
    }
  }

  lemma KeepsBlocks(db: Db, db': Db)
    requires Grows(db, db')
    ensures db.chain.blocks.Keys <= db'.chain.blocks.Keys
  {
  }

  lemma InsertedIsHeld(w: World, s: Sys, a: Action)
    requires w.Good() && SysInv(w, s) && Enabled(w, s, a)
    ensures forall b :: b in MinedBy(s, a) ==> w.Occurs(b) && w.Hash(b) in Next(w, s, a).db.chain.blocks
  {
    hide SharedInv, WorkerOk, WorkerStep, Inserted;
    if a.Mine? && s.miner.PutChain? {
      PublishBlock(w, s.db, s.miner.b);
    }
  }

  // ---------------------------------------------------------------------------
  // The theorem

  ghost predicate AllIdle(s: Sys) {
    forall id :: id in s.workers ==> s.workers[id] == Worker(Idle, [])
  }

  /** Whenever the only worker of a node is idle, at whatever section the miner and the other
      threads may be, the invariant of the atomic model holds, seen through the chain. */
  lemma IdleInv(w: World, s: Sys, acts: seq<Action>)
    requires w.Good() && Initial(w, s) && AtMostOneWorker(s) && Runs(w, s, acts, true) && AllIdle(After(w, s, acts))
    ensures Delivery.RunInv(w, Visible(After(w, s, acts).db), Got(w, s, acts), {}, {})
  {
    hide SharedInv, Run, CausalRun, After, Visible, NodeInv, ReceivedIn, MinedIn;
    hide OriginInv, Answered, Tidy, Initial, AtMostOneWorker, AllIdle;
    var s' := After(w, s, acts);
    InterleavedInv(w, s, acts);
    VisibleInv(w, s'.db);
    AnsweredAfter(w, s, acts);
    OneWorkerIsTidy(w, s, acts);
    OriginAfter(w, s, acts);
    ReceivedOccur(w, s, acts);
    MinedAreHeld(w, s, acts);
    SettledWhenIdle(w, s', ReceivedIn(acts));
    IdleBuffer(w, s', ReceivedIn(acts), MinedIn(w, s, acts));
    Conclude(w, s', ReceivedIn(acts), MinedIn(w, s, acts));
  }

  lemma Conclude(w: World, s: Sys, got: set<ProposerBlock>, mined: set<ProposerBlock>)
    requires NodeInv(w, Visible(s.db)) && OriginInv(w, s, got, mined)
    requires forall b :: b in got ==> w.Occurs(b) && Delivery.Accounted(w, s.db, {}, b)
    requires Delivery.OpenOnly(s.db, {})
    requires Delivery.WaitingReceived(w, s.db.orphans, Delivery.Sources(got, mined))
    requires Delivery.MinedHeld(w, s.db.chain, Delivery.Sources(got, mined))
    ensures Delivery.RunInv(w, Visible(s.db), Delivery.Sources(got, mined), {}, {})
  {
    hide NodeInv, Visible, Delivery.Accounted, Tested, Genuine, Delivery.Genuine, Delivery.MinedHeld, PowOk;
    var db, seen := Visible(s.db), Delivery.Sources(got, mined);
    VisibleSame(s.db);
    forall b | b in got
      ensures w.Occurs(b) && Delivery.Accounted(w, db, {}, b)
    {
      SameAccount(w, s.db, db, b);
    }
    forall h | h in db.chain.blocks && h != w.Genesis()
      ensures Delivery.Genuine(w, seen, db.chain.blocks[h])
    {
      assert Genuine(w, got, mined, s.db.chain.blocks[h]) by {
        assert ChainFrom(w, got, mined, s.db.chain);
      }
      GenuineIs(w, got, mined, s.db.chain.blocks[h]);
    }
  }

  lemma VisibleSame(db: Db)
    ensures Visible(db).chain == db.chain && Visible(db).orphans == db.orphans
  {
  }

  lemma GenuineIs(w: World, got: set<ProposerBlock>, mined: set<ProposerBlock>, b: ProposerBlock)
    requires Genuine(w, got, mined, b)
    ensures Delivery.Genuine(w, Delivery.Sources(got, mined), b)
  {
  }

  lemma SameAccount(w: World, db: Db, db': Db, b: ProposerBlock)
    requires Delivery.Accounted(w, db, {}, b) && db'.chain == db.chain && db'.orphans == db.orphans
    ensures Delivery.Accounted(w, db', {}, b)
  {
  }

  lemma SettledWhenIdle(w: World, s: Sys, got: set<ProposerBlock>)
    requires AllIdle(s) && Answered(w, s, got)
    ensures forall b :: b in got ==> Delivery.Accounted(w, s.db, {}, b)
  {
    hide Delivery.Accounted;
    forall b | b in got
      ensures Delivery.Accounted(w, s.db, {}, b)
    {
      var id :| id in s.workers.Keys;
      assert Somewhere(w, s.db, s.workers[id], b);
    }
  }

  lemma IdleBuffer(w: World, s: Sys, got: set<ProposerBlock>, mined: set<ProposerBlock>)
    requires SharedInv(w, s.db) && AllIdle(s) && Tidy(w, s) && OriginInv(w, s, got, mined)
    ensures Delivery.OpenOnly(s.db, {})
    ensures Delivery.WaitingReceived(w, s.db.orphans, Delivery.Sources(got, mined))
  {
    hide SharedInv, PowOk, ChainFrom, MinerFrom, WorkerFrom;
    WaitingPart(w, s.db);
    forall k, b | k in s.db.orphans && b in s.db.orphans[k]
      ensures Delivery.Received(w, Delivery.Sources(got, mined), b) && w.Hash(b) != w.Genesis()
    {
      assert Tested(w, got, b) && Deliverable(w, s.db, b);
    }
  }

  /** So it holds exactly the good paths over the blocks it got, with their ledgers and
      reference lists, and exactly the orphans among them wait. */
  lemma OneWorkerHoldsExactly(w: World, s: Sys, acts: seq<Action>)
    requires w.Good() && Initial(w, s) && AtMostOneWorker(s) && Runs(w, s, acts, true) && AllIdle(After(w, s, acts))
    ensures Delivery.HoldsExactly(w, Visible(After(w, s, acts).db), Got(w, s, acts))
    ensures Delivery.OrphansWait(w, After(w, s, acts).db, Got(w, s, acts))
  {
    hide Delivery.RunInv, Delivery.HoldsExactly, Run, CausalRun, After, Visible, Initial, AtMostOneWorker, AllIdle;
    IdleInv(w, s, acts);
    var db := After(w, s, acts).db;
    Delivery.InvHolds(w, Visible(db), Got(w, s, acts));
    Delivery.Buffered(w, Visible(db), Got(w, s, acts));
    VisibleSame(db);
    SameOrphans(w, Visible(db), db, Got(w, s, acts));
  }

  lemma SameOrphans(w: World, db: Db, db': Db, seen: Delivery.Sources)
    requires Delivery.OrphansWait(w, db, seen) && db'.chain == db.chain && db'.orphans == db.orphans
    ensures Delivery.OrphansWait(w, db', seen)
  {
    hide PowOk;
    forall b
      ensures Delivery.Waiting(db', b) <==> Delivery.Orphan(w, db', seen, b)
    {
      assert Delivery.Waiting(db, b) <==> Delivery.Orphan(w, db, seen, b);
    }
  }

  // ---------------------------------------------------------------------------
  // Any number of workers, parents first

  /** Blocks are only delivered once their parents are in the chain. */
  ghost predicate ParentsFirst(w: World, s: Sys, acts: seq<Action>) {
    acts != [] ==>
      var init, a := acts[..|acts| - 1], acts[|acts| - 1];
      ParentsFirst(w, s, init) && (a.Receive? ==> forall b | b in a.bs :: HasParent(After(w, s, init).db, b))
  }

  predicate HasParent(db: Db, b: ProposerBlock) {
    b.header.proposerParent in db.chain.blocks
  }

  /** The worker has nothing to do with the buffer: what it is about to test has its parent. */
  ghost predicate Unbuffered(db: Db, k: Worker) {
    && !Buffering(k.pc) && !k.pc.OrphanTest? && !k.pc.OrphanFetch? && !k.pc.BucketGone?
    && (k.pc.SeenTest? || k.pc.ParentTest? ==> HasParent(db, k.pc.b))
    && forall item :: item in k.todo ==> item.Fresh? && HasParent(db, item.b)
  }

  lemma UnbufferedStep(w: World, db: Db, k: Worker)
    requires Unbuffered(db, k) && db.orphans == map[] && Grows(db, WorkerStep(w, db, k).0)
    ensures WorkerStep(w, db, k).0.orphans == map[] && Unbuffered(WorkerStep(w, db, k).0, WorkerStep(w, db, k).1)
  {
    hide Grows, WorkerStep, HasParent;
    BufferUntouched(w, db, k);
    StaysUnbuffered(w, db, k);
    UnbufferedStays(db, WorkerStep(w, db, k).0, WorkerStep(w, db, k).1);
  }

  lemma StaysUnbuffered(w: World, db: Db, k: Worker)
    requires Unbuffered(db, k) && db.orphans == map[]
    ensures Unbuffered(db, WorkerStep(w, db, k).1)
  {
    hide Ledgers.ApplyTxs, ExtendRefs, Inserted, Ledgers.Prune, TxBlockSigned, PowOk;
    if k.pc.Idle? && k.todo != [] {
      assert k.todo[0] in k.todo;
    }
  }

  lemma UnbufferedStays(db: Db, db': Db, k: Worker)
    requires Unbuffered(db, k) && Grows(db, db')
    ensures Unbuffered(db', k)
  {
    hide KeepsEntries;
  }

  /** The buffer is empty, no worker has anything to do with it, and some worker answers for
      every received block. */
  ghost predicate Smooth(w: World, s: Sys, got: set<ProposerBlock>) {
    && s.db.orphans == map[]
    && (forall id :: id in s.workers ==> Unbuffered(s.db, s.workers[id]))
    && forall b :: b in got ==> AnsweredBySome(w, s, b)
  }

  ghost predicate AnsweredBySome(w: World, s: Sys, b: ProposerBlock) {
    exists id :: id in s.workers && Somewhere(w, s.db, s.workers[id], b)
  }

  lemma SomewhereStays(w: World, db: Db, db': Db, k: Worker, b: ProposerBlock)
    requires Somewhere(w, db, k, b) && Grows(db, db') && db'.orphans == db.orphans
    ensures Somewhere(w, db', k, b)
  {
    hide Grows, Delivery.Accounted;
    if Delivery.Accounted(w, db, {}, b) {
      AccountedStays(w, db, db', b);
    }
  }

  /** Every worker keeps answering for its blocks, and none disturbs another. */
  lemma WorkAnswers(w: World, s: Sys, id: nat, b: ProposerBlock)
    requires w.Good() && SysInv(w, s) && id in s.workers && !Buffering(s.workers[id].pc)
    requires AnsweredBySome(w, s, b)
    ensures AnsweredBySome(w, Next(w, s, Work(id)), b)
  {
    hide SharedInv, WorkerOk, WorkerStep, Somewhere, Grows;
    var x :| x in s.workers && Somewhere(w, s.db, s.workers[x], b);
    var s' := Next(w, s, Work(id));
    WorkStep(w, s.db, s.workers[id]);
    SharedFacts(w, s.db);
    BufferUntouched(w, s.db, s.workers[id]);
    if x == id {
      OtherKeeps(w, s.db, s.workers[id], b);
    } else {
      SomewhereStays(w, s.db, s'.db, s.workers[x], b);
    }
    assert x in s'.workers && Somewhere(w, s'.db, s'.workers[x], b);
  }

  lemma OthersAnswer(w: World, s: Sys, s': Sys, b: ProposerBlock)
    requires AnsweredBySome(w, s, b) && Grows(s.db, s'.db) && s'.db.orphans == s.db.orphans && s'.workers == s.workers
    ensures AnsweredBySome(w, s', b)
  {
    hide Grows, Somewhere;
    var x :| x in s.workers && Somewhere(w, s.db, s.workers[x], b);
    SomewhereStays(w, s.db, s'.db, s.workers[x], b);
  }

  /** The worker that receives a message was idle: what it answered for is settled. */
  lemma ReceiveAnswers(w: World, s: Sys, id: nat, bs: seq<ProposerBlock>, b: ProposerBlock)
    requires id in s.workers && s.workers[id] == Worker(Idle, []) && (b in bs || AnsweredBySome(w, s, b))
    ensures AnsweredBySome(w, Next(w, s, Receive(id, bs)), b)
  {
    hide Delivery.Accounted;
    var s' := Next(w, s, Receive(id, bs));
    if b in bs {
      var i :| 0 <= i < |bs| && bs[i] == b;
      assert Freshes(bs)[i] == Fresh(b);
      assert id in s'.workers && Somewhere(w, s'.db, s'.workers[id], b);
    } else {
      var x :| x in s.workers && Somewhere(w, s.db, s.workers[x], b);
      assert x in s'.workers && Somewhere(w, s'.db, s'.workers[x], b);
    }
  }

  lemma SmoothNext(w: World, s: Sys, a: Action, got: set<ProposerBlock>)
    requires w.Good() && SysInv(w, s) && Enabled(w, s, a) && Smooth(w, s, got)
    requires a.Receive? ==> forall b | b in a.bs :: HasParent(s.db, b)
    ensures Smooth(w, Next(w, s, a), got + ReceivedBy(a))
  {
    hide SharedInv, WorkerOk, MinerOk, WorkerStep, MinerStep, Grows;
    hide AnsweredBySome, HasParent, Buffering, Unbuffered, Enabled;
    NextInv(w, s, a);
    var s' := Next(w, s, a);
    BuffersStayEmpty(w, s, a);
    forall b | b in got + ReceivedBy(a)
      ensures AnsweredBySome(w, s', b)
    {
      SmoothAnswers(w, s, a, got, b);
    }
  }

  lemma SmoothAnswers(w: World, s: Sys, a: Action, got: set<ProposerBlock>, b: ProposerBlock)
    requires w.Good() && SysInv(w, s) && Enabled(w, s, a) && Smooth(w, s, got) && b in got + ReceivedBy(a)
    requires Grows(s.db, Next(w, s, a).db) && Next(w, s, a).db.orphans == map[]
    ensures AnsweredBySome(w, Next(w, s, a), b)
  {
    hide SharedInv, WorkerOk, MinerOk, WorkerStep, MinerStep, Grows, AnsweredBySome;
    match a {
      case Work(id) => WorkAnswers(w, s, id, b);
      case Receive(id, bs) => ReceiveAnswers(w, s, id, bs, b);
      case _ => OthersAnswer(w, s, Next(w, s, a), b);
    }
  }

  lemma BuffersStayEmpty(w: World, s: Sys, a: Action)
    requires Enabled(w, s, a) && s.db.orphans == map[] && Grows(s.db, Next(w, s, a).db)
    requires forall id :: id in s.workers ==> Unbuffered(s.db, s.workers[id])
    requires a.Receive? ==> forall b | b in a.bs :: HasParent(s.db, b)
    ensures Next(w, s, a).db.orphans == map[]
    ensures forall id :: id in Next(w, s, a).workers ==> Unbuffered(Next(w, s, a).db, Next(w, s, a).workers[id])
  {
    hide WorkerStep, MinerStep, Grows, HasParent, Unbuffered;
    var s' := Next(w, s, a);
    match a {
      case Work(id) => UnbufferedStep(w, s.db, s.workers[id]);
      case Receive(id, bs) => FreshUnbuffered(s.db, bs);
      case Mine(content, header) => MinerLeavesBuffer(w, s.db, s.miner, content, header);
      case _ =>
    }
    forall id | id in s'.workers
      ensures Unbuffered(s'.db, s'.workers[id])
    {
      if !((a.Work? || a.Receive?) && a.id == id) {
        UnbufferedStays(s.db, s'.db, s.workers[id]);
      }
    }
  }

  lemma FreshUnbuffered(db: Db, bs: seq<ProposerBlock>)
    requires forall b | b in bs :: HasParent(db, b)
    ensures Unbuffered(db, Worker(Idle, Freshes(bs)))
  {
  }

  lemma {:induction false} SmoothAfter(w: World, s: Sys, acts: seq<Action>)
    requires w.Good() && Initial(w, s) && Run(w, s, acts) && ParentsFirst(w, s, acts)
    ensures Smooth(w, After(w, s, acts), ReceivedIn(acts))
  {
    hide Smooth, SysInv, Next, Enabled, ReceivedBy, HasParent;
    if acts == [] {
      InitialSmooth(w, s);
    } else {
      var init, a := acts[..|acts| - 1], acts[|acts| - 1];
      SmoothAfter(w, s, init);
      InterleavedInv(w, s, init);
      SmoothNext(w, After(w, s, init), a, ReceivedIn(init));
    }
  }

  lemma InitialSmooth(w: World, s: Sys)
    requires Initial(w, s)
    ensures Smooth(w, s, {})
  {
  }

  /** However many workers a node has: if every block is delivered after its parent has been
      stored, then whenever all workers are idle the node holds exactly the good paths over the
      blocks it got, and nothing waits. */
  lemma ParentsFirstHoldsExactly(w: World, s: Sys, acts: seq<Action>)
    requires w.Good() && Initial(w, s) && Run(w, s, acts) && ParentsFirst(w, s, acts) && AllIdle(After(w, s, acts))
    ensures Delivery.HoldsExactly(w, Visible(After(w, s, acts).db), Got(w, s, acts))
    ensures After(w, s, acts).db.orphans == map[]
  {
    hide SharedInv, Run, ParentsFirst, After, Visible, NodeInv, ReceivedIn, MinedIn;
    hide OriginInv, Initial, AllIdle, Delivery.RunInv, Delivery.HoldsExactly, Delivery.Accounted, AnsweredBySome;
    var s' := After(w, s, acts);
    InterleavedInv(w, s, acts);
    VisibleInv(w, s'.db);
    SmoothAfter(w, s, acts);
    OriginAfter(w, s, acts);
    ReceivedOccur(w, s, acts);
    MinedAreHeld(w, s, acts);
    forall b | b in ReceivedIn(acts)
      ensures Delivery.Accounted(w, s'.db, {}, b)
    {
      IdleSettles(w, s', b);
    }
    Conclude(w, s', ReceivedIn(acts), MinedIn(w, s, acts));
    Delivery.InvHolds(w, Visible(s'.db), Got(w, s, acts));
  }

  lemma IdleSettles(w: World, s: Sys, b: ProposerBlock)
    requires AllIdle(s) && AnsweredBySome(w, s, b)
    ensures Delivery.Accounted(w, s.db, {}, b)
  {
    hide Delivery.Accounted;
  }

  // ---------------------------------------------------------------------------
  // Loss

  /** All workers are idle, and a valid block that was received is neither in the chain nor
      in the buffer. */
  ghost predicate Lost(w: World, s: Sys, got: set<ProposerBlock>) {
    AllIdle(s) && exists b :: b in got && Dropped(w, s.db, b)
  }

  ghost predicate Dropped(w: World, db: Db, b: ProposerBlock) {
    PowOk(w, b) && SigsOk(w, b) && w.Hash(b) !in db.chain.blocks && !Delivery.Waiting(db, b)
  }

  /** Two different valid blocks with one parent, which is not genesis. */
  ghost predicate Siblings(w: World, b: ProposerBlock, c: ProposerBlock) {
    && w.Occurs(b) && PowOk(w, b) && SigsOk(w, b) && w.Hash(b) != w.Genesis() && RefsOccur(w, b.content)
    && w.Occurs(c) && PowOk(w, c) && w.Hash(c) != w.Genesis() && RefsOccur(w, c.content)
    && b != c && b.header.proposerParent == c.header.proposerParent != w.Genesis()
  }

  /** Both workers find no bucket for the parent; each makes one, and the second replaces
      the first. */
  lemma LossRun(w: World, s: Sys, b: ProposerBlock, c: ProposerBlock, i: nat, j: nat)
    requires w.Good() && Initial(w, s) && Siblings(w, b, c) && i in s.workers && j in s.workers && i != j
    ensures exists s', got :: Reaches(w, s, s', got, true) && Lost(w, s', got)
  {
    hide NodeInv, Reaches, SigsOk, PowOk, Refinement.Leads, Refinement.Stocked, Deliverable, RefsOccur;
    StockedFacts(w, s, b, c, true);
    var s1 := StockedWith(w, s, b, c);
    var got := {} + {b} + {c};
    ReachesReceive(w, s, s1, i, b, {}, true);
    var s2 := s1.(workers := s1.workers[i := Worker(Idle, [Fresh(b)])]);
    ReachesReceive(w, s, s2, j, c, {} + {b}, true);
    var s3 := s2.(workers := s2.workers[j := Worker(Idle, [Fresh(c)])]);
    Accepted(w, s1.db, b);
    ReachesLed(w, s, s3, i, s1.db, Worker(OrphanTest(b), []), got, true);
    var s4 := s3.(db := s1.db, workers := s3.workers[i := Worker(OrphanTest(b), [])]);
    Accepted(w, s1.db, c);
    ReachesLed(w, s, s4, j, s1.db, Worker(OrphanTest(c), []), got, true);
    var s5 := s4.(db := s1.db, workers := s4.workers[j := Worker(OrphanTest(c), [])]);
    ReachesStep(w, s, s5, Work(i), got, true);
    var s6 := Next(w, s5, Work(i));
    ReachesStep(w, s, s6, Work(j), got, true);
    var s7 := Next(w, s6, Work(j));
    ReachesStep(w, s, s7, Work(i), got, true);
    var s8 := Next(w, s7, Work(i));
    ReachesStep(w, s, s8, Work(j), got, true);
    var s9 := Next(w, s8, Work(j));
    assert s9.db.orphans[b.header.proposerParent] == [c];
    assert Dropped(w, s9.db, b);
    assert AllIdle(s9);
  }

  // ---------------------------------------------------------------------------
  // Two more ways to lose a block, both at the bucket of a parent that arrives

  /** c and d are two children of b, which is a child of genesis; b and d are valid. */
  ghost predicate TwoChildren(w: World, b: ProposerBlock, c: ProposerBlock, d: ProposerBlock) {
    Family(w, b, c) && Family(w, b, d) && SigsOk(w, d) && c != d
  }

  /** The initial state with the tx blocks of b, c and d pooled. */
  function StockedForAll(w: World, s: Sys, b: ProposerBlock, c: ProposerBlock, d: ProposerBlock): Sys {
    s.(db := s.db.(txBlockPool := StockPool(w, s.db.txBlockPool, b.content + c.content + d.content)))
  }

  lemma StockedForAllFacts(w: World, s: Sys, b: ProposerBlock, c: ProposerBlock, d: ProposerBlock)
    requires w.Good() && Initial(w, s) && TwoChildren(w, b, c, d)
    ensures var s1 := StockedForAll(w, s, b, c, d);
            && Reaches(w, s, s1, {}, true) && NodeInv(w, s1.db) && Refinement.Stocked(s1.db)
            && Deliverable(w, s1.db, b) && Deliverable(w, s1.db, c) && Deliverable(w, s1.db, d)
            && s1.db == InitDb(w).(txBlockPool := s1.db.txBlockPool)
  {
    hide Reaches, NodeInv, SigsOk, PowOk;
    var refs := b.content + c.content + d.content;
    ReachesStock(w, s, refs, true);
    InitInv(w);
    StockHolds(w, map[], refs);
    StockKeepsInv(w, InitDb(w), StockPool(w, map[], refs));
  }

  /** c waits for b, and worker i has found that bucket and is about to add d to it. */
  lemma AboutToPush(w: World, s: Sys, b: ProposerBlock, c: ProposerBlock, d: ProposerBlock, i: nat)
    requires w.Good() && Initial(w, s) && TwoChildren(w, b, c, d) && i in s.workers
    ensures var s1 := StockedForAll(w, s, b, c, d);
            var db := s1.db.(orphans := map[w.Hash(b) := [c]]);
            && Reaches(w, s, s1.(db := db, workers := s.workers[i := Worker(OrphanPush(d), [])]), {} + {c} + {d}, true)
            && NodeInv(w, db) && Refinement.Stocked(db) && Deliverable(w, db, b) && Insertable(w, db.chain, b)
            && db == InitDb(w).(txBlockPool := s1.db.txBlockPool, orphans := map[w.Hash(b) := [c]])
  {
    hide NodeInv, Reaches, SigsOk, PowOk, Refinement.Leads, Refinement.Stocked, Deliverable, RefsOccur;
    StockedForAllFacts(w, s, b, c, d);
    FamilyHashes(w, b, d);
    var s1 := StockedForAll(w, s, b, c, d);
    var db := s1.db.(orphans := map[w.Hash(b) := [c]]);
    ChildWaits(w, s1.db, b, c);
    ReachesReceive(w, s, s1, i, c, {}, true);
    var s2 := s1.(workers := s1.workers[i := Worker(Idle, [Fresh(c)])]);
    ReachesLed(w, s, s2, i, db, Worker(Idle, []), {} + {c}, true);
    var s3 := s2.(db := db, workers := s2.workers[i := Worker(Idle, [])]);
    StillDeliverable(w, s1.db, db, d);
    ReachesReceive(w, s, s3, i, d, {} + {c}, true);
    var s4 := s3.(workers := s3.workers[i := Worker(Idle, [Fresh(d)])]);
    Accepted(w, db, d);
    ReachesLed(w, s, s4, i, db, Worker(OrphanTest(d), []), {} + {c} + {d}, true);
    var s5 := s4.(db := db, workers := s4.workers[i := Worker(OrphanTest(d), [])]);
    ReachesStep(w, s, s5, Work(i), {} + {c} + {d}, true);
    assert Next(w, s5, Work(i)) == s1.(db := db, workers := s.workers[i := Worker(OrphanPush(d), [])]);
  }

  lemma StillDeliverable(w: World, db: Db, db': Db, b: ProposerBlock)
    requires Deliverable(w, db, b) && db'.txBlockPool == db.txBlockPool
    ensures Deliverable(w, db', b)
  {
  }

  /** Handling b, when only c waits for it, empties the buffer and stores no other block. */
  lemma BringsIn(w: World, db: Db, b: ProposerBlock, c: ProposerBlock, h: H256)
    requires w.Good() && Family(w, b, c) && NodeInv(w, db) && db.orphans == map[w.Hash(b) := [c]]
    requires Insertable(w, db.chain, b) && w.Hash(b) !in db.chain.blocks
    requires h !in db.chain.blocks && h != w.Hash(b) && h != w.Hash(c)
    ensures Deliver(w, db, b).orphans == map[] && h !in Deliver(w, db, b).chain.blocks
  {
    hide NodeInv, Process, SigsOk, PowOk, RefsOccur;
    ProcessStep(w, db, b);
    Delivery.ProcessOrphans(w, db, b);
    var db1 := Process(w, db, b);
    var db2 := db1.(orphans := map[]);
    assert db1.orphans - {w.Hash(b)} == map[];
    BucketInsertable(w, db1, w.Hash(b));
    FamilyHashes(w, b, c);
    AdoptsOnly(w, db2, c, h);
    assert [c][1..] == [];
    assert Adopt(w, db2, [c]) == AdoptOne(w, db2, [c]);
  }

  lemma AdoptsOnly(w: World, db: Db, c: ProposerBlock, h: H256)
    requires w.Good() && NodeInv(w, db) && db.orphans == map[] && Insertable(w, db.chain, c)
    requires h !in db.chain.blocks && h != w.Hash(c)
    ensures AdoptOne(w, db, [c]).orphans == map[] && h !in AdoptOne(w, db, [c]).chain.blocks
  {
    hide NodeInv, Process, SigsOk;
    ProcessStep(w, db, c);
    Delivery.ProcessOrphans(w, db, c);
  }

  /** The bucket goes between the test and the push: the other worker has received b, stored
      it and taken its bucket out. The block to be pushed is dropped, although its parent is
      in the chain. */
  lemma PushRun(w: World, s: Sys, b: ProposerBlock, c: ProposerBlock, d: ProposerBlock, i: nat, j: nat)
    requires w.Good() && Initial(w, s) && TwoChildren(w, b, c, d) && i in s.workers && j in s.workers && i != j
    ensures exists s', got :: Reaches(w, s, s', got, true) && Lost(w, s', got) && w.Hash(b) in s'.db.chain.blocks
  {
    hide NodeInv, Reaches, SigsOk, PowOk, Refinement.Leads, Refinement.Stocked, Deliverable, RefsOccur;
    hide Process, Deliver;
    AboutToPush(w, s, b, c, d, i);
    ThreeHashes(w, b, c, d);
    var s1 := StockedForAll(w, s, b, c, d);
    var db := s1.db.(orphans := map[w.Hash(b) := [c]]);
    var got := {} + {c} + {d};
    var s2 := s1.(db := db, workers := s.workers[i := Worker(OrphanPush(d), [])]);
    ReachesReceive(w, s, s2, j, b, got, true);
    var s3 := s2.(workers := s2.workers[j := Worker(Idle, [Fresh(b)])]);
    PooledForBoth(w, db, b);
    DeliverableOccurs(w, db, b);
    assert [Fresh(b)] + [] == [Fresh(b)];
    Refinement.SoloIsDeliver(w, db, b, []);
    var db' := Deliver(w, db, b);
    ReachesLed(w, s, s3, j, db', Worker(Idle, []), got + {b}, true);
    var s4 := s3.(db := db', workers := s3.workers[j := Worker(Idle, [])]);
    FamilyPow(w, b, c);
    BringsIn(w, db, b, c, w.Hash(d));
    DeliverStores(w, db, b);
    ReachesStep(w, s, s4, Work(i), got + {b}, true);
    var s5 := Next(w, s4, Work(i));
    assert Dropped(w, s5.db, d);
    assert AllIdle(s5);
    assert d in got + {b};
  }

  /** Worker j fetches the bucket, worker i adds to it, worker j removes it. */
  lemma FetchPushDrop(w: World, s: Sys, s': Sys, b: ProposerBlock, c: ProposerBlock, d: ProposerBlock,
                      i: nat, j: nat, got: set<ProposerBlock>)
    requires Reaches(w, s, s', got, true) && i in s'.workers && j in s'.workers && i != j
    requires s'.workers[i] == Worker(OrphanPush(d), []) && s'.workers[j] == Worker(OrphanFetch(b), [])
    requires s'.db.orphans == map[w.Hash(b) := [c]] && d.header.proposerParent == w.Hash(b)
    ensures Reaches(w, s, s'.(db := s'.db.(orphans := map[]),
                              workers := s'.workers[i := Worker(Idle, [])][j := Worker(Idle, Orphans([c]))]), got, true)
  {
    hide Reaches, WorkerStep;
    var h := w.Hash(b);
    FetchIs(w, s'.db, b);
    ReachesStep(w, s, s', Work(j), got, true);
    var s1 := s'.(workers := s'.workers[j := Worker(OrphanDrop(b, [c]), [])]);
    assert Next(w, s', Work(j)) == s1;
    PushIs(w, s1.db, d);
    ReachesStep(w, s, s1, Work(i), got, true);
    var s2 := s1.(db := s'.db.(orphans := s'.db.orphans[h := [c] + [d]]), workers := s1.workers[i := Worker(Idle, [])]);
    assert Next(w, s1, Work(i)) == s2;
    DropIs(w, s2.db, b, [c]);
    ReachesStep(w, s, s2, Work(j), got, true);
    assert s2.db.orphans - {h} == map[];
    assert Next(w, s2, Work(j)) == s'.(db := s'.db.(orphans := map[]),
                                       workers := s'.workers[i := Worker(Idle, [])][j := Worker(Idle, Orphans([c]))]);
  }

  lemma FetchIs(w: World, db: Db, b: ProposerBlock)
    requires w.Hash(b) in db.orphans
    ensures WorkerStep(w, db, Worker(OrphanFetch(b), [])) == (db, Worker(OrphanDrop(b, db.orphans[w.Hash(b)]), []))
  {
  }

  lemma PushIs(w: World, db: Db, b: ProposerBlock)
    requires b.header.proposerParent in db.orphans
    ensures var p := b.header.proposerParent;
            WorkerStep(w, db, Worker(OrphanPush(b), []))
            == (db.(orphans := db.orphans[p := db.orphans[p] + [b]]), Worker(Idle, []))
  {
  }

  lemma DropIs(w: World, db: Db, b: ProposerBlock, kids: seq<ProposerBlock>)
    ensures WorkerStep(w, db, Worker(OrphanDrop(b, kids), []))
            == (db.(orphans := db.orphans - {w.Hash(b)}), Worker(Idle, Orphans(kids)))
  {
    assert Orphans(kids) + [] == Orphans(kids);
  }

  /** The bucket grows between the fetch and the removal: what was pushed in between is thrown
      away with it. */
  lemma DropRun(w: World, s: Sys, b: ProposerBlock, c: ProposerBlock, d: ProposerBlock, i: nat, j: nat)
    requires w.Good() && Initial(w, s) && TwoChildren(w, b, c, d) && i in s.workers && j in s.workers && i != j
    ensures exists s', got :: Reaches(w, s, s', got, true) && Lost(w, s', got) && w.Hash(b) in s'.db.chain.blocks
  {
    hide NodeInv, Reaches, SigsOk, PowOk, Refinement.Leads, Refinement.Stocked, Deliverable, RefsOccur, Process;
    AboutToPush(w, s, b, c, d, i);
    ThreeHashes(w, b, c, d);
    var s1 := StockedForAll(w, s, b, c, d);
    var db := s1.db.(orphans := map[w.Hash(b) := [c]]);
    var got := {} + {c} + {d};
    var s2 := s1.(db := db, workers := s.workers[i := Worker(OrphanPush(d), [])]);
    ReachesReceive(w, s, s2, j, b, got, true);
    var s3 := s2.(workers := s2.workers[j := Worker(Idle, [Fresh(b)])]);
    Accepted(w, db, b);
    ReachesLed(w, s, s3, j, db, Worker(CheckSigs(b, 0), []), got + {b}, true);
    var s4 := s3.(db := db, workers := s3.workers[j := Worker(CheckSigs(b, 0), [])]);
    PooledForBoth(w, db, b);
    StoreToFetch(w, db, b);
    var db1 := Process(w, db, b);
    ReachesLed(w, s, s4, j, db1, Worker(OrphanFetch(b), []), got + {b}, true);
    var s5 := s4.(db := db1, workers := s4.workers[j := Worker(OrphanFetch(b), [])]);
    FetchPushDrop(w, s, s5, b, c, d, i, j, got + {b});
    var s8 := s5.(db := db1.(orphans := map[]),
                  workers := s5.workers[i := Worker(Idle, [])][j := Worker(Idle, Orphans([c]))]);
    AdoptsTheRest(w, db, b, c, d, s8);
    var db2 := Adopt(w, s8.db, [c]);
    ReachesLed(w, s, s8, j, db2, Worker(Idle, []), got + {b}, true);
    var s9 := s8.(db := db2, workers := s8.workers[j := Worker(Idle, [])]);
    assert Dropped(w, s9.db, d);
    assert AllIdle(s9);
    assert d in got + {b};
  }

  /** After the removal only c is left to be adopted. */
  lemma AdoptsTheRest(w: World, db: Db, b: ProposerBlock, c: ProposerBlock, d: ProposerBlock, s: Sys)
    requires w.Good() && TwoChildren(w, b, c, d) && NodeInv(w, db) && Insertable(w, db.chain, b)
    requires w.Hash(d) !in db.chain.blocks && w.Hash(d) != w.Hash(b) && w.Hash(d) != w.Hash(c)
    requires Refinement.Stocked(db) && db.orphans == map[w.Hash(b) := [c]]
    requires s.db == Process(w, db, b).(orphans := map[])
    ensures Refinement.Leads(w, s.db, Worker(Idle, Orphans([c])), Adopt(w, s.db, [c]), Worker(Idle, []))
    ensures Adopt(w, s.db, [c]).orphans == map[]
    ensures w.Hash(d) !in Adopt(w, s.db, [c]).chain.blocks && w.Hash(b) in Adopt(w, s.db, [c]).chain.blocks
  {
    hide NodeInv, Process, SigsOk, PowOk, RefsOccur, Refinement.Leads;
    ProcessStep(w, db, b);
    Refinement.StoreLeaves(w, db, b);
    var db1 := Process(w, db, b);
    assert db1.orphans - {w.Hash(b)} == map[];
    BucketInsertable(w, db1, w.Hash(b));
    assert c in [c] && c in db.orphans[w.Hash(b)];
    Refinement.AdoptSections(w, s.db, [c], []);
    assert Orphans([c]) + [] == Orphans([c]);
    AdoptsOnly(w, s.db, c, w.Hash(d));
    AdoptExtends(w, s.db, [c]);
    assert [c][1..] == [];
    assert Adopt(w, s.db, [c]) == AdoptOne(w, s.db, [c]);
  }

  lemma ThreeHashes(w: World, b: ProposerBlock, c: ProposerBlock, d: ProposerBlock)
    requires w.Good() && TwoChildren(w, b, c, d)
    ensures w.Hash(b) != w.Genesis() && w.Hash(d) != w.Genesis() && w.Hash(d) != w.Hash(b) && w.Hash(d) != w.Hash(c)
  {
    hide SigsOk, PowOk, RefsOccur;
    FamilyHashes(w, b, c);
    FamilyHashes(w, b, d);
  }

  lemma DeliverableOccurs(w: World, db: Db, b: ProposerBlock)
    requires Deliverable(w, db, b)
    ensures w.Occurs(b)
  {
  }

  lemma FamilyPow(w: World, b: ProposerBlock, c: ProposerBlock)
    requires Family(w, b, c)
    ensures PowOk(w, b) && SigsOk(w, b) && w.Hash(b) <= b.header.proposerDifficulty
  {
    hide SigsOk;
  }

  /** By causal actions a valid block can be lost exactly when there are two workers. */
  lemma LostIffTwoWorkers(w: World, s: Sys, b: ProposerBlock, c: ProposerBlock)
    requires w.Good() && Initial(w, s) && Siblings(w, b, c)
    ensures (exists s', got :: Reaches(w, s, s', got, true) && Lost(w, s', got)) <==> !AtMostOneWorker(s)
  {
    hide Initial, Siblings, Lost, Runs, After, Answered, ReceivedIn;
    if AtMostOneWorker(s) {
      forall acts | Runs(w, s, acts, true)
        ensures !Lost(w, After(w, s, acts), ReceivedIn(acts))
      {
        NothingLost(w, s, acts);
      }
    } else {
      var i, j :| i in s.workers && j in s.workers && i != j;
      LossRun(w, s, b, c, i, j);
    }
  }

  lemma NothingLost(w: World, s: Sys, acts: seq<Action>)
    requires w.Good() && Initial(w, s) && AtMostOneWorker(s) && Runs(w, s, acts, true)
    ensures !Lost(w, After(w, s, acts), ReceivedIn(acts))
  {
    hide Initial, AtMostOneWorker, Answered, After, Run, ReceivedIn, PowOk, SigsOk;
    AnsweredAfter(w, s, acts);
    if AllIdle(After(w, s, acts)) {
      SettledWhenIdle(w, After(w, s, acts), ReceivedIn(acts));
      var db := After(w, s, acts).db;
      forall x | x in ReceivedIn(acts)
        ensures !Dropped(w, db, x)
      {
        assert Delivery.Accounted(w, db, {}, x);
      }
    }
  }
}
