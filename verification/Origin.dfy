/** Where the blocks of the chain come from when the threads of a node are interleaved:
    nothing enters it that was not mined here or received and checked. */
module Origin {
  import opened Types
  import opened Blockchains
  import opened Nodes
  import opened Workers
  import opened Interleaving

  /** The blocks got in a run. */
  function Got(w: World, s: Sys, acts: seq<Action>): Delivery.Sources {
    Delivery.Sources(ReceivedIn(acts), MinedIn(w, s, acts))
  }

  ghost predicate Genuine(w: World, seen: set<ProposerBlock>, mined: set<ProposerBlock>, b: ProposerBlock) {
    Delivery.Genuine(w, Delivery.Sources(seen, mined), b)
  }

  // ---------------------------------------------------------------------------
  // The invariant

  ghost predicate Tested(w: World, seen: set<ProposerBlock>, b: ProposerBlock) {
    b in seen && PowOk(w, b) && w.Hash(b) != w.Genesis()
  }

  ghost predicate SignedTo(w: World, b: ProposerBlock, i: nat) {
    forall j | 0 <= j < i && j < |b.content| :: RefSigned(w, b.content[j])
  }

  ghost predicate PcFrom(w: World, seen: set<ProposerBlock>, pc: WorkerPc) {
    match pc
    case SeenTest(b) => b in seen
    case ParentTest(b) => Tested(w, seen, b)
    case OrphanTest(b) => Tested(w, seen, b)
    case OrphanPush(b) => Tested(w, seen, b)
    case OrphanInsert(b) => Tested(w, seen, b)
    case CheckSigs(b, i) => Tested(w, seen, b) && SignedTo(w, b, i)
    case ReadRef(b) => Tested(w, seen, b) && SigsOk(w, b)
    case WriteRef(b, _) => Tested(w, seen, b) && SigsOk(w, b)
    case ReadState(b) => Tested(w, seen, b) && SigsOk(w, b)
    case Fold(b, _, _) => Tested(w, seen, b) && SigsOk(w, b)
    case PruneTxs(b, _) => Tested(w, seen, b) && SigsOk(w, b)
    case WriteState(b, _) => Tested(w, seen, b) && SigsOk(w, b)
    case InsertChain(b) => Tested(w, seen, b) && SigsOk(w, b)
    case OrphanDrop(_, kids) => forall c :: c in kids ==> Tested(w, seen, c)
    case _ => true
  }

  ghost predicate ItemFrom(w: World, seen: set<ProposerBlock>, item: Item) {
    match item
    case Fresh(b) => b in seen
    case Orphaned(b) => Tested(w, seen, b)
  }

  ghost predicate WorkerFrom(w: World, seen: set<ProposerBlock>, k: Worker) {
    PcFrom(w, seen, k.pc) && forall item :: item in k.todo ==> ItemFrom(w, seen, item)
  }

  ghost predicate BufferFrom(w: World, seen: set<ProposerBlock>, orphans: map<H256, seq<ProposerBlock>>) {
    forall k, b :: k in orphans && b in orphans[k] ==> Tested(w, seen, b)
  }

  ghost predicate MinerFrom(w: World, m: MinerPc) {
    m.PutRef? || m.FoldMined? || m.PruneMined? || m.PutState? || m.PutChain? ==> PowOk(w, m.b)
  }

  ghost predicate ChainFrom(w: World, seen: set<ProposerBlock>, mined: set<ProposerBlock>, c: Chain) {
    forall h :: h in c.blocks && h != w.Genesis() ==> Genuine(w, seen, mined, c.blocks[h])
  }

  ghost predicate OriginInv(w: World, s: Sys, seen: set<ProposerBlock>, mined: set<ProposerBlock>) {
    && ChainFrom(w, seen, mined, s.db.chain)
    && BufferFrom(w, seen, s.db.orphans)
    && MinerFrom(w, s.miner)
    && forall id :: id in s.workers ==> WorkerFrom(w, seen, s.workers[id])
  }

  // ---------------------------------------------------------------------------
  // Every section keeps it

  lemma AllSignedTo(w: World, b: ProposerBlock, i: nat)
    requires SignedTo(w, b, i) && i >= |b.content|
    ensures SigsOk(w, b)
  {
    forall r | r in b.content
      ensures RefSigned(w, r)
    {
      var j :| 0 <= j < |b.content| && b.content[j] == r;
    }
  }

  /** Inserting a genuine block. */
  lemma InsertGenuine(w: World, seen: set<ProposerBlock>, mined: set<ProposerBlock>, c: Chain, b: ProposerBlock)
    requires ChainFrom(w, seen, mined, c) && Genuine(w, seen, mined, b)
    ensures ChainFrom(w, seen, mined, Inserted(w, c, b))
  {
    hide Genuine;
  }

  /** The sections that neither buffer nor insert. */
  lemma PlainFrom(w: World, seen: set<ProposerBlock>, db: Db, k: Worker)
    requires WorkerFrom(w, seen, k) && Pooled(w, db.txBlockPool) && !Buffering(k.pc) && !k.pc.InsertChain?
    requires BufferFrom(w, seen, db.orphans) && w.Genesis() in db.chain.blocks
    ensures WorkerFrom(w, seen, WorkerStep(w, db, k).1)
  {
    hide Ledgers.ApplyTxs, ExtendRefs, Ledgers.Prune, SigsOk, SignedOk, BufferFrom, Tested, Pooled;
    match k.pc {
      case Idle =>
        if k.todo != [] {
          assert ItemFrom(w, seen, k.todo[0]);
        }
      case SeenTest(b) =>
        SeenTested(w, seen, db, b);
      case CheckSigs(b, i) =>
        if i >= |b.content| {
          AllSignedTo(w, b, i);
        } else if b.content[i] in db.txBlockPool {
          OneMoreSigned(w, db, b, i);
        }
      case OrphanFetch(b) =>
        FetchedFrom(w, seen, db, b);
      case _ =>
    }
  }

  lemma SeenTested(w: World, seen: set<ProposerBlock>, db: Db, b: ProposerBlock)
    requires b in seen && w.Genesis() in db.chain.blocks
    ensures w.Hash(b) !in db.chain.blocks && PowOk(w, b) ==> Tested(w, seen, b)
  {
  }

  lemma OneMoreSigned(w: World, db: Db, b: ProposerBlock, i: nat)
    requires SignedTo(w, b, i) && Pooled(w, db.txBlockPool) && i < |b.content| && b.content[i] in db.txBlockPool
    ensures TxBlockSigned(w, db.txBlockPool[b.content[i]]) ==> SignedTo(w, b, i + 1)
  {
    hide SignedOk;
  }

  lemma FetchedFrom(w: World, seen: set<ProposerBlock>, db: Db, b: ProposerBlock)
    requires BufferFrom(w, seen, db.orphans)
    ensures w.Hash(b) in db.orphans ==> forall c :: c in db.orphans[w.Hash(b)] ==> Tested(w, seen, c)
  {
    hide Tested;
  }

  lemma BufferingFrom(w: World, seen: set<ProposerBlock>, db: Db, k: Worker)
    requires WorkerFrom(w, seen, k) && Buffering(k.pc) && BufferFrom(w, seen, db.orphans)
    ensures WorkerFrom(w, seen, WorkerStep(w, db, k).1)
    ensures BufferFrom(w, seen, WorkerStep(w, db, k).0.orphans)
  {
    hide Tested;
  }

  lemma WorkFrom(w: World, seen: set<ProposerBlock>, mined: set<ProposerBlock>, db: Db, k: Worker)
    requires WorkerFrom(w, seen, k) && Pooled(w, db.txBlockPool) && w.Genesis() in db.chain.blocks
    requires BufferFrom(w, seen, db.orphans) && ChainFrom(w, seen, mined, db.chain)
    ensures var (db', k') := WorkerStep(w, db, k);
            WorkerFrom(w, seen, k') && BufferFrom(w, seen, db'.orphans) && ChainFrom(w, seen, mined, db'.chain)
  {
    hide WorkerFrom, BufferFrom, ChainFrom, Pooled, WorkerStep;
    if Buffering(k.pc) {
      BufferingFrom(w, seen, db, k);
      OnlyBuffer(w, db, k);
    } else if k.pc.InsertChain? {
      InsertFrom(w, seen, mined, db, k);
    } else {
      PlainFrom(w, seen, db, k);
      QuietStep(w, db, k);
    }
  }

  lemma OnlyBuffer(w: World, db: Db, k: Worker)
    requires Buffering(k.pc)
    ensures WorkerStep(w, db, k).0.chain == db.chain
  {
  }

  lemma InsertFrom(w: World, seen: set<ProposerBlock>, mined: set<ProposerBlock>, db: Db, k: Worker)
    requires WorkerFrom(w, seen, k) && k.pc.InsertChain? && ChainFrom(w, seen, mined, db.chain)
    ensures var (db', k') := WorkerStep(w, db, k);
            WorkerFrom(w, seen, k') && db'.orphans == db.orphans && ChainFrom(w, seen, mined, db'.chain)
  {
    hide ChainFrom, Inserted, PowOk, SigsOk;
    InsertGenuine(w, seen, mined, db.chain, k.pc.b);
  }

  lemma MineFrom(w: World, seen: set<ProposerBlock>, mined: set<ProposerBlock>, s: Sys,
                 content: seq<H256>, header: Header)
    requires MinerFrom(w, s.miner) && ChainFrom(w, seen, mined, s.db.chain) && Enabled(w, s, Mine(content, header))
    ensures var (db', m') := MinerStep(w, s.db, s.miner, content, header);
            && MinerFrom(w, m') && db'.orphans == s.db.orphans
            && ChainFrom(w, seen, mined + MinedBy(s, Mine(content, header)), db'.chain)
  {
    hide ChainFrom, Inserted, Ledgers.ApplyTxs, Ledgers.Prune, SigsOk;
    var mined' := mined + MinedBy(s, Mine(content, header));
    MoreGenuine(w, seen, seen, mined, mined', s.db.chain);
    if s.miner.PutChain? {
      InsertGenuine(w, seen, mined', s.db.chain, s.miner.b);
    }
  }

  lemma MoreGenuine(w: World, seen: set<ProposerBlock>, seen': set<ProposerBlock>,
                    mined: set<ProposerBlock>, mined': set<ProposerBlock>, c: Chain)
    requires ChainFrom(w, seen, mined, c) && seen <= seen' && mined <= mined'
    ensures ChainFrom(w, seen', mined', c)
  {
    hide PowOk, SigsOk;
  }

  lemma MoreBuffered(w: World, seen: set<ProposerBlock>, seen': set<ProposerBlock>,
                     orphans: map<H256, seq<ProposerBlock>>)
    requires BufferFrom(w, seen, orphans) && seen <= seen'
    ensures BufferFrom(w, seen', orphans)
  {
    hide PowOk;
    forall k, b | k in orphans && b in orphans[k]
      ensures Tested(w, seen', b)
    {
      assert Tested(w, seen, b);
    }
  }

  lemma MoreSeen(w: World, seen: set<ProposerBlock>, seen': set<ProposerBlock>, k: Worker)
    requires WorkerFrom(w, seen, k) && seen <= seen'
    ensures WorkerFrom(w, seen', k)
  {
    hide PowOk, SigsOk, SignedTo;
    forall item | item in k.todo
      ensures ItemFrom(w, seen', item)
    {
      assert ItemFrom(w, seen, item);
    }
  }

  lemma OriginNext(w: World, s: Sys, a: Action, seen: set<ProposerBlock>, mined: set<ProposerBlock>)
    requires OriginInv(w, s, seen, mined) && Pooled(w, s.db.txBlockPool) && w.Genesis() in s.db.chain.blocks
    requires Enabled(w, s, a)
    ensures OriginInv(w, Next(w, s, a), seen + ReceivedBy(a), mined + MinedBy(s, a))
  {
    hide ChainFrom, BufferFrom, MinerFrom, WorkerFrom, WorkerStep, MinerStep, Pooled;
    assert !a.Receive? ==> seen + ReceivedBy(a) == seen;
    assert !a.Mine? ==> mined + MinedBy(s, a) == mined;
    match a {
      case Work(id) => WorkFrom(w, seen, mined, s.db, s.workers[id]);
      case Receive(id, bs) => ReceiveFrom(w, s, id, bs, seen, mined);
      case Mine(content, header) => MineFrom(w, seen, mined, s, content, header);
      case _ =>
    }
  }

  lemma ReceiveFrom(w: World, s: Sys, id: nat, bs: seq<ProposerBlock>,
                    seen: set<ProposerBlock>, mined: set<ProposerBlock>)
    requires OriginInv(w, s, seen, mined)
    ensures OriginInv(w, Next(w, s, Receive(id, bs)), seen + ReceivedBy(Receive(id, bs)), mined)
  {
    hide ChainFrom, WorkerFrom, BufferFrom, MinerFrom, PowOk, SigsOk;
    var seen', s' := seen + ReceivedBy(Receive(id, bs)), Next(w, s, Receive(id, bs));
    MoreBuffered(w, seen, seen', s.db.orphans);
    MoreGenuine(w, seen, seen', mined, mined, s.db.chain);
    FreshFrom(w, bs, seen');
    forall x | x in s'.workers
      ensures WorkerFrom(w, seen', s'.workers[x])
    {
      if x != id {
        MoreSeen(w, seen, seen', s.workers[x]);
      }
    }
  }

  lemma FreshFrom(w: World, bs: seq<ProposerBlock>, seen: set<ProposerBlock>)
    requires forall b :: b in bs ==> b in seen
    ensures WorkerFrom(w, seen, Worker(Idle, Freshes(bs)))
  {
  }

  lemma {:induction false} OriginAfter(w: World, s: Sys, acts: seq<Action>)
    requires w.Good() && Initial(w, s) && Run(w, s, acts)
    ensures OriginInv(w, After(w, s, acts), ReceivedIn(acts), MinedIn(w, s, acts))
  {
    hide OriginInv, Next, Enabled, SharedInv, Pooled, MinedBy;
    if acts == [] {
      InitialOrigin(w, s);
    } else {
      var init, a := acts[..|acts| - 1], acts[|acts| - 1];
      OriginAfter(w, s, init);
      InterleavedInv(w, s, init);
      SharedFacts(w, After(w, s, init).db);
      OriginNext(w, After(w, s, init), a, ReceivedIn(init), MinedIn(w, s, init));
    }
  }

  lemma InitialOrigin(w: World, s: Sys)
    requires Initial(w, s)
    ensures OriginInv(w, s, {}, {})
  {
  }

  /** In every reachable state of every interleaving, each block of the chain but genesis
      passes the hash test, and was either mined by this node or received and, whichever
      way it came through the buffer, checked for signatures. */
  lemma ChainIsGenuine(w: World, s: Sys, acts: seq<Action>)
    requires w.Good() && Initial(w, s) && Run(w, s, acts)
    ensures var blocks := After(w, s, acts).db.chain.blocks;
            forall h :: h in blocks && h != w.Genesis() ==>
              && Delivery.Genuine(w, Got(w, s, acts), blocks[h])
              && w.Hash(blocks[h]) <= blocks[h].header.proposerDifficulty
  {
    hide SigsOk, BufferFrom, MinerFrom, WorkerFrom, Run, After, MinedIn, ReceivedIn;
    OriginAfter(w, s, acts);
  }
}
