/** The threads of one node, one lock-held section at a time: any number of workers
    handling proposer blocks, the miner, and everything else that touches the pools,
    interleaved in any way. */
module Interleaving {
  import opened Basics
  import opened Types
  import opened Ledgers
  import opened Blockchains
  import opened Nodes
  import opened Workers
  import opened Delivery
  import opened Conservation
  import Supply

  // ---------------------------------------------------------------------------
  // The threads

  /** What a worker still has to do: a delivered block, or one popped from the buffer. */
  datatype Item = Fresh(b: ProposerBlock) | Orphaned(b: ProposerBlock)

  /** Where a worker is. Each constructor is the lock-held section to be run next; its
      arguments are the worker's local variables. */
  datatype WorkerPc =
    | Idle
    | SeenTest(b: ProposerBlock)
    | ParentTest(b: ProposerBlock)
    | OrphanTest(b: ProposerBlock)
    | OrphanPush(b: ProposerBlock)
    | OrphanInsert(b: ProposerBlock)
    | CheckSigs(b: ProposerBlock, i: nat)
    | ReadRef(b: ProposerBlock)
    | WriteRef(b: ProposerBlock, newRef: seq<H256>)
    | ReadState(b: ProposerBlock)
    | Fold(b: ProposerBlock, i: nat, currState: Ledger)
    | PruneTxs(b: ProposerBlock, currState: Ledger)
    | WriteState(b: ProposerBlock, currState: Ledger)
    | InsertChain(b: ProposerBlock)
    | OrphanProbe(b: ProposerBlock)
    | OrphanFetch(b: ProposerBlock)
    | OrphanDrop(b: ProposerBlock, kids: seq<ProposerBlock>)
    | LookupFailed   // a lookup by parent or by reference found nothing: the thread panics
    | BucketGone     // another worker removed the bucket between the test and the lookup

  datatype Worker = Worker(pc: WorkerPc, todo: seq<Item>)

  datatype MinerPc =
    | Start
    | GetState(p: H256)
    | GetRefs(p: H256, s: Ledger)
    | Pick(p: H256, s: Ledger, pointed: seq<H256>)
    | GetHeader(p: H256, s: Ledger, pointed: seq<H256>, content: seq<H256>)
    | Build(p: H256, s: Ledger, pointed: seq<H256>, content: seq<H256>, parentHeader: Header)
    | PutRef(b: ProposerBlock, s: Ledger, list: seq<H256>)
    | FoldMined(b: ProposerBlock, i: nat, s: Ledger)
    | PruneMined(b: ProposerBlock, s: Ledger)
    | PutState(b: ProposerBlock, s: Ledger)
    | PutChain(b: ProposerBlock)
    | MinerFailed

  datatype Sys = Sys(db: Db, workers: map<nat, Worker>, miner: MinerPc)

  function Orphans(kids: seq<ProposerBlock>): (r: seq<Item>)
    ensures |r| == |kids|
  {
    seq(|kids|, i requires 0 <= i < |kids| => Orphaned(kids[i]))
  }

  function Freshes(bs: seq<ProposerBlock>): (r: seq<Item>)
    ensures |r| == |bs|
  {
    seq(|bs|, i requires 0 <= i < |bs| => Fresh(bs[i]))
  }

  // The three sections that publish a block.

  function WithRef(w: World, db: Db, b: ProposerBlock, list: seq<H256>): Db {
    db.(txBlockRef := db.txBlockRef[w.Hash(b) := list])
  }

  function WithState(w: World, db: Db, b: ProposerBlock, s: Ledger): Db {
    db.(globState := db.globState[w.Hash(b) := s])
  }

  function WithBlock(w: World, db: Db, b: ProposerBlock): Db {
    db.(chain := Inserted(w, db.chain, b))
  }

  /** Every tx of a pooled tx block is signed. */
  predicate TxBlockSigned(w: World, tb: TXBlock) {
    forall tx | tx in tb.content :: SignedOk(w, tx)
  }

  /** One section of the ProposerBlocks arm or of new_parent. Whatever is looked up in a
      shared map with an index expression may be missing, and then the thread panics. */
  function WorkerStep(w: World, db: Db, k: Worker): (Db, Worker) {
    match k.pc
    case Idle =>
      if k.todo == [] then (db, k) else
        var rest := k.todo[1..];
        (match k.todo[0]
         case Fresh(b) => (db, Worker(SeenTest(b), rest))
         case Orphaned(b) => (db, Worker(CheckSigs(b, 0), rest)))
    case SeenTest(b) =>
      if w.Hash(b) in db.chain.blocks || !PowOk(w, b) then (db, k.(pc := Idle)) else (db, k.(pc := ParentTest(b)))
    case ParentTest(b) =>
      if b.header.proposerParent in db.chain.blocks then (db, k.(pc := CheckSigs(b, 0)))
      else (db, k.(pc := OrphanTest(b)))
    case OrphanTest(b) =>
      if b.header.proposerParent in db.orphans then (db, k.(pc := OrphanPush(b))) else (db, k.(pc := OrphanInsert(b)))
    case OrphanPush(b) =>
      var p := b.header.proposerParent;
      if p in db.orphans then (db.(orphans := db.orphans[p := db.orphans[p] + [b]]), k.(pc := Idle))
      else (db, k.(pc := Idle))
    case OrphanInsert(b) =>
      (db.(orphans := db.orphans[b.header.proposerParent := [b]]), k.(pc := Idle))
    case CheckSigs(b, i) =>
      if i >= |b.content| then (db, k.(pc := ReadRef(b)))
      else if b.content[i] !in db.txBlockPool then (db, k.(pc := LookupFailed))
      else if TxBlockSigned(w, db.txBlockPool[b.content[i]]) then (db, k.(pc := CheckSigs(b, i + 1)))
      else (db, k.(pc := Idle))
    case ReadRef(b) =>
      var p := b.header.proposerParent;
      if p in db.txBlockRef then (db, k.(pc := WriteRef(b, ExtendRefs(db.txBlockRef[p], b.content))))
      else (db, k.(pc := LookupFailed))
    case WriteRef(b, newRef) =>
      (WithRef(w, db, b, newRef), k.(pc := ReadState(b)))
    case ReadState(b) =>
      var p := b.header.proposerParent;
      if p in db.globState then (db, k.(pc := Fold(b, 0, db.globState[p]))) else (db, k.(pc := LookupFailed))
    case Fold(b, i, s) =>
      if i >= |b.content| then (db, k.(pc := PruneTxs(b, s)))
      else if b.content[i] !in db.txBlockPool then (db, k.(pc := LookupFailed))
      else (db, k.(pc := Fold(b, i + 1, ApplyTxs(w, s, db.txBlockPool[b.content[i]].content))))
    case PruneTxs(b, s) =>
      (db.(txPool := Prune(db.txPool, s)), k.(pc := WriteState(b, s)))
    case WriteState(b, s) =>
      (WithState(w, db, b, s), k.(pc := InsertChain(b)))
    case InsertChain(b) =>
      if b.header.proposerParent in db.chain.heights then
        (WithBlock(w, db, b), k.(pc := OrphanProbe(b)))
      else (db, k.(pc := LookupFailed))
    case OrphanProbe(b) =>
      if w.Hash(b) in db.orphans then (db, k.(pc := OrphanFetch(b))) else (db, k.(pc := Idle))
    case OrphanFetch(b) =>
      if w.Hash(b) in db.orphans then (db, k.(pc := OrphanDrop(b, db.orphans[w.Hash(b)])))
      else (db, k.(pc := BucketGone))
    case OrphanDrop(b, kids) =>
      (db.(orphans := db.orphans - {w.Hash(b)}), Worker(Idle, Orphans(kids) + k.todo))
    case LookupFailed => (db, k)
    case BucketGone => (db, k)
  }

  /** One section of a mining round. `content` and `header` are the round's free choices:
      what the map iteration yielded, and the header with its nonce, time and roots. A
      round that yields no proposer block starts over. */
  function MinerStep(w: World, db: Db, m: MinerPc, content: seq<H256>, header: Header): (Db, MinerPc) {
    match m
    case Start => (db, GetState(db.chain.tip))
    case GetState(p) => (db, if p in db.globState then GetRefs(p, db.globState[p]) else MinerFailed)
    case GetRefs(p, s) => (db, if p in db.txBlockRef then Pick(p, s, db.txBlockRef[p]) else MinerFailed)
    case Pick(p, s, pointed) => (db, GetHeader(p, s, pointed, content))
    case GetHeader(p, s, pointed, content) =>
      (db, if p in db.chain.blocks then Build(p, s, pointed, content, db.chain.blocks[p].header) else MinerFailed)
    case Build(p, s, pointed, content, parentHeader) =>
      if w.headerHash(header) < parentHeader.proposerDifficulty && content != [] then
        (db, PutRef(ProposerBlock(header, content), s, pointed + content))
      else (db, Start)
    case PutRef(b, s, list) => (WithRef(w, db, b, list), FoldMined(b, 0, s))
    case FoldMined(b, i, s) =>
      if i >= |b.content| then (db, PruneMined(b, s))
      else if b.content[i] !in db.txBlockPool then (db, MinerFailed)
      else (db, FoldMined(b, i + 1, ApplyTxs(w, s, db.txBlockPool[b.content[i]].content)))
    case PruneMined(b, s) => (db.(txPool := Prune(db.txPool, s)), PutState(b, s))
    case PutState(b, s) => (WithState(w, db, b, s), PutChain(b))
    case PutChain(b) =>
      if b.header.proposerParent in db.chain.heights then (WithBlock(w, db, b), Start) else (db, MinerFailed)
    case MinerFailed => (db, m)
  }

  /** What can happen next. Other threads may put the transaction pool in any state; tx
      blocks only ever join theirs. */
  datatype Action =
    | Work(id: nat)
    | Receive(id: nat, bs: seq<ProposerBlock>)
    | Mine(content: seq<H256>, header: Header)
    | ChangeTxPool(txPool: map<H256, SignedTransaction>)
    | AddTxBlock(tb: TXBlock)

  predicate Deliverable(w: World, db: Db, b: ProposerBlock) {
    w.Occurs(b) && Referenced(db.txBlockPool, b)
  }

  /** A message arrives at an idle worker, with the tx blocks it refers to already pooled;
      the miner's choices are those its loops can make. */
  ghost predicate Enabled(w: World, s: Sys, a: Action) {
    match a
    case Work(id) => id in s.workers
    case Receive(id, bs) =>
      id in s.workers && s.workers[id] == Worker(Idle, []) && forall b | b in bs :: Deliverable(w, s.db, b)
    case Mine(content, header) =>
      && (s.miner.Pick? ==>
            Supply.Filtered(s.miner.pointed, content) && forall r | r in content :: r in s.db.txBlockPool)
      && (s.miner.Build? ==>
            && header.proposerParent == s.miner.p
            && header.transactionDifficulty == s.miner.parentHeader.transactionDifficulty
            && header.proposerDifficulty == s.miner.parentHeader.proposerDifficulty
            && w.Occurs(ProposerBlock(header, s.miner.content)))
    case ChangeTxPool(_) => true
    case AddTxBlock(tb) => w.TxBlockOccurs(tb)
  }

  function Next(w: World, s: Sys, a: Action): Sys {
    match a
    case Work(id) =>
      if id !in s.workers then s else
        var (db, k) := WorkerStep(w, s.db, s.workers[id]);
        s.(db := db, workers := s.workers[id := k])
    case Receive(id, bs) => s.(workers := s.workers[id := Worker(Idle, Freshes(bs))])
    case Mine(content, header) =>
      var (db, m) := MinerStep(w, s.db, s.miner, content, header);
      s.(db := db, miner := m)
    case ChangeTxPool(txPool) => s.(db := s.db.(txPool := txPool))
    case AddTxBlock(tb) => s.(db := s.db.(txBlockPool := s.db.txBlockPool[w.TxBlockHash(tb) := tb]))
  }

  function After(w: World, s: Sys, acts: seq<Action>): Sys {
    if acts == [] then s else Next(w, After(w, s, acts[..|acts| - 1]), acts[|acts| - 1])
  }

  ghost predicate Run(w: World, s: Sys, acts: seq<Action>) {
    acts != [] ==> Run(w, s, acts[..|acts| - 1]) && Enabled(w, After(w, s, acts[..|acts| - 1]), acts[|acts| - 1])
  }

  /** The proposer blocks an action delivers, and a whole run. */
  function ReceivedBy(a: Action): set<ProposerBlock> {
    if a.Receive? then (set b | b in a.bs) else {}
  }

  function ReceivedIn(acts: seq<Action>): set<ProposerBlock> {
    if acts == [] then {} else ReceivedIn(acts[..|acts| - 1]) + ReceivedBy(acts[|acts| - 1])
  }

  /** The block the miner inserts by an action, if any. */
  function MinedBy(s: Sys, a: Action): set<ProposerBlock> {
    if a.Mine? && s.miner.PutChain? then {s.miner.b} else {}
  }

  /** The blocks the miner inserted in a run. */
  function MinedIn(w: World, s: Sys, acts: seq<Action>): set<ProposerBlock> {
    if acts == [] then {} else
      var init := acts[..|acts| - 1];
      MinedIn(w, s, init) + MinedBy(After(w, s, init), acts[|acts| - 1])
  }

  /** A node after the initial coin offering, with all its threads idle. */
  ghost predicate Initial(w: World, s: Sys) {
    && s.db == InitDb(w) && s.miner == Start
    && forall id :: id in s.workers ==> s.workers[id] == Worker(Idle, [])
  }

  // ---------------------------------------------------------------------------
  // The invariant of the shared maps

  /** h is a block whose parent is in the chain. */
  ghost predicate OnChain(w: World, db: Db, h: H256) {
    w.Hash(w.proposerOf(h)) == h && w.proposerOf(h).header.proposerParent in db.chain.blocks
  }

  ghost predicate RefOk(w: World, db: Db, h: H256)
    requires h in db.txBlockRef
  {
    if h == w.Genesis() then db.txBlockRef[h] == [] else
      var b := w.proposerOf(h);
      && OnChain(w, db, h) && b.header.proposerParent in db.txBlockRef
      && db.txBlockRef[h] == ExtendRefs(db.txBlockRef[b.header.proposerParent], b.content)
  }

  ghost predicate StateOk(w: World, db: Db, h: H256)
    requires h in db.globState
  {
    if h == w.Genesis() then db.globState[h] == w.ico else
      var b := w.proposerOf(h);
      && OnChain(w, db, h) && b.header.proposerParent in db.globState
      && db.globState[h] == ApplyRefs(w, db.globState[b.header.proposerParent], b.content)
  }

  ghost predicate AllRefsOk(w: World, db: Db) { forall h :: h in db.txBlockRef ==> RefOk(w, db, h) }

  ghost predicate AllStatesOk(w: World, db: Db) { forall h :: h in db.globState ==> StateOk(w, db, h) }

  /** Publication order: a block in the chain has its ledger and its list. */
  ghost predicate Published(db: Db) {
    db.chain.blocks.Keys <= db.globState.Keys && db.chain.blocks.Keys <= db.txBlockRef.Keys
  }

  ghost predicate WaitingOk(w: World, db: Db) {
    forall k, b :: k in db.orphans && b in db.orphans[k] ==> Deliverable(w, db, b) && b.header.proposerParent == k
  }

  ghost predicate SharedInv(w: World, db: Db) {
    && ChainInv(w, db.chain) && Published(db)
    && AllRefsOk(w, db) && AllStatesOk(w, db)
    && WaitingOk(w, db) && Pooled(w, db.txBlockPool)
  }

  /** Entries are only ever added. */
  ghost predicate Grows(db: Db, db': Db) {
    && KeepsEntries(db, db')
    && (forall h :: h in db.chain.blocks ==> h in db'.chain.blocks && db'.chain.blocks[h] == db.chain.blocks[h])
    && (forall h :: h in db.txBlockPool ==> h in db'.txBlockPool && db'.txBlockPool[h] == db.txBlockPool[h])
  }

  // ---------------------------------------------------------------------------
  // The invariant of the threads

  /** b is deliverable and its parent is in the chain. */
  ghost predicate Storable(w: World, db: Db, b: ProposerBlock) {
    Deliverable(w, db, b) && b.header.proposerParent in db.chain.blocks
  }

  ghost predicate RefWritten(w: World, db: Db, b: ProposerBlock) {
    Storable(w, db, b) && w.Hash(b) in db.txBlockRef
  }

  /** s is the ledger after the first i references of b. */
  ghost predicate FoldedTo(w: World, db: Db, b: ProposerBlock, i: nat, s: Ledger) {
    && i <= |b.content| && b.header.proposerParent in db.globState
    && s == ApplyRefs(w, db.globState[b.header.proposerParent], b.content[..i])
  }

  ghost predicate ListedAs(db: Db, b: ProposerBlock, list: seq<H256>) {
    b.header.proposerParent in db.txBlockRef && list == ExtendRefs(db.txBlockRef[b.header.proposerParent], b.content)
  }

  ghost predicate ItemOk(w: World, db: Db, item: Item) {
    match item
    case Fresh(b) => Deliverable(w, db, b)
    case Orphaned(b) => Storable(w, db, b)
  }

  ghost predicate PcOk(w: World, db: Db, pc: WorkerPc) {
    match pc
    case Idle => true
    case SeenTest(b) => Deliverable(w, db, b)
    case ParentTest(b) => Deliverable(w, db, b)
    case OrphanTest(b) => Deliverable(w, db, b)
    case OrphanPush(b) => Deliverable(w, db, b)
    case OrphanInsert(b) => Deliverable(w, db, b)
    case CheckSigs(b, i) => Storable(w, db, b)
    case ReadRef(b) => Storable(w, db, b)
    case WriteRef(b, newRef) => Storable(w, db, b) && ListedAs(db, b, newRef)
    case ReadState(b) => RefWritten(w, db, b)
    case Fold(b, i, s) => RefWritten(w, db, b) && FoldedTo(w, db, b, i, s)
    case PruneTxs(b, s) => RefWritten(w, db, b) && FoldedTo(w, db, b, |b.content|, s)
    case WriteState(b, s) => RefWritten(w, db, b) && FoldedTo(w, db, b, |b.content|, s)
    case InsertChain(b) => RefWritten(w, db, b) && w.Hash(b) in db.globState
    case OrphanProbe(b) => w.Hash(b) in db.chain.blocks
    case OrphanFetch(b) => w.Hash(b) in db.chain.blocks
    case OrphanDrop(b, kids) => forall c :: c in kids ==> Storable(w, db, c)
    case LookupFailed => false
    case BucketGone => true
  }

  ghost predicate WorkerOk(w: World, db: Db, k: Worker) {
    PcOk(w, db, k.pc) && forall item :: item in k.todo ==> ItemOk(w, db, item)
  }

  /** p's ledger and list, as read. */
  ghost predicate ReadAt(db: Db, p: H256, s: Ledger) {
    p in db.chain.blocks && p in db.globState && s == db.globState[p]
  }

  ghost predicate Chosen(db: Db, p: H256, pointed: seq<H256>, content: seq<H256>) {
    && p in db.txBlockRef && pointed == db.txBlockRef[p]
    && Supply.Filtered(pointed, content) && forall r :: r in content ==> r in db.txBlockPool
  }

  ghost predicate MinerOk(w: World, db: Db, m: MinerPc) {
    match m
    case Start => true
    case GetState(p) => p in db.chain.blocks
    case GetRefs(p, s) => ReadAt(db, p, s)
    case Pick(p, s, pointed) => ReadAt(db, p, s) && p in db.txBlockRef && pointed == db.txBlockRef[p]
    case GetHeader(p, s, pointed, content) => ReadAt(db, p, s) && Chosen(db, p, pointed, content)
    case Build(p, s, pointed, content, _) => ReadAt(db, p, s) && Chosen(db, p, pointed, content)
    case PutRef(b, s, list) => Storable(w, db, b) && ListedAs(db, b, list) && FoldedTo(w, db, b, 0, s)
    case FoldMined(b, i, s) => RefWritten(w, db, b) && FoldedTo(w, db, b, i, s)
    case PruneMined(b, s) => RefWritten(w, db, b) && FoldedTo(w, db, b, |b.content|, s)
    case PutState(b, s) => RefWritten(w, db, b) && FoldedTo(w, db, b, |b.content|, s)
    case PutChain(b) => RefWritten(w, db, b) && w.Hash(b) in db.globState
    case MinerFailed => false
  }

  ghost predicate SysInv(w: World, s: Sys) {
    && SharedInv(w, s.db)
    && (forall id :: id in s.workers ==> WorkerOk(w, s.db, s.workers[id]))
    && MinerOk(w, s.db, s.miner)
  }

  // ---------------------------------------------------------------------------
  // Growth disturbs no thread

  lemma PcStays(w: World, db: Db, db': Db, pc: WorkerPc)
    requires PcOk(w, db, pc) && Grows(db, db')
    ensures PcOk(w, db', pc)
  {
    hide ApplyRefs, ExtendRefs;
  }

  lemma WorkerStays(w: World, db: Db, db': Db, k: Worker)
    requires WorkerOk(w, db, k) && Grows(db, db')
    ensures WorkerOk(w, db', k)
  {
    hide PcOk;
    PcStays(w, db, db', k.pc);
    forall item | item in k.todo
      ensures ItemOk(w, db', item)
    {
      assert ItemOk(w, db, item);
    }
  }

  lemma MinerStays(w: World, db: Db, db': Db, m: MinerPc)
    requires MinerOk(w, db, m) && Grows(db, db')
    ensures MinerOk(w, db', m)
  {
    hide ApplyRefs, ExtendRefs, Supply.Filtered;
  }

  lemma EntriesStay(w: World, db: Db, db': Db)
    requires AllRefsOk(w, db) && AllStatesOk(w, db) && Grows(db, db')
    ensures forall h :: h in db.txBlockRef ==> h in db'.txBlockRef && RefOk(w, db', h)
    ensures forall h :: h in db.globState ==> h in db'.globState && StateOk(w, db', h)
  {
    hide ApplyRefs, ExtendRefs;
    forall h | h in db.txBlockRef
      ensures h in db'.txBlockRef && RefOk(w, db', h)
    {
      assert RefOk(w, db, h);
    }
    forall h | h in db.globState
      ensures h in db'.globState && StateOk(w, db', h)
    {
      assert StateOk(w, db, h);
    }
  }

  lemma WaitingStays(w: World, db: Db, db': Db)
    requires WaitingOk(w, db) && Grows(db, db') && db'.orphans == db.orphans
    ensures WaitingOk(w, db')
  {
    forall k, b | k in db'.orphans && b in db'.orphans[k]
      ensures Deliverable(w, db', b) && b.header.proposerParent == k
    {
      assert Deliverable(w, db, b);
    }
  }

  // ---------------------------------------------------------------------------
  // The three publishing sections, whoever runs them

  /** Writing the reference list of b: if it is there already, it is rewritten with an equal
      value; either way the maps only grow. */
  lemma PublishRef(w: World, db: Db, b: ProposerBlock, list: seq<H256>)
    requires w.Good() && SharedInv(w, db) && Storable(w, db, b) && ListedAs(db, b, list)
    ensures w.Hash(b) in db.txBlockRef ==> db.txBlockRef[w.Hash(b)] == list
    ensures SharedInv(w, WithRef(w, db, b, list)) && Grows(db, WithRef(w, db, b, list))
    ensures RefWritten(w, WithRef(w, db, b, list), b)
  {
    hide ChainInv, AllRefsOk, AllStatesOk, WaitingOk, Pooled, ListedAs;
    var db' := WithRef(w, db, b, list);
    RefFits(w, db, b, list);
    RefAdded(w, db, b, list);
    RefEntries(w, db, b, list);
    StatesOnly(w, db, db');
    WaitingStays(w, db, db');
  }

  lemma RefFits(w: World, db: Db, b: ProposerBlock, list: seq<H256>)
    requires w.Good() && ChainInv(w, db.chain) && AllRefsOk(w, db) && Storable(w, db, b) && ListedAs(db, b, list)
    ensures w.Hash(b) != w.Genesis()
    ensures w.Hash(b) in db.txBlockRef ==> db.txBlockRef[w.Hash(b)] == list
  {
    hide ChainInv, ExtendRefs;
    NotGenesis(w, db.chain, b);
    if w.Hash(b) in db.txBlockRef {
      assert RefOk(w, db, w.Hash(b));
    }
  }

  lemma RefAdded(w: World, db: Db, b: ProposerBlock, list: seq<H256>)
    requires w.Hash(b) in db.txBlockRef ==> db.txBlockRef[w.Hash(b)] == list
    ensures Grows(db, WithRef(w, db, b, list))
  {
  }

  lemma StateAdded(w: World, db: Db, b: ProposerBlock, s: Ledger)
    requires w.Hash(b) in db.globState ==> db.globState[w.Hash(b)] == s
    ensures Grows(db, WithState(w, db, b, s))
  {
  }

  lemma RefEntries(w: World, db: Db, b: ProposerBlock, list: seq<H256>)
    requires Storable(w, db, b) && ListedAs(db, b, list) && AllRefsOk(w, db) && AllStatesOk(w, db)
    requires w.Hash(b) != w.Genesis() && Grows(db, WithRef(w, db, b, list))
    ensures AllRefsOk(w, WithRef(w, db, b, list))
  {
    hide ExtendRefs, AllStatesOk, StateOk;
    var h, db' := w.Hash(b), WithRef(w, db, b, list);
    EntriesStay(w, db, db');
    assert OnChain(w, db', h);
  }

  lemma StatesOnly(w: World, db: Db, db': Db)
    requires AllRefsOk(w, db) && AllStatesOk(w, db) && Grows(db, db') && db'.globState.Keys == db.globState.Keys
    ensures AllStatesOk(w, db')
  {
    hide StateOk, RefOk;
    EntriesStay(w, db, db');
  }

  lemma RefsOnly(w: World, db: Db, db': Db)
    requires AllRefsOk(w, db) && AllStatesOk(w, db) && Grows(db, db') && db'.txBlockRef.Keys == db.txBlockRef.Keys
    ensures AllRefsOk(w, db')
  {
    hide StateOk, RefOk;
    EntriesStay(w, db, db');
  }

  /** Writing the ledger of b, likewise. */
  lemma PublishState(w: World, db: Db, b: ProposerBlock, s: Ledger)
    requires w.Good() && SharedInv(w, db) && RefWritten(w, db, b) && FoldedTo(w, db, b, |b.content|, s)
    ensures w.Hash(b) in db.globState ==> db.globState[w.Hash(b)] == s
    ensures SharedInv(w, WithState(w, db, b, s)) && Grows(db, WithState(w, db, b, s))
    ensures RefWritten(w, WithState(w, db, b, s), b) && w.Hash(b) in WithState(w, db, b, s).globState
  {
    hide ChainInv, AllRefsOk, AllStatesOk, WaitingOk, Pooled, FoldedTo;
    var db' := WithState(w, db, b, s);
    StateFits(w, db, b, s);
    StateAdded(w, db, b, s);
    StateEntries(w, db, b, s);
    RefsOnly(w, db, db');
    WaitingStays(w, db, db');
  }

  lemma StateFits(w: World, db: Db, b: ProposerBlock, s: Ledger)
    requires w.Good() && ChainInv(w, db.chain) && AllStatesOk(w, db) && Storable(w, db, b)
    requires FoldedTo(w, db, b, |b.content|, s)
    ensures w.Hash(b) != w.Genesis()
    ensures w.Hash(b) in db.globState ==> db.globState[w.Hash(b)] == s
  {
    hide ChainInv, ApplyRefs;
    NotGenesis(w, db.chain, b);
    assert b.content[..|b.content|] == b.content;
    if w.Hash(b) in db.globState {
      assert StateOk(w, db, w.Hash(b));
    }
  }

  lemma StateEntries(w: World, db: Db, b: ProposerBlock, s: Ledger)
    requires Storable(w, db, b) && FoldedTo(w, db, b, |b.content|, s) && AllRefsOk(w, db) && AllStatesOk(w, db)
    requires w.Hash(b) != w.Genesis() && Grows(db, WithState(w, db, b, s))
    ensures AllStatesOk(w, WithState(w, db, b, s))
  {
    hide ApplyRefs, AllRefsOk, RefOk;
    var h, db' := w.Hash(b), WithState(w, db, b, s);
    assert b.content[..|b.content|] == b.content;
    EntriesStay(w, db, db');
    assert OnChain(w, db', h);
  }

  /** Inserting b, whose ledger and list are there. */
  lemma PublishBlock(w: World, db: Db, b: ProposerBlock)
    requires w.Good() && SharedInv(w, db) && RefWritten(w, db, b) && w.Hash(b) in db.globState
    ensures b.header.proposerParent in db.chain.heights
    ensures w.Hash(b) in db.chain.blocks ==> Inserted(w, db.chain, b) == db.chain
    ensures SharedInv(w, WithBlock(w, db, b)) && Grows(db, WithBlock(w, db, b))
    ensures w.Hash(b) in WithBlock(w, db, b).chain.blocks
  {
    hide ChainInv, AllRefsOk, AllStatesOk, WaitingOk, Pooled, Inserted;
    var db' := WithBlock(w, db, b);
    BlockFits(w, db, b);
    RefsOnly(w, db, db');
    StatesOnly(w, db, db');
    WaitingStays(w, db, db');
  }

  lemma BlockFits(w: World, db: Db, b: ProposerBlock)
    requires w.Good() && ChainInv(w, db.chain) && Storable(w, db, b)
    ensures b.header.proposerParent in db.chain.heights
    ensures w.Hash(b) in db.chain.blocks ==> Inserted(w, db.chain, b) == db.chain
    ensures ChainInv(w, Inserted(w, db.chain, b)) && Grows(db, WithBlock(w, db, b))
    ensures WithBlock(w, db, b).chain.blocks == db.chain.blocks[w.Hash(b) := b]
  {
    hide ChainInv, Inserted;
    InsertStep(w, db.chain, b);
    SameKeys(w, db.chain);
  }

  lemma PoolsOnly(w: World, db: Db, db': Db)
    requires SharedInv(w, db) && Grows(db, db') && Pooled(w, db'.txBlockPool)
    requires db'.chain == db.chain && db'.orphans == db.orphans
    requires db'.globState == db.globState && db'.txBlockRef == db.txBlockRef
    ensures SharedInv(w, db')
  {
    hide ChainInv, AllRefsOk, AllStatesOk, Pooled;
    RefsOnly(w, db, db');
    StatesOnly(w, db, db');
    WaitingStays(w, db, db');
  }

  lemma OrphansOnly(w: World, db: Db, orphans: map<H256, seq<ProposerBlock>>)
    requires SharedInv(w, db)
    requires forall k, b :: k in orphans && b in orphans[k] ==> Deliverable(w, db, b) && b.header.proposerParent == k
    ensures SharedInv(w, db.(orphans := orphans)) && Grows(db, db.(orphans := orphans))
  {
    hide ChainInv, AllRefsOk, AllStatesOk;
    RefsOnly(w, db, db.(orphans := orphans));
    StatesOnly(w, db, db.(orphans := orphans));
  }

  // ---------------------------------------------------------------------------
  // Every section keeps the invariant

  predicate Storing(pc: WorkerPc) {
    pc.WriteRef? || pc.PruneTxs? || pc.WriteState? || pc.InsertChain?
  }

  predicate Buffering(pc: WorkerPc) {
    pc.OrphanPush? || pc.OrphanInsert? || pc.OrphanDrop?
  }

  /** Sections that neither buffer nor insert leave the buffer and the chain alone. */
  lemma QuietStep(w: World, db: Db, k: Worker)
    requires !k.pc.InsertChain? && !Buffering(k.pc)
    ensures WorkerStep(w, db, k).0.orphans == db.orphans && WorkerStep(w, db, k).0.chain == db.chain
  {
    hide ApplyTxs, ExtendRefs, Prune, TxBlockSigned, PowOk;
  }

  lemma StoringStep(w: World, db: Db, k: Worker)
    requires w.Good() && SharedInv(w, db) && PcOk(w, db, k.pc) && Storing(k.pc)
    ensures var (db', k') := WorkerStep(w, db, k);
            SharedInv(w, db') && Grows(db, db') && PcOk(w, db', k'.pc) && k'.todo == k.todo
  {
    hide SharedInv, ApplyRefs, ExtendRefs, Inserted, Prune, Grows, Storable, FoldedTo, ListedAs;
    match k.pc {
      case WriteRef(b, newRef) => PublishRef(w, db, b, newRef);
      case PruneTxs(b, s) =>
        PruneSection(w, db, Prune(db.txPool, s));
        PcStays(w, db, WorkerStep(w, db, k).0, k.pc);
      case WriteState(b, s) => PublishState(w, db, b, s);
      case InsertChain(b) =>
        PublishBlock(w, db, b);
    }
  }

  lemma PruneSection(w: World, db: Db, txPool: map<H256, SignedTransaction>)
    requires SharedInv(w, db)
    ensures SharedInv(w, db.(txPool := txPool)) && Grows(db, db.(txPool := txPool))
  {
    hide ChainInv, AllRefsOk, AllStatesOk, WaitingOk;
    PoolsOnly(w, db, db.(txPool := txPool));
  }

  lemma BufferingStep(w: World, db: Db, k: Worker)
    requires w.Good() && SharedInv(w, db) && WorkerOk(w, db, k) && Buffering(k.pc)
    ensures var (db', k') := WorkerStep(w, db, k);
            SharedInv(w, db') && Grows(db, db') && WorkerOk(w, db', k')
  {
    hide SharedInv, Deliverable, ItemOk, WorkerOk;
    var (db', k') := WorkerStep(w, db, k);
    BufferOk(w, db, k);
    OrphansOnly(w, db, db'.orphans);
    TodoOk(w, db, k);
    WorkerStays(w, db, db', Worker(Idle, k'.todo));
  }

  /** What a buffering section leaves in the buffer, and that it touches nothing else. */
  lemma BufferOk(w: World, db: Db, k: Worker)
    requires SharedInv(w, db) && WorkerOk(w, db, k) && Buffering(k.pc)
    ensures var db' := WorkerStep(w, db, k).0;
            && db' == db.(orphans := db'.orphans)
            && forall x, b :: x in db'.orphans && b in db'.orphans[x] ==>
                 Deliverable(w, db, b) && b.header.proposerParent == x
  {
    hide SharedInv, Deliverable, ItemOk;
    WaitingPart(w, db);
  }

  lemma TodoOk(w: World, db: Db, k: Worker)
    requires WorkerOk(w, db, k) && Buffering(k.pc)
    ensures WorkerOk(w, db, Worker(Idle, WorkerStep(w, db, k).1.todo))
    ensures WorkerStep(w, db, k).1.pc == Idle
  {
    hide Storable, Deliverable;
  }

  lemma WaitingPart(w: World, db: Db)
    requires SharedInv(w, db)
    ensures forall k, b :: k in db.orphans && b in db.orphans[k] ==>
              Deliverable(w, db, b) && b.header.proposerParent == k
  {
    hide ChainInv, AllRefsOk, AllStatesOk, Pooled;
  }

  /** The other sections only read; no lookup by parent or by reference fails. */
  lemma ReadingStep(w: World, db: Db, k: Worker)
    requires w.Good() && SharedInv(w, db) && WorkerOk(w, db, k) && !Storing(k.pc) && !Buffering(k.pc)
    ensures WorkerStep(w, db, k).0 == db
    ensures WorkerOk(w, db, WorkerStep(w, db, k).1)
  {
    hide ExtendRefs, ApplyRefs, SharedInv, WorkerOk, TxBlockSigned;
    SharedFacts(w, db);
    if k.pc.Idle? {
      NextItem(w, db, k);
    } else {
      PcReads(w, db, k);
      SameTodo(w, db, k);
    }
  }

  lemma SharedFacts(w: World, db: Db)
    requires SharedInv(w, db)
    ensures db.chain.blocks.Keys <= db.globState.Keys && db.chain.blocks.Keys <= db.txBlockRef.Keys
    ensures db.chain.heights.Keys == db.chain.blocks.Keys && db.chain.tip in db.chain.blocks
    ensures Pooled(w, db.txBlockPool) && w.Genesis() in db.chain.blocks
  {
    hide AllRefsOk, AllStatesOk, WaitingOk;
  }

  lemma NextItem(w: World, db: Db, k: Worker)
    requires WorkerOk(w, db, k) && k.pc.Idle?
    ensures WorkerOk(w, db, WorkerStep(w, db, k).1)
  {
    if k.todo != [] {
      assert ItemOk(w, db, k.todo[0]);
    }
  }

  lemma SameTodo(w: World, db: Db, k: Worker)
    requires WorkerOk(w, db, k) && !k.pc.Idle? && !Storing(k.pc) && !Buffering(k.pc)
    requires PcOk(w, db, WorkerStep(w, db, k).1.pc)
    ensures WorkerOk(w, db, WorkerStep(w, db, k).1)
  {
    hide PcOk;
  }

  lemma PcReads(w: World, db: Db, k: Worker)
    requires SharedInv(w, db) && WorkerOk(w, db, k) && !k.pc.Idle? && !Storing(k.pc) && !Buffering(k.pc)
    ensures WorkerStep(w, db, k).0 == db
    ensures PcOk(w, db, WorkerStep(w, db, k).1.pc)
  {
    hide ExtendRefs, ApplyRefs, SharedInv, TxBlockSigned;
    SharedFacts(w, db);
    match k.pc {
      case ReadState(b) => NothingFolded(w, db, b);
      case Fold(b, i, s) =>
        if i < |b.content| {
          FoldNext(w, db, b, i, s);
        } else {
          assert FoldedTo(w, db, b, |b.content|, s);
        }
      case OrphanFetch(b) =>
        if w.Hash(b) in db.orphans {
          WaitingPart(w, db);
        }
      case _ =>
    }
  }

  lemma NothingFolded(w: World, db: Db, b: ProposerBlock)
    requires b.header.proposerParent in db.globState
    ensures FoldedTo(w, db, b, 0, db.globState[b.header.proposerParent])
  {
    assert b.content[..0] == [];
  }

  lemma FoldNext(w: World, db: Db, b: ProposerBlock, i: nat, s: Ledger)
    requires FoldedTo(w, db, b, i, s) && i < |b.content| && Referenced(db.txBlockPool, b) && Pooled(w, db.txBlockPool)
    ensures b.content[i] in db.txBlockPool
    ensures FoldedTo(w, db, b, i + 1, ApplyTxs(w, s, db.txBlockPool[b.content[i]].content))
  {
    assert b.content[..i + 1][..i] == b.content[..i];
  }

  lemma WorkStep(w: World, db: Db, k: Worker)
    requires w.Good() && SharedInv(w, db) && WorkerOk(w, db, k)
    ensures var (db', k') := WorkerStep(w, db, k);
            SharedInv(w, db') && Grows(db, db') && WorkerOk(w, db', k')
  {
    hide SharedInv, PcOk, ItemOk;
    if Storing(k.pc) {
      StoringStep(w, db, k);
      WorkerStays(w, db, WorkerStep(w, db, k).0, k);
    } else if Buffering(k.pc) {
      BufferingStep(w, db, k);
    } else {
      ReadingStep(w, db, k);
    }
  }

  /** The miner's list is concatenated, and yet it is the one a worker would write. */
  lemma MinedList(w: World, db: Db, p: H256, pointed: seq<H256>, content: seq<H256>)
    requires w.Good() && SharedInv(w, db) && Chosen(db, p, pointed, content) && p in db.chain.blocks
    ensures pointed + content == ExtendRefs(pointed, content)
  {
    hide ChainInv, AllStatesOk, WaitingOk, ExtendRefs;
    ListsDistinct(w, db, p);
    Supply.LoopIsConcatIffFiltered(pointed, content);
  }

  lemma {:induction false} ListsDistinct(w: World, db: Db, h: H256)
    requires SharedInv(w, db) && h in db.chain.blocks
    ensures h in db.txBlockRef && Distinct(db.txBlockRef[h])
    decreases db.chain.heights[h]
  {
    hide ApplyRefs, ExtendRefs, AllStatesOk, WaitingOk;
    assert RefOk(w, db, h);
    if h != w.Genesis() {
      var p := w.proposerOf(h).header.proposerParent;
      ListsDistinct(w, db, p);
      Supply.ExtendRefsLists(db.txBlockRef[p], w.proposerOf(h).content);
    }
  }

  lemma MinerStepInv(w: World, s: Sys, content: seq<H256>, header: Header)
    requires w.Good() && SharedInv(w, s.db) && MinerOk(w, s.db, s.miner) && Enabled(w, s, Mine(content, header))
    ensures var (db', m') := MinerStep(w, s.db, s.miner, content, header);
            SharedInv(w, db') && Grows(s.db, db') && MinerOk(w, db', m')
  {
    hide SharedInv, ApplyRefs, ExtendRefs, Supply.Filtered;
    var db := s.db;
    SharedFacts(w, db);
    match s.miner {
      case Build(_, _, _, _, _) => BuildStep(w, s, content, header);
      case PutRef(_, _, _) => MinerStores(w, db, s.miner);
      case FoldMined(b, i, st) =>
        if i < |b.content| {
          FoldNext(w, db, b, i, st);
        } else {
          assert FoldedTo(w, db, b, |b.content|, st);
        }
      case PruneMined(_, _) => MinerStores(w, db, s.miner);
      case PutState(_, _) => MinerStores(w, db, s.miner);
      case PutChain(_) => MinerStores(w, db, s.miner);
      case _ =>
    }
  }

  lemma MinerStores(w: World, db: Db, m: MinerPc)
    requires w.Good() && SharedInv(w, db) && MinerOk(w, db, m)
    requires m.PutRef? || m.PruneMined? || m.PutState? || m.PutChain?
    ensures forall content, header :: var (db', m') := MinerStep(w, db, m, content, header);
              SharedInv(w, db') && Grows(db, db') && MinerOk(w, db', m')
  {
    hide SharedInv, ApplyRefs, ExtendRefs, Inserted, Prune;
    match m {
      case PutRef(b, st, list) => PublishRef(w, db, b, list);
      case PruneMined(b, st) => PruneSection(w, db, Prune(db.txPool, st));
      case PutState(b, st) => PublishState(w, db, b, st);
      case PutChain(b) => PublishBlock(w, db, b);
    }
  }

  lemma BuildStep(w: World, s: Sys, content: seq<H256>, header: Header)
    requires w.Good() && SharedInv(w, s.db) && s.miner.Build? && MinerOk(w, s.db, s.miner)
    requires Enabled(w, s, Mine(content, header))
    ensures var (db', m') := MinerStep(w, s.db, s.miner, content, header);
            db' == s.db && MinerOk(w, s.db, m')
  {
    hide SharedInv, ApplyRefs, ExtendRefs, Supply.Filtered;
    var c, b := s.miner.content, ProposerBlock(header, s.miner.content);
    MinedList(w, s.db, s.miner.p, s.miner.pointed, c);
    NothingFolded(w, s.db, b);
  }

  /** Every action of every thread keeps the invariant, and nothing published changes. */
  lemma NextInv(w: World, s: Sys, a: Action)
    requires w.Good() && SysInv(w, s) && Enabled(w, s, a)
    ensures SysInv(w, Next(w, s, a)) && Grows(s.db, Next(w, s, a).db)
  {
    hide SharedInv, WorkerOk, MinerOk, WorkerStep, MinerStep;
    var s' := Next(w, s, a);
    match a {
      case Work(id) =>
        WorkStep(w, s.db, s.workers[id]);
      case Receive(id, bs) =>
        MessageOk(w, s.db, bs);
        GrowsSelf(s.db);
      case Mine(content, header) =>
        MinerStepInv(w, s, content, header);
      case ChangeTxPool(txPool) =>
        PruneSection(w, s.db, txPool);
      case AddTxBlock(tb) =>
        AddSection(w, s.db, tb);
    }
    if !a.Mine? {
      MinerStays(w, s.db, s'.db, s.miner);
    }
    forall id | id in s'.workers
      ensures WorkerOk(w, s'.db, s'.workers[id])
    {
      if !((a.Work? || a.Receive?) && a.id == id) {
        WorkerStays(w, s.db, s'.db, s.workers[id]);
      }
    }
  }

  lemma GrowsSelf(db: Db)
    ensures Grows(db, db)
  {
  }

  lemma MessageOk(w: World, db: Db, bs: seq<ProposerBlock>)
    requires forall b | b in bs :: Deliverable(w, db, b)
    ensures WorkerOk(w, db, Worker(Idle, Freshes(bs)))
  {
  }

  lemma AddSection(w: World, db: Db, tb: TXBlock)
    requires SharedInv(w, db) && w.TxBlockOccurs(tb)
    ensures var db' := db.(txBlockPool := db.txBlockPool[w.TxBlockHash(tb) := tb]);
            SharedInv(w, db') && Grows(db, db')
  {
    hide ChainInv, AllRefsOk, AllStatesOk, WaitingOk;
    var db' := db.(txBlockPool := db.txBlockPool[w.TxBlockHash(tb) := tb]);
    PoolsOnly(w, db, db');
  }

  lemma InitialInv(w: World, s: Sys)
    requires w.Good() && Initial(w, s)
    ensures SysInv(w, s)
  {
    hide ApplyRefs, ExtendRefs;
    NewChainInv(w);
  }

  lemma {:induction false} InterleavedInv(w: World, s: Sys, acts: seq<Action>)
    requires w.Good() && Initial(w, s) && Run(w, s, acts)
    ensures SysInv(w, After(w, s, acts))
  {
    hide SysInv, Next, Enabled;
    if acts == [] {
      InitialInv(w, s);
    } else {
      InterleavedInv(w, s, acts[..|acts| - 1]);
      NextInv(w, After(w, s, acts[..|acts| - 1]), acts[|acts| - 1]);
    }
  }

  // ---------------------------------------------------------------------------
  // The theorems

  /** What readers of the caches may see: the entries of the blocks in the chain. */
  function Visible(db: Db): Db {
    db.(globState := map h | h in db.globState && h in db.chain.blocks :: db.globState[h],
        txBlockRef := map h | h in db.txBlockRef && h in db.chain.blocks :: db.txBlockRef[h])
  }

  /** Seen through the chain, the caches of an interleaved run are those of an atomic one. */
  lemma VisibleInv(w: World, db: Db)
    requires SharedInv(w, db)
    ensures NodeInv(w, Visible(db))
  {
    hide ApplyRefs, ExtendRefs, ChainInv, AllRefsOk, AllStatesOk, Pooled, WaitingOk;
    VisibleWaiting(w, db);
    forall h | h in db.chain.blocks
      ensures EntryOk(w, Visible(db), h)
    {
      VisibleEntry(w, db, h);
    }
  }

  lemma VisibleWaiting(w: World, db: Db)
    requires WaitingOk(w, db)
    ensures Bucketed(w, db.orphans)
  {
    forall k, b | k in db.orphans && b in db.orphans[k]
      ensures w.Occurs(b) && b.header.proposerParent == k
    {
      assert Deliverable(w, db, b);
    }
  }

  lemma VisibleEntry(w: World, db: Db, h: H256)
    requires SharedInv(w, db) && h in db.chain.blocks
    ensures h in Visible(db).globState && h in Visible(db).txBlockRef && EntryOk(w, Visible(db), h)
  {
    hide ApplyRefs, ExtendRefs, ChainInv, WaitingOk, Pooled;
    assert RefOk(w, db, h) && StateOk(w, db, h);
  }

  /** In every reachable state of every interleaving, each block of the chain has a ledger
      that is the replay of its path from genesis, and the reference list of that path. */
  lemma InterleavedReplay(w: World, s: Sys, acts: seq<Action>, h: H256)
    requires w.Good() && Initial(w, s) && Run(w, s, acts)
    requires h in After(w, s, acts).db.chain.blocks
    ensures var db := After(w, s, acts).db;
            && ChainInv(w, db.chain)
            && h in db.globState && db.globState[h] == Replay(w, PathTo(w, db.chain, h))
            && h in db.txBlockRef && db.txBlockRef[h] == RefsAlong(w, PathTo(w, db.chain, h))
  {
    hide Run, After, Replay, RefsAlong, PathTo, SharedInv;
    InterleavedInv(w, s, acts);
    var db := After(w, s, acts).db;
    VisibleInv(w, db);
    VisibleChain(w, db);
    CachesReplay(w, Visible(db), h);
  }

  lemma VisibleChain(w: World, db: Db)
    requires SharedInv(w, db)
    ensures ChainInv(w, db.chain)
    ensures forall h :: h in db.chain.blocks ==>
              && h in db.globState && Visible(db).globState[h] == db.globState[h]
              && h in db.txBlockRef && Visible(db).txBlockRef[h] == db.txBlockRef[h]
  {
    hide ChainInv, AllRefsOk, AllStatesOk, WaitingOk;
  }

  /** No worker and no miner ever fails a lookup by parent, by tip or by reference. */
  lemma NoLookupFails(w: World, s: Sys, acts: seq<Action>)
    requires w.Good() && Initial(w, s) && Run(w, s, acts)
    ensures var s' := After(w, s, acts);
            && !s'.miner.MinerFailed?
            && forall id :: id in s'.workers ==> !s'.workers[id].pc.LookupFailed?
  {
    hide SharedInv, After, Run;
    InterleavedInv(w, s, acts);
    var s' := After(w, s, acts);
    forall id | id in s'.workers
      ensures !s'.workers[id].pc.LookupFailed?
    {
      assert WorkerOk(w, s'.db, s'.workers[id]);
    }
  }

  /** Whatever is written under a key once keeps its value: threads racing to store one
      block write equal values. */
  lemma {:induction false} WrittenOnce(w: World, s: Sys, acts: seq<Action>, n: nat)
    requires w.Good() && Initial(w, s) && Run(w, s, acts) && n <= |acts|
    ensures Grows(After(w, s, acts[..n]).db, After(w, s, acts).db)
    decreases |acts|
  {
    hide SysInv, Next, Enabled, Grows;
    if n == |acts| {
      assert acts[..n] == acts;
      GrowsSelf(After(w, s, acts).db);
    } else {
      var init := acts[..|acts| - 1];
      WrittenOnce(w, s, init, n);
      assert init[..n] == acts[..n];
      InterleavedInv(w, s, init);
      NextInv(w, After(w, s, init), acts[|acts| - 1]);
      GrowsTransitive(After(w, s, acts[..n]).db, After(w, s, init).db, After(w, s, acts).db);
    }
  }

  lemma GrowsTransitive(a: Db, b: Db, c: Db)
    requires Grows(a, b) && Grows(b, c)
    ensures Grows(a, c)
  {
  }

  /** Whoever read the tip at some moment can look up its block, its ledger and its list at
      any later one, and finds the values that were there when it was read. */
  lemma TipStaysReadable(w: World, s: Sys, acts: seq<Action>, n: nat)
    requires w.Good() && Initial(w, s) && Run(w, s, acts) && n <= |acts|
    ensures var early, now := After(w, s, acts[..n]).db, After(w, s, acts).db;
            var tip := early.chain.tip;
            && tip in early.chain.blocks && tip in now.chain.blocks && now.chain.blocks[tip] == early.chain.blocks[tip]
            && tip in early.globState && tip in now.globState && now.globState[tip] == early.globState[tip]
            && tip in early.txBlockRef && tip in now.txBlockRef && now.txBlockRef[tip] == early.txBlockRef[tip]
  {
    hide SharedInv, After, Run;
    RunPrefix(w, s, acts, n);
    InterleavedInv(w, s, acts[..n]);
    SharedFacts(w, After(w, s, acts[..n]).db);
    WrittenOnce(w, s, acts, n);
  }

  lemma {:induction false} RunPrefix(w: World, s: Sys, acts: seq<Action>, n: nat)
    requires Run(w, s, acts) && n <= |acts|
    ensures Run(w, s, acts[..n])
    decreases |acts|
  {
    hide Enabled;
    if n < |acts| {
      RunPrefix(w, s, acts[..|acts| - 1], n);
      assert acts[..|acts| - 1][..n] == acts[..n];
    } else {
      assert acts[..n] == acts;
    }
  }

  /** On every fork of every interleaving, the supply is 1000 for every address. */
  lemma InterleavedSupply(w: World, s: Sys, acts: seq<Action>, h: H256, allAddr: seq<H160>)
    requires w.Good() && Initial(w, s) && Run(w, s, acts)
    requires h in After(w, s, acts).db.chain.blocks
    requires |allAddr| < 0x1_0000_0000 && w.ico == IcoLedger(allAddr)
    requires ChainInv(w, After(w, s, acts).db.chain)
    requires AllGenerated(w, Supply.PathTxs(w, PathTo(w, After(w, s, acts).db.chain, h)))
    ensures h in After(w, s, acts).db.globState && Total(After(w, s, acts).db.globState[h]) == ICO_VALUE * |allAddr|
  {
    hide Run, After, SharedInv;
    InterleavedInv(w, s, acts);
    var db := After(w, s, acts).db;
    VisibleInv(w, db);
    VisibleChain(w, db);
    Supply.SupplyInNode(w, Visible(db), h, allAddr);
  }
}
