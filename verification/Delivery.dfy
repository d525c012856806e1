/** Delivery order does not matter: what a node holds after any sequence of messages and
    mining rounds, one at a time, is a function of the proposer blocks it got. */
module Delivery {
  import opened Types
  import opened Ledgers
  import opened Blockchains
  import opened Nodes

  /** One message with one item, or a block this node has mined. */
  datatype Event =
    | Proposer(b: ProposerBlock)
    | TxBlock(tb: TXBlock)
    | Tx(tx: SignedTransaction)
    | Mined(b: ProposerBlock)
    | MinedTx(tb: TXBlock)

  /** The miner stores a proposer block as Process does; a tx block it has mined joins the
      pool without a test. */
  function Handle(w: World, db: Db, e: Event): Db {
    match e
    case Proposer(b) => Deliver(w, db, b)
    case TxBlock(tb) => DeliverTxBlock(w, db, tb)
    case Tx(tx) => DeliverTx(w, db, db.chain.tip, tx)
    case Mined(b) => Process(w, db, b)
    case MinedTx(tb) => PoolTxBlock(w, db, tb)
  }

  function Run(w: World, es: seq<Event>): Db {
    if es == [] then InitDb(w) else Handle(w, Run(w, es[..|es| - 1]), es[|es| - 1])
  }

  /** The proposer blocks a node has got, and how. */
  datatype Sources = Sources(received: set<ProposerBlock>, mined: set<ProposerBlock>) {
    function Receiving(b: ProposerBlock): Sources {
      Sources(received + {b}, mined)
    }

    function Mining(b: ProposerBlock): Sources {
      Sources(received, mined + {b})
    }
  }

  /** What an event adds to the blocks a node has got. */
  function Adding(seen: Sources, e: Event): Sources {
    match e
    case Proposer(b) => seen.Receiving(b)
    case Mined(b) => seen.Mining(b)
    case _ => seen
  }

  function Delivered(es: seq<Event>): Sources {
    if es == [] then Sources({}, {}) else
      Adding(Delivered(es[..|es| - 1]), es[|es| - 1])
  }

  /** What is delivered occurs. A mined block has a parent in the chain and a small enough
      hash, and nobody has built on it before: no block waits for it. */
  predicate Proper(w: World, db: Db, e: Event) {
    match e
    case Proposer(b) => w.Occurs(b)
    case TxBlock(tb) => w.TxBlockOccurs(tb)
    case Tx(_) => true
    case Mined(b) => Insertable(w, db.chain, b) && PowOk(w, b) && w.Hash(b) !in db.orphans
    case MinedTx(tb) => w.TxBlockOccurs(tb)
  }

  predicate ProperRun(w: World, es: seq<Event>) {
    es != [] ==> ProperRun(w, es[..|es| - 1]) && Proper(w, Run(w, es[..|es| - 1]), es[|es| - 1])
  }

  // ---------------------------------------------------------------------------
  // What a set of blocks amounts to

  /** b passes the hash test, and was mined here, or received with correct signatures. */
  ghost predicate Genuine(w: World, seen: Sources, b: ProposerBlock) {
    PowOk(w, b) && (b in seen.mined || (b in seen.received && SigsOk(w, b)))
  }

  /** A parent chain from genesis, all of whose other blocks are genuine. */
  ghost predicate GoodPath(w: World, seen: Sources, p: seq<ProposerBlock>) {
    && p != [] && p[0] == w.genesis
    && forall i :: 0 < i < |p| ==> GoodLink(w, seen, p[i - 1], p[i])
  }

  ghost predicate GoodLink(w: World, seen: Sources, parent: ProposerBlock, b: ProposerBlock) {
    Genuine(w, seen, b) && w.Hash(b) != w.Genesis() && b.header.proposerParent == w.Hash(parent)
  }

  /** The plain replay of a path from the ICO ledger. */
  function Replay(w: World, p: seq<ProposerBlock>): Ledger {
    if |p| <= 1 then w.ico else ApplyRefs(w, Replay(w, p[..|p| - 1]), p[|p| - 1].content)
  }

  /** The references along a path, each listed where it first occurs. */
  function RefsAlong(w: World, p: seq<ProposerBlock>): seq<H256> {
    if |p| <= 1 then [] else ExtendRefs(RefsAlong(w, p[..|p| - 1]), p[|p| - 1].content)
  }

  /** Every entry of a node's caches is the replay of the block's path. */
  lemma {:induction false} CachesReplay(w: World, db: Db, h: H256)
    requires w.Good() && NodeInv(w, db) && h in db.chain.blocks
    ensures db.globState[h] == Replay(w, PathTo(w, db.chain, h))
    ensures db.txBlockRef[h] == RefsAlong(w, PathTo(w, db.chain, h))
    decreases db.chain.heights[h]
  {
    hide ApplyRefs, ExtendRefs, Bucketed, Pooled;
    assert EntryOk(w, db, h);
    if h != w.Genesis() {
      var p := db.chain.blocks[h].header.proposerParent;
      CachesReplay(w, db, p);
      PathExtends(w, db.chain, h);
      var q := PathTo(w, db.chain, p);
      assert (q + [db.chain.blocks[h]])[..|q|] == q;
    }
  }

  lemma PathExtends(w: World, c: Chain, h: H256)
    requires ChainInv(w, c) && h in c.blocks && h != w.Genesis()
    ensures c.blocks[h].header.proposerParent in c.blocks && c.blocks[h] == w.proposerOf(h)
    ensures PathTo(w, c, h) == PathTo(w, c, c.blocks[h].header.proposerParent) + [c.blocks[h]]
    ensures PathTo(w, c, c.blocks[h].header.proposerParent) != []
  {
  }

  // ---------------------------------------------------------------------------
  // The invariant of a run

  /** b is accounted for: in the chain, refused for its hash, or for a signature once its
      parent was there, still to be processed by a handler that is under way, or waiting
      under its parent's hash. */
  ghost predicate Accounted(w: World, db: Db, pending: set<ProposerBlock>, b: ProposerBlock) {
    || !PowOk(w, b)
    || (!SigsOk(w, b) && b.header.proposerParent in db.chain.blocks)
    || w.Hash(b) in db.chain.blocks
    || b in pending
    || Waiting(db, b)
  }

  ghost predicate Waiting(db: Db, b: ProposerBlock) {
    b.header.proposerParent in db.orphans && b in db.orphans[b.header.proposerParent]
  }

  ghost predicate Received(w: World, seen: Sources, b: ProposerBlock) {
    b in seen.received && w.Occurs(b) && PowOk(w, b)
  }

  ghost predicate AllAccounted(w: World, db: Db, seen: Sources, pending: set<ProposerBlock>) {
    forall b :: b in seen.received ==> w.Occurs(b) && Accounted(w, db, pending, b)
  }

  /** Blocks wait for something that is in the chain only under an open hash. */
  ghost predicate OpenOnly(db: Db, open: set<H256>) {
    forall k :: k in db.orphans && k in db.chain.blocks ==> k in open
  }

  ghost predicate WaitingReceived(w: World, orphans: map<H256, seq<ProposerBlock>>, seen: Sources) {
    forall k, b :: k in orphans && b in orphans[k] ==> Received(w, seen, b) && w.Hash(b) != w.Genesis()
  }

  ghost predicate HeldGenuine(w: World, c: Chain, seen: Sources) {
    forall h :: h in c.blocks && h != w.Genesis() ==> Genuine(w, seen, c.blocks[h])
  }

  ghost predicate MinedHeld(w: World, c: Chain, seen: Sources) {
    forall b :: b in seen.mined ==> w.Occurs(b) && w.Hash(b) in c.blocks
  }

  ghost predicate PendingReady(w: World, c: Chain, seen: Sources, pending: set<ProposerBlock>) {
    forall b :: b in pending ==> Received(w, seen, b) && b.header.proposerParent in c.blocks
  }

  /** `pending` are the blocks a handler has taken out of the buffer and not yet processed;
      `open` is the hash a handler has just added to the chain, if any. */
  ghost predicate RunInv(w: World, db: Db, seen: Sources, pending: set<ProposerBlock>, open: set<H256>) {
    && NodeInv(w, db)
    && AllAccounted(w, db, seen, pending)
    && OpenOnly(db, open)
    && WaitingReceived(w, db.orphans, seen)
    && HeldGenuine(w, db.chain, seen)
    && MinedHeld(w, db.chain, seen)
    && PendingReady(w, db.chain, seen, pending)
  }

  lemma StartInv(w: World)
    requires w.Good()
    ensures RunInv(w, InitDb(w), Sources({}, {}), {}, {})
  {
    InitInv(w);
  }

  /** Storing a block opens its own hash, and only that. */
  lemma StoreInv(w: World, db: Db, seen: Sources, pending: set<ProposerBlock>, b: ProposerBlock)
    requires w.Good() && RunInv(w, db, seen, pending, {})
    requires Received(w, seen, b) && SigsOk(w, b) && b.header.proposerParent in db.chain.blocks
    ensures RunInv(w, Process(w, db, b), seen, pending, {w.Hash(b)})
    ensures w.Hash(b) in Process(w, db, b).chain.blocks && db.chain.blocks.Keys <= Process(w, db, b).chain.blocks.Keys
    ensures Process(w, db, b).orphans == db.orphans
  {
    hide NodeInv, SigsOk, PowOk, Process, AllAccounted, WaitingReceived, HeldGenuine, PendingReady, MinedHeld;
    NodeParts(w, db);
    ProcessStep(w, db, b);
    ProcessOrphans(w, db, b);
    var db' := Process(w, db, b);
    ChainGrows(w, db, db', seen, pending);
    HeldGrows(w, db.chain, db'.chain, seen, seen, b);
  }

  /** What only depends on blocks being there survives when the chain grows. */
  lemma ChainGrows(w: World, db: Db, db': Db, seen: Sources, pending: set<ProposerBlock>)
    requires db.chain.blocks.Keys <= db'.chain.blocks.Keys && db'.orphans == db.orphans
    requires AllAccounted(w, db, seen, pending) && PendingReady(w, db.chain, seen, pending)
    requires MinedHeld(w, db.chain, seen)
    ensures AllAccounted(w, db', seen, pending) && PendingReady(w, db'.chain, seen, pending)
    ensures MinedHeld(w, db'.chain, seen)
  {
    hide SigsOk, PowOk;
    forall x | x in seen.received
      ensures Accounted(w, db', pending, x)
    {
      assert Accounted(w, db, pending, x);
    }
  }

  lemma HeldGrows(w: World, c: Chain, c': Chain, seen: Sources, seen': Sources, b: ProposerBlock)
    requires HeldGenuine(w, c, seen) && seen.received <= seen'.received && seen.mined <= seen'.mined
    requires Genuine(w, seen', b) && c'.blocks == c.blocks[w.Hash(b) := b]
    ensures HeldGenuine(w, c', seen')
  {
    hide SigsOk, PowOk;
  }

  lemma NodeParts(w: World, db: Db)
    requires NodeInv(w, db)
    ensures ChainInv(w, db.chain) && Cached(w, db) && Bucketed(w, db.orphans)
    ensures forall h :: h in db.chain.blocks ==>
              db.chain.blocks[h] == w.proposerOf(h) && w.Hash(db.chain.blocks[h]) == h
    ensures w.Genesis() in db.chain.blocks
  {
    hide Cached, Bucketed, Pooled;
  }

  lemma ProcessOrphans(w: World, db: Db, b: ProposerBlock)
    ensures Process(w, db, b).orphans == db.orphans
  {
  }

  /** Taking a bucket out of the buffer makes its blocks pending. */
  lemma TakeOutInv(w: World, db: Db, seen: Sources, pending: set<ProposerBlock>, h: H256)
    requires RunInv(w, db, seen, pending, {h}) && h in db.chain.blocks && h in db.orphans
    ensures RunInv(w, db.(orphans := db.orphans - {h}), seen, pending + (set b | b in db.orphans[h]), {})
  {
    hide SigsOk, PowOk, ChainInv, Cached;
    var db' := db.(orphans := db.orphans - {h});
    var pending' := pending + (set b | b in db.orphans[h]);
    CachesApart(w, db, db');
    forall x | x in seen.received
      ensures Accounted(w, db', pending', x)
    {
      assert Accounted(w, db, pending, x);
    }
  }

  /** A pending block that is in the chain by now, or badly signed, is settled. */
  lemma SettleInv(w: World, db: Db, seen: Sources, pending: set<ProposerBlock>, pending': set<ProposerBlock>)
    requires RunInv(w, db, seen, pending, {}) && pending' <= pending
    requires forall b :: b in pending - pending' ==> w.Hash(b) in db.chain.blocks || !SigsOk(w, b)
    ensures RunInv(w, db, seen, pending', {})
  {
    hide NodeInv, SigsOk, PowOk;
    forall x | x in seen.received
      ensures Accounted(w, db, pending', x)
    {
      assert Accounted(w, db, pending, x);
      if x in pending && x !in pending' {
        assert x in pending - pending';
      }
    }
  }

  lemma NewParentInv(w: World, db: Db, seen: Sources, pending: set<ProposerBlock>, b: ProposerBlock)
    requires w.Good() && RunInv(w, db, seen, pending, {w.Hash(b)}) && w.Hash(b) in db.chain.blocks
    ensures RunInv(w, NewParent(w, db, b), seen, pending, {})
    ensures db.chain.blocks.Keys <= NewParent(w, db, b).chain.blocks.Keys
    decreases db.orphans.Keys, 0
  {
    hide NodeInv, SigsOk, PowOk, Process;
    var h := w.Hash(b);
    if h in db.orphans {
      TakeOutInv(w, db, seen, pending, h);
      AdoptInv(w, db.(orphans := db.orphans - {h}), seen, pending, db.orphans[h]);
    }
  }

  lemma AdoptInv(w: World, db: Db, seen: Sources, pending: set<ProposerBlock>, kids: seq<ProposerBlock>)
    requires w.Good() && RunInv(w, db, seen, pending + (set b | b in kids), {})
    ensures RunInv(w, Adopt(w, db, kids), seen, pending, {})
    ensures db.chain.blocks.Keys <= Adopt(w, db, kids).chain.blocks.Keys
    decreases db.orphans.Keys, |kids|
  {
    hide NodeInv, SigsOk, PowOk, Process;
    if kids == [] {
      assert pending + (set b | b in kids) == pending;
    } else {
      var all := pending + (set b | b in kids);
      var db1 := AdoptOne(w, db, kids);
      AdoptOneInv(w, db, seen, all, kids);
      var rest := pending + (set b | b in kids[1..]);
      assert forall b :: b in kids ==> b == kids[0] || b in kids[1..];
      SettleInv(w, db1, seen, all, rest);
      AdoptInv(w, db1, seen, pending, kids[1..]);
    }
  }

  lemma AdoptOneInv(w: World, db: Db, seen: Sources, all: set<ProposerBlock>, kids: seq<ProposerBlock>)
    requires w.Good() && kids != [] && RunInv(w, db, seen, all, {}) && kids[0] in all
    ensures RunInv(w, AdoptOne(w, db, kids), seen, all, {})
    ensures db.chain.blocks.Keys <= AdoptOne(w, db, kids).chain.blocks.Keys
    ensures w.Hash(kids[0]) in AdoptOne(w, db, kids).chain.blocks || !SigsOk(w, kids[0])
    decreases db.orphans.Keys, |kids|, 0
  {
    hide NodeInv, SigsOk, PowOk, Process;
    var c := kids[0];
    if SigsOk(w, c) {
      StoreInv(w, db, seen, all, c);
      NewParentInv(w, Process(w, db, c), seen, all, c);
    }
  }

  lemma BufferInv(w: World, db: Db, seen: Sources, b: ProposerBlock)
    requires RunInv(w, db, seen, {}, {}) && w.Occurs(b) && PowOk(w, b)
    requires b.header.proposerParent !in db.chain.blocks && w.Hash(b) != w.Genesis()
    ensures RunInv(w, db.(orphans := Buffer(db.orphans, b)), seen.Receiving(b), {}, {})
  {
    hide SigsOk, PowOk, NodeInv, Buffer;
    var db' := db.(orphans := Buffer(db.orphans, b));
    BufferOne(db.orphans, b);
    BufferKeepsInv(w, db, b);
    ReceivedMore(w, db, seen, b);
    forall x | x in seen.Receiving(b).received
      ensures Accounted(w, db', {}, x)
    {
      if x in seen.received {
        assert Accounted(w, db, {}, x);
      }
    }
    forall k, x | k in db'.orphans && x in db'.orphans[k]
      ensures Received(w, seen.Receiving(b), x) && w.Hash(x) != w.Genesis()
    {
    }
  }

  lemma BufferKeepsInv(w: World, db: Db, b: ProposerBlock)
    requires NodeInv(w, db) && w.Occurs(b)
    ensures NodeInv(w, db.(orphans := Buffer(db.orphans, b)))
  {
    hide ChainInv, Cached, Buffer;
    BufferOne(db.orphans, b);
    CachesApart(w, db, db.(orphans := Buffer(db.orphans, b)));
  }

  /** Buffering adds one block under its parent's hash, at the end. */
  lemma BufferOne(orphans: map<H256, seq<ProposerBlock>>, b: ProposerBlock)
    ensures Buffer(orphans, b).Keys == orphans.Keys + {b.header.proposerParent}
    ensures forall k, x :: k in Buffer(orphans, b) && x in Buffer(orphans, b)[k] <==>
              (k in orphans && x in orphans[k]) || (k == b.header.proposerParent && x == b)
  {
  }

  lemma SeenGrows(w: World, db: Db, seen: Sources, b: ProposerBlock)
    requires RunInv(w, db, seen, {}, {}) && w.Occurs(b)
    requires || !PowOk(w, b) || w.Hash(b) in db.chain.blocks
             || (!SigsOk(w, b) && b.header.proposerParent in db.chain.blocks)
    ensures RunInv(w, db, seen.Receiving(b), {}, {})
  {
    hide NodeInv, SigsOk, PowOk;
    ReceivedMore(w, db, seen, b);
  }

  lemma ReceivedMore(w: World, db: Db, seen: Sources, b: ProposerBlock)
    requires RunInv(w, db, seen, {}, {})
    ensures WaitingReceived(w, db.orphans, seen.Receiving(b))
  {
    forall k, x | k in db.orphans && x in db.orphans[k]
      ensures Received(w, seen.Receiving(b), x) && w.Hash(x) != w.Genesis()
    {
      assert Received(w, seen, x);
    }
  }

  lemma GenesisHeld(w: World, db: Db, seen: Sources)
    requires RunInv(w, db, seen, {}, {})
    ensures w.Genesis() in db.chain.blocks
  {
    hide Cached, Bucketed, Pooled;
  }

  /** One delivered proposer block. */
  lemma DeliverInv(w: World, db: Db, seen: Sources, b: ProposerBlock)
    requires w.Good() && RunInv(w, db, seen, {}, {}) && w.Occurs(b)
    ensures RunInv(w, Deliver(w, db, b), seen.Receiving(b), {}, {})
  {
    hide NodeInv, SigsOk, Process, Buffer, NewParent;
    if w.Hash(b) in db.chain.blocks || !PowOk(w, b) {
      SeenGrows(w, db, seen, b);
    } else if b.header.proposerParent !in db.chain.blocks {
      GenesisHeld(w, db, seen);
      BufferInv(w, db, seen, b);
    } else if !SigsOk(w, b) {
      SeenGrows(w, db, seen, b);
    } else {
      PendingInv(w, db, seen, b);
      StoreInv(w, db, seen.Receiving(b), {b}, b);
      NewParentInv(w, Process(w, db, b), seen.Receiving(b), {b}, b);
      SettleInv(w, NewParent(w, Process(w, db, b), b), seen.Receiving(b), {b}, {});
    }
  }

  lemma PendingInv(w: World, db: Db, seen: Sources, b: ProposerBlock)
    requires RunInv(w, db, seen, {}, {}) && w.Occurs(b) && PowOk(w, b) && b.header.proposerParent in db.chain.blocks
    ensures RunInv(w, db, seen.Receiving(b), {b}, {})
  {
    hide NodeInv, SigsOk, PowOk;
    ReceivedMore(w, db, seen, b);
    forall x | x in seen.Receiving(b).received
      ensures Accounted(w, db, {b}, x)
    {
      if x in seen.received {
        assert Accounted(w, db, {}, x);
      }
    }
  }

  /** A mined block joins the chain; nothing waits for it. */
  lemma MinedInv(w: World, db: Db, seen: Sources, b: ProposerBlock)
    requires w.Good() && RunInv(w, db, seen, {}, {}) && Proper(w, db, Mined(b))
    ensures RunInv(w, Process(w, db, b), seen.Mining(b), {}, {})
  {
    hide NodeInv, SigsOk, PowOk, Process, AllAccounted, WaitingReceived, HeldGenuine, PendingReady, MinedHeld, OpenOnly;
    NodeParts(w, db);
    ProcessStep(w, db, b);
    ProcessOrphans(w, db, b);
    var db' := Process(w, db, b);
    ChainGrows(w, db, db', seen, {});
    HeldGrows(w, db.chain, db'.chain, seen, seen.Mining(b), b);
    MinedMore(w, db', seen, b);
    NothingOpens(w, db, db', b);
  }

  lemma NothingOpens(w: World, db: Db, db': Db, b: ProposerBlock)
    requires OpenOnly(db, {}) && db'.orphans == db.orphans && w.Hash(b) !in db.orphans
    requires db'.chain.blocks == db.chain.blocks[w.Hash(b) := b]
    ensures OpenOnly(db', {})
  {
  }

  lemma MinedMore(w: World, db: Db, seen: Sources, b: ProposerBlock)
    requires AllAccounted(w, db, seen, {}) && WaitingReceived(w, db.orphans, seen)
    requires MinedHeld(w, db.chain, seen) && w.Occurs(b) && w.Hash(b) in db.chain.blocks
    ensures AllAccounted(w, db, seen.Mining(b), {}) && WaitingReceived(w, db.orphans, seen.Mining(b))
    ensures MinedHeld(w, db.chain, seen.Mining(b)) && PendingReady(w, db.chain, seen.Mining(b), {})
  {
    hide SigsOk, PowOk, Accounted;
    forall k, x | k in db.orphans && x in db.orphans[k]
      ensures Received(w, seen.Mining(b), x) && w.Hash(x) != w.Genesis()
    {
      assert Received(w, seen, x);
    }
  }

  /** The other messages touch neither the chain, nor the buffer, nor the caches. */
  lemma PoolsInv(w: World, db: Db, db': Db, seen: Sources)
    requires RunInv(w, db, seen, {}, {}) && Pooled(w, db'.txBlockPool)
    requires db' == db.(txPool := db'.txPool, txBlockPool := db'.txBlockPool)
    ensures RunInv(w, db', seen, {}, {})
  {
    hide SigsOk, PowOk, ChainInv, Cached;
    CachesApart(w, db, db');
    forall x | x in seen.received
      ensures Accounted(w, db', {}, x)
    {
      assert Accounted(w, db, {}, x);
    }
  }

  lemma {:induction false} InvAfter(w: World, es: seq<Event>)
    requires w.Good() && ProperRun(w, es)
    ensures RunInv(w, Run(w, es), Delivered(es), {}, {})
  {
    hide RunInv, Deliver, Handle;
    if es == [] {
      StartInv(w);
    } else {
      var init, e := es[..|es| - 1], es[|es| - 1];
      InvAfter(w, init);
      EventInv(w, Run(w, init), Delivered(init), e);
    }
  }

  lemma EventInv(w: World, db: Db, seen: Sources, e: Event)
    requires w.Good() && RunInv(w, db, seen, {}, {}) && Proper(w, db, e)
    ensures RunInv(w, Handle(w, db, e), Adding(seen, e), {}, {})
  {
    hide RunInv, Deliver, Process, Pooled, PowOk;
    match e {
      case Proposer(b) =>
        DeliverInv(w, db, seen, b);
      case TxBlock(tb) =>
        TxBlockPooled(w, db, seen, tb);
        PoolsInv(w, db, DeliverTxBlock(w, db, tb), seen);
      case Tx(tx) =>
        PooledPart(w, db, seen);
        PoolsInv(w, db, DeliverTx(w, db, db.chain.tip, tx), seen);
      case Mined(b) =>
        MinedInv(w, db, seen, b);
      case MinedTx(tb) =>
        TxBlockPooled(w, db, seen, tb);
        PoolsInv(w, db, PoolTxBlock(w, db, tb), seen);
    }
  }

  lemma TxBlockPooled(w: World, db: Db, seen: Sources, tb: TXBlock)
    requires RunInv(w, db, seen, {}, {}) && w.TxBlockOccurs(tb)
    ensures Pooled(w, DeliverTxBlock(w, db, tb).txBlockPool) && Pooled(w, PoolTxBlock(w, db, tb).txBlockPool)
  {
  }

  lemma PooledPart(w: World, db: Db, seen: Sources)
    requires RunInv(w, db, seen, {}, {})
    ensures Pooled(w, db.txBlockPool)
  {
  }

  // ---------------------------------------------------------------------------
  // The theorems

  /** The chain holds a good path for each of its blocks. */
  lemma HeldIsGood(w: World, db: Db, seen: Sources, h: H256)
    requires w.Good() && RunInv(w, db, seen, {}, {}) && h in db.chain.blocks
    ensures GoodPath(w, seen, PathTo(w, db.chain, h)) && EndsAt(w, PathTo(w, db.chain, h), h)
    ensures var p := PathTo(w, db.chain, h);
            forall i :: 0 < i < |p| ==> w.Hash(p[i]) <= p[i].header.proposerDifficulty
  {
    hide SigsOk, PathTo, Cached, Bucketed, Pooled;
    var p := PathTo(w, db.chain, h);
    forall i | 0 < i < |p|
      ensures GoodLink(w, seen, p[i - 1], p[i])
    {
      PathShape(w, db.chain, h, i);
    }
    forall i | 0 < i < |p|
      ensures w.Hash(p[i]) <= p[i].header.proposerDifficulty
    {
      assert GoodLink(w, seen, p[i - 1], p[i]);
    }
  }

  /** The chain holds p's last block, and p is the path it has to it. */
  ghost predicate HasPath(w: World, c: Chain, p: seq<ProposerBlock>) {
    && ChainInv(w, c) && p != []
    && w.Hash(p[|p| - 1]) in c.blocks
    && PathTo(w, c, w.Hash(p[|p| - 1])) == p
  }

  /** Every good path is in the chain, and is the path the chain has to its last block. */
  lemma {:induction false} GoodIsHeld(w: World, db: Db, seen: Sources, p: seq<ProposerBlock>)
    requires w.Good() && RunInv(w, db, seen, {}, {}) && GoodPath(w, seen, p)
    ensures HasPath(w, db.chain, p)
    decreases |p|
  {
    hide RunInv, HasPath, GoodLink, GoodPath;
    GoodPrefix(w, seen, p);
    if |p| == 1 {
      ChainOf(w, db, seen);
      GenesisPath(w, db.chain);
    } else {
      var q, b := p[..|p| - 1], p[|p| - 1];
      GoodIsHeld(w, db, seen, q);
      GoodStep(w, db, seen, q, b);
      SplitLast(p);
    }
  }

  lemma SplitLast<T>(p: seq<T>)
    requires p != []
    ensures p == p[..|p| - 1] + [p[|p| - 1]]
  {
  }

  lemma GoodStep(w: World, db: Db, seen: Sources, q: seq<ProposerBlock>, b: ProposerBlock)
    requires w.Good() && RunInv(w, db, seen, {}, {}) && HasPath(w, db.chain, q)
    requires q != [] && GoodLink(w, seen, q[|q| - 1], b)
    ensures HasPath(w, db.chain, q + [b])
  {
    hide RunInv, PathTo, GoodLink, ChainInv;
    LinkIsHeld(w, db, seen, q[|q| - 1], b);
    PathExtends(w, db.chain, w.Hash(b));
  }

  lemma GoodPrefix(w: World, seen: Sources, p: seq<ProposerBlock>)
    requires GoodPath(w, seen, p)
    ensures p != []
    ensures |p| == 1 ==> p == [w.genesis]
    ensures |p| > 1 ==> GoodPath(w, seen, p[..|p| - 1]) && GoodLink(w, seen, p[|p| - 2], p[|p| - 1])
  {
    hide GoodLink;
    if |p| > 1 {
      assert GoodLink(w, seen, p[|p| - 1 - 1], p[|p| - 1]);
      var q := p[..|p| - 1];
      forall i | 0 < i < |q|
        ensures GoodLink(w, seen, q[i - 1], q[i])
      {
        assert GoodLink(w, seen, p[i - 1], p[i]);
      }
    }
  }

  lemma ChainOf(w: World, db: Db, seen: Sources)
    requires RunInv(w, db, seen, {}, {})
    ensures NodeInv(w, db) && ChainInv(w, db.chain) && Cached(w, db) && w.Genesis() in db.chain.blocks
  {
    hide SigsOk, PowOk, Cached, Bucketed, Pooled;
  }

  lemma GenesisPath(w: World, c: Chain)
    requires w.Good() && ChainInv(w, c)
    ensures HasPath(w, c, [w.genesis])
  {
  }

  lemma LinkIsHeld(w: World, db: Db, seen: Sources, parent: ProposerBlock, b: ProposerBlock)
    requires RunInv(w, db, seen, {}, {}) && GoodLink(w, seen, parent, b) && w.Hash(parent) in db.chain.blocks
    ensures w.Hash(b) in db.chain.blocks && db.chain.blocks[w.Hash(b)] == b
    ensures b.header.proposerParent == w.Hash(parent) && w.Hash(b) != w.Genesis()
  {
    hide SigsOk, PowOk, NodeInv;
    NodeParts(w, db);
    assert Accounted(w, db, {}, b);
  }

  /** What a node holds for one good path: its last block, at the path's length, with the
      replayed ledger and the collected references. */
  ghost predicate HoldsPath(w: World, db: Db, p: seq<ProposerBlock>) {
    && p != []
    && var h := w.Hash(p[|p| - 1]);
    && h in db.chain.blocks && db.chain.blocks[h] == p[|p| - 1]
    && h in db.chain.heights && db.chain.heights[h] == |p| - 1
    && h in db.globState && db.globState[h] == Replay(w, p)
    && h in db.txBlockRef && db.txBlockRef[h] == RefsAlong(w, p)
  }

  /** The buffered blocks are exactly the delivered ones that pass the hash test and whose
      parent is not in the chain, each under its parent's hash. */
  ghost predicate OrphansWait(w: World, db: Db, seen: Sources) {
    && (forall k, b :: k in db.orphans && b in db.orphans[k] ==> b.header.proposerParent == k)
    && forall b :: Waiting(db, b) <==> Orphan(w, db, seen, b)
  }

  ghost predicate Orphan(w: World, db: Db, seen: Sources, b: ProposerBlock) {
    b in seen.received && PowOk(w, b) && w.Hash(b) != w.Genesis() && b.header.proposerParent !in db.chain.blocks
  }

  ghost predicate EndsAt(w: World, p: seq<ProposerBlock>, h: H256) {
    p != [] && w.Hash(p[|p| - 1]) == h
  }

  /** The node holds exactly the good paths over the blocks seen. */
  ghost predicate HoldsExactly(w: World, db: Db, seen: Sources) {
    && (forall p :: GoodPath(w, seen, p) ==> HoldsPath(w, db, p))
    && (forall h :: h in db.chain.blocks ==> exists p :: GoodPath(w, seen, p) && EndsAt(w, p, h))
    && db.chain.heights.Keys == db.globState.Keys == db.txBlockRef.Keys == db.chain.blocks.Keys
    && db.chain.tip in db.chain.heights && db.chain.heights[db.chain.tip] == db.chain.longest
    && (forall h :: h in db.chain.heights ==> db.chain.heights[h] <= db.chain.longest)
  }

  /** After any deliveries, in any order and with repeats, the node holds exactly the good
      paths over the blocks delivered, and nothing waits for a block that is there. */
  lemma DeliveredExactly(w: World, es: seq<Event>)
    requires w.Good() && ProperRun(w, es)
    ensures HoldsExactly(w, Run(w, es), Delivered(es))
    ensures OrphansWait(w, Run(w, es), Delivered(es))
  {
    hide RunInv, Run, HoldsExactly;
    InvAfter(w, es);
    InvHolds(w, Run(w, es), Delivered(es));
    Buffered(w, Run(w, es), Delivered(es));
  }

  lemma InvHolds(w: World, db: Db, seen: Sources)
    requires w.Good() && RunInv(w, db, seen, {}, {})
    ensures HoldsExactly(w, db, seen)
  {
    hide RunInv, GoodPath, HoldsPath, NodeInv, ChainInv, Cached, EndsAt;
    forall p | GoodPath(w, seen, p)
      ensures HoldsPath(w, db, p)
    {
      HeldPath(w, db, seen, p);
    }
    forall h | h in db.chain.blocks
      ensures exists p :: GoodPath(w, seen, p) && EndsAt(w, p, h)
    {
      SomeGoodPath(w, db, seen, h);
    }
    ChainOf(w, db, seen);
    CachedKeys(w, db);
    SameKeys(w, db.chain);
    TipHeight(w, db.chain);
  }

  lemma SomeGoodPath(w: World, db: Db, seen: Sources, h: H256)
    requires w.Good() && RunInv(w, db, seen, {}, {}) && h in db.chain.blocks
    ensures exists p :: GoodPath(w, seen, p) && EndsAt(w, p, h)
  {
    hide RunInv, GoodPath, EndsAt, PathTo;
    ChainOf(w, db, seen);
    HeldIsGood(w, db, seen, h);
  }

  lemma HeldPath(w: World, db: Db, seen: Sources, p: seq<ProposerBlock>)
    requires w.Good() && RunInv(w, db, seen, {}, {}) && GoodPath(w, seen, p)
    ensures HoldsPath(w, db, p)
  {
    hide RunInv, PathTo, Replay, RefsAlong, Cached, Bucketed, Pooled;
    ChainOf(w, db, seen);
    GoodIsHeld(w, db, seen, p);
    var h := w.Hash(p[|p| - 1]);
    CachesReplay(w, db, h);
    PathShape(w, db.chain, h, |p| - 1);
    CachedKeys(w, db);
  }

  lemma Buffered(w: World, db: Db, seen: Sources)
    requires RunInv(w, db, seen, {}, {})
    ensures OrphansWait(w, db, seen)
  {
    hide RunInv, Waiting, Orphan;
    BucketKeys(w, db, seen);
    forall b
      ensures Waiting(db, b) <==> Orphan(w, db, seen, b)
    {
      if Waiting(db, b) {
        WaitingIsOrphan(w, db, seen, b);
      }
      if Orphan(w, db, seen, b) {
        OrphanIsWaiting(w, db, seen, b);
      }
    }
  }

  lemma BucketKeys(w: World, db: Db, seen: Sources)
    requires RunInv(w, db, seen, {}, {})
    ensures forall k, b :: k in db.orphans && b in db.orphans[k] ==> b.header.proposerParent == k
  {
    hide SigsOk, PowOk, ChainInv, Cached, Pooled, AllAccounted, HeldGenuine, PendingReady, WaitingReceived, OpenOnly;
  }

  lemma WaitingIsOrphan(w: World, db: Db, seen: Sources, b: ProposerBlock)
    requires RunInv(w, db, seen, {}, {}) && Waiting(db, b)
    ensures Orphan(w, db, seen, b)
  {
    hide SigsOk, PowOk, NodeInv, AllAccounted, HeldGenuine, PendingReady;
    assert Received(w, seen, b);
  }

  /** What was delivered and passes the hash test is never lost: until its parent comes it waits. */
  lemma OrphanIsWaiting(w: World, db: Db, seen: Sources, b: ProposerBlock)
    requires RunInv(w, db, seen, {}, {}) && Orphan(w, db, seen, b)
    ensures Waiting(db, b)
  {
    hide SigsOk, PowOk, NodeInv, HeldGenuine, PendingReady, WaitingReceived, OpenOnly;
    NodeParts(w, db);
    assert Accounted(w, db, {}, b);
    if w.Hash(b) in db.chain.blocks {
      HeldHasParent(w, db.chain, b);
    }
  }

  lemma HeldHasParent(w: World, c: Chain, b: ProposerBlock)
    requires ChainInv(w, c) && w.Occurs(b) && w.Hash(b) in c.blocks && w.Hash(b) != w.Genesis()
    ensures b.header.proposerParent in c.blocks
  {
  }

  /** Order independence: two nodes that got the same genuine blocks, each its own way, hold
      the same chain, ledgers and reference lists, and can differ only in which equally high
      tip they chose; if they got the same blocks altogether, the same blocks wait. */
  lemma OrderIndependence(w: World, es: seq<Event>, es': seq<Event>)
    requires w.Good() && ProperRun(w, es) && ProperRun(w, es')
    requires forall b :: Genuine(w, Delivered(es), b) <==> Genuine(w, Delivered(es'), b)
    ensures var db, db' := Run(w, es), Run(w, es');
            && db.chain.blocks == db'.chain.blocks
            && db.chain.heights == db'.chain.heights
            && db.chain.longest == db'.chain.longest
            && db.globState == db'.globState
            && db.txBlockRef == db'.txBlockRef
            && db'.chain.tip in db.chain.heights && db.chain.heights[db'.chain.tip] == db.chain.longest
    ensures SameBlocks(Delivered(es), Delivered(es')) ==>
              forall b :: Waiting(Run(w, es), b) <==> Waiting(Run(w, es'), b)
  {
    hide Run, HoldsExactly, Genuine, SameBlocks, RunInv, Delivered;
    InvAfter(w, es);
    InvAfter(w, es');
    InvHolds(w, Run(w, es), Delivered(es));
    InvHolds(w, Run(w, es'), Delivered(es'));
    GenuineIsEnough(w, Run(w, es'), Delivered(es), Delivered(es'));
    SameHoldings(w, Run(w, es), Run(w, es'), Delivered(es));
    if SameBlocks(Delivered(es), Delivered(es')) {
      SameWaiting(w, Run(w, es), Run(w, es'), Delivered(es), Delivered(es'));
    }
  }

  ghost predicate SameBlocks(seen: Sources, seen': Sources) {
    seen.received + seen.mined == seen'.received + seen'.mined
  }

  /** Good paths depend on the genuine blocks only. */
  lemma GenuineIsEnough(w: World, db: Db, seen: Sources, seen': Sources)
    requires HoldsExactly(w, db, seen') && forall b :: Genuine(w, seen, b) <==> Genuine(w, seen', b)
    ensures HoldsExactly(w, db, seen)
  {
    hide Genuine, HoldsPath, EndsAt, GoodPath;
    forall p
      ensures GoodPath(w, seen, p) <==> GoodPath(w, seen', p)
    {
      if GoodPath(w, seen, p) {
        SamePath(w, seen, seen', p);
      }
      if GoodPath(w, seen', p) {
        SamePath(w, seen', seen, p);
      }
    }
  }

  lemma SamePath(w: World, seen: Sources, seen': Sources, p: seq<ProposerBlock>)
    requires GoodPath(w, seen, p) && forall b :: Genuine(w, seen, b) <==> Genuine(w, seen', b)
    ensures GoodPath(w, seen', p)
  {
    hide Genuine;
    forall i | 0 < i < |p|
      ensures GoodLink(w, seen', p[i - 1], p[i])
    {
      assert GoodLink(w, seen, p[i - 1], p[i]);
    }
  }

  lemma SameWaiting(w: World, db: Db, db': Db, seen: Sources, seen': Sources)
    requires RunInv(w, db, seen, {}, {}) && RunInv(w, db', seen', {}, {})
    requires db.chain.blocks == db'.chain.blocks && SameBlocks(seen, seen')
    ensures forall b :: Waiting(db, b) <==> Waiting(db', b)
  {
    hide RunInv, Waiting, Orphan;
    forall b
      ensures Waiting(db, b) <==> Waiting(db', b)
    {
      if Waiting(db, b) {
        WaitsToo(w, db, db', seen, seen', b);
      }
      if Waiting(db', b) {
        WaitsToo(w, db', db, seen', seen, b);
      }
    }
  }

  lemma WaitsToo(w: World, db: Db, db': Db, seen: Sources, seen': Sources, b: ProposerBlock)
    requires RunInv(w, db, seen, {}, {}) && RunInv(w, db', seen', {}, {})
    requires db.chain.blocks == db'.chain.blocks && SameBlocks(seen, seen') && Waiting(db, b)
    ensures Waiting(db', b)
  {
    hide RunInv, Waiting, PowOk;
    WaitingIsOrphan(w, db, seen, b);
    if b in seen'.mined {
      MinedHasParent(w, db', seen', b);
    }
    OrphanIsWaiting(w, db', seen', b);
  }

  lemma MinedHasParent(w: World, db: Db, seen: Sources, b: ProposerBlock)
    requires RunInv(w, db, seen, {}, {}) && b in seen.mined && w.Hash(b) != w.Genesis()
    ensures b.header.proposerParent in db.chain.blocks
  {
    hide SigsOk, PowOk, NodeInv, AllAccounted, WaitingReceived, PendingReady, OpenOnly, HeldGenuine;
    NodeParts(w, db);
    HeldHasParent(w, db.chain, b);
  }

  lemma SameHoldings(w: World, db: Db, db': Db, seen: Sources)
    requires HoldsExactly(w, db, seen) && HoldsExactly(w, db', seen)
    ensures db.chain.blocks == db'.chain.blocks && db.chain.heights == db'.chain.heights
    ensures db.globState == db'.globState && db.txBlockRef == db'.txBlockRef
    ensures db.chain.longest == db'.chain.longest
    ensures db'.chain.tip in db.chain.heights && db.chain.heights[db'.chain.tip] == db.chain.longest
  {
    hide HoldsExactly;
    forall h | h in db.chain.blocks || h in db'.chain.blocks
      ensures SameAt(db, db', h)
    {
      if h in db.chain.blocks {
        HeldByBoth(w, db, db', seen, h);
      } else {
        HeldByBoth(w, db', db, seen, h);
      }
    }
    HoldingKeys(w, db, seen);
    HoldingKeys(w, db', seen);
    SameMaps(db, db');
    assert SameAt(db, db', db.chain.tip) && SameAt(db, db', db'.chain.tip);
  }

  lemma SameMaps(db: Db, db': Db)
    requires db.chain.heights.Keys == db.globState.Keys == db.txBlockRef.Keys == db.chain.blocks.Keys
    requires db'.chain.heights.Keys == db'.globState.Keys == db'.txBlockRef.Keys == db'.chain.blocks.Keys
    requires forall h :: h in db.chain.blocks || h in db'.chain.blocks ==> SameAt(db, db', h)
    ensures db.chain.blocks == db'.chain.blocks && db.chain.heights == db'.chain.heights
    ensures db.globState == db'.globState && db.txBlockRef == db'.txBlockRef
  {
    forall h
      ensures h in db.chain.blocks <==> h in db'.chain.blocks
    {
      assert h in db.chain.blocks || h in db'.chain.blocks ==> SameAt(db, db', h);
    }
    assert db.chain.blocks.Keys == db'.chain.blocks.Keys;
  }

  lemma HoldingKeys(w: World, db: Db, seen: Sources)
    requires HoldsExactly(w, db, seen)
    ensures db.chain.heights.Keys == db.globState.Keys == db.txBlockRef.Keys == db.chain.blocks.Keys
    ensures db.chain.tip in db.chain.blocks && db.chain.heights[db.chain.tip] == db.chain.longest
    ensures forall h :: h in db.chain.heights ==> db.chain.heights[h] <= db.chain.longest
  {
    hide GoodPath, HoldsPath, EndsAt;
  }

  lemma HeldByBoth(w: World, db: Db, db': Db, seen: Sources, h: H256)
    requires HoldsExactly(w, db, seen) && HoldsExactly(w, db', seen) && h in db.chain.blocks
    ensures SameAt(db, db', h)
  {
    hide HoldsExactly, Replay, RefsAlong, GoodPath;
    var p := SomePath(w, db, seen, h);
    HoldsThat(w, db, seen, p);
    HoldsThat(w, db', seen, p);
  }

  lemma SomePath(w: World, db: Db, seen: Sources, h: H256) returns (p: seq<ProposerBlock>)
    requires HoldsExactly(w, db, seen) && h in db.chain.blocks
    ensures GoodPath(w, seen, p) && EndsAt(w, p, h)
  {
    hide GoodPath, HoldsPath, EndsAt;
    p :| GoodPath(w, seen, p) && EndsAt(w, p, h);
  }

  lemma HoldsThat(w: World, db: Db, seen: Sources, p: seq<ProposerBlock>)
    requires HoldsExactly(w, db, seen) && GoodPath(w, seen, p)
    ensures HoldsPath(w, db, p)
  {
    hide GoodPath, HoldsPath, EndsAt;
  }

  ghost predicate SameAt(db: Db, db': Db, h: H256) {
    && h in db.chain.blocks && h in db'.chain.blocks && db.chain.blocks[h] == db'.chain.blocks[h]
    && h in db.chain.heights && h in db'.chain.heights && db.chain.heights[h] == db'.chain.heights[h]
    && h in db.globState && h in db'.globState && db.globState[h] == db'.globState[h]
    && h in db.txBlockRef && h in db'.txBlockRef && db.txBlockRef[h] == db'.txBlockRef[h]
  }

  // ---------------------------------------------------------------------------
  // Duplicates in a bucket

  /** db' comes after db in the handling of one message: buckets and pool entries only
      disappear, cache entries only appear. */
  ghost predicate Later(db: Db, db': Db) {
    && db'.orphans.Keys <= db.orphans.Keys
    && KeepsEntries(db, db')
    && db.chain.blocks.Keys <= db'.chain.blocks.Keys
    && (forall k :: k in db'.txPool ==> k in db.txPool && db'.txPool[k] == db.txPool[k])
  }

  /** b needs no further processing. */
  ghost predicate Settled(w: World, db: Db, b: ProposerBlock) {
    var h := w.Hash(b);
    && h in db.chain.blocks && h !in db.orphans
    && h in db.globState && Prune(db.txPool, db.globState[h]) == db.txPool
  }

  lemma SettledLater(w: World, db: Db, db': Db, b: ProposerBlock)
    requires Settled(w, db, b) && Later(db, db')
    ensures Settled(w, db', b)
  {
    var s := db.globState[w.Hash(b)];
    forall k | k in db'.txPool
      ensures AllLive(s, db'.txPool[k].transaction)
    {
      assert k in Prune(db.txPool, s);
    }
  }

  lemma StoreLater(w: World, db: Db, b: ProposerBlock)
    requires w.Good() && NodeInv(w, db) && Insertable(w, db.chain, b)
    ensures Later(db, Process(w, db, b))
    ensures w.Hash(b) in Process(w, db, b).globState
    ensures var db' := Process(w, db, b); Prune(db'.txPool, db'.globState[w.Hash(b)]) == db'.txPool
  {
    hide ApplyRefs, ExtendRefs, ChainInv, Inserted, Cached, Bucketed, Pooled, AllLive;
    CachedKeys(w, db);
    IsReady(w, db, b);
    ProcessStep(w, db, b);
    if w.Hash(b) in db.chain.blocks {
      ProcessAgain(w, db, b);
    }
    PruneIdempotent(db.txPool, Process(w, db, b).globState[w.Hash(b)], Process(w, db, b).txPool);
  }

  lemma NewParentLater(w: World, db: Db, seen: Sources, pending: set<ProposerBlock>, b: ProposerBlock)
    requires w.Good() && RunInv(w, db, seen, pending, {w.Hash(b)}) && w.Hash(b) in db.chain.blocks
    ensures Later(db, NewParent(w, db, b)) && w.Hash(b) !in NewParent(w, db, b).orphans
    decreases db.orphans.Keys, 0
  {
    hide RunInv, Process;
    var h := w.Hash(b);
    if h in db.orphans {
      TakeOutInv(w, db, seen, pending, h);
      AdoptLater(w, db.(orphans := db.orphans - {h}), seen, pending, db.orphans[h]);
    }
  }

  lemma AdoptLater(w: World, db: Db, seen: Sources, pending: set<ProposerBlock>, kids: seq<ProposerBlock>)
    requires w.Good() && RunInv(w, db, seen, pending + (set b | b in kids), {})
    ensures Later(db, Adopt(w, db, kids))
    decreases db.orphans.Keys, |kids|
  {
    hide RunInv, AdoptOne, SigsOk, Later, Settled;
    if kids == [] {
      LaterSelf(db);
    } else {
      var all, db1 := pending + (set b | b in kids), AdoptOne(w, db, kids);
      AdoptStep(w, db, seen, pending, kids);
      AdoptOneLater(w, db, seen, all, kids);
      AdoptLater(w, db1, seen, pending, kids[1..]);
      LaterTransitive(db, db1, Adopt(w, db1, kids[1..]));
    }
  }

  lemma LaterSelf(db: Db)
    ensures Later(db, db)
  {
  }

  lemma LaterTransitive(a: Db, b: Db, c: Db)
    requires Later(a, b) && Later(b, c)
    ensures Later(a, c)
  {
  }

  /** The state between two kids of one bucket. */
  lemma AdoptStep(w: World, db: Db, seen: Sources, pending: set<ProposerBlock>, kids: seq<ProposerBlock>)
    requires w.Good() && kids != [] && RunInv(w, db, seen, pending + (set b | b in kids), {})
    ensures RunInv(w, AdoptOne(w, db, kids), seen, pending + (set b | b in kids[1..]), {})
  {
    hide RunInv, AdoptOne, SigsOk;
    var all, rest := pending + (set b | b in kids), pending + (set b | b in kids[1..]);
    AdoptOneInv(w, db, seen, all, kids);
    assert forall b :: b in kids ==> b == kids[0] || b in kids[1..];
    SettleInv(w, AdoptOne(w, db, kids), seen, all, rest);
  }

  lemma PendingParts(w: World, db: Db, seen: Sources, all: set<ProposerBlock>, b: ProposerBlock)
    requires RunInv(w, db, seen, all, {}) && b in all
    ensures NodeInv(w, db) && Insertable(w, db.chain, b) && Received(w, seen, b)
  {
    hide SigsOk, NodeInv;
  }

  lemma AdoptOneLater(w: World, db: Db, seen: Sources, all: set<ProposerBlock>, kids: seq<ProposerBlock>)
    requires w.Good() && kids != [] && RunInv(w, db, seen, all, {}) && kids[0] in all
    ensures Later(db, AdoptOne(w, db, kids))
    ensures SigsOk(w, kids[0]) ==> Settled(w, AdoptOne(w, db, kids), kids[0])
    decreases db.orphans.Keys, |kids|, 0
  {
    hide RunInv, Process, SigsOk, NodeInv;
    var c := kids[0];
    if SigsOk(w, c) {
      PendingParts(w, db, seen, all, c);
      var db1 := Process(w, db, c);
      StoreInv(w, db, seen, all, c);
      StoreLater(w, db, c);
      NewParentLater(w, db1, seen, all, c);
      AfterStore(w, db1, NewParent(w, db1, c), c);
    }
  }

  lemma AfterStore(w: World, db: Db, db': Db, b: ProposerBlock)
    requires Later(db, db') && w.Hash(b) in db.chain.blocks && w.Hash(b) in db.globState
    requires Prune(db.txPool, db.globState[w.Hash(b)]) == db.txPool && w.Hash(b) !in db'.orphans
    ensures Settled(w, db', b)
  {
    SettledLater(w, db.(orphans := db'.orphans), db', b);
  }

  /** Processing a settled block again changes nothing at all. */
  lemma SettledAgain(w: World, db: Db, kids: seq<ProposerBlock>)
    requires w.Good() && kids != [] && NodeInv(w, db) && Insertable(w, db.chain, kids[0]) && Settled(w, db, kids[0])
    ensures AdoptOne(w, db, kids) == db
  {
    hide NodeInv, SigsOk, Process;
    ProcessAgain(w, db, kids[0]);
  }

  /** A second copy of a block in a bucket makes no difference, wherever it stands. */
  lemma {:induction false} DuplicatesHarmless(w: World, db: Db, seen: Sources, pending: set<ProposerBlock>,
                                              a: seq<ProposerBlock>, b: ProposerBlock, c: seq<ProposerBlock>)
    requires w.Good() && b in a && RunInv(w, db, seen, pending + (set x | x in a + [b] + c), {})
    ensures Adopt(w, db, a + [b] + c) == Adopt(w, db, a + c)
    decreases |a|
  {
    hide RunInv, AdoptOne, SigsOk;
    var kids, kids' := a + [b] + c, a + c;
    AdoptStep(w, db, seen, pending, kids);
    var db1 := AdoptOne(w, db, kids);
    SameFirst(w, db, kids, kids');
    assert kids[1..] == a[1..] + [b] + c && kids'[1..] == a[1..] + c;
    if b == a[0] {
      AdoptOneLater(w, db, seen, pending + (set x | x in kids), kids);
      SkipCopy(w, db1, seen, pending, a[1..], b, c);
    } else {
      DuplicatesHarmless(w, db1, seen, pending, a[1..], b, c);
    }
  }

  lemma SameFirst(w: World, db: Db, kids: seq<ProposerBlock>, kids': seq<ProposerBlock>)
    requires kids != [] && kids' != [] && kids[0] == kids'[0]
    ensures AdoptOne(w, db, kids) == AdoptOne(w, db, kids')
  {
  }

  /** The copy comes back after the blocks in between. */
  lemma {:induction false} SkipCopy(w: World, db: Db, seen: Sources, pending: set<ProposerBlock>,
                                    mid: seq<ProposerBlock>, b: ProposerBlock, c: seq<ProposerBlock>)
    requires w.Good() && RunInv(w, db, seen, pending + (set x | x in mid + [b] + c), {})
    requires !SigsOk(w, b) || Settled(w, db, b)
    ensures Adopt(w, db, mid + [b] + c) == Adopt(w, db, mid + c)
    decreases |mid|
  {
    hide RunInv, SigsOk, Settled, NodeInv;
    var kids := mid + [b] + c;
    if mid == [] {
      assert kids[0] == b && kids[1..] == c && mid + c == c;
      PendingParts(w, db, seen, pending + (set x | x in kids), b);
      if SigsOk(w, b) {
        SettledAgain(w, db, kids);
      }
    } else {
      assert kids[1..] == mid[1..] + [b] + c && (mid + c)[1..] == mid[1..] + c;
      AdoptStep(w, db, seen, pending, kids);
      AdoptOneLater(w, db, seen, pending + (set x | x in kids), kids);
      if SigsOk(w, b) {
        SettledLater(w, db, AdoptOne(w, db, kids), b);
      }
      SameFirst(w, db, kids, mid + c);
      SkipCopy(w, AdoptOne(w, db, kids), seen, pending, mid[1..], b, c);
    }
  }
}
