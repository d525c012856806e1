/** Whole runs of a node's own methods: the handlers, and the miner's publication of what it
    has mined. */
module NodeRuns {
  import opened Basics
  import opened Types
  import opened Ledgers
  import opened Conservation
  import opened Drift
  import opened Nodes
  import opened Workers
  import opened Delivery
  import Miner

  /** When a message is handled, the tx blocks that are then looked up are pooled, and the
      transactions that are then folded have the outputs that are needed; a mined block is one the
      miner builds on that node's tip, and nobody has built on it before. */
  ghost predicate Feasible(w: World, db: Db, e: Event) {
    match e
    case Proposer(b) => w.Occurs(b) && Handleable(w, db, b)
    case TxBlock(tb) => w.TxBlockOccurs(tb)
    case Tx(_) => true
    case Mined(b) => w.Occurs(b) && Miner.BuiltOn(w, db, b) && FoldsOn(w, db, b) && w.Hash(b) !in db.orphans
    case MinedTx(tb) => w.TxBlockOccurs(tb)
  }

  ghost predicate FeasibleRun(w: World, es: seq<Event>) {
    es != [] ==> FeasibleRun(w, es[..|es| - 1]) && Feasible(w, Run(w, es[..|es| - 1]), es[|es| - 1])
  }

  lemma {:induction false} FeasibleIsProper(w: World, es: seq<Event>)
    requires FeasibleRun(w, es)
    ensures ProperRun(w, es)
  {
    if es != [] {
      FeasibleIsProper(w, es[..|es| - 1]);
      StepIsProper(w, Run(w, es[..|es| - 1]), es[|es| - 1]);
    }
  }

  lemma StepIsProper(w: World, db: Db, e: Event)
    requires Feasible(w, db, e)
    ensures Proper(w, db, e)
  {
    hide Handleable;
  }

  lemma {:induction false} FeasibleAt(w: World, es: seq<Event>, n: nat)
    requires FeasibleRun(w, es) && n < |es|
    ensures Feasible(w, Run(w, es[..n]), es[n])
    decreases |es|
  {
    if n < |es| - 1 {
      FeasibleAt(w, es[..|es| - 1], n);
      assert es[..|es| - 1][..n] == es[..n];
    }
  }

  /** A fresh node handling a whole run with its imperative handlers: what it holds in the
      end is exactly what the blocks it got amount to. */
  method HandleRun(w: World, es: seq<Event>) returns (n: Node)
    requires w.Good() && FeasibleRun(w, es)
    ensures n.Valid() && n.View() == Run(w, es)
    ensures HoldsExactly(w, n.View(), Delivered(es)) && OrphansWait(w, n.View(), Delivered(es))
  {
    hide Deliver, DeliverTxBlock, DeliverTx, PoolTxBlock, Process, NodeInv, Supplied;
    hide Miner.BuiltOn, HoldsExactly, OrphansWait, FeasibleRun;
    n := new Node(w);
    for i := 0 to |es|
      invariant n.Valid() && n.w == w && n.View() == Run(w, es[..i])
      invariant fresh(n) && fresh(n.chain)
    {
      assert es[..i + 1][..i] == es[..i];
      FeasibleAt(w, es, i);
      match es[i] {
        case Proposer(b) =>
          n.HandleProposerBlock(b);
        case TxBlock(tb) =>
          n.HandleTxBlock(tb);
        case Tx(tx) =>
          TipThere(w, n.View());
          var tip := n.chain.Tip();
          n.HandleTransaction(tip, tx);
        case Mined(b) =>
          TipThere(w, n.View());
          var tip := n.chain.Tip();
          FoldCounts(w, n.globState[b.header.proposerParent], b.content);
          var _ := Miner.Publish(n, b, n.txBlockRef[tip], n.globState[tip]);
        case MinedTx(tb) =>
          Miner.PublishTx(n, tb);
      }
    }
    assert es[..|es|] == es;
    FeasibleIsProper(w, es);
    DeliveredExactly(w, es);
  }

  lemma TipThere(w: World, db: Db)
    requires NodeInv(w, db)
    ensures db.chain.tip in db.chain.blocks && db.chain.tip in db.globState && db.chain.tip in db.txBlockRef
  {
    hide Bucketed, Pooled;
    CachedKeys(w, db);
  }

  // ---------------------------------------------------------------------------
  // A tx block nobody takes

  /** Right after the ICO a node gets an admissible transaction. If the header over it happens
      to hash to the proposer difficulty itself, the miner builds a tx block, and every node,
      whatever it holds, refuses that block. */
  lemma TxBlockGap(w: World, tx: SignedTransaction, nonce: u32, timestamp: nat, tb: TXBlock)
    requires w.Good() && w.ico == IcoLedger([8]) && Pays(tx, Coin(0, 0), 1000, 5)
    requires SignedOk(w, tx) && w.addressOf(tx.sig.key) == 8
    requires tb.content == [tx]
    requires tb.header == Header(w.Genesis(), nonce, timestamp, TRANSACTION_DIFFICULTY, PROPOSER_DIFFICULTY,
                                 w.txHash(tx), 0)
    requires w.headerHash(tb.header) == PROPOSER_DIFFICULTY
    ensures var db := Run(w, [Tx(tx)]);
            && Miner.HeaderOn(db, tb.header, nonce, timestamp) && Miner.TxBuiltOn(w, db, tb)
            && db.chain.tip in db.txBlockRef && db.chain.tip in db.globState && !Miner.NothingToMine(w, db, tb.header)
    ensures forall db :: DeliverTxBlock(w, db, tb) == db
  {
    var db := Run(w, [Tx(tx)]);
    RunTwo(w, Tx(tx), Tx(tx));
    PaymentAdmissible(w, map[], w.ico, tx, Coin(0, 0), 1000, 5);
    assert db == InitDb(w).(txPool := map[w.txHash(tx) := tx]);
    assert InputCoin(tx.transaction, 0) == Coin(0, 0);
    assert AllLive(w.ico, tx.transaction);
    assert Merkle.TreeRoot(w.TxHasher(), [tx]) == w.txHash(tx);
    assert w.txHash(tx) in db.txPool;
  }

  // ---------------------------------------------------------------------------
  // Two blocks with one header

  /** No receiver recomputes a Merkle root, and the hash covers the header only. Of two valid
      blocks with one header and different contents, whichever comes first stays, with its own
      ledger. With collision-free hashing that takes a block whose content does not have the
      root its header carries. */
  lemma FirstTwinStays(w: World, b: ProposerBlock, b': ProposerBlock)
    requires w.Good() && b.header == b'.header && b.content != b'.content
    requires b.header.proposerParent == w.Genesis() && w.Hash(b) != w.Genesis()
    requires PowOk(w, b) && SigsOk(w, b) && SigsOk(w, b')
    ensures HoldsInstead(w, Run(w, [Proposer(b), Proposer(b')]), b)
    ensures HoldsInstead(w, Run(w, [Proposer(b'), Proposer(b)]), b')
    ensures Miner.HashesWell(w) ==> !Miner.WellBuilt(w, b) || !Miner.WellBuilt(w, b')
  {
    hide SigsOk, ApplyRefs, Miner.HashesWell, Miner.WellBuilt;
    TwinRun(w, b, b');
    TwinRun(w, b', b);
    if Miner.HashesWell(w) && Miner.WellBuilt(w, b) && Miner.WellBuilt(w, b') {
      Miner.HashDeterminesBlock(w, b, b');
    }
  }

  /** db has b under its hash, with the ledger b's content makes of the ICO. */
  predicate HoldsInstead(w: World, db: Db, b: ProposerBlock) {
    var h := w.Hash(b);
    && h in db.chain.blocks && db.chain.blocks[h] == b
    && h in db.globState && db.globState[h] == ApplyRefs(w, w.ico, b.content)
  }

  lemma TwinRun(w: World, b: ProposerBlock, b': ProposerBlock)
    requires b.header == b'.header && b.header.proposerParent == w.Genesis() && w.Hash(b) != w.Genesis()
    requires PowOk(w, b) && SigsOk(w, b)
    ensures HoldsInstead(w, Run(w, [Proposer(b), Proposer(b')]), b)
  {
    hide SigsOk, PowOk, ApplyRefs, Prune, ExtendRefs;
    RunTwo(w, Proposer(b), Proposer(b'));
    assert Deliver(w, InitDb(w), b) == Process(w, InitDb(w), b);
    assert w.Hash(b') in Process(w, InitDb(w), b).chain.blocks;
  }
}
