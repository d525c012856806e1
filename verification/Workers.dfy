/** The message handlers of src/network/worker.rs, run one message at a time: loops over
    the shared maps, proved to do what the functions of Nodes say. */
module Workers {
  import opened Types
  import opened Ledgers
  import opened Blockchains
  import opened Admission
  import opened Nodes

  /** The tx blocks b refers to are in the pool. */
  predicate Referenced(pool: map<H256, TXBlock>, b: ProposerBlock) {
    forall r | r in b.content :: r in pool
  }

  /** Every transaction of the tx block r stands for is signed. */
  predicate RefSigned(w: World, r: H256) {
    forall tx | tx in w.txBlockOf(r).content :: SignedOk(w, tx)
  }

  /** The signature loop over b looks up nothing in vain: it stops at the first tx block with
      a bad signature, and every reference up to there is pooled. */
  predicate Readable(w: World, pool: map<H256, TXBlock>, b: ProposerBlock) {
    forall i | 0 <= i < |b.content| :: (forall j | 0 <= j < i :: RefSigned(w, b.content[j])) ==> b.content[i] in pool
  }

  lemma ReadToTheEnd(w: World, pool: map<H256, TXBlock>, b: ProposerBlock)
    requires Readable(w, pool, b) && SigsOk(w, b)
    ensures Referenced(pool, b)
  {
    forall i | 0 <= i < |b.content|
      ensures b.content[i] in pool
    {
      assert forall j | 0 <= j < i :: b.content[j] in b.content && RefSigned(w, b.content[j]);
    }
  }

  /** The source folds the transactions b refers to into its parent's ledger. */
  predicate FoldsOn(w: World, db: Db, b: ProposerBlock) {
    var p := b.header.proposerParent;
    p in db.globState && RefsFold(w, db.globState[p], b.content)
  }

  /** new_parent, called with b, looks up no reference in vain and needs no output that a
      transaction does not have, however deep it recurses. */
  ghost predicate Adoptable(w: World, db: Db, b: ProposerBlock)
    decreases db.orphans.Keys, 0
  {
    var h := w.Hash(b);
    h in db.orphans ==> AllAdoptable(w, db.(orphans := db.orphans - {h}), db.orphans[h])
  }

  ghost predicate AllAdoptable(w: World, db: Db, kids: seq<ProposerBlock>)
    decreases db.orphans.Keys, |kids|
  {
    kids != [] ==> OneAdoptable(w, db, kids) && AllAdoptable(w, AdoptOne(w, db, kids), kids[1..])
  }

  ghost predicate OneAdoptable(w: World, db: Db, kids: seq<ProposerBlock>)
    requires kids != []
    decreases db.orphans.Keys, |kids|, 0
  {
    && Readable(w, db.txBlockPool, kids[0])
    && (SigsOk(w, kids[0]) ==>
          FoldsOn(w, db, kids[0]) && Adoptable(w, Process(w, db, kids[0]), kids[0]))
  }

  /** The ProposerBlocks arm reaches a lookup by reference only with a block that is new, has
      a small enough hash and a parent in the chain; and then it looks up none in vain, and
      needs no output that a transaction does not have. */
  ghost predicate Handleable(w: World, db: Db, b: ProposerBlock) {
    w.Hash(b) !in db.chain.blocks && PowOk(w, b) && b.header.proposerParent in db.chain.blocks ==>
      && Readable(w, db.txBlockPool, b)
      && (SigsOk(w, b) ==> FoldsOn(w, db, b) && Adoptable(w, Process(w, db, b), b))
  }

  /** The transaction pool is keyed by hash, and pruning it indexes past the end of no vector. */
  ghost predicate Supplied(w: World, db: Db) {
    forall k :: k in db.txPool ==> Indexed(w, k, db.txPool[k])
  }

  predicate Indexed(w: World, k: H256, tx: SignedTransaction) {
    w.txHash(tx) == k && |tx.transaction.inputPrevious| <= |tx.transaction.inputIndex|
  }

  class Node {
    const w: World
    const chain: Blockchain
    var orphanHandler: map<H256, seq<ProposerBlock>>
    var txPool: map<H256, SignedTransaction>
    var globState: map<H256, Ledger>
    var txBlockPool: map<H256, TXBlock>
    var txBlockRef: map<H256, seq<H256>>

    function View(): Db
      reads this, chain
    {
      Db(chain.View(), orphanHandler, txPool, globState, txBlockPool, txBlockRef)
    }

    ghost predicate Valid()
      reads this, chain
    {
      w.Good() && chain.w == w && NodeInv(w, View()) && Supplied(w, View())
    }

    /** A node right after the initial coin offering. */
    constructor (w: World)
      requires w.Good()
      ensures Valid() && fresh(chain) && this.w == w
      ensures View() == InitDb(w)
    {
      this.w := w;
      chain := new Blockchain(w);
      orphanHandler, txPool, txBlockPool := map[], map[], map[];
      globState := map[w.Genesis() := w.ico];
      txBlockRef := map[w.Genesis() := []];
      new;
      InitInv(w);
    }

    /** The signature loop, with its two breaks. */
    method CheckSignatures(b: ProposerBlock) returns (valid: bool)
      requires Readable(w, txBlockPool, b) && Pooled(w, txBlockPool)
      ensures valid <==> SigsOk(w, b)
      ensures valid <==> forall r, tx :: r in b.content && tx in w.txBlockOf(r).content ==>
                           w.verify(tx.transaction, tx.sig.key, tx.sig.signature)
      ensures valid ==> Referenced(txBlockPool, b)
    {
      valid := true;
      for i := 0 to |b.content|
        invariant valid
        invariant forall j | 0 <= j < i :: RefSigned(w, b.content[j])
      {
        var currTxBlock := txBlockPool[b.content[i]];
        for j := 0 to |currTxBlock.content|
          invariant valid
          invariant forall tx | tx in currTxBlock.content[..j] :: SignedOk(w, tx)
        {
          var tx := currTxBlock.content[j];
          if !w.verify(tx.transaction, tx.sig.key, tx.sig.signature) {
            assert !SignedOk(w, tx) && tx in w.txBlockOf(b.content[i]).content;
            valid := false;
            break;
          }
          assert currTxBlock.content[..j + 1] == currTxBlock.content[..j] + [tx];
        }
        if !valid {
          break;
        }
        assert currTxBlock.content[..|currTxBlock.content|] == currTxBlock.content;
      }
      if valid {
        ReadToTheEnd(w, txBlockPool, b);
      }
    }

    /** The contains-loop over a block's references. */
    static method ExtendRefList(refs: seq<H256>, myRef: seq<H256>) returns (newRef: seq<H256>)
      ensures newRef == ExtendRefs(refs, myRef)
    {
      newRef := refs;
      for i := 0 to |myRef|
        invariant newRef == ExtendRefs(refs, myRef[..i])
      {
        assert myRef[..i + 1][..i] == myRef[..i];
        if myRef[i] !in newRef {
          newRef := newRef + [myRef[i]];
        }
      }
      assert myRef[..|myRef|] == myRef;
    }

    /** From "update tx_block_ref" to "insert new block": the section the handler and
        new_parent have in common. */
    method Store(b: ProposerBlock)
      requires Valid() && Insertable(w, chain.View(), b)
      requires Referenced(txBlockPool, b) && FoldsOn(w, View(), b)
      modifies this`txBlockRef, this`txPool, this`globState, chain
      ensures Valid()
      ensures View() == Process(w, old(View()), b)
    {
      ghost var db := View();
      hide ApplyRefs, RefsFold, ExtendRefs, ChainInv, Inserted, Cached, Bucketed;
      IsReady(w, db, b);
      ProcessStep(w, db, b);
      var h, p := w.Hash(b), b.header.proposerParent;
      var newRef := ExtendRefList(txBlockRef[p], b.content);
      txBlockRef := txBlockRef[h := newRef];
      FoldCounts(w, globState[p], b.content);
      var _, currState := UpdateLedger(w, txBlockPool, globState[p], b.content);
      txPool := PrunePool(txPool, currState);
      globState := globState[h := currState];
      chain.Insert(b);
    }

    /** new_parent: take out the blocks waiting for b and process them, one after the other
        and each with everything that waits for it in turn. Every recursive call runs on
        strictly fewer bucket keys. */
    method NewParent(b: ProposerBlock)
      requires Valid() && w.Occurs(b) && w.Hash(b) in chain.blocks
      requires Adoptable(w, View(), b)
      modifies this`orphanHandler, this`txBlockRef, this`txPool, this`globState, chain
      ensures Valid() && orphanHandler.Keys <= old(orphanHandler.Keys)
      ensures View() == Nodes.NewParent(w, old(View()), b)
      ensures old(chain.blocks.Keys) <= chain.blocks.Keys
      decreases orphanHandler.Keys, 0
    {
      hide ChainInv, Cached, Process;
      var h := w.Hash(b);
      if h in orphanHandler {
        var vec := orphanHandler[h];
        ghost var whole := View();
        orphanHandler := orphanHandler - {h};
        ghost var db := View();
        CachesApart(w, whole, db);
        for i := 0 to |vec|
          invariant Valid() && orphanHandler.Keys <= db.orphans.Keys
          invariant txBlockPool == db.txBlockPool
          invariant Adopt(w, View(), vec[i..]) == Adopt(w, db, vec) && AllAdoptable(w, View(), vec[i..])
          invariant old(chain.blocks.Keys) <= chain.blocks.Keys
        {
          ghost var before := View();
          assert vec[i..][0] == vec[i] && vec[i..][1..] == vec[i + 1..];
          AdoptNext(vec[i]);
          assert View() == AdoptOne(w, before, vec[i..]);
        }
      }
    }

    /** One waiting block whose parent has arrived. */
    method AdoptNext(b: ProposerBlock)
      requires Valid() && Insertable(w, chain.View(), b) && OneAdoptable(w, View(), [b])
      modifies this`orphanHandler, this`txBlockRef, this`txPool, this`globState, chain
      ensures Valid() && orphanHandler.Keys <= old(orphanHandler.Keys)
      ensures View() == AdoptOne(w, old(View()), [b])
      ensures old(chain.blocks.Keys) <= chain.blocks.Keys
      decreases orphanHandler.Keys, 1
    {
      hide ChainInv, Cached, Bucketed, Process;
      var valid := CheckSignatures(b);
      if valid {
        ProcessStep(w, View(), b);
        Store(b);
        NewParent(b);
      }
    }

    /** The ProposerBlocks arm, for one block. */
    method HandleProposerBlock(b: ProposerBlock)
      requires Valid() && w.Occurs(b) && Handleable(w, View(), b)
      modifies this`orphanHandler, this`txBlockRef, this`txPool, this`globState, chain
      ensures Valid()
      ensures View() == Deliver(w, old(View()), b)
    {
      hide ChainInv, Cached, Process, Nodes.NewParent;
      if w.Hash(b) in chain.blocks {
        return;
      }
      if w.Hash(b) > b.header.proposerDifficulty {
        return;
      }
      var p := b.header.proposerParent;
      if p !in chain.blocks {
        CachesApart(w, View(), View().(orphans := Buffer(orphanHandler, b)));
        if p in orphanHandler {
          orphanHandler := orphanHandler[p := orphanHandler[p] + [b]];
        } else {
          orphanHandler := orphanHandler[p := [b]];
        }
        return;
      }
      var valid := CheckSignatures(b);
      if !valid {
        return;
      }
      ProcessStep(w, View(), b);
      Store(b);
      NewParent(b);
    }

    /** The TransactionBlocks arm, for one block: pooled transactions it contains leave the
        transaction pool. */
    method HandleTxBlock(tb: TXBlock)
      requires Valid() && w.TxBlockOccurs(tb)
      modifies this`txPool, this`txBlockPool
      ensures Valid()
      ensures View() == DeliverTxBlock(w, old(View()), tb)
    {
      hide ChainInv, Cached, Bucketed;
      ghost var db := View();
      var h := w.TxBlockHash(tb);
      if h in txBlockPool || h > tb.header.transactionDifficulty || h <= tb.header.proposerDifficulty {
        return;
      }
      for i := 0 to |tb.content|
        invariant txBlockPool == db.txBlockPool
        invariant txPool == db.txPool - (set tx | tx in tb.content[..i] :: w.txHash(tx))
      {
        var id := w.txHash(tb.content[i]);
        assert tb.content[..i + 1] == tb.content[..i] + [tb.content[i]];
        if id in txPool {
          txPool := txPool - {id};
        }
      }
      assert tb.content[..|tb.content|] == tb.content;
      txBlockPool := txBlockPool[h := tb];
      CachesApart(w, db, View());
    }

    /** The Transactions arm, for one transaction and the tip read when the message came in. */
    method HandleTransaction(tip: H256, tx: SignedTransaction)
      requires Valid() && tip in chain.blocks
      modifies this`txPool
      ensures Valid()
      ensures View() == DeliverTx(w, old(View()), tip, tx)
    {
      hide ChainInv, Cached, Bucketed;
      ghost var db := View();
      CachedKeys(w, db);
      var v := Judge(w, txPool, globState[tip], tx);
      if v == Admitted {
        txPool := txPool[w.txHash(tx) := tx];
        CachesApart(w, db, View());
      }
    }
  }
}
