/** The UTXO ledger: the fold by which a block changes it, and the pruning of the
    transaction pool against it. */
module Ledgers {
  import opened Types

  // ---------------------------------------------------------------------------
  // The ledger fold

  /** Every input has its index, and the inputs can be counted in 32 bits. */
  predicate Paired(t: Transaction) {
    |t.inputPrevious| < 0x1_0000_0000 && |t.inputPrevious| <= |t.inputIndex|
  }

  predicate HasOutput(t: Transaction, i: nat) {
    i < |t.outputValue| && i < |t.outputAddress|
  }

  /** Every input has its index and its output. */
  predicate WellShaped(t: Transaction) {
    Paired(t) && |t.inputPrevious| <= |t.outputValue| && |t.inputPrevious| <= |t.outputAddress|
  }

  function InputCoin(t: Transaction, i: nat): Coin
    requires i < |t.inputPrevious| && i < |t.inputIndex|
  {
    Coin(t.inputPrevious[i], t.inputIndex[i])
  }

  datatype Spending = Spending(ledger: Ledger, exist: bool, panicked: bool)

  /** The first k inputs: each one that is live at its turn creates the output of the same
      index, and the source panics if that output is missing. Nothing is removed yet. */
  function Spend(w: World, tx: SignedTransaction, k: nat, s: Ledger): Spending
    requires Paired(tx.transaction) && k <= |tx.transaction.inputPrevious|
  {
    if k == 0 then Spending(s, false, false) else
      var r := Spend(w, tx, k - 1, s);
      var t := tx.transaction;
      if r.panicked || InputCoin(t, k - 1) !in r.ledger then r
      else if !HasOutput(t, k - 1) then r.(panicked := true)
      else
        var o := Output(t.outputValue[k - 1], t.outputAddress[k - 1]);
        Spending(r.ledger[Coin(w.txHash(tx), k - 1) := o], true, false)
  }

  /** The source folds tx into s: it indexes past the end of no vector. */
  predicate Folds(w: World, s: Ledger, tx: SignedTransaction) {
    Paired(tx.transaction) && !Spend(w, tx, |tx.transaction.inputPrevious|, s).panicked
  }

  /** One transaction: if some input was live, the coin looked up last is removed. (Where the
      source panics, the ledger is left alone here.) */
  function ApplyTx(w: World, s: Ledger, tx: SignedTransaction): Ledger {
    var t := tx.transaction;
    var n := |t.inputPrevious|;
    if !Folds(w, s, tx) || n == 0 then s else
      var r := Spend(w, tx, n, s);
      if r.exist then r.ledger - {InputCoin(t, n - 1)} else r.ledger
  }

  /** Once the source has panicked, it has. */
  lemma {:induction false} PanicStays(w: World, tx: SignedTransaction, j: nat, k: nat, s: Ledger)
    requires Paired(tx.transaction) && j <= k <= |tx.transaction.inputPrevious|
    ensures Spend(w, tx, j, s).panicked ==> Spend(w, tx, k, s).panicked
    decreases k
  {
    if j < k {
      PanicStays(w, tx, j, k - 1, s);
    }
  }

  lemma {:induction false} SpendGoesOn(w: World, tx: SignedTransaction, k: nat, s: Ledger)
    requires WellShaped(tx.transaction) && k <= |tx.transaction.inputPrevious|
    ensures !Spend(w, tx, k, s).panicked
  {
    if k > 0 {
      SpendGoesOn(w, tx, k - 1, s);
    }
  }

  /** A well-shaped transaction can be folded into any ledger. */
  lemma WellShapedFolds(w: World, s: Ledger, tx: SignedTransaction)
    requires WellShaped(tx.transaction)
    ensures Folds(w, s, tx)
  {
    SpendGoesOn(w, tx, |tx.transaction.inputPrevious|, s);
  }

  function ApplyTxs(w: World, s: Ledger, txs: seq<SignedTransaction>): Ledger {
    if txs == [] then s else ApplyTx(w, ApplyTxs(w, s, txs[..|txs| - 1]), txs[|txs| - 1])
  }

  /** All transactions of the referenced tx blocks, in reference order. */
  function ApplyRefs(w: World, s: Ledger, refs: seq<H256>): Ledger {
    if refs == [] then s else
      ApplyTxs(w, ApplyRefs(w, s, refs[..|refs| - 1]), w.txBlockOf(refs[|refs| - 1]).content)
  }

  function TxsOf(w: World, refs: seq<H256>): seq<SignedTransaction> {
    if refs == [] then [] else TxsOf(w, refs[..|refs| - 1]) + w.txBlockOf(refs[|refs| - 1]).content
  }

  lemma {:induction false} ApplyTxsConcat(w: World, s: Ledger, a: seq<SignedTransaction>, b: seq<SignedTransaction>)
    ensures ApplyTxs(w, s, a + b) == ApplyTxs(w, ApplyTxs(w, s, a), b)
  {
    if b == [] {
      assert a + b == a;
    } else {
      assert (a + b)[..|a + b| - 1] == a + b[..|b| - 1];
      ApplyTxsConcat(w, s, a, b[..|b| - 1]);
    }
  }

  lemma {:induction false} ApplyRefsConcat(w: World, s: Ledger, a: seq<H256>, b: seq<H256>)
    ensures ApplyRefs(w, s, a + b) == ApplyRefs(w, ApplyRefs(w, s, a), b)
  {
    if b == [] {
      assert a + b == a;
    } else {
      assert (a + b)[..|a + b| - 1] == a + b[..|b| - 1];
      ApplyRefsConcat(w, s, a, b[..|b| - 1]);
    }
  }

  lemma {:induction false} ApplyRefsAsTxs(w: World, s: Ledger, refs: seq<H256>)
    ensures ApplyRefs(w, s, refs) == ApplyTxs(w, s, TxsOf(w, refs))
  {
    if refs != [] {
      var init := refs[..|refs| - 1];
      ApplyRefsAsTxs(w, s, init);
      ApplyTxsConcat(w, s, TxsOf(w, init), w.txBlockOf(refs[|refs| - 1]).content);
    }
  }

  /** Transactions act one after the other: ledgers that follow from each other lead to the result. */
  lemma {:induction false} TxsInOrder(w: World, txs: seq<SignedTransaction>, ledgers: seq<Ledger>)
    requires |ledgers| == |txs| + 1
    requires forall i :: 0 <= i < |txs| ==> ledgers[i + 1] == ApplyTx(w, ledgers[i], txs[i])
    ensures ApplyTxs(w, ledgers[0], txs) == ledgers[|txs|]
  {
    if txs != [] {
      TxsInOrder(w, txs[..|txs| - 1], ledgers[..|txs|]);
    }
  }

  /** And so do the tx blocks a block refers to, each from its first transaction to its last. */
  lemma {:induction false} RefsInOrder(w: World, refs: seq<H256>, ledgers: seq<Ledger>)
    requires |ledgers| == |refs| + 1
    requires forall i :: 0 <= i < |refs| ==> ledgers[i + 1] == ApplyTxs(w, ledgers[i], w.txBlockOf(refs[i]).content)
    ensures ApplyRefs(w, ledgers[0], refs) == ledgers[|refs|]
  {
    if refs != [] {
      RefsInOrder(w, refs[..|refs| - 1], ledgers[..|refs|]);
    }
  }

  /** The pool holds, under each referenced hash, the tx block that hash stands for. */
  predicate RefsPooled(w: World, pool: map<H256, TXBlock>, refs: seq<H256>) {
    forall r | r in refs :: r in pool && pool[r] == w.txBlockOf(r)
  }

  /** The source folds all of txs, each into the ledger it finds. */
  predicate TxsFold(w: World, s: Ledger, txs: seq<SignedTransaction>) {
    txs != [] ==>
      var init := txs[..|txs| - 1];
      TxsFold(w, s, init) && Folds(w, ApplyTxs(w, s, init), txs[|txs| - 1])
  }

  predicate RefsFold(w: World, s: Ledger, refs: seq<H256>) {
    refs != [] ==>
      var init := refs[..|refs| - 1];
      RefsFold(w, s, init) && TxsFold(w, ApplyRefs(w, s, init), w.txBlockOf(refs[|refs| - 1]).content)
  }

  lemma {:induction false} TxsFoldBefore(w: World, s: Ledger, txs: seq<SignedTransaction>, n: nat)
    requires TxsFold(w, s, txs) && n <= |txs|
    ensures TxsFold(w, s, txs[..n])
    decreases |txs|
  {
    if n < |txs| {
      TxsFoldBefore(w, s, txs[..|txs| - 1], n);
      assert txs[..|txs| - 1][..n] == txs[..n];
    } else {
      assert txs[..n] == txs;
    }
  }

  lemma {:induction false} RefsFoldBefore(w: World, s: Ledger, refs: seq<H256>, n: nat)
    requires RefsFold(w, s, refs) && n <= |refs|
    ensures RefsFold(w, s, refs[..n])
    decreases |refs|
  {
    if n < |refs| {
      RefsFoldBefore(w, s, refs[..|refs| - 1], n);
      assert refs[..|refs| - 1][..n] == refs[..n];
    } else {
      assert refs[..n] == refs;
    }
  }

  lemma {:induction false} ShapedTxsFold(w: World, s: Ledger, txs: seq<SignedTransaction>)
    requires forall tx :: tx in txs ==> WellShaped(tx.transaction)
    ensures TxsFold(w, s, txs)
  {
    hide WellShaped, Folds;
    if txs != [] {
      ShapedTxsFold(w, s, txs[..|txs| - 1]);
      WellShapedFolds(w, ApplyTxs(w, s, txs[..|txs| - 1]), txs[|txs| - 1]);
    }
  }

  lemma {:induction false} ShapedRefsFold(w: World, s: Ledger, refs: seq<H256>)
    requires forall r, tx :: r in refs && tx in w.txBlockOf(r).content ==> WellShaped(tx.transaction)
    ensures RefsFold(w, s, refs)
  {
    hide WellShaped, TxsFold;
    if refs != [] {
      ShapedRefsFold(w, s, refs[..|refs| - 1]);
      assert refs[|refs| - 1] in refs;
      ShapedTxsFold(w, ApplyRefs(w, s, refs[..|refs| - 1]), w.txBlockOf(refs[|refs| - 1]).content);
    }
  }

  /** The source's innermost loop, with its "fake" first lookup key. It runs to its end
      exactly when the transaction folds; otherwise an index panics. */
  method RunTransaction(w: World, s: Ledger, tx: SignedTransaction) returns (panicked: bool, currState: Ledger)
    requires |tx.transaction.inputPrevious| < 0x1_0000_0000
    ensures panicked <==> !Folds(w, s, tx)
    ensures !panicked ==> currState == ApplyTx(w, s, tx)
  {
    var t := tx.transaction;
    var n := |t.inputPrevious|;
    var lookupKey := Coin(0, 0);
    var exist := false;
    currState := s;
    for i := 0 to n
      invariant i <= |t.inputIndex|
      invariant Paired(t) ==> Spending(currState, exist, false) == Spend(w, tx, i, s)
      invariant i > 0 ==> lookupKey == InputCoin(t, i - 1)
    {
      if i >= |t.inputIndex| {
        return true, currState;
      }
      lookupKey := InputCoin(t, i);
      if lookupKey in currState {
        exist := true;
        if i >= |t.outputValue| || i >= |t.outputAddress| {
          if Paired(t) {
            PanicStays(w, tx, i + 1, n, s);
          }
          return true, currState;
        }
        currState := currState[Coin(w.txHash(tx), i) := Output(t.outputValue[i], t.outputAddress[i])];
      }
    }
    if exist {
      currState := currState - {lookupKey};
    }
    panicked := false;
  }

  /** The inputs of every listed transaction can be counted in 32 bits. */
  predicate Countable(w: World, refs: seq<H256>) {
    forall r | r in refs :: forall tx | tx in w.txBlockOf(r).content :: |tx.transaction.inputPrevious| < 0x1_0000_0000
  }

  lemma {:induction false} FoldCountsTxs(w: World, s: Ledger, txs: seq<SignedTransaction>, tx: SignedTransaction)
    requires TxsFold(w, s, txs) && tx in txs
    ensures |tx.transaction.inputPrevious| < 0x1_0000_0000
  {
    var init := txs[..|txs| - 1];
    assert txs == init + [txs[|txs| - 1]];
    if tx in init {
      FoldCountsTxs(w, s, init, tx);
    }
  }

  /** What folds is countable. */
  lemma {:induction false} FoldCounts(w: World, s: Ledger, refs: seq<H256>)
    requires RefsFold(w, s, refs)
    ensures Countable(w, refs)
  {
    hide TxsFold;
    if refs != [] {
      var init, r := refs[..|refs| - 1], refs[|refs| - 1];
      FoldCounts(w, s, init);
      assert refs == init + [r];
      forall tx | tx in w.txBlockOf(r).content
        ensures |tx.transaction.inputPrevious| < 0x1_0000_0000
      {
        FoldCountsTxs(w, ApplyRefs(w, s, init), w.txBlockOf(r).content, tx);
      }
    }
  }

  /** The "update state ledger" section, which the worker handler, new_parent and the
      miner each spell out. */
  method UpdateLedger(w: World, pool: map<H256, TXBlock>, s: Ledger, refs: seq<H256>)
    returns (panicked: bool, currState: Ledger)
    requires RefsPooled(w, pool, refs) && Countable(w, refs)
    ensures panicked <==> !RefsFold(w, s, refs)
    ensures !panicked ==> currState == ApplyRefs(w, s, refs)
  {
    hide Folds, ApplyTx;
    currState := s;
    for i := 0 to |refs|
      invariant currState == ApplyRefs(w, s, refs[..i]) && RefsFold(w, s, refs[..i])
    {
      assert refs[..i + 1][..i] == refs[..i];
      var currTxBlock := pool[refs[i]];
      ghost var before := currState;
      for j := 0 to |currTxBlock.content|
        invariant currState == ApplyTxs(w, before, currTxBlock.content[..j])
        invariant TxsFold(w, before, currTxBlock.content[..j])
      {
        assert currTxBlock.content[..j + 1][..j] == currTxBlock.content[..j];
        assert currTxBlock.content[j] in w.txBlockOf(refs[i]).content;
        panicked, currState := RunTransaction(w, currState, currTxBlock.content[j]);
        if panicked {
          BadTx(w, before, currTxBlock.content, j);
          BadRef(w, s, refs, i);
          return;
        }
      }
      assert currTxBlock.content[..|currTxBlock.content|] == currTxBlock.content;
    }
    assert refs[..|refs|] == refs;
    panicked := false;
  }

  lemma BadTx(w: World, s: Ledger, txs: seq<SignedTransaction>, j: nat)
    requires j < |txs| && !Folds(w, ApplyTxs(w, s, txs[..j]), txs[j])
    ensures !TxsFold(w, s, txs)
  {
    hide Folds, ApplyTxs;
    assert txs[..j + 1][..j] == txs[..j];
    if TxsFold(w, s, txs) {
      TxsFoldBefore(w, s, txs, j + 1);
    }
  }

  lemma BadRef(w: World, s: Ledger, refs: seq<H256>, i: nat)
    requires i < |refs| && !TxsFold(w, ApplyRefs(w, s, refs[..i]), w.txBlockOf(refs[i]).content)
    ensures !RefsFold(w, s, refs)
  {
    hide TxsFold, ApplyRefs;
    assert refs[..i + 1][..i] == refs[..i];
    if RefsFold(w, s, refs) {
      RefsFoldBefore(w, s, refs, i + 1);
    }
  }

  // ---------------------------------------------------------------------------
  // Pool pruning

  predicate AllLive(s: Ledger, t: Transaction) {
    && |t.inputPrevious| <= |t.inputIndex|
    && forall i | 0 <= i < |t.inputPrevious| :: InputCoin(t, i) in s
  }

  /** The pool restricted to the transactions all of whose inputs are live. */
  function Prune(pool: map<H256, SignedTransaction>, s: Ledger): map<H256, SignedTransaction> {
    map k | k in pool && AllLive(s, pool[k].transaction) :: pool[k]
  }

  /** Every input has its index, and the two name a coin of s. */
  predicate CoinsIn(t: Transaction, s: Ledger) {
    && |t.inputPrevious| <= |t.inputIndex|
    && forall i | 0 <= i < |t.inputPrevious| :: Coin(t.inputPrevious[i], t.inputIndex[i]) in s
  }

  /** What pruning keeps, input by input: the pooled transactions all of whose coins are in s,
      unchanged. */
  lemma PruneExactly(pool: map<H256, SignedTransaction>, s: Ledger)
    ensures forall k :: k in Prune(pool, s) <==> k in pool && CoinsIn(pool[k].transaction, s)
    ensures forall k :: k in Prune(pool, s) ==> Prune(pool, s)[k] == pool[k]
  {
    forall k | k in pool
      ensures k in Prune(pool, s) <==> CoinsIn(pool[k].transaction, s)
    {
      LiveIsIn(pool[k].transaction, s);
    }
  }

  lemma LiveIsIn(t: Transaction, s: Ledger)
    ensures AllLive(s, t) <==> CoinsIn(t, s)
  {
    if AllLive(s, t) {
      forall i | 0 <= i < |t.inputPrevious|
        ensures Coin(t.inputPrevious[i], t.inputIndex[i]) in s
      {
        assert InputCoin(t, i) in s;
      }
    }
    if CoinsIn(t, s) {
      forall i | 0 <= i < |t.inputPrevious|
        ensures InputCoin(t, i) in s
      {
        assert Coin(t.inputPrevious[i], t.inputIndex[i]) in s;
      }
    }
  }

  /** The "update transaction pool" section: collect the hashes to remove, once per dead
      input, then remove them. Map iteration order is arbitrary. */
  method PrunePool(pool: map<H256, SignedTransaction>, s: Ledger) returns (currTxPool: map<H256, SignedTransaction>)
    requires forall k | k in pool :: |pool[k].transaction.inputPrevious| <= |pool[k].transaction.inputIndex|
    ensures currTxPool == Prune(pool, s)
    ensures forall k :: k in currTxPool <==> k in pool && CoinsIn(pool[k].transaction, s)
    ensures forall k :: k in currTxPool ==> currTxPool[k] == pool[k]
  {
    var toRemoveTx: seq<H256> := [];
    var keys := pool.Keys;
    while keys != {}
      invariant keys <= pool.Keys
      invariant forall k :: k in toRemoveTx <==> k in pool.Keys - keys && !AllLive(s, pool[k].transaction)
      decreases keys
    {
      var k :| k in keys;
      toRemoveTx := CollectDead(pool[k].transaction, s, k, toRemoveTx);
      keys := keys - {k};
    }
    currTxPool := pool;
    for i := 0 to |toRemoveTx|
      invariant currTxPool == map k | k in pool && k !in toRemoveTx[..i] :: pool[k]
    {
      currTxPool := currTxPool - {toRemoveTx[i]};
      assert toRemoveTx[..i + 1] == toRemoveTx[..i] + [toRemoveTx[i]];
    }
    assert toRemoveTx[..|toRemoveTx|] == toRemoveTx;
    PruneExactly(pool, s);
  }

  method CollectDead(t: Transaction, s: Ledger, k: H256, acc: seq<H256>) returns (toRemoveTx: seq<H256>)
    requires |t.inputPrevious| <= |t.inputIndex|
    ensures forall x :: x in toRemoveTx <==> x in acc || (x == k && !AllLive(s, t))
  {
    toRemoveTx := acc;
    for idx := 0 to |t.inputPrevious|
      invariant forall x :: x in toRemoveTx <==>
                  x in acc || (x == k && exists i :: 0 <= i < idx && InputCoin(t, i) !in s)
    {
      if InputCoin(t, idx) !in s {
        toRemoveTx := toRemoveTx + [k];
      }
    }
  }

  lemma PruneIdempotent(pool: map<H256, SignedTransaction>, s: Ledger, pool': map<H256, SignedTransaction>)
    requires pool'.Keys <= Prune(pool, s).Keys && forall k | k in pool' :: pool'[k] == pool[k]
    ensures Prune(pool', s) == pool'
  {
  }
}
