/** When a transaction can take effect twice, and with that bring coins back: exactly when
    its inputs name more than one coin. */
module Respending {
  import opened Basics
  import opened Types
  import opened Ledgers
  import opened Conservation
  import opened Admission
  import opened Drift

  lemma {:induction false} SpendNotices(w: World, tx: SignedTransaction, k: nat, s: Ledger)
    requires Paired(tx.transaction) && NamesOthers(w, tx) && k <= |tx.transaction.inputPrevious|
    requires !Spend(w, tx, k, s).panicked
    ensures Spend(w, tx, k, s).exist <==> exists i :: 0 <= i < k && LiveInput(s, tx.transaction, i)
  {
    if k > 0 {
      SpendNotices(w, tx, k - 1, s);
      SpendKeeps(w, tx, k - 1, s, InputCoin(tx.transaction, k - 1));
      var t := tx.transaction;
      assert !LiveInput(s, t, k - 1) ==>
          ((exists i :: 0 <= i < k && LiveInput(s, t, i)) <==> (exists i :: 0 <= i < k - 1 && LiveInput(s, t, i)));
    }
  }

  /** A transaction that can be folded takes effect exactly when an input is live. */
  lemma EffectIffLive(w: World, s: Ledger, tx: SignedTransaction)
    requires Folds(w, s, tx) && NamesOthers(w, tx)
    ensures TakesEffect(w, s, tx) <==>
            exists i :: 0 <= i < |tx.transaction.inputPrevious| && LiveInput(s, tx.transaction, i)
  {
    SpendNotices(w, tx, |tx.transaction.inputPrevious|, s);
  }

  /** Afterwards the live inputs are those that were live, but for the last coin. */
  lemma LiveAfter(w: World, s: Ledger, tx: SignedTransaction, i: nat)
    requires Folds(w, s, tx) && NamesOthers(w, tx) && i < |tx.transaction.inputPrevious|
    ensures var t := tx.transaction;
            LiveInput(ApplyTx(w, s, tx), t, i) <==>
            LiveInput(s, t, i) && InputCoin(t, i) != InputCoin(t, |t.inputPrevious| - 1)
  {
    var t, n := tx.transaction, |tx.transaction.inputPrevious|;
    SpendKeeps(w, tx, n, s, InputCoin(t, i));
    SpendNotices(w, tx, n, s);
  }

  /** A transaction that has just been applied takes effect again exactly when some input
      was live that is not the coin of the last one. */
  lemma EffectAgainIff(w: World, s: Ledger, tx: SignedTransaction)
    requires Folds(w, s, tx) && NamesOthers(w, tx)
    ensures var t := tx.transaction;
            var n := |t.inputPrevious|;
            TakesEffect(w, ApplyTx(w, s, tx), tx) <==>
            exists i :: 0 <= i < n && LiveInput(s, t, i) && InputCoin(t, i) != InputCoin(t, n - 1)
  {
    hide ApplyTx, Spend;
    var t, n, s' := tx.transaction, |tx.transaction.inputPrevious|, ApplyTx(w, s, tx);
    forall i | 0 <= i < n
      ensures LiveInput(s', t, i) <==> LiveInput(s, t, i) && InputCoin(t, i) != InputCoin(t, n - 1)
    {
      LiveAfter(w, s, tx, i);
    }
    FoldsIff(w, s, tx);
    FoldsIff(w, s', tx);
    EffectIffLive(w, s', tx);
  }

  /** The shape is exact: a transaction has no effect right after itself, in any ledger,
      exactly when all its inputs name one coin. */
  lemma NeverAgainIffOneCoin(w: World, tx: SignedTransaction)
    requires WellShaped(tx.transaction) && NamesOthers(w, tx) && Keyed(w, tx)
    ensures (forall s :: !TakesEffect(w, ApplyTx(w, s, tx), tx)) <==> OneCoin(w, tx)
  {
    hide ApplyTx, TakesEffect;
    var t, n := tx.transaction, |tx.transaction.inputPrevious|;
    if OneCoin(w, tx) {
      forall s: Ledger
        ensures !TakesEffect(w, ApplyTx(w, s, tx), tx)
      {
        WellShapedFolds(w, s, tx);
        EffectAgainIff(w, s, tx);
      }
    } else {
      var i := OtherInput(w, tx);
      var s: Ledger := map[InputCoin(t, i) := Output(0, 0)];
      WellShapedFolds(w, s, tx);
      EffectAgainIff(w, s, tx);
      assert LiveInput(s, t, i);
    }
  }

  lemma OtherInput(w: World, tx: SignedTransaction) returns (i: nat)
    requires WellShaped(tx.transaction) && Keyed(w, tx) && !OneCoin(w, tx)
    ensures var t := tx.transaction;
            i < |t.inputPrevious| && InputCoin(t, i) != InputCoin(t, |t.inputPrevious| - 1)
  {
    var t := tx.transaction;
    var j :| 0 <= j < |t.inputPrevious| && InputCoin(t, j) != InputCoin(t, 0);
    i := if InputCoin(t, 0) != InputCoin(t, |t.inputPrevious| - 1) then 0 else j;
  }

  /** A transaction that takes effect makes the output of every live input live, also one
      that has been spent in between. */
  lemma EffectBringsBack(w: World, s: Ledger, tx: SignedTransaction, i: nat)
    requires Folds(w, s, tx) && NamesOthers(w, tx)
    requires i < |tx.transaction.inputPrevious| && LiveInput(s, tx.transaction, i)
    ensures Coin(w.txHash(tx), i) in ApplyTx(w, s, tx)
  {
    var n := |tx.transaction.inputPrevious|;
    SpendMakes(w, tx, n, s, i);
    SpendNotices(w, tx, n, s);
  }

  /** So with every other shape a coin can come back: t takes effect through an input that
      does not name the last coin, u spends the output paired with it, and t, applied once
      more, makes that output again. */
  lemma OtherShapeComesBack(w: World, s: Ledger, t: SignedTransaction, u: SignedTransaction, i: nat,
                            value: u32, to: H160)
    requires WellShaped(t.transaction) && NamesOthers(w, t) && i < |t.transaction.inputPrevious|
    requires LiveInput(s, t.transaction, i)
    requires InputCoin(t.transaction, i) != InputCoin(t.transaction, |t.transaction.inputPrevious| - 1)
    requires Pays(u, Coin(w.txHash(t), i), value, to) && w.txHash(u) != w.txHash(t)
    ensures var c, s1 := Coin(w.txHash(t), i), ApplyTx(w, s, t);
            var s2 := ApplyTx(w, s1, u);
            c in s1 && c !in s2 && c in ApplyTx(w, s2, t)
  {
    hide ApplyTx, Spend;
    var s1 := ApplyTx(w, s, t);
    var s2 := ApplyTx(w, s1, u);
    WellShapedFolds(w, s, t);
    WellShapedFolds(w, s2, t);
    EffectBringsBack(w, s, t, i);
    LiveAfter(w, s, t, i);
    ApplyPayment(w, s1, u, Coin(w.txHash(t), i), value, to);
    EffectBringsBack(w, s2, t, i);
  }

  /** An input that shows it, right after the ICO: 9 pays its coin to 8 (g); t spends both
      coins of 8 and is admitted; u spends t's first output; t, listed once more, takes
      effect again, and that output, which was gone, is back. */
  lemma CoinComesBack(w: World, g: SignedTransaction, t: SignedTransaction, u: SignedTransaction)
    requires w.ico == IcoLedger([8, 9]) && Pays(g, Coin(0, 1), 1000, 8) && Pays(u, Coin(w.txHash(t), 0), 400, 9)
    requires t.transaction == Transaction([0, w.txHash(g)], [0, 0], [400, 600], [8, 8])
    requires w.verify(t.transaction, t.sig.key, t.sig.signature) && w.addressOf(t.sig.key) == 8
    requires w.txHash(g) != 0 && w.txHash(t) != 0 && w.txHash(u) != 0
    requires w.txHash(t) != w.txHash(g) && w.txHash(u) != w.txHash(g) && w.txHash(u) != w.txHash(t)
    ensures Admissible(w, map[], LedgerAfter(w, [g]), t)
    ensures var c := Coin(w.txHash(t), 0);
            c in LedgerAfter(w, [g, t]) && c !in LedgerAfter(w, [g, t, u]) && c in LedgerAfter(w, [g, t, u, t])
  {
    hide ApplyTx, Spend, LedgerAfter;
    var x, cg := t.transaction, Coin(w.txHash(g), 0);
    assert SumFirst(x.outputValue, 2) == SumFirst(x.outputValue, 1) + 600;
    assert SumFirst(x.outputValue, 1) == SumFirst(x.outputValue, 0) + 400;
    var s0: Ledger := map[Coin(0, 0) := Output(1000, 8), cg := Output(1000, 8)];
    var s1 := ApplyTx(w, s0, t);
    var s2 := ApplyTx(w, s1, u);
    AfterPayment(w, [], g);
    AfterPayment(w, [g], t);
    AfterPayment(w, [g, t], u);
    AfterPayment(w, [g, t, u], t);
    assert [g] + [t] == [g, t] && [g, t] + [u] == [g, t, u] && [g, t, u] + [t] == [g, t, u, t];
    ApplyPayment(w, w.ico, g, Coin(0, 1), 1000, 8);
    assert LedgerAfter(w, [g]) == s0;
    OtherShapeComesBack(w, s0, t, u, 0, 400, 9);
  }
}
