/** What the ledger loop does to the total value for every transaction it can fold: exactly
    how much it changes, exactly when it does not, and which checks bound it. */
module Drift {
  import opened Basics
  import opened Types
  import opened Ledgers
  import opened Conservation
  import opened Admission
  import opened Blockchains
  import opened Nodes
  import opened Delivery
  import Supply

  // ---------------------------------------------------------------------------
  // One transaction

  /** No input of tx names tx itself; a transaction cannot contain its own hash. */
  predicate NamesOthers(w: World, tx: SignedTransaction) {
    forall i | 0 <= i < |tx.transaction.inputPrevious| :: tx.transaction.inputPrevious[i] != w.txHash(tx)
  }

  predicate LiveInput(s: Ledger, t: Transaction, i: nat)
    requires i < |t.inputPrevious| && i < |t.inputIndex|
  {
    InputCoin(t, i) in s
  }

  /** The outputs paired with the live ones of the first n inputs. */
  function Paid(s: Ledger, t: Transaction, n: nat): nat
    requires Paired(t) && n <= |t.inputPrevious|
  {
    if n == 0 then 0 else
      Paid(s, t, n - 1) + if LiveInput(s, t, n - 1) && HasOutput(t, n - 1) then t.outputValue[n - 1] else 0
  }

  /** What was held so far under the keys of those outputs: something only if tx has taken
      effect before. */
  function Overwritten(w: World, s: Ledger, tx: SignedTransaction, n: nat): nat
    requires Paired(tx.transaction) && n <= |tx.transaction.inputPrevious|
  {
    if n == 0 then 0 else
      var made := Coin(w.txHash(tx), n - 1);
      Overwritten(w, s, tx, n - 1) +
      if LiveInput(s, tx.transaction, n - 1) && made in s then s[made].value else 0
  }

  /** The value of the one coin the loop removes. */
  function Removed(s: Ledger, t: Transaction): nat
    requires Paired(t)
  {
    var n := |t.inputPrevious|;
    if n > 0 && LiveInput(s, t, n - 1) then s[InputCoin(t, n - 1)].value else 0
  }

  /** What tx pays out for its live inputs, less the coin it removes and what it overwrites. */
  function Gain(w: World, s: Ledger, tx: SignedTransaction): int
    requires Paired(tx.transaction)
  {
    var n := |tx.transaction.inputPrevious|;
    Paid(s, tx.transaction, n) - Removed(s, tx.transaction) - Overwritten(w, s, tx, n)
  }

  lemma TotalPut(s: Ledger, c: Coin, o: Output)
    ensures Total(s[c := o]) + (if c in s then s[c].value else 0) == Total(s) + o.value
  {
    if c in s {
      TotalMinus(s, c);
      assert (s - {c})[c := o] == s[c := o];
      TotalPlus(s - {c}, c, o);
    } else {
      TotalPlus(s, c, o);
    }
  }

  /** The first k inputs change no coin but the first k outputs of tx. */
  lemma {:induction false} SpendKeeps(w: World, tx: SignedTransaction, k: nat, s: Ledger, c: Coin)
    requires Paired(tx.transaction) && k <= |tx.transaction.inputPrevious|
    requires c.tx != w.txHash(tx) || c.index >= k
    ensures c in Spend(w, tx, k, s).ledger <==> c in s
    ensures c in s ==> Spend(w, tx, k, s).ledger[c] == s[c]
  {
    if k > 0 {
      SpendKeeps(w, tx, k - 1, s, c);
    }
  }

  /** A transaction folds exactly when every input has its index, and every live one its output. */
  lemma FoldsIff(w: World, s: Ledger, tx: SignedTransaction)
    requires NamesOthers(w, tx)
    ensures Folds(w, s, tx) <==>
            var t := tx.transaction;
            && |t.inputPrevious| < 0x1_0000_0000 && |t.inputPrevious| <= |t.inputIndex|
            && forall i :: 0 <= i < |t.inputPrevious| && LiveInput(s, t, i) ==>
                 i < |t.outputValue| && i < |t.outputAddress|
  {
    if Paired(tx.transaction) {
      SpendPanicsIff(w, tx, |tx.transaction.inputPrevious|, s);
    }
  }

  lemma {:induction false} SpendPanicsIff(w: World, tx: SignedTransaction, k: nat, s: Ledger)
    requires Paired(tx.transaction) && NamesOthers(w, tx) && k <= |tx.transaction.inputPrevious|
    ensures !Spend(w, tx, k, s).panicked <==>
            forall i :: 0 <= i < k && LiveInput(s, tx.transaction, i) ==> HasOutput(tx.transaction, i)
  {
    hide HasOutput;
    if k > 0 {
      SpendPanicsIff(w, tx, k - 1, s);
      SpendKeeps(w, tx, k - 1, s, InputCoin(tx.transaction, k - 1));
    }
  }

  /** After the first k inputs the outputs of the live ones are there, and have been noticed. */
  lemma {:induction false} SpendMakes(w: World, tx: SignedTransaction, k: nat, s: Ledger, i: nat)
    requires Paired(tx.transaction) && NamesOthers(w, tx) && i < k <= |tx.transaction.inputPrevious|
    requires !Spend(w, tx, k, s).panicked && LiveInput(s, tx.transaction, i)
    ensures var r, made := Spend(w, tx, k, s), Coin(w.txHash(tx), i);
            && r.exist && HasOutput(tx.transaction, i) && made in r.ledger
            && r.ledger[made] == Output(tx.transaction.outputValue[i], tx.transaction.outputAddress[i])
  {
    if i < k - 1 {
      SpendMakes(w, tx, k - 1, s, i);
    } else {
      SpendKeeps(w, tx, k - 1, s, InputCoin(tx.transaction, i));
    }
  }

  /** The outputs of the others are as they were. */
  lemma {:induction false} SpendMakesNot(w: World, tx: SignedTransaction, k: nat, s: Ledger, i: nat)
    requires Paired(tx.transaction) && NamesOthers(w, tx) && i < k <= |tx.transaction.inputPrevious|
    requires !LiveInput(s, tx.transaction, i)
    ensures var r, made := Spend(w, tx, k, s).ledger, Coin(w.txHash(tx), i);
            (made in r <==> made in s) && (made in s ==> r[made] == s[made])
  {
    SpendKeeps(w, tx, i, s, InputCoin(tx.transaction, i));
    SpendKeeps(w, tx, i, s, Coin(w.txHash(tx), i));
    if i < k - 1 {
      SpendMakesNot(w, tx, k - 1, s, i);
    }
  }

  /** c is the output paired with a live input of tx. */
  predicate MadeHere(w: World, s: Ledger, tx: SignedTransaction, c: Coin) {
    var t := tx.transaction;
    && c.tx == w.txHash(tx) && c.index < |t.inputPrevious| && c.index < |t.inputIndex|
    && Coin(t.inputPrevious[c.index], t.inputIndex[c.index]) in s
  }

  /** c is the coin the last input names. */
  predicate LookedUpLast(t: Transaction, c: Coin) {
    var n := |t.inputPrevious|;
    0 < n <= |t.inputIndex| && c == Coin(t.inputPrevious[n - 1], t.inputIndex[n - 1])
  }

  /** The ledger after a transaction, coin by coin: the outputs of the live inputs are there,
      the coin looked up last is not, and every other coin is as it was. */
  lemma ApplyExactly(w: World, s: Ledger, tx: SignedTransaction, c: Coin)
    requires Folds(w, s, tx) && NamesOthers(w, tx)
    ensures var t, s' := tx.transaction, ApplyTx(w, s, tx);
            && (c in s' <==> MadeHere(w, s, tx, c) || (c in s && !LookedUpLast(t, c)))
            && (MadeHere(w, s, tx, c) ==>
                  && c.index < |t.outputValue| && c.index < |t.outputAddress|
                  && c in s' && s'[c] == Output(t.outputValue[c.index], t.outputAddress[c.index]))
            && (c in s' && !MadeHere(w, s, tx, c) ==> s'[c] == s[c])
  {
    hide Spend;
    var t, n := tx.transaction, |tx.transaction.inputPrevious|;
    if n > 0 {
      if LiveInput(s, t, n - 1) {
        SpendMakes(w, tx, n, s, n - 1);
      }
      if c.tx != w.txHash(tx) || c.index >= n {
        SpendKeeps(w, tx, n, s, c);
      } else if LiveInput(s, t, c.index) {
        SpendMakes(w, tx, n, s, c.index);
      } else {
        SpendMakesNot(w, tx, n, s, c.index);
      }
    }
  }

  /** After the first k inputs: the total, and a live one has been noticed. */
  lemma {:induction false} SpendTotal(w: World, tx: SignedTransaction, k: nat, s: Ledger)
    requires Paired(tx.transaction) && NamesOthers(w, tx) && k <= |tx.transaction.inputPrevious|
    requires !Spend(w, tx, k, s).panicked
    ensures Total(Spend(w, tx, k, s).ledger) + Overwritten(w, s, tx, k) == Total(s) + Paid(s, tx.transaction, k)
    ensures k > 0 && LiveInput(s, tx.transaction, k - 1) ==> Spend(w, tx, k, s).exist
  {
    hide Total;
    if k > 0 {
      SpendTotal(w, tx, k - 1, s);
      var t, r := tx.transaction, Spend(w, tx, k - 1, s).ledger;
      var made := Coin(w.txHash(tx), k - 1);
      SpendKeeps(w, tx, k - 1, s, InputCoin(t, k - 1));
      SpendKeeps(w, tx, k - 1, s, made);
      if LiveInput(s, t, k - 1) {
        TotalPut(r, made, Output(t.outputValue[k - 1], t.outputAddress[k - 1]));
      }
    }
  }

  /** The change of the total, for every transaction that can be folded: value is conserved
      exactly when the gain is zero. */
  lemma TotalAfter(w: World, s: Ledger, tx: SignedTransaction)
    requires Folds(w, s, tx) && NamesOthers(w, tx)
    ensures Total(ApplyTx(w, s, tx)) == Total(s) + Gain(w, s, tx)
    ensures Total(ApplyTx(w, s, tx)) == Total(s) <==> Gain(w, s, tx) == 0
  {
    hide Spend, Total;
    var t, n := tx.transaction, |tx.transaction.inputPrevious|;
    if n > 0 {
      SpendTotal(w, tx, n, s);
      var r, last := Spend(w, tx, n, s), InputCoin(t, n - 1);
      SpendKeeps(w, tx, n, s, last);
      if LiveInput(s, t, n - 1) {
        TotalMinus(r.ledger, last);
      } else {
        assert r.ledger - {last} == r.ledger;
      }
    }
  }

  /** In a ledger that has no output of tx yet, it is conserved exactly when the outputs of
      the live inputs add up to the last input's coin, or to nothing if that is spent. */
  lemma ConservedIff(w: World, s: Ledger, tx: SignedTransaction)
    requires Folds(w, s, tx) && NamesOthers(w, tx)
    requires forall c :: c in s ==> c.tx != w.txHash(tx)
    ensures Total(ApplyTx(w, s, tx)) == Total(s) <==>
            Paid(s, tx.transaction, |tx.transaction.inputPrevious|) == Removed(s, tx.transaction)
  {
    NothingOverwritten(w, s, tx, |tx.transaction.inputPrevious|);
    TotalAfter(w, s, tx);
  }

  lemma {:induction false} NothingOverwritten(w: World, s: Ledger, tx: SignedTransaction, n: nat)
    requires Paired(tx.transaction) && n <= |tx.transaction.inputPrevious|
    requires forall c :: c in s ==> c.tx != w.txHash(tx)
    ensures Overwritten(w, s, tx, n) == 0
  {
    if n > 0 {
      NothingOverwritten(w, s, tx, n - 1);
    }
  }

  // ---------------------------------------------------------------------------
  // Lists of transactions, and chains

  /** The transactions of a list that folds, none of which names itself. */
  predicate Plain(w: World, s: Ledger, txs: seq<SignedTransaction>) {
    TxsFold(w, s, txs) && forall tx | tx in txs :: NamesOthers(w, tx)
  }

  /** The gains along a list, each in the ledger the transaction finds. */
  function GainAlong(w: World, s: Ledger, txs: seq<SignedTransaction>): int
    requires Plain(w, s, txs)
  {
    if txs == [] then 0 else
      var init := txs[..|txs| - 1];
      GainAlong(w, s, init) + Gain(w, ApplyTxs(w, s, init), txs[|txs| - 1])
  }

  lemma {:induction false} TotalAlong(w: World, s: Ledger, txs: seq<SignedTransaction>)
    requires Plain(w, s, txs)
    ensures Total(ApplyTxs(w, s, txs)) == Total(s) + GainAlong(w, s, txs)
  {
    hide Gain, ApplyTx, Total, Spend;
    if txs != [] {
      TotalAlong(w, s, txs[..|txs| - 1]);
      TotalAfter(w, ApplyTxs(w, s, txs[..|txs| - 1]), txs[|txs| - 1]);
    }
  }

  /** A ledger a node holds has the supply of the ICO exactly when the gains along the
      block's path cancel, whatever shape the transactions on it have. */
  lemma NodeSupplyIff(w: World, db: Db, h: H256)
    requires w.Good() && NodeInv(w, db) && h in db.chain.blocks
    requires Plain(w, w.ico, Supply.PathTxs(w, PathTo(w, db.chain, h)))
    ensures h in db.globState
    ensures Total(db.globState[h]) == Total(w.ico) <==>
            GainAlong(w, w.ico, Supply.PathTxs(w, PathTo(w, db.chain, h))) == 0
  {
    hide ChainInv, Bucketed, Pooled, GainAlong, Total;
    var p := PathTo(w, db.chain, h);
    CachesReplay(w, db, h);
    Supply.ReplayIsLedgerAfter(w, p);
    TotalAlong(w, w.ico, Supply.PathTxs(w, p));
  }

  /** What the generator builds gains nothing in any ledger where its coin is what the key
      says and it has not taken effect yet. */
  lemma GeneratedGainsNothing(w: World, s: Ledger, tx: SignedTransaction)
    requires GeneratorShaped(w, tx) && NamesOthers(w, tx)
    requires SpentCoin(tx) in s ==>
               s[SpentCoin(tx)] == OutputOf(w, SpentCoin(tx)) && Made0(w, tx) !in s && Made1(w, tx) !in s
    ensures Gain(w, s, tx) == 0
  {
    var t := tx.transaction;
    assert Paid(s, t, 2) == Paid(s, t, 1) + if LiveInput(s, t, 1) then t.outputValue[1] else 0;
    assert Paid(s, t, 1) == Paid(s, t, 0) + if LiveInput(s, t, 0) then t.outputValue[0] else 0;
    assert Overwritten(w, s, tx, 1) == 0;
  }

  // ---------------------------------------------------------------------------
  // What admission buys

  lemma {:induction false} AllLivePaid(s: Ledger, t: Transaction, n: nat)
    requires Paired(t) && n <= |t.inputPrevious| && AllLive(s, t)
    requires n <= |t.outputValue| && forall i :: 0 <= i < n ==> HasOutput(t, i)
    ensures Paid(s, t, n) == SumFirst(t.outputValue, n)
  {
    if n > 0 {
      AllLivePaid(s, t, n - 1);
    }
  }

  /** The checks of the Transactions arm bound the total in the ledger they were made
      against: an admitted transaction never raises it. */
  lemma AdmittedNeverRaises(w: World, pool: map<H256, SignedTransaction>, s: Ledger, tx: SignedTransaction)
    requires Folds(w, s, tx) && NamesOthers(w, tx) && Admissible(w, pool, s, tx)
    ensures Total(ApplyTx(w, s, tx)) <= Total(s)
  {
    FoldsIff(w, s, tx);
    forall i | 0 <= i < |tx.transaction.inputPrevious|
      ensures HasOutput(tx.transaction, i)
    {
      assert LiveInput(s, tx.transaction, i);
    }
    AllLivePaid(s, tx.transaction, |tx.transaction.inputPrevious|);
    TotalAfter(w, s, tx);
  }

  // ---------------------------------------------------------------------------
  // Inputs that do not conserve value, on ledgers a node reaches

  /** A transaction with one input and one output. */
  predicate Pays(tx: SignedTransaction, c: Coin, value: u32, address: H160) {
    tx.transaction == Transaction([c.tx], [c.index], [value], [address])
  }

  lemma ApplyPayment(w: World, s: Ledger, tx: SignedTransaction, c: Coin, value: u32, address: H160)
    requires Pays(tx, c, value, address)
    ensures ApplyTx(w, s, tx) == if c in s then s[Coin(w.txHash(tx), 0) := Output(value, address)] - {c} else s
  {
    assert InputCoin(tx.transaction, 0) == c;
    assert Spend(w, tx, 0, s) == Spending(s, false, false);
  }

  lemma PaymentAdmissible(w: World, pool: map<H256, SignedTransaction>, s: Ledger, tx: SignedTransaction,
                          c: Coin, value: u32, address: H160)
    requires Pays(tx, c, value, address) && c in s
    ensures Admissible(w, pool, s, tx) <==>
            && w.txHash(tx) !in pool && SignedOk(w, tx)
            && s[c].address == w.addressOf(tx.sig.key) && value <= s[c].value
  {
    var t := tx.transaction;
    assert InputCoin(t, 0) == c;
    assert SumFirst(t.outputValue, 1) == SumFirst(t.outputValue, 0) + value;
  }

  lemma AfterPayment(w: World, txs: seq<SignedTransaction>, tx: SignedTransaction)
    ensures LedgerAfter(w, txs + [tx]) == ApplyTx(w, LedgerAfter(w, txs), tx)
    ensures LedgerAfter(w, [tx]) == ApplyTx(w, w.ico, tx)
  {
    assert (txs + [tx])[..|txs|] == txs;
    assert ApplyTxs(w, w.ico, []) == w.ico && [] + [tx] == [tx];
    assert ([] + [tx])[..0] == [];
  }

  /** Right after the ICO an admissible transaction pays 1 out of a coin of 1000, to which it
      gives no change: 999 are gone. */
  lemma AdmittedLoses(w: World, tx: SignedTransaction)
    requires w.ico == IcoLedger([8]) && Pays(tx, Coin(0, 0), 1, 5)
    requires SignedOk(w, tx) && w.addressOf(tx.sig.key) == 8 && w.txHash(tx) != 0
    ensures Admissible(w, map[], w.ico, tx)
    ensures Total(w.ico) == 1000 && Total(LedgerAfter(w, [tx])) == 1
  {
    hide Total, ApplyTx, LedgerAfter;
    var s := w.ico;
    PaymentAdmissible(w, map[], s, tx, Coin(0, 0), 1, 5);
    IcoTotal([8]);
    AfterPayment(w, [], tx);
    ApplyPayment(w, s, tx, Coin(0, 0), 1, 5);
    TotalPlus(s, Coin(w.txHash(tx), 0), Output(1, 5));
    TotalMinus(s[Coin(w.txHash(tx), 0) := Output(1, 5)], Coin(0, 0));
  }

  /** A correctly signed transaction that pays 5000 out of a coin of 1000 is not admissible.
      But blocks are only checked for signatures: a node to which a tx block with this
      transaction and a proposer block that refers to it are delivered, right after the ICO,
      holds a ledger worth 5000. */
  lemma DeliveredRaises(w: World, tx: SignedTransaction, tb: TXBlock, b: ProposerBlock)
    requires w.Good() && w.ico == IcoLedger([8]) && Pays(tx, Coin(0, 0), 5000, 5)
    requires SignedOk(w, tx) && w.txHash(tx) != 0
    requires tb.content == [tx] && w.TxBlockOccurs(tb)
    requires tb.header.proposerDifficulty < w.TxBlockHash(tb) <= tb.header.transactionDifficulty
    requires b.content == [w.TxBlockHash(tb)] && w.Occurs(b) && PowOk(w, b)
    requires b.header.proposerParent == w.Genesis()
    ensures !Admissible(w, map[], w.ico, tx) && Total(w.ico) == 1000
    ensures var db := Run(w, [TxBlock(tb), Proposer(b)]);
            w.Hash(b) in db.globState && Total(db.globState[w.Hash(b)]) == 5000
  {
    hide Total, ApplyTx, LedgerAfter, Prune, Inserted, PowOk, Merkle.TreeRoot, GenesisBlock;
    var s := w.ico;
    PaymentAdmissible(w, map[], s, tx, Coin(0, 0), 5000, 5);
    IcoTotal([8]);
    ApplyPayment(w, s, tx, Coin(0, 0), 5000, 5);
    TotalPlus(s, Coin(w.txHash(tx), 0), Output(5000, 5));
    TotalMinus(s[Coin(w.txHash(tx), 0) := Output(5000, 5)], Coin(0, 0));
    RunTwo(w, TxBlock(tb), Proposer(b));
    OneRef(w, s, w.TxBlockHash(tb), tx);
    NewChainInv(w);
    NotGenesis(w, NewChain(w), b);
  }

  lemma RunTwo(w: World, e: Event, e': Event)
    ensures Run(w, [e]) == Handle(w, InitDb(w), e)
    ensures Run(w, [e, e']) == Handle(w, Handle(w, InitDb(w), e), e')
  {
    hide Handle;
    assert [e, e'][..1] == [e] && [e][..0] == [];
  }

  lemma OneRef(w: World, s: Ledger, r: H256, tx: SignedTransaction)
    requires w.txBlockOf(r).content == [tx]
    ensures ApplyRefs(w, s, [r]) == ApplyTx(w, s, tx)
  {
    hide ApplyTx;
    assert [r][..0] == [] && [tx][..0] == [];
    assert ApplyTxs(w, s, [tx]) == ApplyTx(w, s, tx);
    assert ApplyRefs(w, s, []) == s;
  }

  /** Right after the ICO, 9 pays its coin to 8 (g), and tx, which spends both coins of 8 with
      outputs of 1000 and 0, is admitted. If the coin received is first spent otherwise (u),
      tx creates its output and removes nothing. */
  lemma AdmittedThenRaises(w: World, g: SignedTransaction, u: SignedTransaction, tx: SignedTransaction)
    requires w.ico == IcoLedger([8, 9]) && Pays(g, Coin(0, 1), 1000, 8) && Pays(u, Coin(w.txHash(g), 0), 1000, 9)
    requires tx.transaction == Transaction([0, w.txHash(g)], [0, 0], [1000, 0], [5, 5])
    requires SignedOk(w, tx) && w.addressOf(tx.sig.key) == 8
    requires w.txHash(g) != 0 && w.txHash(u) != 0 && w.txHash(u) != w.txHash(g)
    requires w.txHash(tx) != 0 && w.txHash(tx) != w.txHash(g) && w.txHash(tx) != w.txHash(u)
    ensures Admissible(w, map[], LedgerAfter(w, [g]), tx)
    ensures Total(LedgerAfter(w, [g, u])) == 2000 && Total(LedgerAfter(w, [g, u, tx])) == 3000
  {
    hide Total, ApplyTx, LedgerAfter;
    var t, cg, cu := tx.transaction, Coin(w.txHash(g), 0), Coin(w.txHash(u), 0);
    var s1: Ledger := map[Coin(0, 0) := Output(1000, 8), cg := Output(1000, 8)];
    var s2: Ledger := map[Coin(0, 0) := Output(1000, 8), cu := Output(1000, 9)];
    AfterPayment(w, [], g);
    AfterPayment(w, [g], u);
    AfterPayment(w, [g, u], tx);
    ApplyPayment(w, w.ico, g, Coin(0, 1), 1000, 8);
    assert LedgerAfter(w, [g]) == s1;
    ApplyPayment(w, s1, u, cg, 1000, 9);
    assert [g] + [u] == [g, u] && [g, u] + [tx] == [g, u, tx];
    assert LedgerAfter(w, [g, u]) == s2;
    assert SumFirst(t.outputValue, 2) == SumFirst(t.outputValue, 1) + 0;
    assert SumFirst(t.outputValue, 1) == SumFirst(t.outputValue, 0) + 1000;
    TwoCoins(s2, Coin(0, 0), cu);
    LastSpent(w, s2, tx);
  }

  lemma TwoCoins(s: Ledger, c: Coin, d: Coin)
    requires s.Keys == {c, d} && c != d
    ensures Total(s) == (s[c].value as int) + s[d].value
  {
    TotalMinus(s, c);
    TotalMinus(s - {c}, d);
    assert Amounts(s - {c} - {d}).Keys == {};
  }

  /** With the first input live and the last one spent, the output of the first is all gain. */
  lemma LastSpent(w: World, s: Ledger, tx: SignedTransaction)
    requires WellShaped(tx.transaction) && NamesOthers(w, tx) && |tx.transaction.inputPrevious| == 2
    requires LiveInput(s, tx.transaction, 0) && !LiveInput(s, tx.transaction, 1)
    requires forall c :: c in s ==> c.tx != w.txHash(tx)
    ensures Total(ApplyTx(w, s, tx)) == Total(s) + tx.transaction.outputValue[0]
  {
    var t := tx.transaction;
    assert Paid(s, t, 2) == Paid(s, t, 1);
    assert Paid(s, t, 1) == Paid(s, t, 0) + t.outputValue[0];
    WellShapedFolds(w, s, tx);
    NothingOverwritten(w, s, tx, 2);
    TotalAfter(w, s, tx);
  }
}
