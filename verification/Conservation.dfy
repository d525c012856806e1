/** What no sequence of transactions can change. Of any shape: a coin is what its key says.
    With one input coin each: no coin is created or spent twice. Made by the generator: the
    total value stays that of the initial coin offering. */
module Conservation {
  import opened Basics
  import opened Types
  import opened Ledgers
  import opened Sums

  // ---------------------------------------------------------------------------
  // The value of a ledger

  function Amounts(s: Ledger): map<Coin, nat> {
    map c | c in s :: s[c].value
  }

  ghost function Total(s: Ledger): nat {
    Sum(Amounts(s))
  }

  lemma TotalMinus(s: Ledger, c: Coin)
    requires c in s
    ensures Total(s) == s[c].value + Total(s - {c})
  {
    SumMinus(Amounts(s), c);
    assert Amounts(s) - {c} == Amounts(s - {c});
  }

  lemma TotalPlus(s: Ledger, c: Coin, o: Output)
    requires c !in s
    ensures Total(s[c := o]) == o.value + Total(s)
  {
    SumPlus(Amounts(s), c, o.value);
    assert Amounts(s)[c := o.value] == Amounts(s[c := o]);
  }

  // ---------------------------------------------------------------------------
  // Every shape: a coin is what its key says

  /** The output a coin's key stands for: an ICO entry, or an output of the transaction
      the key names. */
  function OutputOf(w: World, c: Coin): Output {
    if c in w.ico then w.ico[c] else
      var t := w.txOf(c.tx).transaction;
      if c.index < |t.outputValue| && c.index < |t.outputAddress| then
        Output(t.outputValue[c.index], t.outputAddress[c.index])
      else Output(0, 0)
  }

  /** The hash of a transaction is not the all-zero id and determines the transaction. */
  predicate Keyed(w: World, tx: SignedTransaction) {
    w.txHash(tx) != 0 && w.txOf(w.txHash(tx)) == tx
  }

  predicate AllKeyed(w: World, txs: seq<SignedTransaction>) {
    forall tx | tx in txs :: Keyed(w, tx)
  }

  /** The ICO puts its coins under the all-zero id. */
  predicate IcoShaped(w: World) {
    forall c | c in w.ico :: c.tx == 0
  }

  ghost predicate KeySays(w: World, s: Ledger) {
    forall c :: c in s ==> s[c] == OutputOf(w, c)
  }

  lemma {:induction false} SpendKeySays(w: World, tx: SignedTransaction, k: nat, s: Ledger)
    requires IcoShaped(w) && Keyed(w, tx) && KeySays(w, s)
    requires Paired(tx.transaction) && k <= |tx.transaction.inputPrevious|
    ensures KeySays(w, Spend(w, tx, k, s).ledger)
  {
    if k > 0 {
      SpendKeySays(w, tx, k - 1, s);
    }
  }

  /** No transaction, whatever its shape, makes a coin other than its key says. */
  lemma KeysStep(w: World, s: Ledger, tx: SignedTransaction)
    requires IcoShaped(w) && Keyed(w, tx) && KeySays(w, s)
    ensures KeySays(w, ApplyTx(w, s, tx))
  {
    hide Spend, OutputOf;
    if Paired(tx.transaction) {
      SpendKeySays(w, tx, |tx.transaction.inputPrevious|, s);
    }
  }

  function LedgerAfter(w: World, txs: seq<SignedTransaction>): Ledger {
    ApplyTxs(w, w.ico, txs)
  }

  lemma {:induction false} KeysAfter(w: World, txs: seq<SignedTransaction>)
    requires IcoShaped(w) && AllKeyed(w, txs)
    ensures KeySays(w, LedgerAfter(w, txs))
  {
    hide ApplyTx;
    if txs != [] {
      KeysAfter(w, txs[..|txs| - 1]);
      KeysStep(w, LedgerAfter(w, txs[..|txs| - 1]), txs[|txs| - 1]);
    }
  }

  // ---------------------------------------------------------------------------
  // One-coin transactions: no coin comes back

  /** All inputs name one coin. */
  predicate OneCoin(w: World, tx: SignedTransaction) {
    var t := tx.transaction;
    && Keyed(w, tx) && WellShaped(t)
    && forall i | 0 <= i < |t.inputPrevious| :: InputCoin(t, i) == InputCoin(t, 0)
  }

  predicate AllOneCoin(w: World, txs: seq<SignedTransaction>) {
    forall tx | tx in txs :: OneCoin(w, tx)
  }

  function SpentCoin(tx: SignedTransaction): Coin
    requires |tx.transaction.inputPrevious| > 0 && |tx.transaction.inputIndex| > 0
  {
    InputCoin(tx.transaction, 0)
  }

  /** The outputs paired with the first n inputs. */
  function Outputs(w: World, tx: SignedTransaction, n: nat): (r: set<Coin>)
    requires n <= 0x1_0000_0000
    ensures forall c :: c in r <==> c.tx == w.txHash(tx) && c.index < n
  {
    var r := set i: u32 | 0 <= i < n :: Coin(w.txHash(tx), i);
    assert forall c: Coin :: c.tx == w.txHash(tx) && c.index < n ==> c == Coin(w.txHash(tx), c.index) && c in r;
    r
  }

  function MadeBy(w: World, tx: SignedTransaction): set<Coin>
    requires Paired(tx.transaction)
  {
    Outputs(w, tx, |tx.transaction.inputPrevious|)
  }

  /** The transaction changes the ledger. */
  predicate TakesEffect(w: World, s: Ledger, tx: SignedTransaction) {
    && Folds(w, s, tx)
    && Spend(w, tx, |tx.transaction.inputPrevious|, s).exist
  }

  lemma {:induction false} SpendOneCoin(w: World, tx: SignedTransaction, k: nat, s: Ledger)
    requires OneCoin(w, tx) && 0 < k <= |tx.transaction.inputPrevious|
    ensures Spend(w, tx, k, s).exist <==> SpentCoin(tx) in s
    ensures Spend(w, tx, k, s).ledger.Keys == if SpentCoin(tx) in s then s.Keys + Outputs(w, tx, k) else s.Keys
    ensures SpentCoin(tx) !in s ==> Spend(w, tx, k, s).ledger == s
  {
    hide OneCoin;
    SameInput(w, tx, k - 1);
    SpendGoesOn(w, tx, k - 1, s);
    if k > 1 {
      SpendOneCoin(w, tx, k - 1, s);
      assert Outputs(w, tx, k) == Outputs(w, tx, k - 1) + {Coin(w.txHash(tx), k - 1)};
    } else {
      assert Spend(w, tx, 0, s) == Spending(s, false, false);
      assert Outputs(w, tx, 1) == {Coin(w.txHash(tx), 0)};
    }
  }

  lemma SameInput(w: World, tx: SignedTransaction, i: nat)
    requires OneCoin(w, tx) && i < |tx.transaction.inputPrevious|
    ensures WellShaped(tx.transaction) && InputCoin(tx.transaction, i) == SpentCoin(tx)
  {
  }

  /** What the fold does to the live coins, given a one-coin transaction. */
  lemma ApplyOneCoin(w: World, s: Ledger, tx: SignedTransaction)
    requires OneCoin(w, tx)
    ensures TakesEffect(w, s, tx) <==> |tx.transaction.inputPrevious| > 0 && SpentCoin(tx) in s
    ensures TakesEffect(w, s, tx) ==> ApplyTx(w, s, tx).Keys == s.Keys + MadeBy(w, tx) - {SpentCoin(tx)}
    ensures !TakesEffect(w, s, tx) ==> ApplyTx(w, s, tx) == s
  {
    hide OneCoin, Outputs;
    var n := |tx.transaction.inputPrevious|;
    if n > 0 {
      SameInput(w, tx, n - 1);
      WellShapedFolds(w, s, tx);
      SpendOneCoin(w, tx, n, s);
    } else {
      NoInputs(w, tx, s);
    }
  }

  lemma NoInputs(w: World, tx: SignedTransaction, s: Ledger)
    requires OneCoin(w, tx) && |tx.transaction.inputPrevious| == 0
    ensures ApplyTx(w, s, tx) == s && !TakesEffect(w, s, tx)
  {
  }

  /** Every coin that has ever been live. */
  ghost function Made(w: World, txs: seq<SignedTransaction>): set<Coin> {
    if txs == [] then w.ico.Keys else
      var init, tx := txs[..|txs| - 1], txs[|txs| - 1];
      Made(w, init) + if TakesEffect(w, LedgerAfter(w, init), tx) then MadeBy(w, tx) else {}
  }

  ghost predicate SpentWhereMade(w: World, live: Ledger, made: set<Coin>) {
    forall tx, c :: OneCoin(w, tx) && c in MadeBy(w, tx) && c in made ==>
      |tx.transaction.inputPrevious| > 0 && SpentCoin(tx) in made && SpentCoin(tx) !in live
  }

  /** A live coin has been made, and a transaction one of whose outputs has been made has its
      input spent. */
  ghost predicate Orderly(w: World, live: Ledger, made: set<Coin>) {
    live.Keys <= made && SpentWhereMade(w, live, made)
  }

  lemma OrderlyStep(w: World, live: Ledger, made: set<Coin>, tx: SignedTransaction)
    requires Orderly(w, live, made) && OneCoin(w, tx)
    ensures TakesEffect(w, live, tx) ==> MadeBy(w, tx) !! made
    ensures Orderly(w, ApplyTx(w, live, tx), made + if TakesEffect(w, live, tx) then MadeBy(w, tx) else {})
  {
    hide OneCoin, ApplyTx, TakesEffect, Outputs, MadeBy;
    ApplyOneCoin(w, live, tx);
    if TakesEffect(w, live, tx) {
      SpentStaysSpent(w, live, made, tx, ApplyTx(w, live, tx));
    } else {
      assert made + {} == made;
    }
  }

  /** The second clause of Orderly after the step. */
  lemma SpentStaysSpent(w: World, live: Ledger, made: set<Coin>, tx: SignedTransaction, live': Ledger)
    requires Orderly(w, live, made) && OneCoin(w, tx)
    requires |tx.transaction.inputPrevious| > 0 && SpentCoin(tx) in live
    requires live'.Keys == live.Keys + MadeBy(w, tx) - {SpentCoin(tx)}
    ensures MadeBy(w, tx) !! made
    ensures SpentWhereMade(w, live', made + MadeBy(w, tx))
  {
    var made' := made + MadeBy(w, tx);
    forall tx', c | OneCoin(w, tx') && c in MadeBy(w, tx') && c in made'
      ensures |tx'.transaction.inputPrevious| > 0 && SpentCoin(tx') in made' && SpentCoin(tx') !in live'
    {
      if c in MadeBy(w, tx) {
        assert tx' == tx;
      }
    }
  }

  lemma {:induction false} OrderlyAfter(w: World, txs: seq<SignedTransaction>)
    requires IcoShaped(w) && AllOneCoin(w, txs)
    ensures Orderly(w, LedgerAfter(w, txs), Made(w, txs))
  {
    hide ApplyTx, TakesEffect, Orderly, MadeBy, OneCoin;
    if txs == [] {
      IcoOrderly(w);
    } else {
      OrderlyAfter(w, txs[..|txs| - 1]);
      OrderlyStep(w, LedgerAfter(w, txs[..|txs| - 1]), Made(w, txs[..|txs| - 1]), txs[|txs| - 1]);
    }
  }

  lemma IcoOrderly(w: World)
    requires IcoShaped(w)
    ensures Orderly(w, w.ico, w.ico.Keys)
  {
  }

  lemma LedgerStep(w: World, txs: seq<SignedTransaction>, i: nat)
    requires i < |txs|
    ensures LedgerAfter(w, txs[..i + 1]) == ApplyTx(w, LedgerAfter(w, txs[..i]), txs[i])
    ensures Made(w, txs[..i]) <= Made(w, txs[..i + 1])
  {
    assert txs[..i + 1][..i] == txs[..i];
  }

  /** One transaction brings back no coin that was made and is gone. */
  lemma StaysGone(w: World, live: Ledger, made: set<Coin>, tx: SignedTransaction, c: Coin)
    requires Orderly(w, live, made) && OneCoin(w, tx)
    requires c in made && c !in live
    ensures c !in ApplyTx(w, live, tx)
  {
    hide OneCoin, ApplyTx, Orderly, TakesEffect, MadeBy;
    ApplyOneCoin(w, live, tx);
    OrderlyStep(w, live, made, tx);
  }

  /** A coin that exists no more does not come back. */
  lemma {:induction false} GoneForGood(w: World, txs: seq<SignedTransaction>, c: Coin, i: nat, j: nat)
    requires IcoShaped(w) && AllOneCoin(w, txs) && i <= j <= |txs|
    requires c in Made(w, txs[..i]) && c !in LedgerAfter(w, txs[..i])
    ensures c in Made(w, txs[..j]) && c !in LedgerAfter(w, txs[..j])
    decreases j
  {
    if i < j {
      hide ApplyTx, Made, LedgerAfter, Orderly, OneCoin;
      GoneForGood(w, txs, c, i, j - 1);
      LedgerStep(w, txs, j - 1);
      OrderlyAfter(w, txs[..j - 1]);
      assert txs[j - 1] in txs;
      StaysGone(w, LedgerAfter(w, txs[..j - 1]), Made(w, txs[..j - 1]), txs[j - 1], c);
    }
  }

  /** No coin is live, then not live, then live again; so it is spent at most once. */
  lemma NeverLiveAgain(w: World, txs: seq<SignedTransaction>, c: Coin, i: nat, j: nat, k: nat)
    requires IcoShaped(w) && AllOneCoin(w, txs) && i <= j <= k <= |txs|
    requires c in LedgerAfter(w, txs[..i]) && c !in LedgerAfter(w, txs[..j])
    ensures c !in LedgerAfter(w, txs[..k])
  {
    hide SpentWhereMade, Made, LedgerAfter, OneCoin;
    OrderlyAfter(w, txs[..i]);
    MadeGrows(w, txs, i, j);
    GoneForGood(w, txs, c, j, k);
  }

  lemma {:induction false} MadeGrows(w: World, txs: seq<SignedTransaction>, i: nat, j: nat)
    requires i <= j <= |txs|
    ensures Made(w, txs[..i]) <= Made(w, txs[..j])
    decreases j
  {
    hide Made, LedgerAfter;
    if i < j {
      MadeGrows(w, txs, i, j - 1);
      LedgerStep(w, txs, j - 1);
    }
  }

  /** When a transaction takes effect, its outputs have never existed before: every coin
      is created at most once. */
  lemma CreatedAtMostOnce(w: World, txs: seq<SignedTransaction>, i: nat, j: nat)
    requires IcoShaped(w) && AllOneCoin(w, txs) && j <= i < |txs|
    requires TakesEffect(w, LedgerAfter(w, txs[..i]), txs[i])
    ensures forall c :: c in MadeBy(w, txs[i]) ==> c !in LedgerAfter(w, txs[..j])
  {
    hide SpentWhereMade, Made, LedgerAfter, OneCoin, MadeBy;
    assert txs[i] in txs;
    OrderlyAfter(w, txs[..i]);
    OrderlyStep(w, LedgerAfter(w, txs[..i]), Made(w, txs[..i]), txs[i]);
    OrderlyAfter(w, txs[..j]);
    MadeGrows(w, txs, j, i);
  }

  /** Of two listed transactions that spend one coin, the later one has no effect once the
      earlier one has had it. In particular a transaction takes effect at most once,
      however often it is listed. */
  lemma SpendersExclude(w: World, txs: seq<SignedTransaction>, i: nat, j: nat)
    requires IcoShaped(w) && AllOneCoin(w, txs) && i < j < |txs|
    requires |txs[i].transaction.inputPrevious| > 0 && |txs[i].transaction.inputIndex| > 0
    requires |txs[j].transaction.inputPrevious| > 0 && |txs[j].transaction.inputIndex| > 0
    requires SpentCoin(txs[i]) == SpentCoin(txs[j])
    requires TakesEffect(w, LedgerAfter(w, txs[..i]), txs[i])
    ensures !TakesEffect(w, LedgerAfter(w, txs[..j]), txs[j])
  {
    hide OneCoin, TakesEffect, LedgerAfter;
    assert txs[i] in txs && txs[j] in txs;
    ApplyOneCoin(w, LedgerAfter(w, txs[..i]), txs[i]);
    SpentBySpender(w, txs, i);
    NeverLiveAgain(w, txs, SpentCoin(txs[i]), i, i + 1, j);
    ApplyOneCoin(w, LedgerAfter(w, txs[..j]), txs[j]);
  }

  lemma SpentBySpender(w: World, txs: seq<SignedTransaction>, i: nat)
    requires i < |txs| && OneCoin(w, txs[i]) && |txs[i].transaction.inputPrevious| > 0
    ensures SpentCoin(txs[i]) !in LedgerAfter(w, txs[..i + 1])
  {
    hide ApplyTx, TakesEffect, LedgerAfter, MadeBy;
    LedgerStep(w, txs, i);
    ApplyOneCoin(w, LedgerAfter(w, txs[..i]), txs[i]);
  }

  // ---------------------------------------------------------------------------
  // Generator-made transactions: the supply is conserved

  /** What the generator builds: both inputs name one coin, every vector has two entries,
      and the outputs add up to that coin. */
  predicate GeneratorShaped(w: World, tx: SignedTransaction) {
    var t := tx.transaction;
    && OneCoin(w, tx)
    && |t.inputPrevious| == |t.inputIndex| == |t.outputValue| == |t.outputAddress| == 2
    && (t.outputValue[0] as int) + (t.outputValue[1] as int) == OutputOf(w, InputCoin(t, 0)).value
  }

  predicate AllGenerated(w: World, txs: seq<SignedTransaction>) {
    forall tx | tx in txs :: GeneratorShaped(w, tx)
  }

  function Made0(w: World, tx: SignedTransaction): Coin { Coin(w.txHash(tx), 0) }

  function Made1(w: World, tx: SignedTransaction): Coin { Coin(w.txHash(tx), 1) }

  /** What the fold does with a generator-made transaction. */
  lemma ApplyGenerated(w: World, s: Ledger, tx: SignedTransaction)
    requires GeneratorShaped(w, tx)
    ensures TakesEffect(w, s, tx) <==> SpentCoin(tx) in s
    ensures var t := tx.transaction;
            ApplyTx(w, s, tx) ==
              if SpentCoin(tx) in s then
                s[Made0(w, tx) := Output(t.outputValue[0], t.outputAddress[0])]
                 [Made1(w, tx) := Output(t.outputValue[1], t.outputAddress[1])] - {SpentCoin(tx)}
              else s
  {
    assert InputCoin(tx.transaction, 1) == InputCoin(tx.transaction, 0);
    var r1 := Spend(w, tx, 1, s);
    assert r1 == if SpentCoin(tx) in s then
        Spending(s[Made0(w, tx) := Output(tx.transaction.outputValue[0], tx.transaction.outputAddress[0])], true, false)
      else Spending(s, false, false) by {
      assert Spend(w, tx, 0, s) == Spending(s, false, false);
    }
  }

  /** Orderly, every coin what its key says, and the total that of the ICO. */
  ghost predicate Sound(w: World, live: Ledger, made: set<Coin>) {
    Orderly(w, live, made) && KeySays(w, live) && Total(live) == Total(w.ico)
  }

  lemma SoundStep(w: World, live: Ledger, made: set<Coin>, tx: SignedTransaction)
    requires IcoShaped(w) && Sound(w, live, made) && GeneratorShaped(w, tx)
    ensures Sound(w, ApplyTx(w, live, tx), made + if TakesEffect(w, live, tx) then MadeBy(w, tx) else {})
  {
    hide SpentWhereMade, Total, ApplyTx, TakesEffect, OutputOf;
    OrderlyStep(w, live, made, tx);
    KeysStep(w, live, tx);
    ApplyGenerated(w, live, tx);
    if SpentCoin(tx) in live {
      GeneratedKeepsTotal(w, live, made, tx);
    }
  }

  lemma GeneratedKeepsTotal(w: World, live: Ledger, made: set<Coin>, tx: SignedTransaction)
    requires KeySays(w, live) && GeneratorShaped(w, tx) && SpentCoin(tx) in live
    requires live.Keys <= made && MadeBy(w, tx) !! made
    ensures var t := tx.transaction;
            Total(live[Made0(w, tx) := Output(t.outputValue[0], t.outputAddress[0])]
                      [Made1(w, tx) := Output(t.outputValue[1], t.outputAddress[1])] - {SpentCoin(tx)}) == Total(live)
  {
    hide Total, OutputOf;
    var c, m0, m1 := SpentCoin(tx), Made0(w, tx), Made1(w, tx);
    var o0 := Output(tx.transaction.outputValue[0], tx.transaction.outputAddress[0]);
    var o1 := Output(tx.transaction.outputValue[1], tx.transaction.outputAddress[1]);
    assert m0 in MadeBy(w, tx) && m1 in MadeBy(w, tx);
    var live0 := live[m0 := o0];
    var live1 := live0[m1 := o1];
    TotalPlus(live, m0, o0);
    TotalPlus(live0, m1, o1);
    TotalMinus(live1, c);
  }

  lemma {:induction false} SoundAfter(w: World, txs: seq<SignedTransaction>)
    requires IcoShaped(w) && AllGenerated(w, txs)
    ensures Sound(w, LedgerAfter(w, txs), Made(w, txs))
  {
    hide ApplyTx, TakesEffect, Orderly, GeneratorShaped, MadeBy;
    if txs == [] {
      IcoOrderly(w);
    } else {
      SoundAfter(w, txs[..|txs| - 1]);
      SoundStep(w, LedgerAfter(w, txs[..|txs| - 1]), Made(w, txs[..|txs| - 1]), txs[|txs| - 1]);
    }
  }

  // ---------------------------------------------------------------------------
  // The initial coin offering

  const ICO_VALUE: u32 := 1000

  /** One coin of 1000 per address, indexed in address order. */
  function IcoLedger(allAddr: seq<H160>): Ledger
    requires |allAddr| < 0x1_0000_0000
  {
    map c: Coin | c in set i: u32 | 0 <= i < |allAddr| :: Coin(0, i) :: Output(ICO_VALUE, allAddr[c.index])
  }

  method Ico(allAddr: seq<H160>) returns (icoState: Ledger)
    requires |allAddr| < 0x1_0000_0000
    ensures icoState == IcoLedger(allAddr)
    ensures forall c: Coin :: c in icoState <==> c.tx == 0 && c.index < |allAddr|
    ensures forall i: u32 :: i < |allAddr| ==>
              Coin(0, i) in icoState && icoState[Coin(0, i)] == Output(1000, allAddr[i])
  {
    icoState := map[];
    for i := 0 to |allAddr|
      invariant icoState == IcoLedger(allAddr[..i])
    {
      IcoStep(allAddr, i);
      icoState := icoState[Coin(0, i) := Output(1000, allAddr[i])];
    }
    assert allAddr[..|allAddr|] == allAddr;
    IcoCoins(allAddr);
  }

  /** Which coins there are, and whose. */
  lemma IcoCoins(allAddr: seq<H160>)
    requires |allAddr| < 0x1_0000_0000
    ensures forall c: Coin :: c in IcoLedger(allAddr) <==> c.tx == 0 && c.index < |allAddr|
    ensures forall i: u32 :: i < |allAddr| ==>
              Coin(0, i) in IcoLedger(allAddr) && IcoLedger(allAddr)[Coin(0, i)] == Output(1000, allAddr[i])
  {
    forall c: Coin | c.tx == 0 && c.index < |allAddr|
      ensures c in IcoLedger(allAddr)
    {
      assert c == Coin(0, c.index);
    }
  }

  lemma IcoStep(allAddr: seq<H160>, n: nat)
    requires n < |allAddr| < 0x1_0000_0000
    ensures IcoLedger(allAddr[..n + 1]) == IcoLedger(allAddr[..n])[Coin(0, n) := Output(ICO_VALUE, allAddr[n])]
    ensures Coin(0, n) !in IcoLedger(allAddr[..n])
  {
    var a, b := IcoLedger(allAddr[..n + 1]), IcoLedger(allAddr[..n])[Coin(0, n) := Output(ICO_VALUE, allAddr[n])];
    forall c: Coin
      ensures c in a <==> c in b
    {
      if c.tx == 0 && c.index < n + 1 {
        assert Coin(0, c.index) == c;
      }
    }
  }

  /** The supply: 1000 for every address. */
  lemma {:induction false} IcoTotal(allAddr: seq<H160>)
    requires |allAddr| < 0x1_0000_0000
    ensures Total(IcoLedger(allAddr)) == ICO_VALUE * |allAddr|
  {
    if allAddr == [] {
      assert Amounts(IcoLedger(allAddr)).Keys == {};
    } else {
      var n := |allAddr| - 1;
      IcoTotal(allAddr[..n]);
      IcoStep(allAddr, n);
      assert allAddr[..n + 1] == allAddr;
      TotalPlus(IcoLedger(allAddr[..n]), Coin(0, n), Output(ICO_VALUE, allAddr[n]));
    }
  }
}
