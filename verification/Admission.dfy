/** What a transaction must pass to enter the pool (the Transactions arm of
    src/network/worker.rs). */
module Admission {
  import opened Basics
  import opened Types
  import opened Ledgers

  function SumFirst(values: seq<u32>, n: nat): nat
    requires n <= |values|
  {
    if n == 0 then 0 else SumFirst(values, n - 1) + values[n - 1]
  }

  /** Every input is live and owned by the signing key; the outputs paired with inputs add
      up to no more than the coin looked at last. */
  predicate Funded(w: World, s: Ledger, tx: SignedTransaction) {
    var t := tx.transaction;
    var n := |t.inputPrevious|;
    && n <= |t.inputIndex| && n <= |t.outputValue|
    && (forall i | 0 <= i < n :: InputCoin(t, i) in s)
    && (forall i | 0 <= i < n :: s[InputCoin(t, i)].address == w.addressOf(tx.sig.key))
    && SumFirst(t.outputValue, n) <= if n == 0 then 0 else s[InputCoin(t, n - 1)].value
  }

  predicate Admissible(w: World, pool: map<H256, SignedTransaction>, s: Ledger, tx: SignedTransaction) {
    && w.txHash(tx) !in pool
    && w.verify(tx.transaction, tx.sig.key, tx.sig.signature)
    && Funded(w, s, tx)
  }

  /** What becomes of a delivered transaction. A worker panics when it indexes a vector
      past its end, and, in a debug build, when the output sum leaves 32 bits. */
  datatype Verdict = Admitted | AlreadyPooled | BadSignature | Spent | KeyMismatch | OutputLarger | Panicked

  lemma {:induction false} SumFirstMonotone(values: seq<u32>, m: nat, n: nat)
    requires m <= n <= |values|
    ensures SumFirst(values, m) <= SumFirst(values, n)
    decreases n
  {
    if m < n {
      SumFirstMonotone(values, m, n - 1);
    }
  }

  /** Every input has its index and is a coin of s. */
  predicate AllThere(s: Ledger, t: Transaction) {
    && |t.inputPrevious| <= |t.inputIndex|
    && forall i | 0 <= i < |t.inputPrevious| :: Coin(t.inputPrevious[i], t.inputIndex[i]) in s
  }

  /** Every one of these coins belongs to the signing key. */
  predicate AllMatch(w: World, s: Ledger, tx: SignedTransaction)
    requires AllThere(s, tx.transaction)
  {
    var t := tx.transaction;
    forall i | 0 <= i < |t.inputPrevious| ::
      s[Coin(t.inputPrevious[i], t.inputIndex[i])].address == w.addressOf(tx.sig.key)
  }

  /** The coin looked at last. */
  function LastValue(s: Ledger, t: Transaction): nat
    requires AllThere(s, t)
  {
    var n := |t.inputPrevious|;
    if n == 0 then 0 else s[Coin(t.inputPrevious[n - 1], t.inputIndex[n - 1])].value
  }

  lemma FundedIs(w: World, s: Ledger, tx: SignedTransaction)
    ensures var t := tx.transaction;
            var n := |t.inputPrevious|;
            Funded(w, s, tx) <==>
            && AllThere(s, t) && AllMatch(w, s, tx)
            && n <= |t.outputValue| && SumFirst(t.outputValue, n) <= LastValue(s, t)
  {
    var t := tx.transaction;
    if AllThere(s, t) && AllMatch(w, s, tx) {
      forall i | 0 <= i < |t.inputPrevious|
        ensures InputCoin(t, i) in s && s[InputCoin(t, i)].address == w.addressOf(tx.sig.key)
      {
        assert Coin(t.inputPrevious[i], t.inputIndex[i]) in s;
      }
    }
    if Funded(w, s, tx) {
      forall i | 0 <= i < |t.inputPrevious|
        ensures var c := Coin(t.inputPrevious[i], t.inputIndex[i]); c in s && s[c].address == w.addressOf(tx.sig.key)
      {
        assert InputCoin(t, i) in s;
      }
    }
  }

  /** The worker's checks, in its order, each verdict with its exact condition. */
  method Judge(w: World, pool: map<H256, SignedTransaction>, currState: Ledger, tx: SignedTransaction)
    returns (v: Verdict)
    ensures v == Admitted <==> Admissible(w, pool, currState, tx)
    ensures v == AlreadyPooled <==> w.txHash(tx) in pool
    ensures v == BadSignature <==>
              w.txHash(tx) !in pool && !w.verify(tx.transaction, tx.sig.key, tx.sig.signature)
    ensures var t := tx.transaction;
            v == Spent <==>
              && w.txHash(tx) !in pool && w.verify(t, tx.sig.key, tx.sig.signature)
              && exists i :: 0 <= i < |t.inputPrevious| && i < |t.inputIndex|
                             && Coin(t.inputPrevious[i], t.inputIndex[i]) !in currState
    ensures var t := tx.transaction;
            v == KeyMismatch <==>
              && w.txHash(tx) !in pool && w.verify(t, tx.sig.key, tx.sig.signature)
              && AllThere(currState, t) && !AllMatch(w, currState, tx)
    ensures var t := tx.transaction;
            v == OutputLarger <==>
              && w.txHash(tx) !in pool && w.verify(t, tx.sig.key, tx.sig.signature)
              && AllThere(currState, t) && AllMatch(w, currState, tx)
              && |t.inputPrevious| <= |t.outputValue|
              && LastValue(currState, t) < SumFirst(t.outputValue, |t.inputPrevious|) < 0x1_0000_0000
  {
    var t := tx.transaction;
    var n := |t.inputPrevious|;
    FundedIs(w, currState, tx);
    hide Funded;
    if w.txHash(tx) in pool { return AlreadyPooled; }
    if !w.verify(t, tx.sig.key, tx.sig.signature) { return BadSignature; }
    for i := 0 to n
      invariant i <= |t.inputIndex|
      invariant forall j | 0 <= j < i :: Coin(t.inputPrevious[j], t.inputIndex[j]) in currState
    {
      if i >= |t.inputIndex| { return Panicked; }
      if InputCoin(t, i) !in currState { return Spent; }
    }
    for i := 0 to n
      invariant forall j | 0 <= j < i ::
                  currState[Coin(t.inputPrevious[j], t.inputIndex[j])].address == w.addressOf(tx.sig.key)
    {
      if currState[InputCoin(t, i)].address != w.addressOf(tx.sig.key) { return KeyMismatch; }
    }
    var inputSum: u32, outputSum: u32 := 0, 0;
    for i := 0 to n
      invariant i <= |t.outputValue|
      invariant outputSum == SumFirst(t.outputValue, i)
      invariant inputSum == if i == 0 then 0 else currState[InputCoin(t, i - 1)].value
    {
      inputSum := currState[InputCoin(t, i)].value;
      if i >= |t.outputValue| { return Panicked; }
      if outputSum as int + t.outputValue[i] as int >= 0x1_0000_0000 {
        if n <= |t.outputValue| {
          SumFirstMonotone(t.outputValue, i + 1, n);
        }
        return Panicked;
      }
      outputSum := outputSum + t.outputValue[i];
    }
    if outputSum > inputSum { return OutputLarger; }
    return Admitted;
  }
}
