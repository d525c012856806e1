/** The transaction generator of src/generator.rs, and why what it makes is admitted and
    what its balances add up to. */
module Generator {
  import opened Basics
  import opened Types
  import opened Ledgers
  import opened Conservation
  import opened Admission
  import opened Sums

  /** A signature made with a key pair verifies under its public key. */
  ghost predicate SignaturesVerify(w: World) {
    forall t: Transaction, key :: w.verify(t, w.publicKey(key), w.sign(t, key))
  }

  /** Every address of this node is the one its key pair hashes to. */
  predicate KeysMatch(w: World, mine: map<H160, seq<byte>>) {
    forall a | a in mine :: w.addressOf(w.publicKey(mine[a])) == a
  }

  /** tx spends the whole of coin c: at least 1 to some known address, the rest back to the owner. */
  predicate Generates(w: World, mine: map<H160, seq<byte>>, allAddr: seq<H160>, s: Ledger, c: Coin,
                      tx: SignedTransaction) {
    && c in s && s[c].address in mine
    && var t := tx.transaction;
    var key := mine[s[c].address];
    && t.inputPrevious == [c.tx, c.tx] && t.inputIndex == [c.index, c.index]
    && |t.outputValue| == 2 && |t.outputAddress| == 2
    && 1 <= t.outputValue[0] <= s[c].value && t.outputValue[1] == s[c].value - t.outputValue[0]
    && t.outputAddress[0] in allAddr && t.outputAddress[1] == s[c].address
    && tx.sig == Sign(w.sign(t, key), w.publicKey(key))
  }

  /** The coins the generator spends. */
  function Spendable(mine: map<H160, seq<byte>>, s: Ledger): set<Coin> {
    set c | c in s && s[c].address in mine && s[c].value != 0
  }

  /** The transaction for one coin, with the two random choices given. All arithmetic is on
      32 bits, and stays inside them. */
  method BuildTransaction(w: World, mine: map<H160, seq<byte>>, allAddr: seq<H160>, s: Ledger, c: Coin,
                          destRandom: u32, valueRandom: u32) returns (tx: SignedTransaction)
    requires c in s && s[c].address in mine && s[c].value != 0 && allAddr != []
    ensures Generates(w, mine, allAddr, s, c, tx)
    ensures var value, val: int := s[c].value as int, 1 + (valueRandom as int) % s[c].value;
            var key := mine[s[c].address];
            && tx.transaction.inputPrevious == [c.tx, c.tx] && tx.transaction.inputIndex == [c.index, c.index]
            && tx.transaction.outputValue == [val, value - val]
            && tx.transaction.outputAddress == [allAddr[destRandom % |allAddr|], s[c].address]
            && tx.sig.signature == w.sign(tx.transaction, key) && tx.sig.key == w.publicKey(key)
  {
    var value: u32, recipient := s[c].value, s[c].address;
    var inputVec := [c.tx] + [c.tx];
    var idxVec := [c.index] + [c.index];
    var destIdx := destRandom % |allAddr|;
    var addrVec := [allAddr[destIdx]] + [recipient];
    var val: u32 := 1 + valueRandom % value;
    var rest: u32 := value - val;
    var trans := Transaction(inputVec, idxVec, [val] + [rest], addrVec);
    var myKey := mine[recipient];
    tx := SignedTransaction(trans, Sign(w.sign(trans, myKey), w.publicKey(myKey)));
  }

  /** One pass over the tip's ledger, in map iteration order: one transaction for every
      coin of this node that has a value, all of them in the pool afterwards. */
  method GenerateAll(w: World, mine: map<H160, seq<byte>>, allAddr: seq<H160>, s: Ledger,
                     txPool: map<H256, SignedTransaction>)
    returns (newPool: map<H256, SignedTransaction>, ghost made: map<Coin, SignedTransaction>)
    requires allAddr != []
    ensures made.Keys == Spendable(mine, s)
    ensures forall c :: c in made <==> c in s && s[c].address in mine && s[c].value != 0
    ensures forall c :: c in made ==> Generates(w, mine, allAddr, s, c, made[c]) && w.txHash(made[c]) in newPool
    ensures forall k :: k in txPool ==> k in newPool
    ensures forall k :: k in newPool ==>
              (k in txPool && newPool[k] == txPool[k])
              || exists c :: c in made && w.txHash(made[c]) == k && newPool[k] == made[c]
  {
    hide Generates;
    newPool := txPool;
    made := map[];
    var keys := s.Keys;
    while keys != {}
      invariant keys <= s.Keys
      invariant made.Keys == Spendable(mine, s) - keys
      invariant forall c :: c in made ==> Generates(w, mine, allAddr, s, c, made[c]) && w.txHash(made[c]) in newPool
      invariant forall k :: k in txPool ==> k in newPool
      invariant forall k :: k in newPool ==>
                  (k in txPool && newPool[k] == txPool[k])
                  || exists c :: c in made && w.txHash(made[c]) == k && newPool[k] == made[c]
      decreases keys
    {
      var c :| c in keys;
      keys := keys - {c};
      if s[c].address !in mine {
        continue;
      }
      if s[c].value == 0 {
        continue;
      }
      var destRandom: u32, valueRandom: u32 := *, *;
      var tx := BuildTransaction(w, mine, allAddr, s, c, destRandom, valueRandom);
      newPool, made := PoolWith(w, txPool, newPool, made, c, tx);
    }
  }

  /** The new transaction enters the pool under its hash. */
  method PoolWith(w: World, ghost txPool: map<H256, SignedTransaction>, pool: map<H256, SignedTransaction>,
                  ghost made: map<Coin, SignedTransaction>, ghost c: Coin, tx: SignedTransaction)
    returns (newPool: map<H256, SignedTransaction>, ghost made': map<Coin, SignedTransaction>)
    requires c !in made
    requires forall k :: k in pool ==>
               (k in txPool && pool[k] == txPool[k])
               || exists x :: x in made && w.txHash(made[x]) == k && pool[k] == made[x]
    ensures newPool == pool[w.txHash(tx) := tx] && made' == made[c := tx]
    ensures forall k :: k in newPool ==>
              (k in txPool && newPool[k] == txPool[k])
              || exists x :: x in made' && w.txHash(made'[x]) == k && newPool[k] == made'[x]
  {
    newPool := pool[w.txHash(tx) := tx];
    made' := made[c := tx];
    forall k | k in newPool && !(k in txPool && newPool[k] == txPool[k])
      ensures exists x :: x in made' && w.txHash(made'[x]) == k && newPool[k] == made'[x]
    {
      if k == w.txHash(tx) {
        assert c in made' && w.txHash(made'[c]) == k;
      } else {
        var x :| x in made && w.txHash(made[x]) == k && pool[k] == made[x];
        assert x in made' && made'[x] == made[x];
      }
    }
  }

  /** A generated transaction pays out exactly the coin it spends, and every node with the
      same tip ledger that does not hold it yet admits it. */
  lemma GeneratedIsAdmitted(w: World, mine: map<H160, seq<byte>>, allAddr: seq<H160>, s: Ledger, c: Coin,
                            tx: SignedTransaction, pool: map<H256, SignedTransaction>)
    requires SignaturesVerify(w) && KeysMatch(w, mine) && Generates(w, mine, allAddr, s, c, tx)
    ensures (tx.transaction.outputValue[0] as int) + (tx.transaction.outputValue[1] as int) == s[c].value
    ensures Funded(w, s, tx)
    ensures Admissible(w, pool, s, tx) <==> w.txHash(tx) !in pool
  {
    var t := tx.transaction;
    assert InputCoin(t, 0) == InputCoin(t, 1) == c;
    assert SumFirst(t.outputValue, 2) == SumFirst(t.outputValue, 1) + t.outputValue[1];
    assert SumFirst(t.outputValue, 1) == SumFirst(t.outputValue, 0) + t.outputValue[0];
  }

  /** What is generated from a ledger of the chain is generator-shaped, whatever the
      transactions that led to it: this closes the circle with Conservation, which assumes
      that shape. */
  lemma GeneratedIsShaped(w: World, mine: map<H160, seq<byte>>, allAddr: seq<H160>, txs: seq<SignedTransaction>,
                          c: Coin, tx: SignedTransaction)
    requires IcoShaped(w) && AllKeyed(w, txs) && Generates(w, mine, allAddr, LedgerAfter(w, txs), c, tx)
    requires Keyed(w, tx)
    ensures GeneratorShaped(w, tx)
    ensures AllGenerated(w, txs) ==> AllGenerated(w, txs + [tx])
  {
    hide LedgerAfter, AllKeyed;
    KeysAfter(w, txs);
    assert SpentCoin(tx) == c;
  }

  // ---------------------------------------------------------------------------
  // Balances

  /** The coins of a ledger that belong to some addresses. */
  function Owned(s: Ledger, mine: set<H160>): Ledger {
    map c | c in s && s[c].address in mine :: s[c]
  }

  /** Balance: group by address, then add the groups; both in map iteration order, both in
      32 bits. */
  method Balance(s: Ledger, mine: set<H160>) returns (total: u32)
    requires Total(Owned(s, mine)) < 0x1_0000_0000
    ensures total == Total(Owned(s, mine))
  {
    var money := GroupByAddress(s, mine);
    total := 0;
    var addrs := money.Keys;
    ghost var all: map<H160, nat> := money;
    assert all - addrs == map[];
    while addrs != {}
      invariant addrs <= all.Keys && total == Sum(all - addrs)
      decreases addrs
    {
      var a :| a in addrs;
      SumStep(all, addrs, a);
      SumPart(all - (addrs - {a}), all);
      total := total + money[a];
      addrs := addrs - {a};
    }
    assert all - addrs == all;
  }

  lemma SumStep(all: map<H160, nat>, addrs: set<H160>, a: H160)
    requires a in addrs && addrs <= all.Keys
    ensures Sum(all - (addrs - {a})) == all[a] + Sum(all - addrs)
  {
    SumMinus(all - (addrs - {a}), a);
    assert (all - (addrs - {a})) - {a} == all - addrs;
  }

  method GroupByAddress(s: Ledger, mine: set<H160>) returns (money: map<H160, u32>)
    requires Total(Owned(s, mine)) < 0x1_0000_0000
    ensures var all: map<H160, nat> := money; Sum(all) == Total(Owned(s, mine))
  {
    money := map[];
    var keys := s.Keys;
    assert Amounts(Owned(s - keys, mine)).Keys == {};
    while keys != {}
      invariant keys <= s.Keys
      invariant var all: map<H160, nat> := money; Sum(all) == Total(Owned(s - keys, mine))
      decreases keys
    {
      var c :| c in keys;
      OwnedStep(s, keys, mine, c);
      SumPart(Amounts(Owned(s - (keys - {c}), mine)), Amounts(Owned(s, mine)));
      keys := keys - {c};
      var value, recipient := s[c].value, s[c].address;
      if recipient in mine {
        ghost var all: map<H160, nat> := money;
        if recipient in money {
          SumMinus(all, recipient);
          SumPlus(all, recipient, all[recipient] + value);
          money := money[recipient := money[recipient] + value];
        } else {
          SumPlus(all, recipient, value);
          money := money[recipient := value];
        }
      }
    }
    assert s - keys == s;
  }

  lemma OwnedStep(s: Ledger, keys: set<Coin>, mine: set<H160>, c: Coin)
    requires c in keys && keys <= s.Keys
    ensures Total(Owned(s - (keys - {c}), mine)) ==
            Total(Owned(s - keys, mine)) + if s[c].address in mine then s[c].value else 0
  {
    var before, after := Owned(s - keys, mine), Owned(s - (keys - {c}), mine);
    if s[c].address in mine {
      TotalPlus(before, c, s[c]);
      assert after == before[c := s[c]];
    } else {
      assert after == before;
    }
  }

  /** The balances of several nodes, added up. */
  ghost function BalanceSum(s: Ledger, nodes: seq<set<H160>>): nat {
    if nodes == [] then 0 else BalanceSum(s, nodes[..|nodes| - 1]) + Total(Owned(s, nodes[|nodes| - 1]))
  }

  ghost function Together(nodes: seq<set<H160>>): set<H160> {
    if nodes == [] then {} else Together(nodes[..|nodes| - 1]) + nodes[|nodes| - 1]
  }

  /** No address belongs to two nodes. */
  ghost predicate Apart(nodes: seq<set<H160>>) {
    nodes != [] ==> Apart(nodes[..|nodes| - 1]) && Together(nodes[..|nodes| - 1]) !! nodes[|nodes| - 1]
  }

  lemma OwnedUnion(s: Ledger, a: set<H160>, b: set<H160>)
    requires a !! b
    ensures Total(Owned(s, a + b)) == Total(Owned(s, a)) + Total(Owned(s, b))
  {
    OwnedSplit(s, a, b);
    SumUnion(Amounts(Owned(s, a)), Amounts(Owned(s, b)));
  }

  lemma OwnedSplit(s: Ledger, a: set<H160>, b: set<H160>)
    requires a !! b
    ensures Amounts(Owned(s, a + b)) == Amounts(Owned(s, a)) + Amounts(Owned(s, b))
    ensures forall c :: c in Amounts(Owned(s, a)) ==> c !in Amounts(Owned(s, b))
  {
  }

  lemma {:induction false} BalancesAddUp(s: Ledger, nodes: seq<set<H160>>)
    requires Apart(nodes)
    ensures BalanceSum(s, nodes) == Total(Owned(s, Together(nodes)))
  {
    if nodes == [] {
      assert Amounts(Owned(s, Together(nodes))).Keys == {};
    } else {
      var init, last := nodes[..|nodes| - 1], nodes[|nodes| - 1];
      BalancesAddUp(s, init);
      OwnedUnion(s, Together(init), last);
    }
  }

  /** When every address belongs to exactly one node, the balances add up to the supply. */
  lemma BalancesAreTheSupply(s: Ledger, nodes: seq<set<H160>>)
    requires Apart(nodes) && forall c :: c in s ==> s[c].address in Together(nodes)
    ensures BalanceSum(s, nodes) == Total(s)
  {
    BalancesAddUp(s, nodes);
    assert Owned(s, Together(nodes)) == s;
  }
}
