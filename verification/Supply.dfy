/** What replaying chains of blocks preserves: on every fork a coin is what its key says, no
    coin comes back, and the supply is that of the initial coin offering, each for the
    transactions that give it; and what the reference lists are. */
module Supply {
  import opened Basics
  import opened Types
  import opened Ledgers
  import opened Conservation
  import opened Blockchains
  import opened Nodes
  import opened Delivery

  // ---------------------------------------------------------------------------
  // A chain as one list of transactions

  /** All transactions referenced along a path, in the order the ledger sees them. */
  function PathTxs(w: World, p: seq<ProposerBlock>): seq<SignedTransaction> {
    if |p| <= 1 then [] else PathTxs(w, p[..|p| - 1]) + TxsOf(w, p[|p| - 1].content)
  }

  lemma {:induction false} ReplayIsLedgerAfter(w: World, p: seq<ProposerBlock>)
    ensures Replay(w, p) == LedgerAfter(w, PathTxs(w, p))
  {
    if |p| > 1 {
      var q, b := p[..|p| - 1], p[|p| - 1];
      ReplayIsLedgerAfter(w, q);
      ApplyRefsAsTxs(w, Replay(w, q), b.content);
      ApplyTxsConcat(w, w.ico, PathTxs(w, q), TxsOf(w, b.content));
    }
  }

  /** The transactions of a shorter path come first. */
  lemma {:induction false} PathTxsPrefix(w: World, p: seq<ProposerBlock>, i: nat)
    requires i <= |p|
    ensures PathTxs(w, p[..i]) <= PathTxs(w, p)
    decreases |p|
  {
    if i < |p| {
      PathTxsPrefix(w, p[..|p| - 1], i);
      assert p[..|p| - 1][..i] == p[..i];
    } else {
      assert p[..i] == p;
    }
  }

  // ---------------------------------------------------------------------------
  // On every chain

  /** Every coin is what its key says, whatever the shape of the transactions: a coin's value
      and owner are the same on every fork that has it. */
  lemma KeysOnChain(w: World, p: seq<ProposerBlock>)
    requires IcoShaped(w) && AllKeyed(w, PathTxs(w, p))
    ensures KeySays(w, Replay(w, p))
  {
    hide KeySays, AllKeyed;
    ReplayIsLedgerAfter(w, p);
    KeysAfter(w, PathTxs(w, p));
  }

  /** Generator-made transactions conserve the supply. */
  lemma SupplyOnChain(w: World, p: seq<ProposerBlock>)
    requires IcoShaped(w) && AllGenerated(w, PathTxs(w, p))
    ensures Total(Replay(w, p)) == Total(w.ico)
  {
    ReplayIsLedgerAfter(w, p);
    SoundAfter(w, PathTxs(w, p));
  }

  /** A coin spent by the j-th block of a chain is in no later ledger of that chain. */
  lemma NeverLiveAgainOnChain(w: World, p: seq<ProposerBlock>, c: Coin, i: nat, j: nat, k: nat)
    requires IcoShaped(w) && AllOneCoin(w, PathTxs(w, p)) && i <= j <= k <= |p|
    requires c in Replay(w, p[..i]) && c !in Replay(w, p[..j])
    ensures c !in Replay(w, p[..k])
  {
    hide AllOneCoin;
    var txs := PathTxs(w, p);
    LedgerAt(w, p, i);
    LedgerAt(w, p, j);
    LedgerAt(w, p, k);
    PrefixLength(w, p, i, j);
    PrefixLength(w, p, j, k);
    NeverLiveAgain(w, txs, c, |PathTxs(w, p[..i])|, |PathTxs(w, p[..j])|, |PathTxs(w, p[..k])|);
  }

  lemma LedgerAt(w: World, p: seq<ProposerBlock>, i: nat)
    requires i <= |p|
    ensures |PathTxs(w, p[..i])| <= |PathTxs(w, p)|
    ensures Replay(w, p[..i]) == LedgerAfter(w, PathTxs(w, p)[..|PathTxs(w, p[..i])|])
  {
    PathTxsPrefix(w, p, i);
    ReplayIsLedgerAfter(w, p[..i]);
    assert PathTxs(w, p)[..|PathTxs(w, p[..i])|] == PathTxs(w, p[..i]);
  }

  lemma PrefixLength(w: World, p: seq<ProposerBlock>, i: nat, j: nat)
    requires i <= j <= |p|
    ensures |PathTxs(w, p[..i])| <= |PathTxs(w, p[..j])|
  {
    PathTxsPrefix(w, p[..j], i);
    assert p[..j][..i] == p[..i];
  }

  /** A transaction that took effect on the chain is gone from a pool pruned with the
      chain's ledger. */
  lemma PrunedOfEffects(w: World, p: seq<ProposerBlock>, i: nat, pool: map<H256, SignedTransaction>, k: H256)
    requires IcoShaped(w) && AllOneCoin(w, PathTxs(w, p)) && i < |PathTxs(w, p)|
    requires TakesEffect(w, LedgerAfter(w, PathTxs(w, p)[..i]), PathTxs(w, p)[i])
    requires k in pool && pool[k] == PathTxs(w, p)[i]
    ensures k !in Prune(pool, Replay(w, p))
  {
    hide OneCoin, TakesEffect, LedgerAfter, Replay;
    var txs := PathTxs(w, p);
    assert txs[i] in txs;
    ReplayIsLedgerAfter(w, p);
    ApplyOneCoin(w, LedgerAfter(w, txs[..i]), txs[i]);
    SpentBySpender(w, txs, i);
    assert txs[..|txs|] == txs;
    NeverLiveAgain(w, txs, SpentCoin(txs[i]), i, i + 1, |txs|);
    assert InputCoin(pool[k].transaction, 0) !in Replay(w, p);
  }

  /** Every ledger a node holds has the supply of the ICO: 1000 for every address. */
  lemma SupplyInNode(w: World, db: Db, h: H256, allAddr: seq<H160>)
    requires w.Good() && NodeInv(w, db) && h in db.chain.blocks
    requires |allAddr| < 0x1_0000_0000 && w.ico == IcoLedger(allAddr)
    requires AllGenerated(w, PathTxs(w, PathTo(w, db.chain, h)))
    ensures Total(db.globState[h]) == ICO_VALUE * |allAddr|
  {
    hide ChainInv, Bucketed, Pooled;
    CachesReplay(w, db, h);
    SupplyOnChain(w, PathTo(w, db.chain, h));
    IcoTotal(allAddr);
  }

  /** Two ledgers of a node agree on every coin both have, whatever the transactions. */
  lemma CoinFixedAcrossForks(w: World, db: Db, h: H256, h': H256, c: Coin)
    requires w.Good() && NodeInv(w, db) && h in db.chain.blocks && h' in db.chain.blocks && IcoShaped(w)
    requires AllKeyed(w, PathTxs(w, PathTo(w, db.chain, h)))
    requires AllKeyed(w, PathTxs(w, PathTo(w, db.chain, h')))
    requires c in db.globState[h] && c in db.globState[h']
    ensures db.globState[h][c] == db.globState[h'][c] == OutputOf(w, c)
  {
    hide ChainInv, Bucketed, Pooled, AllKeyed, OutputOf;
    CachesReplay(w, db, h);
    CachesReplay(w, db, h');
    KeysOnChain(w, PathTo(w, db.chain, h));
    KeysOnChain(w, PathTo(w, db.chain, h'));
  }

  // ---------------------------------------------------------------------------
  // Reference lists

  /** A block the miner's filter could have built on top of a reference list: no reference
      twice, none that is listed already. */
  ghost predicate Filtered(refs: seq<H256>, mine: seq<H256>) {
    Distinct(mine) && forall r :: r in mine ==> r !in refs
  }

  /** The contains-loop keeps the list it starts from, adds no duplicate, and lists exactly
      the old and the new references. */
  lemma {:induction false} ExtendRefsLists(refs: seq<H256>, mine: seq<H256>)
    requires Distinct(refs)
    ensures refs <= ExtendRefs(refs, mine) && Distinct(ExtendRefs(refs, mine))
    ensures forall r :: r in ExtendRefs(refs, mine) <==> r in refs || r in mine
  {
    if mine != [] {
      var init := mine[..|mine| - 1];
      ExtendRefsLists(refs, init);
      assert mine == init + [mine[|mine| - 1]];
    }
  }

  /** Later references only come after earlier ones, so each stands where it was first met. */
  lemma {:induction false} FirstOccurrenceOrder(refs: seq<H256>, a: seq<H256>, b: seq<H256>)
    ensures ExtendRefs(refs, a) <= ExtendRefs(refs, a + b)
  {
    if b == [] {
      assert a + b == a;
    } else {
      assert (a + b)[..|a + b| - 1] == a + b[..|b| - 1];
      FirstOccurrenceOrder(refs, a, b[..|b| - 1]);
    }
  }

  lemma {:induction false} ExtendRefsLength(refs: seq<H256>, mine: seq<H256>)
    ensures |ExtendRefs(refs, mine)| <= |refs| + |mine|
  {
    if mine != [] {
      ExtendRefsLength(refs, mine[..|mine| - 1]);
    }
  }

  /** The worker's contains-loop and the miner's concatenation agree exactly on filtered content. */
  lemma {:induction false} LoopIsConcatIffFiltered(refs: seq<H256>, mine: seq<H256>)
    requires Distinct(refs)
    ensures ExtendRefs(refs, mine) == refs + mine <==> Filtered(refs, mine)
  {
    if mine == [] {
      assert refs + mine == refs;
    } else {
      var init, r := mine[..|mine| - 1], mine[|mine| - 1];
      assert mine == init + [r];
      LoopIsConcatIffFiltered(refs, init);
      ExtendRefsLists(refs, init);
      ExtendRefsLength(refs, init);
      assert refs + mine == (refs + init) + [r];
      if Filtered(refs, mine) {
        assert Filtered(refs, init) && r !in init by {
          assert forall x :: x in init ==> x in mine;
        }
      }
      if ExtendRefs(refs, mine) == refs + mine {
        var e := ExtendRefs(refs, init);
        assert ExtendRefs(refs, mine) == e + [r];
        assert e == (e + [r])[..|e|] == ((refs + init) + [r])[..|e|] == refs + init;
        FilteredPush(refs, init, r);
      }
    }
  }

  lemma FilteredPush(refs: seq<H256>, init: seq<H256>, r: H256)
    requires Filtered(refs, init) && r !in refs && r !in init
    ensures Filtered(refs, init + [r])
  {
  }

  /** A node's reference lists are duplicate-free and extend the parent's. */
  lemma {:induction false} RefsDistinct(w: World, p: seq<ProposerBlock>)
    ensures Distinct(RefsAlong(w, p))
    ensures |p| > 1 ==> RefsAlong(w, p[..|p| - 1]) <= RefsAlong(w, p)
  {
    if |p| > 1 {
      RefsDistinct(w, p[..|p| - 1]);
      ExtendRefsLists(RefsAlong(w, p[..|p| - 1]), p[|p| - 1].content);
    }
  }

  /** The contents along a path, concatenated. */
  function Contents(p: seq<ProposerBlock>): seq<H256> {
    if |p| <= 1 then [] else Contents(p[..|p| - 1]) + p[|p| - 1].content
  }

  /** Every block of the path was built by the miner's filter. */
  ghost predicate AllFiltered(w: World, p: seq<ProposerBlock>) {
    |p| > 1 ==>
      AllFiltered(w, p[..|p| - 1]) && Filtered(RefsAlong(w, p[..|p| - 1]), p[|p| - 1].content)
  }

  /** The reference list is the concatenated contents exactly when every block of the path
      was filtered. */
  lemma {:induction false} RefsAreContentsIffFiltered(w: World, p: seq<ProposerBlock>)
    ensures |RefsAlong(w, p)| <= |Contents(p)|
    ensures RefsAlong(w, p) == Contents(p) <==> AllFiltered(w, p)
  {
    if |p| > 1 {
      var q, b := p[..|p| - 1], p[|p| - 1];
      RefsAreContentsIffFiltered(w, q);
      RefsDistinct(w, q);
      LoopIsConcatIffFiltered(RefsAlong(w, q), b.content);
      ExtendRefsLength(RefsAlong(w, q), b.content);
      ExtendRefsLists(RefsAlong(w, q), b.content);
      if RefsAlong(w, p) == Contents(p) {
        assert |RefsAlong(w, q)| == |Contents(q)|;
        assert RefsAlong(w, q) == RefsAlong(w, p)[..|RefsAlong(w, q)|];
        assert Contents(q) == Contents(p)[..|Contents(q)|];
      }
    }
  }

  lemma {:induction false} ReplayIsContents(w: World, p: seq<ProposerBlock>)
    ensures Replay(w, p) == ApplyRefs(w, w.ico, Contents(p))
  {
    if |p| > 1 {
      var q := p[..|p| - 1];
      ReplayIsContents(w, q);
      ApplyRefsConcat(w, w.ico, Contents(q), p[|p| - 1].content);
    }
  }

  /** On a filtered path the ledger is the replay of the tx blocks in the order of the
      reference list. */
  lemma LedgerFollowsRefs(w: World, p: seq<ProposerBlock>)
    requires AllFiltered(w, p)
    ensures Replay(w, p) == ApplyRefs(w, w.ico, RefsAlong(w, p))
  {
    RefsAreContentsIffFiltered(w, p);
    ReplayIsContents(w, p);
  }
}
