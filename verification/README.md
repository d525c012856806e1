# A simplified Prism node, modelled and proved in Dafny

The repository is one node of a simplified Prism 1.0 blockchain: proposer blocks form a
tree and refer to transaction blocks, every proposer block carries two caches (the whole
UTXO ledger after it, and the list of all transaction blocks it and its ancestors refer
to), and a pool of workers, a miner and a transaction generator share the maps that hold
all this. Below it lie a Merkle tree stored in a flat array and a length-prefixed peer
protocol.

`dafny verify dfyconfig.toml` checks the project.

## What is modelled, and how

Three parts, the node being by far the largest.

* **Merkle tree** (`Merkle.dfy`). `New`, `Proof` and `Verify` are the loops of the source
  over a flat array with 32-bit offsets. They are measured against one recursive
  definition of a tree node, `TreeNode`.
* **Framing** (`Framing.dfy`). `WriteContext` and `ReadContext` are classes with the
  source's fields. `Link` connects them by the bytes in flight, and `Run` drives both ends
  through any sequence of sends, polls, partial writes, partial reads and would-blocks.
* **The node**, in two models of the same code.
  * *One message at a time*: `Workers.Node` is a class with the shared maps as fields; its
    methods are the handlers, loop by loop. `Nodes.Deliver` and its companions say as
    functions on a value `Db` what each handler does; the methods are proved equal to
    them, and what the source promises is proved about them (`Delivery`, `Supply`). `Arms` tells
    each message case by case, down to hashes, coins and signatures.
    `Miner.MineOnce` is one round of the miner on the same object, and `NodeRuns.HandleRun`
    a whole run of messages and mined blocks.
  * *One lock-held section at a time*: `Interleaving` has any number of workers and the
    miner, each at a program counter with its local variables, and lets them take turns in
    any order. Every index expression on a shared map may fail there; the theorems say that it
    does not, or exactly when it can.
  * `Refinement` ties the two together: a worker that is not interrupted does, section by
    section, exactly what `Nodes.Deliver` says, recursion into `new_parent` included, and an
    uninterrupted mining round what `Nodes.Process` says. `Races` builds whole schedules out of
    such stretches; `WhenIdle` shows that whenever the workers are idle a node holds what the
    atomic model says, if it has one worker, or any number and parents are delivered first.

The source repeats the section that stores a block three times: in the handler, in
`new_parent` and in the miner. Here the ledger loop and the pool pruning are one method
each. The reference list is not: workers extend it by a contains-loop, the miner
concatenates, and that the two agree is a theorem with an exact condition.

**Hashes.** A `World` holds the foreign functions (hashing, signing, verifying) and, for
every hash, the one block or transaction it stands for. "This thing occurs" means that its
hash stands for it; no two things that occur collide. Block hashes cover the header only
(src/block.rs:36-40), so for whole blocks this takes a condition, which is that the content
has the Merkle root its header carries: for such blocks, and all the miner builds are such,
`Miner.HashDeterminesBlock` derives it from collision-freedom. No receiver checks it
(`NodeRuns.FirstTwinStays`). A hash is modelled as the big-endian number its bytes denote; `Hash.CmpIsNumeric`
shows that the source's two-halves comparison is the order of those numbers, and
`Hash.CmpEqualIffSame` that it tells different hashes apart.

**Where a node starts.** Genesis holds the ICO ledger and an empty reference list before
anything is mined or delivered, and there is no later ICO. One message at a time, a proposer
block is handled when the transaction blocks that are then looked up are in the pool
(`Workers.Handleable`: none at all for a block that is seen, refused for its hash or
buffered); under interleaving, when all it refers to are in the pool.

## What the source does that a reader may not expect

* A miner may build a transaction block whose hash *equals* the proposer difficulty
  (src/miner.rs:228, 298 are strict); every receiver then refuses it
  (src/network/worker.rs:308). `Miner.TxBlockAcceptedIff` gives the exact condition and
  `NodeRuns.TxBlockGap` an instance.
* The ledger loop removes only the coin looked up last (src/network/worker.rs:440-442), so a
  transaction need not conserve value. `Drift.TotalAfter` gives the exact change of the total
  for every transaction it can fold, and `Drift.ConservedIff` the condition: what is paid out for
  live inputs must be the coin removed. What the generator builds meets it. An admitted
  transaction never raises the total in the ledger it was judged against
  (`Drift.AdmittedNeverRaises`) but may lower it (`Drift.AdmittedLoses`), may raise it in
  another ledger (`Drift.AdmittedThenRaises`), and a correctly signed one inside a delivered
  block, which is checked for signatures only, may raise it (`Drift.DeliveredRaises`).
* For the same reason a transaction with two different input coins can take effect twice and
  bring a spent coin back (`Respending.CoinComesBack`, right after the ICO, with an admitted
  transaction). `Respending.NeverAgainIffOneCoin` is the exact shape that excludes it: all
  inputs name one coin, as in what the generator builds. A coin's value and owner, in
  contrast, are fixed by its key whatever the transactions are (`Supply.CoinFixedAcrossForks`).
* No receiver recomputes a Merkle root, so a block's content is not bound to its hash where it
  matters: of two valid blocks with one header and different contents, the one that comes
  first stays (`NodeRuns.FirstTwinStays`). Theorems about delivered blocks assume that each is
  the one its hash stands for, which blocks with matching roots are.
* Neither the miner nor the tx block pool checks signatures: a mined block is accepted by
  others exactly when its transactions are signed (`Miner.ReceiverAgrees`).
* A Merkle root commits to the *padded* list, not to the list:
  `Merkle.RepeatedTailSameRoot` has two lists with one root. `Merkle.RootsEqualIffSamePadded`
  is the exact condition, and for duplicate-free lists, which is all the miner builds, the
  root does commit (`Merkle.RootCommits`).
* A reference list is the concatenation of the contents along the path exactly when every
  block was built by the miner's filter; a foreign block that repeats a reference gets a
  shorter list, while its ledger replays the repetition.
* Between testing for an orphan bucket and fetching it (src/network/worker.rs:75, 77) a
  worker holds no lock, nor between finding a parent missing and buffering the child
  (:378, 386). The number of workers is a command-line choice (src/main.rs:38). With two, a
  worker can find the bucket gone, a block can be left waiting under a parent that is in the
  chain, and a valid block can be lost, when one worker's new bucket replaces another's
  (`Races.BucketLostIffTwoWorkers`, `Races.StrandedIffTwoWorkers`,
  `WhenIdle.LostIffTwoWorkers`). Two more runs lose a block although its parent arrives: its bucket
  is gone when it is pushed, and the push is dropped (:380-383, `WhenIdle.PushRun`), or the bucket
  is removed with what was pushed after it was fetched (:75-80, `WhenIdle.DropRun`). With one
  worker none of this happens, provided nobody builds
  on a block before its miner has published it (`Races.MinerStrands`): then the node holds
  exactly what it should (`WhenIdle.OneWorkerHoldsExactly`). So does a node with any number of
  workers to which parents are delivered first (`WhenIdle.ParentsFirstHoldsExactly`).

## Model

| member | source | states |
|---|---|---|
| Delivery.DeliveredExactly | src/network/worker.rs:354-475 | after any sequence of messages and mined blocks handled one at a time, in any order and with repeats, the node holds exactly the parent paths from genesis over blocks that pass the hash test and were mined here or received with correct signatures; for each of them the block, its height, the ledger replayed along the path and the collected reference list; the tip is among the highest; and the buffered blocks are exactly the received ones that pass the hash test and whose parent is not in the chain, each under its parent's hash |
| Delivery.OrderIndependence | src/network/worker.rs:354-475 | two runs in which the same blocks became genuine, each mined or received as it may be, end with equal blocks, heights, longest, ledgers and reference lists, and each tip is among the other's highest; if they got the same blocks altogether, the same blocks wait |
| NodeRuns.HandleRun | src/network/worker.rs:171-177 | the imperative handlers and the miner's publication, run over a whole sequence of messages and mined blocks on a fresh node, end in that state |
| Delivery.DeliverInv | src/network/worker.rs:354-475 | the run invariant (every delivered block is refused, in the chain or waiting under a parent that is not) is kept by one delivered proposer block |
| Delivery.MinedInv | src/miner.rs:243-289 | the run invariant is kept when the node stores a block it has mined, if nobody has built on that block before |
| Delivery.NewParentInv | src/network/worker.rs:73-169 | adopting all that waits for a stored block, recursively, restores that no bucket key is in the chain, whatever else is still pending |
| Delivery.AdoptInv | src/network/worker.rs:83-167 | the same for the rest of a bucket being worked off, its blocks counted as pending until they are stored or found badly signed |
| Delivery.StoreInv | src/network/worker.rs:415-468 | storing a block keeps the run invariant and can only make its own hash a bucket key that is in the chain |
| Delivery.InvAfter | src/network/worker.rs:171-477 | the invariant holds after every message sequence, transactions and tx blocks included |
| Delivery.CachesReplay | src/network/worker.rs:416-465 | in any state satisfying the invariant, on every fork, a block's ledger is the replay of its path from the ICO ledger and its list is the path's references in order of first occurrence |
| Delivery.HeldIsGood | src/network/worker.rs:356-410 | the path to every block in the chain consists of blocks whose hash is at most their proposer difficulty and which were mined here or received with correct signatures, genesis apart |
| Delivery.GoodIsHeld | src/network/worker.rs:376-474 | every such path is in the chain: no valid block is lost in the buffer once its ancestors have come |
| Delivery.OrphanIsWaiting | src/network/worker.rs:376-390 | a delivered block that passes the hash test and whose parent is missing is in the buffer, whatever its signatures |
| Delivery.DuplicatesHarmless | src/network/worker.rs:83-167 | a second copy of a block anywhere later in a bucket leaves the whole final state as it would be without it |
| Delivery.StoreLater | src/network/worker.rs:415-468 | storing a block only adds cache entries and only removes pooled transactions, and leaves the pool pruned for that block's ledger |
| Nodes.ProcessStep | src/network/worker.rs:415-468 | storing a block whose parent is there keeps the node invariant (tree, caches extend the parent's, buffer and pool keyed right), adds that block, and on a block already there changes nothing but the pool |
| Nodes.ProcessAgain | src/network/worker.rs:415-468 | storing a block a second time rewrites both caches and the tree with equal values; only the pool is pruned again |
| Nodes.DeliverStores | src/network/worker.rs:354-475 | any node that has the parent stores a new block whose hash is at most its proposer difficulty and whose transactions are signed, whatever else it holds, and the waiting blocks it brings in keep the invariant |
| Workers.Node.constructor | src/generator.rs:184-198 | a node after the ICO: genesis alone, with the ICO ledger and an empty list |
| Workers.Node.HandleProposerBlock | src/network/worker.rs:354-475 | seen test, hash test, orphan test, signature loop, storing, new_parent: the whole new state is Nodes.Deliver of the old one, and the invariant holds; required is exactly that the source does not panic on the way: the references looked up are pooled, up to the first badly signed tx block of each block, and the transactions folded have the outputs of their live inputs; Arms.IgnoresBlock, BuffersBlock, RefusesBlock and StoresBlock tell that state case by case |
| Arms.IgnoresBlock | src/network/worker.rs:356-365 | a block the chain has, or whose hash is greater than its proposer difficulty, changes nothing at all |
| Arms.BuffersBlock | src/network/worker.rs:376-390 | a block whose parent is missing goes to the end of the list waiting for that parent, and no other list, no block and no cache changes |
| Arms.RefusesBlock | src/network/worker.rs:392-410 | a single wrong signature, in any transaction of any of its tx blocks, and a block whose parent is there changes nothing |
| Arms.StoresBlock | src/network/worker.rs:354-475 | a new block whose parent is there, whose signatures all verify and whose hash is at most its difficulty, equality included, ends up in the chain, one above its parent, with the ledger its tx blocks make of the parent's and its references added to the parent's, whatever waiting blocks follow |
| Arms.ProcessExactly | src/network/worker.rs:415-468 | storing keeps every published block, height, ledger and list, leaves buffer and tx block pool alone, and keeps in the pool exactly the transactions each of whose input coins is in the new ledger, unchanged |
| Workers.Node.NewParent | src/network/worker.rs:73-169 | takes the bucket of a new block out and processes it recursively; terminates because every recursive call runs on strictly fewer bucket keys; no block leaves the chain |
| Workers.Node.AdoptNext | src/network/worker.rs:83-166 | one waiting block: dropped if badly signed, otherwise stored and its own bucket adopted in turn |
| Workers.Node.Store | src/network/worker.rs:415-468 | list, ledger, pool and tree are updated as Nodes.Process says; every lookup by parent or reference is defined |
| Workers.Node.CheckSignatures | src/network/worker.rs:394-410 | the loop with two breaks accepts iff under every reference every transaction's signature verifies under its own key; it looks up nothing after the first bad tx block, and if it accepts all references are pooled |
| Workers.ReadToTheEnd | src/network/worker.rs:395-407 | if the loop meets no bad signature and looks up nothing in vain, every reference is pooled |
| Workers.Node.ExtendRefList | src/network/worker.rs:416-422 | the contains-loop computes ExtendRefs |
| Workers.Node.HandleTxBlock | src/network/worker.rs:295-336 | an unseen tx block in the right hash range, whatever its transactions look like, enters the tx block pool and its transactions leave the transaction pool; otherwise nothing changes |
| Arms.TxBlockArm | src/network/worker.rs:295-336 | a tx block not held with proposer difficulty < hash <= transaction difficulty is pooled under its hash, none of its transactions is in the transaction pool afterwards, and every other entry of both pools is kept; any other tx block changes nothing |
| Arms.MinedTxBlockArm | src/miner.rs:313-322 | a tx block the miner has built does the same, without any test |
| Workers.Node.HandleTransaction | src/network/worker.rs:214-277 | a transaction enters the pool iff it is admissible against the tip's ledger |
| Arms.TransactionArm | src/network/worker.rs:214-277 | a message with a transaction adds it to the pool, and changes nothing else, iff it is not pooled, its signature verifies, each of its input coins is in the ledger of the tip and owned by its key, and its paired outputs pay no more than the last of these coins; otherwise nothing changes |
| Admission.Judge | src/network/worker.rs:217-271 | the sequence of checks, with every early exit and 32-bit sums, admits exactly the transactions not yet pooled that are signed, whose inputs are all live and owned by the key, and whose paired outputs add up to no more than the coin looked at last; and each refusal (pooled, badly signed, a coin missing, a coin of somebody else, paying too much) is given exactly when it is the first that applies |
| Ledgers.RunTransaction | src/network/worker.rs:430-442 | the innermost loop with its fake first key: outputs for each input live at its turn, then only the last key removed; it panics exactly when an input has no index or a live one no output |
| Ledgers.UpdateLedger | src/network/worker.rs:426-444 | the three nested loops fold the referenced tx blocks in order, and panic exactly when one of the transactions does in the ledger it finds |
| Ledgers.WellShapedFolds | src/network/worker.rs:432-442 | a transaction with an index and an output for every input is folded into any ledger |
| Drift.FoldsIff | src/network/worker.rs:432-442 | a transaction that does not name itself is folded iff every input has its index and every live one its output, with the coins of the ledger before the transaction |
| Drift.ApplyExactly | src/network/worker.rs:430-442 | the ledger after a transaction that can be folded, coin by coin: exactly the outputs paired with live inputs are there, with their value and address, the coin of the last input is not, and every other coin is as it was |
| Ledgers.ApplyRefsAsTxs | src/network/worker.rs:427-429 | folding references block by block is folding the concatenated transactions |
| Ledgers.TxsInOrder | src/network/worker.rs:429-443 | whenever a sequence of ledgers starts at a given one and each follows from the one before by the next transaction, its last is the ledger folded: every transaction acts once, first to last |
| Ledgers.RefsInOrder | src/network/worker.rs:427-444 | the same for the tx blocks a block refers to, first reference to last |
| Ledgers.PrunePool | src/network/worker.rs:447-462 | when the pool lock is released a transaction is in the pool iff it was and every coin its inputs name is in the ledger, and it is unchanged, whatever the iteration order and however often a key was collected |
| Ledgers.PruneIdempotent | src/network/worker.rs:447-462 | pruning any part of a pruned pool with the same ledger removes nothing |
| Supply.PrunedOfEffects | src/network/worker.rs:447-462 | no one-coin transaction that took effect on a path is in a pool pruned with that path's ledger |
| Conservation.ApplyGenerated | src/network/worker.rs:430-442 | a generator-shaped transaction takes effect iff its coin is live, and then replaces that coin by its two outputs and changes nothing else |
| Conservation.SoundStep | src/network/worker.rs:430-442 | for generator-shaped transactions all three together: no coin comes back, every coin is what its key says, and the total stays the ICO's |
| Conservation.KeysStep | src/network/worker.rs:435-441 | a transaction of any shape leaves every coin with the value and owner its key stands for |
| Conservation.KeysAfter | src/network/worker.rs:426-444 | so after any list of transactions whose hashes are not zero and determine them |
| Conservation.ApplyOneCoin | src/network/worker.rs:430-442 | a transaction whose inputs all name one coin, however many and whatever it pays, takes effect iff that coin is live, and then its outputs are live and the coin is not |
| Conservation.OrderlyStep | src/network/worker.rs:430-442 | "live coins were made, and an output made means its transaction's coin is spent" is kept by every one-coin transaction, and what takes effect makes coins never made before |
| Conservation.OrderlyAfter | src/network/worker.rs:426-444 | that holds after every list of one-coin transactions, with repeats and conflicts |
| Conservation.SoundAfter | src/network/worker.rs:426-444 | that holds after every list of generator-shaped transactions, with repeats and conflicts |
| Conservation.NeverLiveAgain | src/network/worker.rs:435-441 | in a list of one-coin transactions, a coin that was live and then was not is never live again |
| Conservation.CreatedAtMostOnce | src/network/worker.rs:435-438 | in such a list, when a transaction takes effect none of its outputs was ever live before |
| Conservation.SpendersExclude | src/network/worker.rs:429-443 | in such a list, after one transaction spent a coin no later spender of it takes effect; in particular a repeated transaction takes effect at most once |
| Respending.EffectAgainIff | src/network/worker.rs:430-442 | a transaction that can be folded and does not name itself takes effect again right after itself iff some input was live that names another coin than the last input does |
| Respending.NeverAgainIffOneCoin | src/network/worker.rs:430-442 | there is no ledger in which a well-shaped transaction takes effect again right after itself iff its inputs all name one coin: the shape is exact |
| Respending.EffectIffLive | src/network/worker.rs:430-442 | a transaction that can be folded takes effect iff some input is live |
| Respending.EffectBringsBack | src/network/worker.rs:435-438 | whenever an input is live, the output paired with it is live afterwards, also if it was spent before |
| Respending.OtherShapeComesBack | src/network/worker.rs:430-442 | for every well-shaped transaction with an input that does not name the last one's coin, in any ledger where that input is live: its output is live, can be spent, and is live again when the transaction is listed a second time |
| Respending.CoinComesBack | src/network/worker.rs:426-444 | a run from the ICO in which an admitted transaction with two input coins is listed twice: its first output is live, spent, and live again |
| Drift.TotalAfter | src/network/worker.rs:430-442 | for every transaction that can be folded and does not name itself, the total changes by exactly what is paid for live inputs less the one coin removed less what is overwritten, and is conserved iff that is zero |
| Drift.ConservedIff | src/network/worker.rs:430-442 | in a ledger without outputs of the transaction, the total is conserved iff the outputs paired with live inputs add up to the last input's coin, or to nothing if that one is spent |
| Drift.TotalAlong | src/network/worker.rs:426-444 | over any list of such transactions the total changes by the sum of those gains, each in the ledger the transaction finds |
| Drift.NodeSupplyIff | README.md:79 | a ledger a node holds has the total value of the ICO iff the gains along the block's path cancel, for every path whose transactions can be folded |
| Drift.GeneratedGainsNothing | src/generator.rs:291-318 | what the generator builds has gain zero wherever its coin is what the key says and it has not taken effect yet |
| Drift.AdmittedNeverRaises | src/network/worker.rs:230-271 | the checks of the Transactions arm bound the total: an admissible transaction does not raise it in the ledger it was judged against |
| Drift.AdmittedLoses | src/network/worker.rs:260-271 | right after the ICO, an admissible transaction that turns a total of 1000 into 1 |
| Drift.DeliveredRaises | src/network/worker.rs:392-444 | a tx block with a correctly signed, not admissible transaction and a proposer block that refers to it, delivered right after the ICO: the node then holds a ledger worth 5000 instead of 1000 |
| Drift.AdmittedThenRaises | src/network/worker.rs:432-442 | after a payment, a transaction admissible with both inputs live; once its last input is spent otherwise, it turns a total of 2000 into 3000 |
| Conservation.Ico | src/generator.rs:190-195 | the ICO loop builds exactly the coins of 1000 under the all-zero id, number i for address i |
| Conservation.IcoTotal | src/generator.rs:190-195 | the ICO's total value is 1000 times the number of addresses |
| Supply.SupplyInNode | README.md:79 | every ledger a node holds, on every fork, has the total value 1000 times the number of addresses |
| Supply.SupplyOnChain | src/network/worker.rs:426-444 | replaying a path of generator-shaped transactions conserves the total |
| Supply.KeysOnChain | src/network/worker.rs:426-444 | after replaying a path of transactions of any shape, every coin has the value and owner its key stands for |
| Supply.CoinFixedAcrossForks | src/network/worker.rs:426-444 | two ledgers of one node agree on every coin both contain, whatever shape the transactions have |
| Supply.NeverLiveAgainOnChain | src/network/worker.rs:426-444 | between the ledgers along one path of one-coin transactions no coin returns |
| Supply.ExtendRefsLists | src/network/worker.rs:416-422 | the contains-loop keeps the parent's list as a prefix, adds no duplicate and lists exactly the old and new references |
| Supply.FirstOccurrenceOrder | src/network/worker.rs:416-422 | what the loop lists for the first part of a content is a prefix of what it lists for all of it: every reference stands in the order of its first occurrence |
| Supply.RefsDistinct | src/network/worker.rs:416-423 | every reference list is duplicate-free and extends the parent's |
| Supply.LoopIsConcatIffFiltered | src/miner.rs:197-245 | contains-loop and concatenation give the same list iff the content is duplicate-free and disjoint from the parent's list |
| Supply.RefsAreContentsIffFiltered | src/miner.rs:197-245 | the reference list equals the concatenated contents of the path iff every block of the path is filtered in that sense |
| Supply.LedgerFollowsRefs | src/miner.rs:244-266 | on such a path the ledger is the replay of the tx blocks in the reference list's order |
| Interleaving.InterleavedReplay | src/network/worker.rs:107-160 | in every reachable state of every interleaving of workers and miner, each block of the chain has a ledger and a list, and they are the replay and the references of its path |
| Interleaving.NoLookupFails | src/network/worker.rs:415-468 | no worker and no miner ever fails a lookup by parent, by tip or by reference; for the fetch of an orphan bucket see Races.BucketLostIffTwoWorkers |
| Interleaving.TipStaysReadable | src/network/worker.rs:215-230 | whoever read the tip can look up its block, ledger and list at any later moment and finds the values of the moment of reading |
| Interleaving.WrittenOnce | src/network/worker.rs:415-468 | between any two moments of a run, cache entries, blocks and tx blocks are only added: an entry once written keeps its value although threads race to write it |
| Interleaving.NextInv | src/network/worker.rs:354-475 | every lock-held section of every thread keeps the invariant of the shared maps and of all other threads' local variables |
| Interleaving.InterleavedInv | src/network/worker.rs:354-475 | the invariant holds in every reachable state |
| Interleaving.WorkStep | src/network/worker.rs:73-167 | any section of any worker, with whatever it read earlier, keeps the shared invariant and leaves it in a correct local state |
| Interleaving.MinerStepInv | src/miner.rs:164-289 | the same for any section of a mining round whose parent, ledger and list were read at different moments |
| Interleaving.PublishRef | src/network/worker.rs:423 | if a reference list is already there, the one written equals it |
| Interleaving.PublishState | src/network/worker.rs:465 | if a ledger is already there, the one written equals it |
| Interleaving.PublishBlock | src/network/worker.rs:468 | a block enters the chain after its list and its ledger; if it is already there the tree does not change |
| Interleaving.MinedList | src/miner.rs:244-245 | the list the miner concatenates from values read earlier is the one a worker's loop would write |
| Interleaving.VisibleInv | src/network/worker.rs:423-468 | seen through the blocks in the chain, an interleaved state satisfies the invariant of the atomic model |
| Interleaving.InterleavedSupply | README.md:79 | on every fork of every interleaving the total value is 1000 times the number of addresses |
| Refinement.SoloIsDeliver | src/network/worker.rs:354-475 | a worker run section by section without interruption does to the shared maps exactly what Nodes.Deliver says and returns to idle |
| Refinement.NewParentSections | src/network/worker.rs:73-169 | the same for new_parent, through any depth of recursion |
| Refinement.StoreSections | src/network/worker.rs:415-468 | from the first read to the chain insert, the sections compose to Nodes.Process |
| Refinement.RoundIsProcess | src/miner.rs:164-289 | a mining round run section by section without interruption, from reading the tip to the chain insert, does to the shared maps exactly what Nodes.Process says |
| Refinement.BuiltIsMinable | src/miner.rs:196-241 | what Miner.MineOnce stores can come out of such a round |
| Refinement.RoundMisses | src/miner.rs:164-232 | a round whose hash is too high, or that has nothing to refer to, changes nothing |
| Refinement.RacingFetchers | src/network/worker.rs:75-80 | of two workers that both found one bucket, the second to fetch it finds it gone; Races.LostRun reaches that state from the initial one |
| Refinement.StockedHandleable | src/network/worker.rs:354-475 | where blocks are only delivered after their tx blocks, and these hold well-shaped transactions, every block is handled without a panic, however many waiting blocks it brings in |
| Races.BucketLostIffTwoWorkers | src/network/worker.rs:75-80 | from the initial state, given a valid child of genesis and a child of it, some run ends with a worker that looked up a bucket already gone iff there are at least two workers |
| Races.OneWorkerKeepsBuckets | src/network/worker.rs:75-80 | with at most one worker, in every run with any mining, a bucket once found is there when it is fetched and when it is removed |
| Races.LostRun | src/network/worker.rs:75-80 | the run with two workers: both store the parent while its child waits, and one comes late |
| Races.StrandedIffTwoWorkers | src/network/worker.rs:378-390 | some run in which nobody builds on a block before its miner published it ends with all workers idle and a block waiting under a parent in the chain iff there are at least two workers |
| Races.OneWorkerIsTidy | src/network/worker.rs:378-390 | with at most one worker, in every such run, a bucket under a hash in the chain exists only between that block's insertion and the removal of the bucket by the same worker |
| Races.StrandedRun | src/network/worker.rs:378-390 | the run with two workers: one finds the parent missing, the other stores it, then the child is buffered |
| Races.MinerStrands | src/miner.rs:243-289 | without that restriction one worker and the miner suffice, so the restriction is needed |
| WhenIdle.OneWorkerHoldsExactly | src/network/worker.rs:354-475 | with at most one worker, in every run in which nobody builds on a block before its miner published it, whatever the miner and the other threads do: whenever the worker is idle, the node holds exactly the good paths over the blocks received and mined, with their ledgers and lists, and exactly the orphans among them wait |
| WhenIdle.IdleInv | src/network/worker.rs:354-475 | in those states the invariant of the atomic model holds, seen through the chain |
| WhenIdle.ParentsFirstHoldsExactly | src/network/worker.rs:354-475 | with any number of workers, in every run in which blocks are delivered after their parents have been stored, whatever the interleaving: whenever all workers are idle, the node holds exactly the good paths over the blocks received and mined, with their ledgers and lists, and nothing waits |
| WhenIdle.SmoothNext | src/network/worker.rs:354-475 | in such a run every section of every thread keeps the buffer empty and unused, and every received block in the chain, refused, or in the hands of some worker |
| WhenIdle.WorkerKeeps | src/network/worker.rs:73-167 | every section of the one worker keeps each received block in the chain, refused, waiting, in hand or still to be taken up |
| WhenIdle.LostIffTwoWorkers | src/network/worker.rs:378-388 | given two valid blocks with one missing parent, some such run ends with all workers idle and one of them neither in the chain nor in the buffer iff there are at least two workers |
| WhenIdle.LossRun | src/network/worker.rs:380-387 | the run with two workers: both find no bucket, and the second insert replaces the first |
| WhenIdle.PushRun | src/network/worker.rs:380-383 | a second run that loses a valid block: its worker finds the bucket, the other one receives the parent, stores it and takes the bucket out, and the block is pushed nowhere; its parent is in the chain |
| WhenIdle.DropRun | src/network/worker.rs:75-80 | a third: the bucket is fetched, then grows by the block, then is removed with it; its parent is in the chain |
| Origin.ChainIsGenuine | src/network/worker.rs:356-410 | in every reachable state of every interleaving each block of the chain but genesis has a hash of at most its proposer difficulty, and was mined here, or received and checked for signatures |
| Origin.OriginNext | src/network/worker.rs:354-475 | every section of every thread keeps that, for the blocks in the chain, in the buffer and in the hands of the workers and the miner |
| Miner.MineOnce | src/miner.rs:164-329 | one round, for any nonce, time and iteration order: the header is over at most ten distinct pooled transactions with live coins and at most ten distinct pooled tx blocks not listed at the tip, fewer than ten only if there are no more; a proposer block has exactly those references and is stored exactly as a worker stores it; a tx block has exactly those transactions and moves them from one pool to the other; if the transactions of the built block cannot be folded, the thread panics with only the reference list written; and the round comes to nothing, changing nothing, exactly when the hash is too high or the kind of block it is low enough for would be empty |
| Miner.SelectTransactions | src/miner.rs:167-194 | at most ten pooled transactions with all inputs live, no duplicates, and fewer than ten only if there are no more |
| Miner.SelectRefs | src/miner.rs:197-210 | at most ten pooled tx blocks, no duplicates, none listed by an ancestor, and fewer than ten only if there are no more |
| Miner.BuildHeader | src/miner.rs:212-225 | the header names the tip, inherits both difficulties and carries the recursive-tree roots of both contents |
| Miner.Publish | src/miner.rs:243-289 | the miner's own storing section (concatenated list, ledger read when the round began) has the effect of the worker's, or panics, exactly when the transactions cannot be folded, with only the list written |
| Miner.PublishTx | src/miner.rs:313-322 | a mined tx block enters its pool under its hash, a pooled transaction stays iff it is none of the block's, and every other entry of both pools is kept |
| Miner.HashDeterminesBlock | src/block.rs:36-40 | with collision-free hashing, two built proposer blocks with one header hash are equal, content included |
| Miner.HashDeterminesTxBlock | src/block.rs:54-58 | the same for tx blocks |
| NodeRuns.FirstTwinStays | src/network/worker.rs:356-365 | of two valid blocks with one header and different contents, whichever is delivered first stays, with the ledger of its own content; with collision-free hashing one of them does not have the Merkle root in its header |
| Miner.NodesAgree | src/network/worker.rs:415-468 | any two nodes have the same ledger and list for every block both hold |
| Miner.ReceiverAgrees | src/miner.rs:228-289 | a mined block delivered to any node with its parent is accepted there iff its tx blocks are correctly signed, and then gets the ledger and list the miner stored |
| Miner.TxBlockAcceptedIff | src/network/worker.rs:303-311 | a receiver takes in a mined tx block it does not hold iff its hash is not the proposer difficulty itself |
| NodeRuns.TxBlockGap | src/miner.rs:228-298 | right after the ICO, with one admitted transaction: if the header over it, with its Merkle root and the genesis difficulties, hashes to the proposer difficulty, the miner builds the tx block and every node refuses it |
| Generator.BuildTransaction | src/generator.rs:291-331 | for any two random numbers the transaction pays 1 + valueRandom modulo the coin's value to the address destRandom picks and the rest back to the coin's owner, spends the whole coin and nothing else, and no sum leaves 32 bits |
| Generator.GenerateAll | src/generator.rs:276-335 | one pass over the tip's ledger makes one such transaction for every coin whose address is this node's and whose value is not 0, puts each of them in the pool and adds nothing else |
| Generator.GeneratedIsAdmitted | src/network/worker.rs:214-276 | given that signatures verify, a generated transaction pays out exactly its coin, and a node with the same tip ledger admits it iff it does not hold it |
| Generator.GeneratedIsShaped | src/generator.rs:291-318 | what is generated from a ledger reached by transactions of any shape is generator-shaped |
| Generator.Balance | src/generator.rs:144-166 | grouping by address and then adding up gives the total value of the coins owned |
| Generator.GroupByAddress | src/generator.rs:147-161 | the per-address amounts add up to the value of the coins owned |
| Generator.BalancesAddUp | src/generator.rs:144-166 | over nodes with disjoint addresses the balances sum to the value held by all of them |
| Generator.BalancesAreTheSupply | README.md:79 | when every owner's address belongs to exactly one node, the balances sum to the whole ledger |
| Blockchains.Blockchain.constructor | src/blockchain.rs:23-66 | a tree holding at height 0 the genesis block with the source's nonce, time, difficulties, content and roots, field by field, satisfying the tree invariant |
| Types.Difficulties | src/blockchain.rs:24-32 | the two genesis difficulties are the numbers of the source's 32-byte arrays 127, 255, ... and 15, 255, ... |
| Blockchains.Blockchain.Insert | src/blockchain.rs:69-77 | blocks, heights, longest and tip change as Inserted says |
| Blockchains.Blockchain.AllBlocksInLongestChain | src/blockchain.rs:84-100 | every lookup of the walk is defined, and the result is the complete parent path from genesis to the tip, longest + 1 hashes |
| Blockchains.InsertStep | src/blockchain.rs:69-77 | inserting a block whose parent is there keeps the tree invariant, adds just that block and no other height; longest grows by at most one, the tip moves only to a strictly higher block, and a block already there changes nothing |
| Blockchains.PathShape | src/blockchain.rs:93-96 | position i of the path to a block is a block of the tree at height i whose parent is at position i - 1 |
| Blockchains.InsertsInv | src/blockchain.rs:69-77 | after any run of inserts with parents present, the tree holds exactly genesis and the inserted blocks, at their distance from genesis, and the tip attains the maximum height |
| Blockchains.FirstSeen | src/blockchain.rs:73-76 | over whole runs of inserts the tip is the earliest inserted block among those of maximum height |
| Merkle.New | src/crypto/merkle.rs:11-53 | the flat array is the recursive tree laid out level by level, and no offset leaves 32 bits |
| Merkle.PadLeaves | src/crypto/merkle.rs:22-29 | the first level is the hashed data, the last one repeated up to a power of two |
| Merkle.PushLevel | src/crypto/merkle.rs:34-43 | one pass of the inner loop appends the next level of the recursive tree |
| Merkle.CeilLog2 | src/crypto/merkle.rs:19 | the height is the least h with the number of leaves at most 2^h |
| Merkle.LayoutSize | src/crypto/merkle.rs:19-53 | the array of a tree of height h has 2^(h+1)-1 nodes, below 2^32 up to height 31 |
| Merkle.LayoutNode | src/crypto/merkle.rs:22-45 | node j of level k is at 2^(h+1) - 2^(h+1-k) + j and combines the two nodes of the level below that precede it, left before right; at level 0 it is the hash of datum j, or of the last one from there on |
| Merkle.RootIsTreeRoot | src/crypto/merkle.rs:55-60 | the last slot is the root of the recursive tree, or the all-zero digest for no data |
| Merkle.Proof | src/crypto/merkle.rs:63-82 | what is read at the running offset is the list of siblings on the way up the recursive tree |
| Merkle.PathSlot | src/crypto/merkle.rs:68-77 | digest i of the path of a leaf is the array's digest on level i next to node index / 2^i: the one before it if that number is odd, the one after it if even |
| Merkle.Verify | src/crypto/merkle.rs:87-106 | accepts iff folding the path into the datum gives the root |
| Merkle.ClimbLevels | src/crypto/merkle.rs:90-103 | any sequence of digests that starts at the datum and in which each is the hash of the one before and the next digest of the path, in the order bit i of the index says, ends in the digest compared with the root |
| Merkle.VerifyOwnProof | src/crypto/merkle.rs:63-106 | for every non-empty list and index in range, the proof of a datum verifies, whatever the hash function |
| Merkle.AcceptedIffGenuine | src/crypto/merkle.rs:87-106 | with collision-free hashing, a path of the tree's height is accepted at an index of the padded leaves iff the datum is the leaf there and the path is the one Proof returns |
| Merkle.RootsEqualIffSamePadded | src/crypto/merkle.rs:11-60 | two roots are equal iff the trees have one height and the lists agree after padding |
| Merkle.RootCommits | src/crypto/merkle.rs:11-60 | two duplicate-free lists with equal roots are equal, whatever their lengths |
| Merkle.RepeatedTailSameRoot | src/crypto/merkle.rs:22-29 | without that condition: two different lists with one root |
| Framing.Link.Run | src/network/peer.rs:29-155 | for any events, the messages read are a prefix of those dequeued, in order; the bytes written are a prefix of the encoding of the messages dequeued; and with nothing queued, pending or in flight every message queued has been read |
| Framing.Link.Behind | src/network/peer.rs:29-155 | at every moment the messages read are a prefix of those dequeued and the unfinished frame is a prefix of what follows |
| Framing.Link.CaughtUp | src/network/peer.rs:29-155 | a quiet link has delivered everything dequeued |
| Framing.Link.PollReader | src/network/peer.rs:29-72 | reading any part of what has arrived keeps the link consistent, delivers at most one message, fails only when nothing has arrived and otherwise takes at least one byte; the end of the stream is never reported |
| Framing.WriteContext.Write | src/network/peer.rs:97-155 | however each socket call ends, bytes written plus bytes pending are the encoding of the messages dequeued, no message is lost or reordered, Complete means nothing is left, and every socket call that succeeds takes a byte or brings on the next message |
| Framing.WriteContext.WriteLength | src/network/peer.rs:106-116 | a partial write of the length field keeps that |
| Framing.WriteContext.WritePayload | src/network/peer.rs:141-151 | a partial write of the payload keeps that |
| Framing.WriteContext.Load | src/network/peer.rs:123-140 | the next message leaves the queue and its frame becomes pending |
| Framing.ReadContext.Read | src/network/peer.rs:29-72 | the bytes consumed are always the encoding of the messages delivered followed by the part of a frame read so far; stale bytes of the reused buffer are in no payload |
| Framing.ReadContext.Absorb | src/network/peer.rs:30-41 | bytes read are placed at the cursor and extend the unfinished frame |
| Framing.ReadContext.StartPayload | src/network/peer.rs:45-56 | the length is decoded and the buffer grows only if needed; nothing read is lost |
| Framing.ReadContext.Deliver | src/network/peer.rs:57-64 | the payload delivered is the frame just completed |
| Framing.LenRoundTrip | src/network/peer.rs:136-137 | decoding an encoded length gives it back modulo 2^32 |
| Framing.LenIsBigEndian | src/network/peer.rs:46-47 | the length field is read as the same big-endian number as a hash is |
| Framing.BytesRoundTrip | src/network/peer.rs:46-47 | encoding a decoded length gives the four bytes back |
| Framing.PrefixFrames | src/network/peer.rs:97-155 | one encoding is a prefix of another only if the messages are |
| Framing.ReceivedIsPrefix | src/network/peer.rs:29-72 | what a decoder has consumed of a stream determines that its messages are a prefix of the stream's |
| Hash.CmpIsNumeric | src/crypto/hash.rs:124-136 | comparing two 128-bit halves is comparing the 256-bit big-endian numbers |
| Hash.CmpEqualIffSame | src/crypto/hash.rs:124-136 | it says Equal iff all bytes are equal |

## Left out

- Sockets, polling, the peer table, the HTTP API, the command line, logging, print commands and address gossip: plumbing without state worth proving.
- SHA-256, Ed25519 and the serializers: functions of the World; what is assumed of them is a requirement of the theorem that needs it.
- Messages that only ask for or announce hashes, and relaying: they change no shared map.
- The ICO message and any ICO after the first: the model starts with genesis already holding the ICO ledger.
- Randomness, clocks, sleeping, control signals and map iteration order: free choices of the methods and steps.
- The attacker's mining loop: the same publication with empty content.
- The generator's "skip if the tip has not changed" test (src/generator.rs:261-267): a pass over one ledger is modelled whenever it happens.
- Poisoned locks: in the source a panic while a lock is held makes other threads panic too; in the interleaving model the other threads go on, which allows more runs.
- Merkle.New: at most 2^31 leaves, because beyond that the source's power of two leaves 32 bits.
- Merkle.CeilLog2: models the exact integer ceiling of the logarithm instead of a 64-bit floating-point one, whose rounding is not modelled.
- Drift.TotalAfter: no input of a transaction names the transaction itself, because a transaction cannot contain its own hash.
- Conservation.NeverLiveAgain: transactions whose inputs all name one coin; with every other shape a coin can come back, Respending.OtherShapeComesBack, so the shape is exact.
- Races.StrandedIffTwoWorkers: nobody builds on a block before its miner has published it; Races.MinerStrands is the run without that.
- Merkle.Proof: the index is one of the padded leaves; for others the source reads a slot of another level or panics.
- Framing.Link.Run: messages are non-empty and shorter than 2^32 bytes; after an empty one the source's reader reports the end of the stream, and longer ones are sent with a truncated length.
- Framing.Link.PollReader: the peer does not close the connection; the end of the stream is modelled in ReadContext.Read.
- Blockchains.Blockchain.Insert: heights are unbounded, the source's leave 32 bits after 2^32 blocks; without the parent the source panics.
- Ledgers.UpdateLedger: transactions have fewer than 2^32 inputs, beyond which the source's output index wraps. Where the fold panics, the functions (ApplyTx, Nodes.Deliver, the sections of Interleaving) leave the ledger alone and go on; the methods say when that is, and the theorems on those runs hold there of the functions only.
- Workers.Node.HandleProposerBlock: the source does not panic on the way, which Workers.Handleable states exactly.
- Admission.Judge: an output sum beyond 32 bits is the panic of a debug build; a release build would wrap.
- Miner.MineOnce: pooled transactions have fewer than 2^32 inputs, as for Ledgers.UpdateLedger; the lookups of one round see one state, and the rounds in which other threads intervene are those of Interleaving.MinerStepInv.
- Conservation.SoundStep: the total is conserved for generator-shaped transactions; for other shapes the exact condition is Drift.TotalAfter.
- Delivery.DeliveredExactly: messages and mining rounds one at a time, and nobody builds on a block before its miner has published it; for interleaved runs see WhenIdle.OneWorkerHoldsExactly and WhenIdle.ParentsFirstHoldsExactly, and for several workers and blocks out of order Races.StrandedIffTwoWorkers and WhenIdle.LostIffTwoWorkers.
- Interleaving.NoLookupFails: lookups by parent, tip and reference; the fetch of an orphan bucket fails in some run iff there are at least two workers, Races.BucketLostIffTwoWorkers.
- Interleaving.NextInv: the sections of other threads and message kinds appear only through their effect, as arbitrary changes of the transaction pool and additions to the tx block pool.
- Generator.Balance: the node's coins are worth less than 2^32 together, beyond which the source's sums leave 32 bits.
