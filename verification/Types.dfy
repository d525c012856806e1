/** The data of src/block.rs and src/transaction.rs, and the world a node runs in. */
module Types {
  import opened Basics
  import Hash
  import Merkle

  /** Hashes and addresses, as the big-endian numbers their bytes denote. */
  type H256 = nat
  type H160 = nat

  datatype Header = Header(
    proposerParent: H256,
    nonce: u32,
    timestamp: nat,
    transactionDifficulty: H256,
    proposerDifficulty: H256,
    merkleTransaction: H256,
    merkleProposer: H256)

  datatype ProposerBlock = ProposerBlock(header: Header, content: seq<H256>)

  datatype Transaction = Transaction(
    inputPrevious: seq<H256>,
    inputIndex: seq<u32>,
    outputValue: seq<u32>,
    outputAddress: seq<H160>)

  // 2^255 - 1 and 2^252 - 1.
  const TRANSACTION_DIFFICULTY: H256 := 0x7fffffff_ffffffff_ffffffff_ffffffff_ffffffff_ffffffff_ffffffff_ffffffff
  const PROPOSER_DIFFICULTY: H256 := 0x0fffffff_ffffffff_ffffffff_ffffffff_ffffffff_ffffffff_ffffffff_ffffffff

  /** They are the byte arrays 127, 255, ... and 15, 255, ... of the source. */
  lemma Difficulties()
    ensures TRANSACTION_DIFFICULTY == Hash.BigEndian([127] + seq(31, _ => 255))
    ensures PROPOSER_DIFFICULTY == Hash.BigEndian([15] + seq(31, _ => 255))
  {
    Hash.SmallPowers();
    Hash.DifficultyIs(127);
    Hash.DifficultyIs(15);
  }

  /** The genesis block, whose parent and roots are all the root over one all-zero hash. */
  function GenesisBlock(root: H256): ProposerBlock {
    ProposerBlock(Header(root, 1, 1, TRANSACTION_DIFFICULTY, PROPOSER_DIFFICULTY, root, root), [0])
  }

  datatype Sign = Sign(signature: seq<byte>, key: seq<byte>)
  datatype SignedTransaction = SignedTransaction(transaction: Transaction, sig: Sign)
  datatype TXBlock = TXBlock(header: Header, content: seq<SignedTransaction>)

  datatype Coin = Coin(tx: H256, index: u32)
  datatype Output = Output(value: u32, address: H160)
  type Ledger = map<Coin, Output>

  /** The foreign functions a node calls, the genesis block and ledger, and, for every
      hash, the one proposer block, transaction block or transaction that hash stands
      for. A thing that really occurs is the one its hash stands for: that is how the
      model says that hashes do not collide. */
  datatype World = World(
    headerHash: Header -> H256,
    txHash: SignedTransaction -> H256,
    h256Hash: H256 -> H256,
    combine: (H256, H256) -> H256,
    verify: (Transaction, seq<byte>, seq<byte>) -> bool,
    sign: (Transaction, seq<byte>) -> seq<byte>,
    publicKey: seq<byte> -> seq<byte>,
    addressOf: seq<byte> -> H160,
    genesis: ProposerBlock,
    ico: Ledger,
    proposerOf: H256 -> ProposerBlock,
    txBlockOf: H256 -> TXBlock,
    txOf: H256 -> SignedTransaction)
  {
    /** A block's hash covers its header only. */
    function Hash(b: ProposerBlock): H256 {
      headerHash(b.header)
    }

    function TxBlockHash(b: TXBlock): H256 {
      headerHash(b.header)
    }

    function Genesis(): H256 {
      Hash(genesis)
    }

    predicate Occurs(b: ProposerBlock) {
      proposerOf(Hash(b)) == b
    }

    predicate TxBlockOccurs(b: TXBlock) {
      txBlockOf(TxBlockHash(b)) == b
    }

    /** Genesis is the block the source builds, and its made-up parent hash is the hash of
        no block. */
    predicate Good() {
      && genesis == GenesisBlock(Merkle.TreeRoot(PropHasher(), [0]))
      && Occurs(genesis)
      && Hash(proposerOf(genesis.header.proposerParent)) != genesis.header.proposerParent
    }

    function PropHasher(): Merkle.Hasher<H256, H256> {
      Merkle.Hasher(h256Hash, combine, 0)
    }

    function TxHasher(): Merkle.Hasher<SignedTransaction, H256> {
      Merkle.Hasher(txHash, combine, 0)
    }
  }
}
