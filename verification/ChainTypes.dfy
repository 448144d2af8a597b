/**
 Transactions, receipts and blocks (src/ethvm/tx/mod.rs, src/ledger/mod.rs),
 and the functions the model takes from outside: signature recovery, hashing,
 the bloom's bit positions and the EVM executor.
 */
module ChainTypes {
  import opened Wrappers
  import opened EvmTypes
  import opened Journal

  /** Hash values are only compared; `NoHash` is the empty vector of a default. */
  datatype Hash = NoHash | Digest(id: nat)

  type U64 = n: nat | n < 0x1_0000_0000_0000_0000

  /** `rest` stands for the input, the access list and the signature. */
  datatype TransactionAny =
    | Legacy(nonce: U256, gasPrice: U256, gasLimit: U256, to: Option<Address>, value: U256, rest: Bytes)
    | EIP2930(nonce: U256, gasPrice: U256, gasLimit: U256, to: Option<Address>, value: U256, rest: Bytes)
    | EIP1559(nonce: U256, maxFeePerGas: U256, gasLimit: U256, to: Option<Address>, value: U256, rest: Bytes)
  {
    function OfferedPrice(): U256 {
      match this
      case Legacy(_, p, _, _, _, _) => p
      case EIP2930(_, p, _, _, _, _) => p
      case EIP1559(_, p, _, _, _, _) => p
    }
  }

  datatype Tx = Evm(tx: TransactionAny) | Native(mock: Bytes)

  /** What one EVM run does: its journal calls, its gas and its verdict. */
  datatype Execution = Execution(ops: seq<Op>, gasUsed: U64, success: bool, contract: Address)

  /** A contract the genesis file asks for. */
  datatype GenesisContract = GenesisContract(from: Address, salt: Bytes, bytecode: Bytes)

  datatype LedgerLog = LedgerLog(
    address: Address, topics: seq<H256>, data: Bytes,
    txHash: Hash, txIndex: nat, logIndexInBlock: nat, logIndexInTx: nat, removed: bool)

  datatype Receipt = Receipt(
    txHash: Hash, txIndex: nat, from: Option<Address>, to: Option<Address>,
    blockGasUsed: nat, txGasUsed: U64, contractAddr: Option<Address>,
    statusCode: bool, logs: seq<LedgerLog>)

  datatype BlockHeader = BlockHeader(
    height: nat, proposer: Bytes, timestamp: nat, merkleRoot: Hash, prevHash: Hash, receipts: map<Hash, Receipt>)

  type Bloom = set<nat>

  datatype Block = Block(header: BlockHeader, headerHash: Hash, txs: seq<Tx>, bloom: Bloom)

  const DEFAULT_BLOCK := Block(BlockHeader(0, [], 0, NoHash, NoHash, map[]), NoHash, [], {})

  function NewBlock(height: nat, proposer: Bytes, timestamp: nat, prevHash: Hash): Block {
    Block(BlockHeader(height, proposer, timestamp, NoHash, prevHash, map[]), NoHash, [], {})
  }

  datatype BloomInput = AddressInput(address: Address) | TopicInput(topic: H256)

  datatype Chain = Chain(
    gasPriceMin: U256,
    signer: TransactionAny -> Option<Address>,
    execute: (TransactionAny, Address, ChainState, map<nat, H256>) -> Execution,
    deploy: (GenesisContract, ChainState) -> Execution,
    txHash: Tx -> Hash,
    emptyHash: Hash,
    merkleRoot: seq<Hash> -> Hash,
    headerHash: BlockHeader -> Hash,
    toEvm: Hash -> H256,
    bloomBits: BloomInput -> set<nat>)

  // ---------- heights ----------

  predicate IsLast(keys: set<nat>, k: nat) {
    k in keys && forall j | j in keys :: j <= k
  }

  lemma {:induction false} LastExists(keys: set<nat>)
    requires keys != {}
    ensures exists k :: IsLast(keys, k)
    decreases |keys|
  {
    var k :| k in keys;
    var rest := keys - {k};
    var top := k;
    if rest != {} {
      LastExists(rest);
      var m :| IsLast(rest, m);
      top := if m <= k then k else m;
    }
    forall j | j in keys ensures j <= top {
      assert j == k || j in rest;
    }
    assert IsLast(keys, top);
  }

  function Last(keys: set<nat>): (k: nat)
    requires keys != {}
    ensures IsLast(keys, k)
  {
    LastExists(keys);
    var k :| IsLast(keys, k);
    k
  }

  function LastHeight(blocks: map<nat, Block>): nat {
    if blocks == map[] then 0 else Last(blocks.Keys)
  }

  /** The height the last block itself states. */
  function TipHeight(blocks: map<nat, Block>): nat {
    if blocks == map[] then 0 else blocks[Last(blocks.Keys)].header.height
  }

  function LastHash(blocks: map<nat, Block>): Hash {
    if blocks == map[] then NoHash else blocks[Last(blocks.Keys)].headerHash
  }
}
