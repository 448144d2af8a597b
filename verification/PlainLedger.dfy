/**
 The ledger without branches, versions or a CheckTx state: the committed state,
 and a block being filled by applying each delivered transaction in turn.
 */
module PlainLedger {
  import opened Wrappers
  import opened FiniteSums
  import opened EvmTypes
  import opened Journal
  import opened Flush
  import opened ChainTypes

  // ---------- one transaction ----------

  /** The upfront amount, or None where gas limit zero or an overflow refuses the transaction. */
  function NeededAmount(tx: TransactionAny, price: U256): Option<U256> {
    if tx.gasLimit == 0 || price * tx.gasLimit > U256_MAX || tx.value + price * tx.gasLimit > U256_MAX then None
    else Some(tx.value + price * tx.gasLimit)
  }

  /** The signer and the gas price of a transaction that may run. */
  function PreExec(chain: Chain, st: ChainState, tx: TransactionAny): Option<(Address, U256)> {
    var price := tx.OfferedPrice();
    if price < chain.gasPriceMin then None
    else match chain.signer(tx)
      case None => None
      case Some(addr) =>
        if tx.nonce != st.Account(addr).nonce then None
        else match NeededAmount(tx, price)
          case None => None
          case Some(needed) => if needed <= st.Account(addr).balance then Some((addr, price)) else None
  }

  /** None where the source finds no account to charge and panics. */
  function ChargeFee(st: ChainState, caller: Address, fee: U256): Option<ChainState> {
    if fee == 0 then Some(st)
    else if caller !in st.accounts then None
    else
      var account := st.accounts[caller];
      Some(st.(accounts := st.accounts[caller := account.(balance := SaturatingSub(account.balance, fee))]))
  }

  function NumberedLogs(logs: seq<Log>, txHash: Hash): seq<LedgerLog> {
    seq(|logs|, i requires 0 <= i < |logs| =>
      LedgerLog(logs[i].address, logs[i].topics, logs[i].data, txHash, 0, 0, i, false))
  }

  /** The frame a run ends in; None where it panics or does not come back to the root. */
  function FinalFrame(st: ChainState, e: Execution): Option<Frame> {
    match Run(NEW_STACK, st, e.ops)
    case Some(Root(f)) => Some(f)
    case _ => None
  }

  datatype ExecRet = ExecRet(
    success: bool, gasUsed: U64, feeUsed: U256, caller: Address, contract: Address, logs: seq<Log>)

  /** The run of an accepted transaction and the state it writes; None where it panics. */
  function Exec(chain: Chain, st: ChainState, hashes: map<nat, H256>,
                tx: TransactionAny, addr: Address, price: U256): Option<(ExecRet, ChainState)>
  {
    var e := chain.execute(tx, addr, st, hashes);
    match FinalFrame(st, e)
    case Some(f) =>
      if e.gasUsed * price > U256_MAX then None
      else
        Some((ExecRet(e.success, e.gasUsed, e.gasUsed * price, addr, e.contract, f.logs), AfterRun(st, e, f)))
    case None => None
  }

  function AfterRun(st: ChainState, e: Execution, f: Frame): ChainState {
    if e.success then Flushed(f, st) else st
  }

  datatype TxEffect =
    | Rejected
    | Failed(state: ChainState)
    | Succeeded(state: ChainState, ret: ExecRet)
    | Panicked

  function Effect(chain: Chain, st: ChainState, hashes: map<nat, H256>, tx: Tx): TxEffect {
    match tx
    case Native(_) => Rejected
    case Evm(evm) =>
      match PreExec(chain, st, evm)
      case None => Rejected
      case Some((addr, price)) =>
        match Exec(chain, st, hashes, evm, addr, price)
        case None => Panicked
        case Some((ret, st')) =>
          match ChargeFee(st', ret.caller, ret.feeUsed)
          case None => Panicked
          case Some(charged) => if ret.success then Succeeded(charged, ret) else Failed(charged)
  }

  function StateAfter(st: ChainState, effect: TxEffect): ChainState {
    if effect.Failed? || effect.Succeeded? then effect.state else st
  }

  // ---------- genesis ----------

  function Funded(st: ChainState, distribution: map<Address, U256>): ChainState {
    st.(accounts := st.accounts + map a | a in distribution :: OvrAccount(0, distribution[a], []))
  }

  /** A genesis contract after its deployment; None where that fails and the source panics. */
  function Deployed(chain: Chain, st: ChainState, contract: GenesisContract): Option<ChainState> {
    var e := chain.deploy(contract, st);
    match FinalFrame(st, e)
    case Some(f) => if e.success then Some(Flushed(f, st)) else None
    case None => None
  }

  function AllDeployed(chain: Chain, st: ChainState, contracts: seq<GenesisContract>): Option<ChainState> {
    if contracts == [] then Some(st)
    else match AllDeployed(chain, st, contracts[..|contracts| - 1])
      case None => None
      case Some(st') => Deployed(chain, st', contracts[|contracts| - 1])
  }

  // ---------- the block being filled ----------

  function ReceiptOf(chain: Chain, tx: Tx, ret: ExecRet, index: nat): Receipt
    requires tx.Evm?
  {
    Receipt(chain.txHash(tx), index, chain.signer(tx.tx), tx.tx.to, 0, ret.gasUsed,
            if tx.tx.to.None? then Some(ret.contract) else None,
            ret.success, NumberedLogs(ret.logs, chain.txHash(tx)))
  }

  /** A block in process, with the hashes of the transactions it holds. */
  datatype Draft = Draft(hashes: seq<Hash>, block: Block)

  function Extended(chain: Chain, draft: Draft, tx: Tx, ret: ExecRet): Draft
    requires tx.Evm?
  {
    var hash := chain.txHash(tx);
    Draft(
      draft.hashes + [hash],
      draft.block.(txs := draft.block.txs + [tx],
                   header := draft.block.header.(receipts :=
                     draft.block.header.receipts[hash := ReceiptOf(chain, tx, ret, |draft.hashes|)])))
  }

  function DraftAfter(chain: Chain, draft: Draft, tx: Tx, effect: TxEffect): Draft {
    if effect.Succeeded? && tx.Evm? then Extended(chain, draft, tx, effect.ret) else draft
  }

  // ---------- closing it ----------

  function LogBits(chain: Chain, log: LedgerLog): Bloom {
    chain.bloomBits(AddressInput(log.address)) + TopicBits(chain, log.topics)
  }

  function TopicBits(chain: Chain, topics: seq<H256>): Bloom {
    if topics == [] then {}
    else TopicBits(chain, topics[..|topics| - 1]) + chain.bloomBits(TopicInput(topics[|topics| - 1]))
  }

  function LogsBits(chain: Chain, logs: seq<LedgerLog>): Bloom {
    if logs == [] then {}
    else LogsBits(chain, logs[..|logs| - 1]) + LogBits(chain, logs[|logs| - 1])
  }

  function ReceiptsBits(chain: Chain, receipts: map<Hash, Receipt>, hashes: seq<Hash>): Bloom {
    if hashes == [] then {}
    else
      var h := hashes[|hashes| - 1];
      ReceiptsBits(chain, receipts, hashes[..|hashes| - 1]) +
      if h in receipts then LogsBits(chain, receipts[h].logs) else {}
  }

  function GasOf(receipts: map<Hash, Receipt>): map<Hash, nat> {
    map h | h in receipts :: receipts[h].txGasUsed
  }

  function Priced(receipts: map<Hash, Receipt>, hashes: seq<Hash>, gas: nat): map<Hash, Receipt> {
    map h | h in receipts :: if h in hashes then receipts[h].(blockGasUsed := gas) else receipts[h]
  }

  /** The block as committed; the trailing hash keeps the Merkle tree non-empty. */
  ghost function Closed(chain: Chain, draft: Draft): Block {
    var hashes := draft.hashes + [chain.emptyHash];
    var receipts := Priced(draft.block.header.receipts, hashes, Sum(GasOf(draft.block.header.receipts)));
    var header := draft.block.header.(merkleRoot := chain.merkleRoot(hashes), receipts := receipts);
    Block(header, chain.headerHash(header), draft.block.txs,
          draft.block.bloom + ReceiptsBits(chain, draft.block.header.receipts, hashes))
  }

  // ---------- the machine ----------

  datatype Pending = Pending(state: ChainState, draft: Draft)

  datatype Plain = Plain(
    state: ChainState,
    blocks: map<nat, Block>,
    blockHashes: map<nat, H256>,
    pending: Option<Pending>)

  /** What reaches the application; a transaction is None when its bytes do not decode. */
  datatype Event =
    | BeginBlock(proposer: Bytes, timestamp: nat)
    | DeliverTx(tx: Option<Tx>)
    | CheckTx(recheck: bool, checked: Option<Tx>)
    | Commit
    | Restart

  /** The orders Tendermint may call in. */
  predicate Legal(p: Plain, ev: Event) {
    match ev
    case BeginBlock(_, _) => p.pending.None?
    case DeliverTx(_) => p.pending.Some?
    case CheckTx(_, _) => true
    case Commit => p.pending.Some?
    case Restart => p.blocks != map[]
  }

  function Begun(p: Plain, proposer: Bytes, timestamp: nat): Pending {
    Pending(p.state, Draft([], NewBlock(1 + TipHeight(p.blocks), proposer, timestamp, LastHash(p.blocks))))
  }

  /** None where delivering panics. CheckTx changes nothing; a restart forgets the open block. */
  ghost function PlainStep(chain: Chain, p: Plain, ev: Event): Option<Plain>
    requires Legal(p, ev)
  {
    match ev
    case BeginBlock(proposer, timestamp) => Some(p.(pending := Some(Begun(p, proposer, timestamp))))
    case DeliverTx(None) => Some(p)
    case DeliverTx(Some(tx)) =>
      var pending := p.pending.value;
      var effect := Effect(chain, pending.state, p.blockHashes, tx);
      if effect.Panicked? then None
      else
        Some(p.(pending := Some(Pending(StateAfter(pending.state, effect),
                                        DraftAfter(chain, pending.draft, tx, effect)))))
    case CheckTx(_, _) => Some(p)
    case Commit =>
      var block := Closed(chain, p.pending.value.draft);
      Some(Plain(p.pending.value.state,
                 p.blocks[block.header.height := block],
                 p.blockHashes[block.header.height := chain.toEvm(block.headerHash)],
                 None))
    case Restart => Some(p.(pending := None))
  }

  ghost predicate LegalRun(chain: Chain, p: Plain, events: seq<Event>)
    decreases |events|
  {
    events != [] ==>
      && Legal(p, events[0])
      && (PlainStep(chain, p, events[0]).Some? ==>
            LegalRun(chain, PlainStep(chain, p, events[0]).value, events[1..]))
  }

  ghost function PlainRun(chain: Chain, p: Plain, events: seq<Event>): Option<Plain>
    requires LegalRun(chain, p, events)
    decreases |events|
  {
    if events == [] then Some(p)
    else match PlainStep(chain, p, events[0])
      case None => None
      case Some(p') => PlainRun(chain, p', events[1..])
  }

  // ---------- with the state that checks are tried on ----------

  /** The plain ledger beside what the CheckTx branch shows. */
  datatype Node = Node(plain: Plain, tried: ChainState)

  /** None where a delivered or a checked transaction panics. */
  ghost function NodeStep(chain: Chain, n: Node, ev: Event): Option<Node>
    requires Legal(n.plain, ev)
  {
    if ev.CheckTx? && !ev.recheck && ev.checked.Some? then
      var effect := Effect(chain, n.tried, n.plain.blockHashes, ev.checked.value);
      if effect.Panicked? then None else Some(n.(tried := StateAfter(n.tried, effect)))
    else
      match PlainStep(chain, n.plain, ev)
      case None => None
      case Some(p) => Some(Node(p, if ev.BeginBlock? || ev.Restart? then p.state else n.tried))
  }

  ghost function NodeRun(chain: Chain, n: Node, events: seq<Event>): Option<Node>
    requires LegalRun(chain, n.plain, events)
    decreases |events|
  {
    if events == [] then Some(n)
    else match NodeStep(chain, n, events[0])
      case None => None
      case Some(n') => NodeRun(chain, n', events[1..])
  }
}
