/** What one transaction may do to the state: atomicity, exact fees, supply and nonces. */
module TxProperties {
  import opened Wrappers
  import opened FiniteSums
  import opened EvmTypes
  import opened Journal
  import opened JournalInvariants
  import opened Flush
  import opened ChainTypes
  import opened PlainLedger

  // ---------- atomicity ----------

  /** Amount a fee really takes from an account. */
  function Deducted(st: ChainState, caller: Address, fee: U256): nat {
    if st.Account(caller).balance < fee then st.Account(caller).balance else fee
  }

  /** The price a transaction offers for gas, by its kind. */
  function PriceOf(tx: TransactionAny): U256 {
    match tx
    case Legacy(_, gasPrice, _, _, _, _) => gasPrice
    case EIP2930(_, gasPrice, _, _, _, _) => gasPrice
    case EIP1559(_, maxFeePerGas, _, _, _, _) => maxFeePerGas
  }

  /** What the ledger asks of a transaction before it runs it. */
  predicate Covered(chain: Chain, st: ChainState, tx: TransactionAny) {
    && chain.signer(tx).Some?
    && chain.gasPriceMin <= PriceOf(tx)
    && tx.nonce == st.Account(chain.signer(tx).value).nonce
    && tx.gasLimit != 0
    && tx.value + PriceOf(tx) * tx.gasLimit <= st.Account(chain.signer(tx).value).balance
  }

  /**
   A transaction is run exactly when its signature recovers, its price meets the
   minimum, its nonce is the account's, its gas limit is not zero, and the
   balance covers value and gas in full: no overflow lets one slip through.
   */
  lemma RunsExactlyWhenCovered(chain: Chain, st: ChainState, tx: TransactionAny)
    ensures PreExec(chain, st, tx).Some? <==> Covered(chain, st, tx)
    ensures PreExec(chain, st, tx).Some? ==>
              PreExec(chain, st, tx) == Some((chain.signer(tx).value, PriceOf(tx)))
  {
  }

  /** A balance after a fee it may not cover. */
  function LessFee(balance: U256, fee: nat): U256 {
    if fee <= balance then balance - fee else 0
  }

  /** What a failed transaction leaves: the caller poorer by min(balance, fee), and all else as it was. */
  predicate OnlyCharged(st: ChainState, after: ChainState, caller: Address, fee: U256) {
    && after.storages == st.storages
    && after.accounts.Keys == st.accounts.Keys
    && (forall a :: a in st.accounts && a != caller ==> after.accounts[a] == st.accounts[a])
    && (caller in st.accounts ==>
          after.accounts[caller] ==
          st.accounts[caller].(balance := LessFee(st.accounts[caller].balance, fee)))
  }

  /** What a successful one adds: one hash, one transaction, and a receipt with the logs its run kept. */
  predicate OneMoreEntry(chain: Chain, draft: Draft, draft': Draft, tx: Tx, e: Execution, logs: seq<Log>)
    requires tx.Evm?
  {
    var hash := chain.txHash(tx);
    && draft'.hashes == draft.hashes + [hash]
    && draft'.block.txs == draft.block.txs + [tx]
    && draft'.block.bloom == draft.block.bloom
    && draft'.block.header == draft.block.header.(receipts := draft'.block.header.receipts)
    && draft'.block.header.receipts.Keys == draft.block.header.receipts.Keys + {hash}
    && (forall h :: h in draft.block.header.receipts && h != hash ==>
          draft'.block.header.receipts[h] == draft.block.header.receipts[h])
    && hash in draft'.block.header.receipts
    && var r := draft'.block.header.receipts[hash];
    && r.txHash == hash && r.txIndex == |draft.hashes| && r.statusCode
    && r.from == chain.signer(tx.tx) && r.to == tx.tx.to
    && r.contractAddr == (if tx.tx.to.None? then Some(e.contract) else None)
    && r.txGasUsed == e.gasUsed && r.blockGasUsed == 0
    && |r.logs| == |logs|
    && forall i :: 0 <= i < |logs| ==>
         r.logs[i] == LedgerLog(logs[i].address, logs[i].topics, logs[i].data, hash, 0, 0, i, false)
  }

  /**
   A rejected transaction changes nothing; one that fails in execution costs the
   caller its fee and does nothing else; only a successful one enters the block.
   */
  lemma TransactionsAreAtomic(chain: Chain, st: ChainState, hashes: map<nat, H256>, tx: Tx, draft: Draft)
    ensures var effect := Effect(chain, st, hashes, tx);
            && (effect.Rejected? ==> StateAfter(st, effect) == st)
            && (!effect.Succeeded? ==> DraftAfter(chain, draft, tx, effect) == draft)
            && (effect.Failed? || effect.Succeeded? ==>
                  && tx.Evm? && PreExec(chain, st, tx.tx).Some?
                  && var (caller, price) := PreExec(chain, st, tx.tx).value;
                     var e := chain.execute(tx.tx, caller, st, hashes);
                     var end := Run(NEW_STACK, st, e.ops);
                  && end.Some? && end.value.Root? && e.gasUsed * price <= U256_MAX && (effect.Succeeded? <==> e.success)
                  && (effect.Failed? ==> OnlyCharged(st, effect.state, caller, e.gasUsed * price))
                  && (effect.Succeeded? ==>
                        OneMoreEntry(chain, draft, DraftAfter(chain, draft, tx, effect), tx, e, end.value.top.logs)))
  {
    var effect := Effect(chain, st, hashes, tx);
    if effect.Failed? || effect.Succeeded? {
      var (caller, price) := PreExec(chain, st, tx.tx).value;
      var e := chain.execute(tx.tx, caller, st, hashes);
      var (ret, written) := Exec(chain, st, hashes, tx.tx, caller, price).value;
      ChargeOnlyCharges(written, caller, e.gasUsed * price);
      if effect.Succeeded? {
        ExtendsByOne(chain, draft, tx, ret, e);
      }
    }
  }

  lemma ChargeOnlyCharges(st: ChainState, caller: Address, fee: U256)
    requires ChargeFee(st, caller, fee).Some?
    ensures OnlyCharged(st, ChargeFee(st, caller, fee).value, caller, fee)
  {
  }

  lemma ExtendsByOne(chain: Chain, draft: Draft, tx: Tx, ret: ExecRet, e: Execution)
    requires tx.Evm? && ret.gasUsed == e.gasUsed && ret.contract == e.contract && ret.success
    ensures OneMoreEntry(chain, draft, Extended(chain, draft, tx, ret), tx, e, ret.logs)
  {
  }

  // ---------- panics ----------

  /**
   An accepted transaction panics exactly when its run does or ends inside a
   frame, when its fee passes 256 bits, or when a positive fee is to be charged
   to a caller the run deleted.
   */
  lemma PanicsExactlyWhen(chain: Chain, st: ChainState, hashes: map<nat, H256>,
                          tx: TransactionAny, addr: Address, price: U256)
    requires PreExec(chain, st, tx) == Some((addr, price))
    ensures var e := chain.execute(tx, addr, st, hashes);
            var end := Run(NEW_STACK, st, e.ops);
            Effect(chain, st, hashes, Evm(tx)).Panicked? <==>
            || end.None? || end.value.Nested?
            || e.gasUsed * price > U256_MAX
            || (e.success && e.gasUsed * price != 0 && addr in end.value.top.deletes)
  {
    var e := chain.execute(tx, addr, st, hashes);
    if FinalFrame(st, e).Some? && e.gasUsed * price <= U256_MAX && e.gasUsed * price != 0 {
      CallerHolds(chain, st, tx, addr, price);
      FlushKeepsAccounts(FinalFrame(st, e).value, st, addr);
    }
  }

  lemma UpfrontCovers(chain: Chain, st: ChainState, tx: TransactionAny)
    requires PreExec(chain, st, tx).Some?
    ensures var (addr, price) := PreExec(chain, st, tx).value;
            chain.signer(tx) == Some(addr) && tx.value + price * tx.gasLimit <= st.Account(addr).balance
  {
  }

  /** At a positive price the caller of an accepted transaction has an account. */
  lemma CallerHolds(chain: Chain, st: ChainState, tx: TransactionAny, addr: Address, price: U256)
    requires PreExec(chain, st, tx) == Some((addr, price)) && price != 0
    ensures addr in st.accounts
  {
    UpfrontCovers(chain, st, tx);
    assert tx.gasLimit >= 1;
    ProductWithin(1, tx.gasLimit, price);
  }

  lemma ProductWithin(x: nat, y: nat, z: nat)
    requires x <= y
    ensures x * z <= y * z
  {
  }

  /** The run ends where it began, within the gas limit, and if it succeeds it leaves its caller in place. */
  predicate HonestRun(e: Execution, st: ChainState, tx: TransactionAny, addr: Address) {
    && FinalFrame(st, e).Some?
    && e.gasUsed <= tx.gasLimit
    && (e.success ==> addr !in FinalFrame(st, e).value.deletes)
  }

  /** What this transaction runs here, if it runs, is honest. */
  predicate Honest(chain: Chain, st: ChainState, hashes: map<nat, H256>, tx: Tx) {
    tx.Evm? && PreExec(chain, st, tx.tx).Some? ==>
      var (addr, _) := PreExec(chain, st, tx.tx).value;
      HonestRun(chain.execute(tx.tx, addr, st, hashes), st, tx.tx, addr)
  }

  /** The fee of an honest run fits, and the account it is charged to is there if it is positive. */
  lemma HonestExec(chain: Chain, st: ChainState, hashes: map<nat, H256>,
                   tx: TransactionAny, addr: Address, price: U256)
    requires PreExec(chain, st, tx) == Some((addr, price))
    requires HonestRun(chain.execute(tx, addr, st, hashes), st, tx, addr)
    ensures Exec(chain, st, hashes, tx, addr, price).Some?
    ensures var (ret, written) := Exec(chain, st, hashes, tx, addr, price).value;
            ret.caller == addr && (ret.feeUsed == 0 || addr in written.accounts)
  {
    HonestFeeFits(chain, st, hashes, tx, addr, price);
    HonestNeverPanics(chain, st, hashes, Evm(tx));
  }

  lemma HonestFeeFits(chain: Chain, st: ChainState, hashes: map<nat, H256>,
                      tx: TransactionAny, addr: Address, price: U256)
    requires PreExec(chain, st, tx) == Some((addr, price))
    requires HonestRun(chain.execute(tx, addr, st, hashes), st, tx, addr)
    ensures chain.execute(tx, addr, st, hashes).gasUsed * price + tx.value <= st.Account(addr).balance
  {
    UpfrontCovers(chain, st, tx);
    ProductWithin(chain.execute(tx, addr, st, hashes).gasUsed, tx.gasLimit, price);
  }

  /**
   Every accepted transaction whose run is honest is charged: the fee fits 256
   bits, and the account to charge exists whenever the fee is positive.
   */
  lemma HonestNeverPanics(chain: Chain, st: ChainState, hashes: map<nat, H256>, tx: Tx)
    requires Honest(chain, st, hashes, tx)
    ensures !Effect(chain, st, hashes, tx).Panicked?
  {
    if tx.Evm? && PreExec(chain, st, tx.tx).Some? {
      var (addr, price) := PreExec(chain, st, tx.tx).value;
      HonestFeeFits(chain, st, hashes, tx.tx, addr, price);
      PanicsExactlyWhen(chain, st, hashes, tx.tx, addr, price);
    }
  }

  /** A successful run lowers its caller's balance by no more than the value transferred. */
  predicate KeepsCallerSolvent(e: Execution, st: ChainState, tx: TransactionAny, addr: Address) {
    e.success && FinalFrame(st, e).Some? ==>
      BasicOf(Root(FinalFrame(st, e).value), st, addr).balance + tx.value >= st.Account(addr).balance
  }

  /** What the caller holds when the fee is charged covers the fee. */
  lemma FeeIsCovered(chain: Chain, st: ChainState, hashes: map<nat, H256>,
                     tx: TransactionAny, addr: Address, price: U256)
    requires PreExec(chain, st, tx) == Some((addr, price))
    requires HonestRun(chain.execute(tx, addr, st, hashes), st, tx, addr)
    requires KeepsCallerSolvent(chain.execute(tx, addr, st, hashes), st, tx, addr)
    ensures Exec(chain, st, hashes, tx, addr, price).Some?
    ensures var (ret, written) := Exec(chain, st, hashes, tx, addr, price).value;
            ret.caller == addr && ret.feeUsed <= written.Account(addr).balance
  {
    HonestFeeFits(chain, st, hashes, tx, addr, price);
    FlushKeepsAccounts(FinalFrame(st, chain.execute(tx, addr, st, hashes)).value, st, addr);
  }

  /** For such a run the saturating subtraction of the fee is a true subtraction. */
  lemma FeesAreExact(chain: Chain, st: ChainState, hashes: map<nat, H256>,
                     tx: TransactionAny, addr: Address, price: U256)
    requires PreExec(chain, st, tx) == Some((addr, price))
    requires HonestRun(chain.execute(tx, addr, st, hashes), st, tx, addr)
    requires KeepsCallerSolvent(chain.execute(tx, addr, st, hashes), st, tx, addr)
    ensures Exec(chain, st, hashes, tx, addr, price).Some?
    ensures var (ret, written) := Exec(chain, st, hashes, tx, addr, price).value;
            var effect := Effect(chain, st, hashes, Evm(tx));
            && (effect.Failed? || effect.Succeeded?)
            && ret.feeUsed == chain.execute(tx, addr, st, hashes).gasUsed * price
            && effect.state.Account(addr).balance + ret.feeUsed == written.Account(addr).balance
  {
    FeeIsCovered(chain, st, hashes, tx, addr, price);
    HonestNeverPanics(chain, st, hashes, Evm(tx));
  }

  // ---------- supply ----------

  /** The ways currency leaves circulation. */
  datatype Drain = Fee | Destruction | Clipping

  /** What a run destroys by resetting balances and deleting accounts, or what its transfers clip. */
  ghost function LostInRun(st: ChainState, e: Execution, drain: Drain): nat {
    match FinalFrame(st, e)
    case None => 0
    case Some(f) =>
      if !e.success || drain.Fee? then 0
      else
        var lost := Lost(NEW_STACK, st, e.ops, Base(0, 0));
        if drain.Destruction? then lost.burned + Sum(DeletedBalances(f, st)) else lost.clipped
  }

  lemma RunSupply(st: ChainState, e: Execution, f: Frame)
    requires FinalFrame(st, e) == Some(f)
    ensures Supply(AfterRun(st, e, f).accounts) + LostInRun(st, e, Destruction) + LostInRun(st, e, Clipping) ==
            Supply(st.accounts)
    ensures Supply(st.accounts) <= U256_MAX ==> LostInRun(st, e, Clipping) == 0
  {
    if e.success {
      CurrencyIsConserved(st, e.ops);
      FlushedSupply(f, st);
    }
  }

  lemma FeeSupply(st: ChainState, caller: Address, fee: U256)
    requires ChargeFee(st, caller, fee).Some?
    ensures Supply(ChargeFee(st, caller, fee).value.accounts) + Deducted(st, caller, fee) == Supply(st.accounts)
  {
    if fee != 0 {
      var account := st.accounts[caller];
      SupplyUpdate(st.accounts, caller, account.(balance := SaturatingSub(account.balance, fee)));
    }
  }

  /** The fee a transaction really pays, or what its run loses besides. */
  ghost function CostOf(chain: Chain, st: ChainState, hashes: map<nat, H256>, tx: Tx, drain: Drain): nat {
    if tx.Native? then 0
    else match PreExec(chain, st, tx.tx)
      case None => 0
      case Some((addr, price)) =>
        match Exec(chain, st, hashes, tx.tx, addr, price)
        case None => 0
        case Some((ret, written)) =>
          if drain.Fee? then Deducted(written, ret.caller, ret.feeUsed)
          else LostInRun(st, chain.execute(tx.tx, addr, st, hashes), drain)
  }

  /**
   Whatever the outcome, the supply drops by exactly the fee paid, what the run
   destroyed and what its transfers clipped; below 2^256 they clip nothing.
   */
  lemma SupplyAfterTx(chain: Chain, st: ChainState, hashes: map<nat, H256>, tx: Tx)
    requires !Effect(chain, st, hashes, tx).Panicked?
    ensures Supply(StateAfter(st, Effect(chain, st, hashes, tx)).accounts) +
            CostOf(chain, st, hashes, tx, Fee) + CostOf(chain, st, hashes, tx, Destruction) +
            CostOf(chain, st, hashes, tx, Clipping) == Supply(st.accounts)
    ensures Supply(st.accounts) <= U256_MAX ==> CostOf(chain, st, hashes, tx, Clipping) == 0
  {
    if tx.Evm? && PreExec(chain, st, tx.tx).Some? {
      var (addr, price) := PreExec(chain, st, tx.tx).value;
      var (ret, written) := Exec(chain, st, hashes, tx.tx, addr, price).value;
      var e := chain.execute(tx.tx, addr, st, hashes);
      RunSupply(st, e, FinalFrame(st, e).value);
      FeeSupply(written, ret.caller, ret.feeUsed);
    }
  }

  /** A run that neither resets a balance nor deletes an account. */
  predicate SparingRun(e: Execution) {
    forall i :: 0 <= i < |e.ops| ==> !e.ops[i].ResetBalance? && !e.ops[i].SetDeleted?
  }

  predicate Sparing(chain: Chain, st: ChainState, hashes: map<nat, H256>, tx: Tx) {
    tx.Evm? && PreExec(chain, st, tx.tx).Some? ==>
      SparingRun(chain.execute(tx.tx, PreExec(chain, st, tx.tx).value.0, st, hashes))
  }

  predicate NothingDeleted(s: Stack) {
    s.top.deletes == {} && (s.Nested? ==> NothingDeleted(s.parent))
  }

  lemma {:induction false} SparingDeletesNothing(s: Stack, b: ChainState, ops: seq<Op>)
    requires NothingDeleted(s) && Run(s, b, ops).Some?
    requires forall i :: 0 <= i < |ops| ==> !ops[i].SetDeleted?
    ensures NothingDeleted(Run(s, b, ops).value)
    decreases |ops|
  {
    if ops != [] {
      SparingDeletesNothing(Step(s, b, ops[0]).value, b, ops[1..]);
    }
  }

  lemma SparingDestroysNothing(st: ChainState, e: Execution)
    requires SparingRun(e)
    ensures LostInRun(st, e, Destruction) == 0
  {
    if FinalFrame(st, e).Some? {
      NothingBurnedWithoutResets(NEW_STACK, st, e.ops, Base(0, 0));
      SparingDeletesNothing(NEW_STACK, st, e.ops);
      assert DeletedBalances(FinalFrame(st, e).value, st) == map[];
    }
  }

  // ---------- nonces ----------

  /** A successful run raises the nonce of its caller, unless it deletes the caller. */
  predicate RaisesNonce(e: Execution, st: ChainState, addr: Address) {
    e.success && FinalFrame(st, e).Some? && addr !in FinalFrame(st, e).value.deletes ==>
      BasicOf(Root(FinalFrame(st, e).value), st, addr).nonce > st.Account(addr).nonce
  }

  predicate Raises(chain: Chain, st: ChainState, hashes: map<nat, H256>, tx: Tx) {
    tx.Evm? && PreExec(chain, st, tx.tx).Some? ==>
      var (addr, _) := PreExec(chain, st, tx.tx).value;
      RaisesNonce(chain.execute(tx.tx, addr, st, hashes), st, addr)
  }

  /** The accounts a transaction deletes: none unless it succeeds. */
  function DeletedBy(chain: Chain, st: ChainState, hashes: map<nat, H256>, tx: Tx): set<Address> {
    if !Effect(chain, st, hashes, tx).Succeeded? then {}
    else
      var (addr, _) := PreExec(chain, st, tx.tx).value;
      FinalFrame(st, chain.execute(tx.tx, addr, st, hashes)).value.deletes
  }

  /**
   The nonce of an account that survives never falls, and a deleted account has
   nothing left. A success was accepted at its caller's nonce, and raises it if
   the caller survives a run that raises nonces.
   */
  lemma NoncesRise(chain: Chain, st: ChainState, hashes: map<nat, H256>, tx: Tx, a: Address)
    ensures var effect := Effect(chain, st, hashes, tx);
            var gone := DeletedBy(chain, st, hashes, tx);
            var after := StateAfter(st, effect);
            && (a !in gone ==> after.Account(a).nonce >= st.Account(a).nonce)
            && (a in gone ==> after.Account(a) == DEFAULT_ACCOUNT)
            && (effect.Succeeded? ==>
                  && tx.Evm? && chain.signer(tx.tx).Some?
                  && tx.tx.nonce == st.Account(chain.signer(tx.tx).value).nonce
                  && (chain.signer(tx.tx).value == a && a !in gone && Raises(chain, st, hashes, tx) ==>
                        after.Account(a).nonce > st.Account(a).nonce))
  {
    var effect := Effect(chain, st, hashes, tx);
    if effect.Succeeded? {
      var (addr, price) := PreExec(chain, st, tx.tx).value;
      var e := chain.execute(tx.tx, addr, st, hashes);
      var f := FinalFrame(st, e).value;
      RunKeepsNonce(NEW_STACK, st, e.ops, a, st.Account(a).nonce);
      FlushKeepsAccounts(f, st, a);
      ChargeKeepsNonce(Flushed(f, st), addr, e.gasUsed * price, a);
    }
  }

  lemma ChargeKeepsNonce(st: ChainState, caller: Address, fee: U256, a: Address)
    requires ChargeFee(st, caller, fee).Some?
    ensures ChargeFee(st, caller, fee).value.Account(a).nonce == st.Account(a).nonce
    ensures a !in st.accounts ==> a !in ChargeFee(st, caller, fee).value.accounts
  {
  }

  /**
   Once its signer is deleted a transaction can be accepted again, and is if it
   was the signer's first and needs no balance.
   */
  lemma DeletionReopens(chain: Chain, st: ChainState, hashes: map<nat, H256>, tx: Tx, t: TransactionAny)
    requires chain.signer(t).Some? && chain.signer(t).value in DeletedBy(chain, st, hashes, tx)
    ensures var after := StateAfter(st, Effect(chain, st, hashes, tx));
            PreExec(chain, after, t).Some? <==>
            && chain.gasPriceMin <= t.OfferedPrice() == 0
            && t.nonce == 0 && t.gasLimit != 0 && t.value == 0
  {
    var a := chain.signer(t).value;
    NoncesRise(chain, st, hashes, tx, a);
    RunsExactlyWhenCovered(chain, StateAfter(st, Effect(chain, st, hashes, tx)), t);
    if t.OfferedPrice() != 0 && t.gasLimit != 0 {
      ProductWithin(1, t.gasLimit, t.OfferedPrice());
    }
  }
}
