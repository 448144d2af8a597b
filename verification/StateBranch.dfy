/** One of the ledger's three branches, and how it takes a transaction (src/ledger/mod.rs `StateBranch`). */
module StateBranches {
  import opened Wrappers
  import opened FiniteSums
  import opened EvmTypes
  import opened Journal
  import opened Flush
  import opened Substate
  import opened ChainTypes
  import opened PlainLedger
  import opened TxProperties
  import opened TxOutcome
  import opened GenesisState
  import V = VersionStore
  import opened VersionNames

  /** What a caller hears; `Aborted` is a panic of the source. */
  datatype Response = Accepted | Refused | Aborted

  class StateBranch {
    const chain: Chain
    const state: V.State
    const branch: V.BranchName
    var txHashes: seq<Hash>
    var block: Block

    constructor (chain: Chain, state: V.State, branch: V.BranchName)
      ensures this.chain == chain && this.state == state && this.branch == branch
      ensures txHashes == [] && block == DEFAULT_BLOCK
    {
      this.chain, this.state, this.branch := chain, state, branch;
      txHashes, block := [], DEFAULT_BLOCK;
    }

    function InProcess(): Draft
      reads this
    {
      Draft(txHashes, block)
    }

    predicate Tracked()
      reads this, state`branches
    {
      branch in state.branches && Tracks(state.branches[branch], block.header.height, |txHashes|)
    }

    /** What the branch shows. */
    function Shown(): ChainState
      requires branch in state.branches
      reads state`branches
    {
      V.Visible(state.branches[branch])
    }

    /** Drives the executor over a new journal and writes its changes if it succeeds; None where the source panics. */
    method RunAndApply(e: Execution) returns (r: Option<seq<Log>>)
      requires state.Writable(branch)
      modifies state`branches
      ensures V.WroteOnly(old(state.branches), state.branches, branch)
      ensures r.Some? == FinalFrame(old(Shown()), e).Some?
      ensures r.Some? ==>
                var f := FinalFrame(old(Shown()), e).value;
                r.value == f.logs && Shown() == AfterRun(old(Shown()), e, f)
      ensures var end := Run(NEW_STACK, old(Shown()), e.ops);
              && r.Some? == (end.Some? && end.value.Root?)
              && (r.Some? ==>
                    && r.value == end.value.top.logs
                    && if e.success then Wrote(old(Shown()), end.value.top, Shown()) else Shown() == old(Shown()))
    {
      var st := Shown();
      var executor := new OvrStackState(st);
      V.WroteNothing(state.branches, branch);
      var ok := executor.Drive(e.ops);
      if !ok || executor.substate.parent != null {
        return None;
      }
      ghost var frame := executor.substate.Top();
      assert executor.substate.Layers() == Root(frame);
      var changes, logs := executor.substate.Deconstruct(st);
      var backend := new V.OvrBackend(state, branch);
      if e.success {
        ApplyIsFlush(frame, st, changes);
        FlushWrites(frame, st);
        backend.ApplyChanges(changes, false);
      } else {
        backend.ApplyChanges([], false);
      }
      r := Some(logs);
    }

    /** Runs the transaction and writes its changes if it succeeds; None where the source panics. */
    method Exec(tx: TransactionAny, addr: Address, price: U256) returns (r: Option<ExecRet>)
      requires state.Writable(branch)
      modifies state`branches
      ensures V.WroteOnly(old(state.branches), state.branches, branch)
      ensures var spec := PlainLedger.Exec(chain, old(Shown()), state.blockHashes, tx, addr, price);
              match r
              case None => spec.None?
              case Some(ret) => spec == Some((ret, Shown()))
      ensures RanAndWrote(chain.execute(tx, addr, old(Shown()), state.blockHashes), addr, price,
                          old(Shown()), r, Shown())
    {
      var e := chain.execute(tx, addr, Shown(), state.blockHashes);
      var logs := RunAndApply(e);
      if logs.None? || e.gasUsed * price > U256_MAX {
        return None;
      }
      r := Some(ExecRet(e.success, e.gasUsed, e.gasUsed * price, addr, e.contract, logs.value));
    }

    /** Deploys a contract of the genesis file; false where that fails, on which the source panics. */
    method InitialCreate2(contract: GenesisContract) returns (ok: bool)
      requires state.Writable(branch)
      modifies state`branches
      ensures V.WroteOnly(old(state.branches), state.branches, branch)
      ensures var spec := Deployed(chain, old(Shown()), contract);
              if ok then spec == Some(Shown()) else spec.None?
      ensures ok ==> Deploys(chain, old(Shown()), contract, Shown())
    {
      var e := chain.deploy(contract, Shown());
      var logs := RunAndApply(e);
      ok := logs.Some? && e.success;
    }

    /** False where the source finds no account and panics. */
    method ChargeFee(caller: Address, amount: U256) returns (ok: bool)
      requires state.Writable(branch)
      modifies state`branches
      ensures V.WroteOnly(old(state.branches), state.branches, branch)
      ensures var spec := PlainLedger.ChargeFee(old(Shown()), caller, amount);
              if ok then spec == Some(Shown()) else spec.None?
    {
      V.WroteNothing(state.branches, branch);
      if amount == 0 {
        return true;
      }
      if caller !in Shown().accounts {
        return false;
      }
      var account := Shown().accounts[caller];
      account := account.(balance := SaturatingSub(account.balance, amount));
      state.InsertAccount(caller, account, branch);
      ok := true;
    }

    /** A fresh version for the transaction about to run. */
    method OpenVersion()
      requires Tracked()
      modifies state`branches
      ensures branch in state.branches
      ensures var was := old(state.branches)[branch];
              state.branches == old(state.branches)[branch := Opened(was, branch, block.header.height, |txHashes|)]
      ensures Shown() == old(Shown())
    {
      var name := V.VsVersion(block.header.height, 1 + |txHashes|);
      NextNameIsFresh(state.branches[branch], branch, block.header.height, |txHashes|);
      var ok := state.CreateVersion(name, branch);
      assert ok;
      ShowsThroughNew(old(state.branches)[branch], V.Tag(branch, name));
    }

    /** Forgets the version of a failed transaction, whatever it wrote. */
    method DropVersion(ghost before: map<V.BranchName, V.Branch>, ghost opening: map<V.BranchName, V.Branch>)
      requires branch in before
      requires opening == before[branch := Opened(before[branch], branch, block.header.height, |txHashes|)]
      requires V.WroteOnly(opening, state.branches, branch)
      modifies state`branches
      ensures state.branches == before
    {
      var ok := state.PopVersion(branch);
      assert ok;
      assert state.branches[branch] == before[branch];
      assert state.branches == before;
    }

    /** A branch whose first transaction failed still needs a version to charge the fee in. */
    method EnsureVersion()
      requires Tracked()
      modifies state`branches
      ensures Tracked() && state.Writable(branch)
      ensures state.branches == old(state.branches)[branch := state.branches[branch]]
      ensures Shown() == old(Shown())
      ensures SameFork(old(state.branches)[branch], state.branches[branch])
      ensures old(state.branches)[branch].own != [] ==> state.branches == old(state.branches)
    {
      if state.branches[branch].own == [] {
        FirstNameIsFresh(state.branches[branch], branch, block.header.height, |txHashes|);
        var ok := state.CreateVersion(V.VsVersion(0, 0), branch);
        assert ok;
        ShowsThroughNew(old(state.branches)[branch], V.Tag(branch, V.VsVersion(0, 0)));
      } else {
        assert state.branches == state.branches[branch := state.branches[branch]];
      }
    }

    /** Adds a successful transaction, its receipt and its logs to the block in process. */
    method Record(tx: Tx, ret: ExecRet)
      requires tx.Evm?
      modifies this
      ensures InProcess() == Extended(chain, old(InProcess()), tx, ret)
    {
      var hash := chain.txHash(tx);
      txHashes := txHashes + [hash];
      var logs := GenLogs(ret.logs, hash);
      var receipt := Receipt(
        hash, |txHashes| - 1, chain.signer(tx.tx), tx.tx.to, 0, ret.gasUsed,
        if tx.tx.to.None? then Some(ret.contract) else None, ret.success, logs);
      block := block.(txs := block.txs + [tx],
                      header := block.header.(receipts := block.header.receipts[hash := receipt]));
    }

    /** The ledger's form of the logs, numbered within the transaction; `tx_index` is still zero here. */
    static method GenLogs(logs: seq<Log>, txHash: Hash) returns (v: seq<LedgerLog>)
      ensures v == NumberedLogs(logs, txHash)
    {
      v := [];
      for i := 0 to |logs|
        invariant |v| == i
        invariant forall j :: 0 <= j < i ==>
          v[j] == LedgerLog(logs[j].address, logs[j].topics, logs[j].data, txHash, 0, 0, 0, false)
      {
        v := v + [LedgerLog(logs[i].address, logs[i].topics, logs[i].data, txHash, 0, 0, 0, false)];
      }
      for i := 0 to |v|
        invariant |v| == |logs|
        invariant forall j :: 0 <= j < |v| ==>
          v[j] == LedgerLog(logs[j].address, logs[j].topics, logs[j].data, txHash, 0, 0, if j < i then j else 0, false)
      {
        v := v[i := v[i].(txIndex := 0, logIndexInTx := i)];
      }
    }

    /** Charges a successful run in the version it wrote; false where the source panics. */
    method SettleSuccess(ret: ExecRet, ghost before: map<V.BranchName, V.Branch>,
                         ghost opening: map<V.BranchName, V.Branch>)
      returns (ok: bool)
      requires branch in before && Tracks(before[branch], block.header.height, |txHashes|)
      requires V.WroteOnly(opening, state.branches, branch)
      requires opening == before[branch := Opened(before[branch], branch, block.header.height, |txHashes|)]
      modifies state`branches
      ensures branch in state.branches
      ensures var spec := PlainLedger.ChargeFee(old(Shown()), ret.caller, ret.feeUsed);
              if ok then spec == Some(Shown()) else spec.None?
      ensures KeptShape(branch, before, state.branches, block.header.height, |txHashes|, true)
    {
      ghost var written := state.branches;
      ok := ChargeFee(ret.caller, ret.feeUsed);
      V.WroteOnlyTransitive(opening, written, state.branches, branch);
      OneMoreVersion(before[branch], state.branches[branch], branch, block.header.height, |txHashes|);
      assert state.branches == before[branch := state.branches[branch]];
    }

    /** Gives the version of a failed run back and charges it in the one below; false where the source panics. */
    method SettleFailure(ret: ExecRet, ghost before: map<V.BranchName, V.Branch>,
                         ghost opening: map<V.BranchName, V.Branch>)
      returns (ok: bool)
      requires branch in before && Tracks(before[branch], block.header.height, |txHashes|)
      requires V.WroteOnly(opening, state.branches, branch)
      requires opening == before[branch := Opened(before[branch], branch, block.header.height, |txHashes|)]
      modifies state`branches
      ensures branch in state.branches
      ensures var spec := PlainLedger.ChargeFee(V.Visible(before[branch]), ret.caller, ret.feeUsed);
              if ok then spec == Some(Shown()) else spec.None?
      ensures KeptShape(branch, before, state.branches, block.header.height, |txHashes|, false)
    {
      DropVersion(before, opening);
      EnsureVersion();
      ghost var ready := state.branches;
      ok := ChargeFee(ret.caller, ret.feeUsed);
      RewriteKeepsTracks(ready[branch], state.branches[branch], block.header.height, |txHashes|);
      assert state.branches == before[branch := state.branches[branch]];
    }

    /**
     Takes one transaction. On this branch alone it does what the plain effect
     says; the versions grow by one exactly when the transaction succeeds, and
     no version is ever created twice or popped when missing.
     */
    method ApplyTx(tx: Tx) returns (r: Response)
      requires Tracked()
      modifies this, state`branches
      ensures TookTx(chain, state.blockHashes, branch, old(state.branches), state.branches,
                     old(InProcess()), InProcess(), tx, r)
    {
      ghost var before := state.branches;
      ghost var draft := InProcess();
      OpenVersion();
      ghost var opening := state.branches;
      V.WroteNothing(opening, branch);
      match tx {
        case Native(_) =>
          DropVersion(before, opening);
          RefusesUnrun(chain, state.blockHashes, branch, before, draft, tx);
          return Refused;
        case Evm(evm) =>
          var accepted := PreExec(chain, Shown(), evm);
          if accepted.None? {
            DropVersion(before, opening);
            RefusesUnrun(chain, state.blockHashes, branch, before, draft, tx);
            return Refused;
          }
          r := RunEvm(tx, accepted.value.0, accepted.value.1, before, opening);
      }
    }

    /** The rest of `apply_tx` for an accepted EVM transaction, whose version is already open. */
    method RunEvm(tx: Tx, addr: Address, price: U256,
                  ghost before: map<V.BranchName, V.Branch>, ghost opening: map<V.BranchName, V.Branch>)
      returns (r: Response)
      requires tx.Evm? && branch in before && Tracks(before[branch], block.header.height, |txHashes|)
      requires PreExec(chain, V.Visible(before[branch]), tx.tx) == Some((addr, price))
      requires opening == state.branches && V.WroteOnly(opening, opening, branch)
      requires opening == before[branch := Opened(before[branch], branch, block.header.height, |txHashes|)]
      requires V.Visible(opening[branch]) == V.Visible(before[branch])
      modifies this, state`branches
      ensures TookTx(chain, state.blockHashes, branch, before, state.branches, old(InProcess()), InProcess(), tx, r)
    {
      ghost var draft := InProcess();
      ghost var st := V.Visible(before[branch]);
      var ran := Exec(tx.tx, addr, price);
      if ran.None? {
        AbortsInExec(chain, state.blockHashes, branch, before, state.branches, draft, tx, addr, price);
        return Aborted;
      }
      ghost var written := Shown();
      assert PlainLedger.Exec(chain, st, state.blockHashes, tx.tx, addr, price) == Some((ran.value, written));
      var charged;
      if ran.value.success {
        charged := SettleSuccess(ran.value, before, opening);
        if charged {
          Record(tx, ran.value);
        }
      } else {
        charged := SettleFailure(ran.value, before, opening);
      }
      r := if !charged then Aborted else if ran.value.success then Accepted else Refused;
      Settles(chain, state.blockHashes, branch, before, state.branches, draft, tx, addr, price,
              ran.value, written, charged);
    }

    // ---------- the block in process ----------

    /** Starts the block after the last one, with a version of its own. False if the version's name is taken. */
    method PrepareNextBlock(proposer: Bytes, timestamp: nat) returns (ok: bool)
      modifies this, state`branches
      ensures InProcess() ==
              Draft([], NewBlock(1 + TipHeight(state.blocks), proposer, timestamp, LastHash(state.blocks)))
      ensures ok == (branch in old(state.branches) &&
                     V.Tag(branch, V.VsVersion(1 + TipHeight(state.blocks), 0)) !in
                       V.Tags(old(state.branches)[branch].base + old(state.branches)[branch].own))
      ensures state.branches ==
              if ok then
                var was := old(state.branches)[branch];
                old(state.branches)[branch := Prepared(was, branch, 1 + TipHeight(state.blocks))]
              else old(state.branches)
    {
      txHashes := [];
      block := NewBlock(1 + TipHeight(state.blocks), proposer, timestamp, LastHash(state.blocks));
      ok := state.CreateVersion(V.VsVersion(block.header.height, 0), branch);
    }

    static method HandleBloom(chain: Chain, b: Bloom, logs: seq<LedgerLog>) returns (r: Bloom)
      ensures r == b + LogsBits(chain, logs)
    {
      r := b;
      for i := 0 to |logs|
        invariant r == b + LogsBits(chain, logs[..i])
      {
        assert logs[..i + 1][..i] == logs[..i];
        r := r + chain.bloomBits(AddressInput(logs[i].address));
        var topics := logs[i].topics;
        for j := 0 to |topics|
          invariant r == b + LogsBits(chain, logs[..i]) + chain.bloomBits(AddressInput(logs[i].address)) +
                         TopicBits(chain, topics[..j])
        {
          assert topics[..j + 1][..j] == topics[..j];
          r := r + chain.bloomBits(TopicInput(topics[j]));
        }
        assert topics[..|topics|] == topics;
      }
      assert logs[..|logs|] == logs;
    }

    static method BlockGas(receipts: map<Hash, Receipt>) returns (gas: nat)
      ensures gas == Sum(GasOf(receipts))
    {
      gas := 0;
      var rest := receipts;
      while rest != map[]
        invariant gas + Sum(GasOf(rest)) == Sum(GasOf(receipts))
        decreases |rest|
      {
        var h :| h in rest;
        gas := gas + rest[h].txGasUsed;
        SumRemove(GasOf(rest), h);
        assert GasOf(rest - {h}) == GasOf(rest) - {h};
        rest := rest - {h};
      }
    }

    /** Gives each receipt the block's gas and gathers its logs in the bloom. */
    static method FinishReceipts(chain: Chain, receipts: map<Hash, Receipt>, hashes: seq<Hash>, gas: nat, bloom: Bloom)
      returns (done: map<Hash, Receipt>, b: Bloom)
      ensures done == Priced(receipts, hashes, gas)
      ensures b == bloom + ReceiptsBits(chain, receipts, hashes)
    {
      done, b := receipts, bloom;
      assert Priced(receipts, hashes[..0], gas) == receipts;
      for i := 0 to |hashes|
        invariant done == Priced(receipts, hashes[..i], gas)
        invariant b == bloom + ReceiptsBits(chain, receipts, hashes[..i])
      {
        var h := hashes[i];
        PricedMore(receipts, hashes, i, gas);
        ReceiptsBitsMore(chain, receipts, hashes, i);
        if h in done {
          b := HandleBloom(chain, b, done[h].logs);
          done := done[h := done[h].(blockGasUsed := gas)];
        }
      }
      assert hashes[..|hashes|] == hashes;
    }

    /** Closes the block in process and appends it to the chain. */
    method CommitBlock()
      modifies this, state`blocks, state`blockHashes
      ensures var closed := Closed(chain, old(InProcess()));
              && state.blocks == old(state.blocks)[closed.header.height := closed]
              && state.blockHashes == old(state.blockHashes)[closed.header.height := chain.toEvm(closed.headerHash)]
      ensures InProcess() == Draft(old(txHashes) + [chain.emptyHash], DEFAULT_BLOCK)
    {
      txHashes := txHashes + [chain.emptyHash];
      block := block.(header := block.header.(merkleRoot := chain.merkleRoot(txHashes)));
      var gas := BlockGas(block.header.receipts);
      var receipts, bloom := FinishReceipts(chain, block.header.receipts, txHashes, gas, block.bloom);
      block := block.(header := block.header.(receipts := receipts), bloom := bloom);
      block := block.(headerHash := chain.headerHash(block.header));
      var closing := block;
      block := DEFAULT_BLOCK;
      state.blockHashes := state.blockHashes[closing.header.height := chain.toEvm(closing.headerHash)];
      state.blocks := state.blocks[closing.header.height := closing];
    }
  }

  lemma PricedMore(receipts: map<Hash, Receipt>, hashes: seq<Hash>, i: nat, gas: nat)
    requires i < |hashes|
    ensures var h, done := hashes[i], Priced(receipts, hashes[..i], gas);
            && done.Keys == receipts.Keys
            && (h in done ==> done[h].logs == receipts[h].logs)
            && Priced(receipts, hashes[..i + 1], gas) ==
               if h in done then done[h := done[h].(blockGasUsed := gas)] else done
  {
    assert hashes[..i + 1] == hashes[..i] + [hashes[i]];
  }

  lemma ReceiptsBitsMore(chain: Chain, receipts: map<Hash, Receipt>, hashes: seq<Hash>, i: nat)
    requires i < |hashes|
    ensures ReceiptsBits(chain, receipts, hashes[..i + 1]) ==
            ReceiptsBits(chain, receipts, hashes[..i]) +
            if hashes[i] in receipts then LogsBits(chain, receipts[hashes[i]].logs) else {}
  {
    assert hashes[..i + 1][..i] == hashes[..i];
  }

  /** What a run returns and leaves, or where it panics, told from its calls. */
  ghost predicate RanAndWrote(e: Execution, addr: Address, price: U256, before: ChainState,
                              r: Option<ExecRet>, after: ChainState) {
    var end := Run(NEW_STACK, before, e.ops);
    && r.Some? == (end.Some? && end.value.Root? && e.gasUsed * price <= U256_MAX)
    && (r.Some? ==>
          && r.value == ExecRet(e.success, e.gasUsed, e.gasUsed * price, addr, e.contract, end.value.top.logs)
          && if e.success then Wrote(before, end.value.top, after) else after == before)
  }

  /**
   The branch store kept its shape while `b` took a transaction: one more
   version if it was accepted, the same versions if not.
   */
  predicate KeptShape(b: V.BranchName, before: map<V.BranchName, V.Branch>, after: map<V.BranchName, V.Branch>,
                      height: nat, n: nat, accepted: bool) {
    && b in before && b in after
    && after == before[b := after[b]]
    && SameFork(before[b], after[b])
    && Tracks(after[b], height, if accepted then n + 1 else n)
    && (accepted ==> V.Tags(after[b].own) == V.Tags(before[b].own) + [V.Tag(b, V.VsVersion(height, 1 + n))])
    && (!accepted && before[b].own != [] ==> V.Tags(after[b].own) == V.Tags(before[b].own))
  }

  /** What taking a transaction does to a branch and its block in process, and to nothing else. */
  predicate TookTx(chain: Chain, hashes: map<nat, H256>, b: V.BranchName,
                   before: map<V.BranchName, V.Branch>, after: map<V.BranchName, V.Branch>,
                   draft: Draft, draft': Draft, tx: Tx, r: Response) {
    && b in before
    && var st := V.Visible(before[b]);
       var effect := Effect(chain, st, hashes, tx);
    && (r == Aborted <==> effect.Panicked?)
    && (r == Accepted <==> effect.Succeeded?)
    && (r != Aborted ==>
          && KeptShape(b, before, after, draft.block.header.height, |draft.hashes|, r == Accepted)
          && V.Visible(after[b]) == StateAfter(st, effect)
          && draft' == DraftAfter(chain, draft, tx, effect))
  }

  lemma RefusesUnrun(chain: Chain, hashes: map<nat, H256>, b: V.BranchName, before: map<V.BranchName, V.Branch>,
                     draft: Draft, tx: Tx)
    requires b in before && Tracks(before[b], draft.block.header.height, |draft.hashes|)
    requires tx.Evm? ==> PreExec(chain, V.Visible(before[b]), tx.tx).None?
    ensures TookTx(chain, hashes, b, before, before, draft, draft, tx, Refused)
  {
  }

  lemma AbortsInExec(chain: Chain, hashes: map<nat, H256>, b: V.BranchName,
                     before: map<V.BranchName, V.Branch>, after: map<V.BranchName, V.Branch>,
                     draft: Draft, tx: Tx, addr: Address, price: U256)
    requires tx.Evm? && b in before
    requires PreExec(chain, V.Visible(before[b]), tx.tx) == Some((addr, price))
    requires Exec(chain, V.Visible(before[b]), hashes, tx.tx, addr, price).None?
    ensures TookTx(chain, hashes, b, before, after, draft, draft, tx, Aborted)
  {
  }

  lemma Settles(chain: Chain, hashes: map<nat, H256>, b: V.BranchName,
                before: map<V.BranchName, V.Branch>, after: map<V.BranchName, V.Branch>,
                draft: Draft, tx: Tx, addr: Address, price: U256, ret: ExecRet, written: ChainState, charged: bool)
    requires tx.Evm? && b in before && b in after
    requires PreExec(chain, V.Visible(before[b]), tx.tx) == Some((addr, price))
    requires Exec(chain, V.Visible(before[b]), hashes, tx.tx, addr, price) == Some((ret, written))
    requires if charged then ChargeFee(written, ret.caller, ret.feeUsed) == Some(V.Visible(after[b]))
             else ChargeFee(written, ret.caller, ret.feeUsed).None?
    requires KeptShape(b, before, after, draft.block.header.height, |draft.hashes|, ret.success)
    ensures TookTx(chain, hashes, b, before, after, draft,
                   if charged && ret.success then Extended(chain, draft, tx, ret) else draft, tx,
                   if !charged then Aborted else if ret.success then Accepted else Refused)
  {
  }
}
