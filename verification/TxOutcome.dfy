/**
 The whole outcome of a transaction: which of the four ways it goes, and what a
 successful one leaves in the state, told from the executor's calls alone.
 */
module TxOutcome {
  import opened Wrappers
  import opened EvmTypes
  import opened Journal
  import opened JournalRefinement
  import opened Flush
  import opened EndToEnd
  import opened ChainTypes
  import opened PlainLedger
  import opened TxProperties

  /** The run of a transaction whose signature recovers. */
  function RunOfTx(chain: Chain, st: ChainState, hashes: map<nat, H256>, tx: TransactionAny): Execution
    requires chain.signer(tx).Some?
  {
    chain.execute(tx, chain.signer(tx).value, st, hashes)
  }

  /** The run comes back to the root, its fee fits 256 bits, and a positive fee finds its caller. */
  predicate Chargeable(st: ChainState, e: Execution, caller: Address, price: U256) {
    var end := Run(NEW_STACK, st, e.ops);
    && end.Some? && end.value.Root?
    && e.gasUsed * price <= U256_MAX
    && (e.success && e.gasUsed * price != 0 ==> caller !in end.value.top.deletes)
  }

  /**
   A transaction is rejected exactly when it is native or not covered; a covered
   one panics exactly when it is not chargeable, and otherwise succeeds or fails
   as the executor says.
   */
  lemma FourOutcomes(chain: Chain, st: ChainState, hashes: map<nat, H256>, tx: Tx)
    ensures var effect := Effect(chain, st, hashes, tx);
            && (effect.Rejected? <==> tx.Native? || !Covered(chain, st, tx.tx))
            && (tx.Evm? && Covered(chain, st, tx.tx) ==>
                  var e := RunOfTx(chain, st, hashes, tx.tx);
                  var fine := Chargeable(st, e, chain.signer(tx.tx).value, PriceOf(tx.tx));
                  && (effect.Panicked? <==> !fine)
                  && (effect.Succeeded? <==> fine && e.success)
                  && (effect.Failed? <==> fine && !e.success))
  {
    if tx.Evm? {
      RunsExactlyWhenCovered(chain, st, tx.tx);
      if Covered(chain, st, tx.tx) {
        PanicsExactlyWhen(chain, st, hashes, tx.tx, chain.signer(tx.tx).value, PriceOf(tx.tx));
      }
    }
  }

  /** As `Wrote`, with the caller poorer by the fee. */
  ghost predicate WroteAndCharged(before: ChainState, g: Frame, after: ChainState, caller: Address, fee: nat) {
    && (forall a: Address :: a in g.deletes ==> a !in after.accounts)
    && (forall a: Address :: a !in g.deletes && a != caller ==> after.Account(a) == ViewAt(Root(g), before, a))
    && (caller !in g.deletes ==>
          var seen := ViewAt(Root(g), before, caller);
          after.Account(caller) == seen.(balance := LessFee(seen.balance, fee)))
    && (forall a: Address :: a !in g.deletes && Exists(Root(g), before, a) ==> a in after.accounts)
    && (forall slot: Slot :: slot.address in g.deletes || Cleared(g, before, slot) ==>
          after.Storage(slot) == before.Storage(slot))
    && (forall slot: Slot :: slot.address !in g.deletes && !Cleared(g, before, slot) ==>
          after.Storage(slot) == StorageOf(Root(g), before, slot))
  }

  lemma ChargingAfterWriting(before: ChainState, g: Frame, written: ChainState, caller: Address, fee: U256)
    requires Wrote(before, g, written) && ChargeFee(written, caller, fee).Some?
    ensures WroteAndCharged(before, g, ChargeFee(written, caller, fee).value, caller, fee)
  {
    ChargeOnlyCharges(written, caller, fee);
    var after := ChargeFee(written, caller, fee).value;
    assert after.accounts.Keys == written.accounts.Keys && after.storages == written.storages;
  }

  /**
   A successful transaction leaves what its run showed at the end: every surviving
   account and slot as the journal read them, less the fee at the caller, and the
   run's logs in its receipt.
   */
  lemma SuccessWritesItsRun(chain: Chain, st: ChainState, hashes: map<nat, H256>, tx: TransactionAny, draft: Draft)
    requires Effect(chain, st, hashes, Evm(tx)).Succeeded?
    ensures chain.signer(tx).Some?
    ensures var e, caller := RunOfTx(chain, st, hashes, tx), chain.signer(tx).value;
            var end := Run(NEW_STACK, st, e.ops);
            var effect := Effect(chain, st, hashes, Evm(tx));
            && end.Some? && end.value.Root?
            && WroteAndCharged(st, end.value.top, StateAfter(st, effect), caller, e.gasUsed * PriceOf(tx))
            && OneMoreEntry(chain, draft, DraftAfter(chain, draft, Evm(tx), effect), Evm(tx), e, end.value.top.logs)
  {
    RunsExactlyWhenCovered(chain, st, tx);
    TransactionsAreAtomic(chain, st, hashes, Evm(tx), draft);
    var caller := chain.signer(tx).value;
    var e := RunOfTx(chain, st, hashes, tx);
    var g := Run(NEW_STACK, st, e.ops).value.top;
    assert Exec(chain, st, hashes, tx, caller, PriceOf(tx)).value.1 == Flushed(g, st);
    FlushWrites(g, st);
    ChargingAfterWriting(st, g, Flushed(g, st), caller, e.gasUsed * PriceOf(tx));
  }

  /**
   For a run whose commits are harmless that is the final world of the machine
   that copies the whole world on every `enter`, but for the cleared words.
   */
  lemma SuccessIsFinalWorld(chain: Chain, st: ChainState, hashes: map<nat, H256>, tx: TransactionAny,
                            a: Address, slot: Slot)
    requires Effect(chain, st, hashes, Evm(tx)).Succeeded? && chain.signer(tx).Some?
    requires CommitsHarmlessly(NEW_STACK, st, RunOfTx(chain, st, hashes, tx).ops)
    ensures CopyRun(Only(WorldOf(st)), RunOfTx(chain, st, hashes, tx).ops).Some?
    ensures var e, caller := RunOfTx(chain, st, hashes, tx), chain.signer(tx).value;
            var w := CopyRun(Only(WorldOf(st)), e.ops).value.top;
            var after := StateAfter(st, Effect(chain, st, hashes, Evm(tx)));
            && (a in w.deleted ==> a !in after.accounts)
            && (a !in w.deleted && a != caller ==> after.Account(a) == w.Account(a))
            && (caller !in w.deleted ==>
                  after.Account(caller) ==
                  w.Account(caller).(balance := LessFee(w.Account(caller).balance, e.gasUsed * PriceOf(tx))))
            && (slot.address !in w.deleted ==>
                  (after.Storage(slot) == w.Storage(slot) <==>
                   !(w.Storage(slot) == 0 && st.Storage(slot) != 0 && slot.address !in w.wiped)))
  {
    var e, caller := RunOfTx(chain, st, hashes, tx), chain.signer(tx).value;
    var after := StateAfter(st, Effect(chain, st, hashes, Evm(tx)));
    SuccessWritesItsRun(chain, st, hashes, tx, Draft([], DEFAULT_BLOCK));
    var g := Run(NEW_STACK, st, e.ops).value.top;
    WrittenWords(st, e.ops, g, after, caller, e.gasUsed * PriceOf(tx), slot);
    WrittenAccount(st, e.ops, g, after, caller, e.gasUsed * PriceOf(tx), a);
    WrittenAccount(st, e.ops, g, after, caller, e.gasUsed * PriceOf(tx), caller);
  }

  lemma WrittenWords(st: ChainState, ops: seq<Op>, g: Frame, after: ChainState, caller: Address, fee: nat, slot: Slot)
    requires CommitsHarmlessly(NEW_STACK, st, ops) && Run(NEW_STACK, st, ops) == Some(Root(g))
    requires WroteAndCharged(st, g, after, caller, fee)
    ensures CopyRun(Only(WorldOf(st)), ops).Some?
    ensures var w := CopyRun(Only(WorldOf(st)), ops).value.top;
            slot.address !in w.deleted ==>
              (after.Storage(slot) == w.Storage(slot) <==>
               !(w.Storage(slot) == 0 && st.Storage(slot) != 0 && slot.address !in w.wiped))
  {
    WrittenBackendIsFinalWorld(st, ops, g, slot.address, slot);
    FlushWrites(g, st);
    FinalDeletions(st, ops, g, slot.address);
    assert slot.address !in g.deletes ==> after.Storage(slot) == Flushed(g, st).Storage(slot);
  }

  lemma WrittenAccount(st: ChainState, ops: seq<Op>, g: Frame, after: ChainState, caller: Address, fee: nat, a: Address)
    requires CommitsHarmlessly(NEW_STACK, st, ops) && Run(NEW_STACK, st, ops) == Some(Root(g))
    requires WroteAndCharged(st, g, after, caller, fee)
    ensures CopyRun(Only(WorldOf(st)), ops).Some?
    ensures var w := CopyRun(Only(WorldOf(st)), ops).value.top;
            && (a in w.deleted ==> a !in after.accounts)
            && (a !in w.deleted ==>
                  after.Account(a) ==
                  w.Account(a).(balance := if a == caller then LessFee(w.Account(a).balance, fee)
                                           else w.Account(a).balance))
  {
    WrittenBackendIsFinalWorld(st, ops, g, a, Slot(a, 0));
    FlushWrites(g, st);
    FinalDeletions(st, ops, g, a);
  }

  /** The final world has deleted what the final frame has. */
  lemma FinalDeletions(st: ChainState, ops: seq<Op>, g: Frame, a: Address)
    requires CommitsHarmlessly(NEW_STACK, st, ops) && Run(NEW_STACK, st, ops) == Some(Root(g))
    ensures CopyRun(Only(WorldOf(st)), ops).Some?
    ensures a in CopyRun(Only(WorldOf(st)), ops).value.top.deleted <==> a in g.deletes
  {
    JournalRefinesCopying(st, ops);
    EndsAgree(NEW_STACK, Only(WorldOf(st)), st, ops);
    assert AccountReadAgrees(Root(g), CopyRun(Only(WorldOf(st)), ops).value.top, st, a);
  }
}
