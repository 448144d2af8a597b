# A verified model of the OVR ledger and its EVM journal

OVR runs Ethereum transactions on a Tendermint chain. This project models the
parts of it that carry state and proves what they keep:

- **The journal of one EVM run** (`Journal`, `Substate`, `Flush`): a stack of
  partial overlays with reset flags, merged or dropped on leaving a frame, turned
  into a change list and written to a backend. The executor is any finite sequence
  of the calls it may make, so every theorem covers every contract.
- **The copying machine** (`JournalRefinement`, `EndToEnd`): the reference that
  copies the whole world at each `enter`. The journal is indistinguishable from it
  *if and only if* no commit uncovers a word that a forgotten reset was hiding.
- **The ledger as an ABCI application** (`VersionStore`, `StateBranches`,
  `Ledgers`): three branches of named versions under `BeginBlock`, `DeliverTx`,
  `CheckTx`, `Commit` and a restart. Each handler is proved to move the *plain
  ledger* (`PlainLedger`: committed state and a block being filled, with no branch
  or version anywhere) by exactly one step, and no branch or version operation
  ever meets a missing or duplicate name. A version is known by its name and the
  branch it was created on: on that reading the merge meets no version Main
  already holds, and Main's versions stay pairwise distinct. (By name alone they
  would not: Main and DeliverTx each create (h,0) for every block.)
- **What a transaction leaves** (`TxOutcome`, `GenesisState`): which of four ways it
  goes, exactly, and the state and receipt of a success told from the executor's
  calls alone; the same for the contracts a genesis file deploys.
- **What follows for whole runs** (`SerialLedger`, `TxProperties`,
  `ChainProperties`): serial equivalence, restart, atomicity, fees, supply, chain
  shape, headers, receipts and blooms, no replay.
- **Three smaller cores**: the bloom-accelerated log query (`LogSearch`), the
  ERC-20 test contract (`Token`), the packing of binaries (`Pack`).

Verify with `dafny verify dfyconfig.toml`.

## What comes from outside

`ChainTypes.Chain` holds what the ledger takes from elsewhere: signature recovery,
hashes, the Merkle root, the bit positions of a bloom entry, and the executor. The
executor is a function of the transaction, its signer, the state it reads and the
block hashes; it returns the journal calls it makes, the gas it used and its
verdict. Hypotheses are asked only of the runs a theorem is about, each in the
state where it was made, never of the executor at large:

- `TxProperties.Honest`: the run ends where it began, stays within the gas limit,
  and if it succeeds leaves its caller in place. `KeepsCallerSolvent`: it lowers
  its caller's balance by no more than the value sent. `Sparing`: it neither resets
  a balance nor deletes an account. `Raises`: if it succeeds it raises the nonce of
  a caller it does not delete.
- `ChainProperties.CollisionFree`: no two transactions of the block share a hash.
- `LogSearch.BloomsAreSound`: a bloom over a log passes every filter the log passes,
  for the RPC library's matchers, with the bloom as in section 4.3.1 of the Ethereum
  Yellow Paper (Berlin version).

A panic of the source is the result `None`, `Aborted` or `ok == false`; nothing is
claimed of the state after one.

## What the proofs found

- A commit replaces the parent's record by the child's copy, whose reset flag
  `account_mut` has cleared. A contract that resets its storage and then calls a
  frame that merely touches it sees its old words again
  (`TouchedResetComesBack`). `IndistinguishableIffHarmless` gives the exact
  condition, and `DisciplinedRunsAreFaithful` a discipline that rules it out: reset
  only addresses that own no nonzero word beneath the current frame.
- Writing zero to a stored nonzero word is not written through
  (`ClearedWordSurvives`); `WrittenBackendIsFinalWorld` shows this is the only way
  the flushed storage of a surviving address differs from the final world.
- A deleted address keeps its stored words (`FlushKeepsStorage`).
- A replay needs a deletion. A recorded transaction's nonce stays spent if and only
  if no later run deletes its signer (`SpentIffSignerSpared`); after such a deletion
  it can be recorded again (`ReplayAfterDeletion`).
- A transaction can panic the node: exactly when its run panics or does not come back
  to the root, when the fee passes 256 bits, or when a positive fee finds that the
  run deleted the caller (`PanicsExactlyWhen`).
- Genesis accepts balances that sum above 2^256. Then a credit may be clipped and
  the value lost (`FullAccountsSwallowTransfers`); the supply theorems hold there
  too, with a term for what was clipped.
- `is_empty` may miss an account that reads as empty (`IsEmptyIsOneSided`), so it is
  not among the reads compared with the copying machine.
- The comments on `pre_exec` speak of a nonce bigger than the last and of
  deducting the gas limit; the code asks for equality and deducts nothing there.
  The comment on `prepare_next_block` says it runs on Main only; it runs on all
  three branches. The model follows the code.
- `add_logs` runs before the receipt's index is set, so every log keeps transaction
  index zero (`StateBranches.StateBranch.GenLogs`).

## Model

| member | source | states |
|---|---|---|
| `Journal.ViewIsReads` | src/ethvm/impls/stack.rs:473-490 | The accounts a stack shows are exactly those that exist for a reader, with the balance, nonce and code it reads. |
| `Journal.IsEmptyIsOneSided` | src/ethvm/impls/stack.rs:541-549 | `is_empty` never calls a non-empty account empty, and the one case in which it misses an empty one. |
| `JournalRefinement.CommitIsExact` | src/ethvm/impls/stack.rs:137-165 | After a commit every account, emptiness, deletion and log query answers as the child did; a storage query does if and only if no forgotten reset uncovers it. |
| `JournalRefinement.StorageAfterCommit` | src/ethvm/impls/stack.rs:144-162 | What storage and original-storage queries answer after a commit, in every case. |
| `JournalRefinement.HarmlessStep` | src/ethvm/impls/stack.rs:281-413 | Every call keeps all levels of the journal in agreement with the copied worlds, and transfers succeed on both sides or on neither. |
| `JournalRefinement.CommitStep` | src/ethvm/impls/stack.rs:137-165 | A commit keeps all reads in agreement with the copying machine exactly when it is harmless. |
| `JournalRefinement.IndistinguishableIffHarmless` | src/ethvm/impls/stack.rs:122-413 | For every run from agreeing states: indistinguishable after every prefix if and only if every commit in it is harmless. |
| `JournalRefinement.JournalRefinesCopying` | src/ethvm/impls/stack.rs:612-622 | The same from a new stack over any backend. |
| `JournalRefinement.DisciplinedRunsAreFaithful` | src/ethvm/impls/stack.rs:321-336 | Runs that reset storage only where nothing nonzero lies beneath are faithful to the copying machine. |
| `JournalRefinement.TouchedResetComesBack` | src/ethvm/impls/stack.rs:292-309 | The run reset, enter, touch, commit brings a stored word back. |
| `JournalInvariants.RevertRestoresEveryFrame` | src/ethvm/impls/stack.rs:167-179 | From `enter` to its matching revert or discard, whatever happens in between, every enclosing frame is left as it was. |
| `JournalInvariants.RunKeepsAncestor` | src/ethvm/impls/stack.rs:122-179 | A run that stays above a frame never changes it or the ones below. |
| `JournalInvariants.TransferConserves` | src/ethvm/impls/stack.rs:362-377 | A transfer, to oneself or failed included, keeps the total but for what `saturating_add` clips. |
| `JournalInvariants.TransferNeverClips` | src/ethvm/impls/stack.rs:374-374 | With the supply below 2^256 nothing is ever clipped. |
| `JournalInvariants.FullAccountsSwallowTransfers` | src/ethvm/impls/stack.rs:374-374 | Above it, a transfer to a full account is lost in full. |
| `JournalInvariants.CurrencyIsConserved` | src/ethvm/impls/stack.rs:362-408 | Over any run over any backend, what the stack shows plus what surviving balance resets burned and surviving transfers clipped is what the backend held; nothing is clipped below 2^256. |
| `JournalInvariants.RunKeepsNonce` | src/ethvm/impls/stack.rs:311-314 | No run lowers the nonce shown at any level. |
| `Flush.ListedOnce` | src/ethvm/impls/stack.rs:69-120 | Each touched or deleted address appears in exactly one change, a deletion just for the deleted. |
| `Flush.ApplyIsFlush` | src/ethvm/impls/backend.rs:122-177 | Every change list of a frame, in any order, writes the same backend. |
| `Flush.FlushKeepsAccounts` | src/ethvm/impls/backend.rs:137-175 | The written backend has the balance, nonce and code the root frame showed, no deleted account, and existence up to addresses whose slots alone were written. |
| `Flush.FlushKeepsStorage` | src/ethvm/impls/backend.rs:148-156 | A surviving slot reads the same if and only if it was not a zero over a stored nonzero word without reset; deleted addresses keep their words. |
| `Flush.FlushedSupply` | src/ethvm/impls/backend.rs:173-175 | Writing loses exactly the balances of deleted accounts. |
| `Flush.FlushWrites` | src/ethvm/impls/backend.rs:122-177 | The written backend reads as the root frame at every surviving account and slot but the cleared ones, drops the deleted accounts and keeps their words. |
| `Flush.EmptyAccountsAreDropped` | src/ethvm/impls/backend.rs:137-175 | A change sets balance, nonce and code, and leaves no account behind exactly when it was asked to drop empty ones and this one is empty. |
| `EndToEnd.WrittenBackendIsFinalWorld` | src/ethvm/tx/mod.rs:196-207 | After a harmless run the written backend is the final world of the copying machine, up to nonzero words set to zero. |
| `EndToEnd.ClearedWordSurvives` | src/ethvm/impls/backend.rs:152-156 | A stored word set to zero is still there after the flush. |
| `Substate.OvrStackSubstate.Enter` | src/ethvm/impls/stack.rs:122-135 | The contents move into a boxed parent and an empty frame is on top. |
| `Substate.OvrStackSubstate.Leave` | src/ethvm/impls/stack.rs:138-139 | The parent's contents come back into the object; the child's are handed out. |
| `Substate.OvrStackSubstate.ExitCommit` | src/ethvm/impls/stack.rs:137-165 | The loops over resets and slots leave the child merged over its parent. |
| `Substate.OvrStackSubstate.ExitRevert` | src/ethvm/impls/stack.rs:167-172 | The parent chain is left as it was. |
| `Substate.OvrStackSubstate.ExitDiscard` | src/ethvm/impls/stack.rs:174-179 | The parent chain is left as it was. |
| `Substate.OvrStackSubstate.KnownAccount` | src/ethvm/impls/stack.rs:181-190 | The recursive query over the boxed chain is the query of the abstract stack. |
| `Substate.OvrStackSubstate.KnownStorage` | src/ethvm/impls/stack.rs:222-236 | The same for storage. |
| `Substate.OvrStackSubstate.KnownOriginalStorage` | src/ethvm/impls/stack.rs:238-253 | The same for original storage. |
| `Substate.OvrStackSubstate.Deleted` | src/ethvm/impls/stack.rs:281-290 | The same for deletion. |
| `Substate.OvrStackSubstate.AccountMut` | src/ethvm/impls/stack.rs:292-309 | Hands out a record of the top frame, copied from below with its reset cleared or made from the backend. |
| `Substate.OvrStackSubstate.IncNonce` | src/ethvm/impls/stack.rs:311-314 | Raises the nonce by one, or panics at the largest. |
| `Substate.OvrStackSubstate.SetStorage` | src/ethvm/impls/stack.rs:316-319 | Sets one slot of the top frame. |
| `Substate.OvrStackSubstate.ResetStorage` | src/ethvm/impls/stack.rs:321-336 | Drops the top frame's slots of the address and marks its record reset. |
| `Substate.OvrStackSubstate.EmitLog` | src/ethvm/impls/stack.rs:338-345 | Appends one log to the top frame. |
| `Substate.OvrStackSubstate.SetDeleted` | src/ethvm/impls/stack.rs:347-350 | Marks one address deleted in the top frame. |
| `Substate.OvrStackSubstate.SetCode` | src/ethvm/impls/stack.rs:352-360 | Sets the code of the record. |
| `Substate.OvrStackSubstate.Transfer` | src/ethvm/impls/stack.rs:362-377 | Moves the value if the source can pay, and records the source either way. |
| `Substate.OvrStackSubstate.ResetBalance` | src/ethvm/impls/stack.rs:405-408 | Zeroes the balance of the record. |
| `Substate.OvrStackSubstate.Touch` | src/ethvm/impls/stack.rs:410-413 | Makes a record and changes nothing it says. |
| `Substate.OvrStackSubstate.Deconstruct` | src/ethvm/impls/stack.rs:69-120 | Yields a change list of the root frame, and its logs. |
| `Substate.OvrStackState.Storage` | src/ethvm/impls/stack.rs:492-497 | Storage with backend fallback, as the abstract stack reads it. |
| `Substate.OvrStackState.Code` | src/ethvm/impls/stack.rs:485-490 | Code with backend fallback. |
| `Substate.OvrStackState.Basic` | src/ethvm/impls/stack.rs:478-483 | Balance and nonce with backend fallback. |
| `Substate.OvrStackSubstate.KnownEmpty` | src/ethvm/impls/stack.rs:202-220 | Emptiness as far as the overlays know it, as the abstract stack answers. |
| `Substate.OvrStackState.Exists` | src/ethvm/impls/stack.rs:473-476 | Existence with backend fallback. |
| `Substate.OvrStackState.OriginalStorage` | src/ethvm/impls/stack.rs:499-505 | Original storage with backend fallback. |
| `Substate.OvrStackState.IsEmpty` | src/ethvm/impls/stack.rs:541-549 | Emptiness with backend fallback. |
| `Substate.OvrStackState.Drive` | src/ethvm/impls/stack.rs:508-610 | Any sequence of executor calls takes the chain of substates where the abstract run ends. |
| `VersionStore.OvrBackend.ApplyChanges` | src/ethvm/impls/backend.rs:122-183 | Writing a change list through the branch store changes what the branch shows as the plain write does, in its newest version only. |
| `VersionStore.OvrBackend.InsertWords` | src/ethvm/impls/backend.rs:152-156 | Only nonzero words are written. |
| `VersionStore.State.InsertAccount` | src/ledger/mod.rs:403-414 | A write shows on its branch and touches only that branch's newest version. |
| `VersionStore.State.MergeToParent` | src/ledger/mod.rs:165-168 | The branch's versions go on top of its parent's and the branch disappears; refused if the parent already holds one of them. |
| `VersionNames.MergeShows` | src/ledger/mod.rs:156-171 | Merging DeliverTx over a Main that wrote nothing since the fork shows exactly what DeliverTx showed. |
| `VersionNames.NextNameIsFresh` | src/ledger/mod.rs:265-271 | The name of the next transaction's version is never taken. |
| `VersionNames.BlockNameIsFresh` | src/ledger/mod.rs:233-236 | The name of the next block's version is never taken on Main. |
| `VersionNames.BlockNameTellsBegun` | src/ledger/mod.rs:245-257 | That name exists on Main exactly when the block was begun and not committed. |
| `VersionNames.MergeMeetsNoClash` | src/ledger/mod.rs:156-171 | None of the versions DeliverTx brings to the merge is on Main already. |
| `VersionNames.MergeKeepsDistinct` | src/ledger/mod.rs:143-168 | Main's versions stay pairwise distinct through the merge. |
| `StateBranches.StateBranch.RunAndApply` | src/ethvm/tx/mod.rs:99-207 | If the run succeeds the branch shows every surviving account and slot as the run left it (but for cleared words) and the logs are the final frame's; if it fails nothing changes and the logs are empty; it panics exactly when the run does not come back to the root. |
| `StateBranches.StateBranch.InitialCreate2` | src/ethvm/tx/mod.rs:493-543 | A successful deployment leaves what its run showed at the end; it panics if the run fails or does not come back to the root. |
| `StateBranches.StateBranch.Exec` | src/ethvm/tx/mod.rs:91-219 | Runs the executor on the branch: the returned gas, verdict and logs are the run's, and a success writes what the run showed, but for cleared words. |
| `StateBranches.StateBranch.ChargeFee` | src/ledger/mod.rs:403-414 | Deducts the fee, saturating, from an account that must exist if the fee is positive. |
| `StateBranches.StateBranch.OpenVersion` | src/ledger/mod.rs:265-271 | Creates the transaction's version, which never fails and shows nothing new. |
| `StateBranches.StateBranch.DropVersion` | src/ledger/mod.rs:306-306 | Popping it restores the branch store exactly. |
| `StateBranches.StateBranch.EnsureVersion` | src/ledger/mod.rs:275-286 | A branch left without a version gets one to charge the fee in. |
| `StateBranches.StateBranch.Record` | src/ledger/mod.rs:291-304 | Adds hash, transaction, receipt and logs of a success in step. |
| `StateBranches.StateBranch.GenLogs` | src/ledger/mod.rs:631-638 | The logs of a receipt, numbered from zero within the transaction. |
| `StateBranches.StateBranch.ApplyTx` | src/ledger/mod.rs:261-331 | Takes a transaction as the plain effect says, on one branch alone; versions grow by one exactly on success. |
| `StateBranches.StateBranch.PrepareNextBlock` | src/ledger/mod.rs:221-243 | Starts the block after the last, linked to its hash, with a version of its own. |
| `StateBranches.StateBranch.HandleBloom` | src/common/mod.rs:171-178 | Adds the bits of every address and topic of the logs. |
| `StateBranches.StateBranch.BlockGas` | src/ledger/mod.rs:351-359 | The sum of the gas of all receipts. |
| `StateBranches.StateBranch.FinishReceipts` | src/ledger/mod.rs:360-366 | Every receipt filed under a listed hash gets the block's gas, and its logs enter the bloom. |
| `StateBranches.StateBranch.CommitBlock` | src/ledger/mod.rs:335-382 | Closes the block, hashes its header and appends block and hash to the chain. |
| `Ledgers.Ledger.constructor` | src/ledger/mod.rs:50-100 | A new chain has three branches and an empty ledger. |
| `Ledgers.Ledger.InitChain` | src/consensus/mod.rs:97-123 | The ledger shows the genesis balances, and over them each genesis contract as its own run left it, one after the other. |
| `Ledgers.Ledger.Distribute` | src/consensus/mod.rs:102-113 | Every listed address holds its amount with nonce zero and no code; every other account and every slot is as before. |
| `Ledgers.Ledger.Deploy` | src/consensus/mod.rs:118-120 | Each contract is deployed over the state the one before it left, or the loop stops where one fails. |
| `GenesisState.DeployedWritesItsRun` | src/ethvm/tx/mod.rs:493-543 | A deployment goes through if and only if its run succeeds and comes back to the root, and then that run is what is written. |
| `GenesisState.AllDeployInTurn` | src/consensus/mod.rs:118-120 | A list of contracts goes through a chain of states, each deployment over the one before. |
| `Ledgers.Ledger.Info` | src/consensus/mod.rs:75-93 | Reports the committed height and the hash of the last header, or zero and nothing on a new chain. |
| `Ledgers.Ledger.RefreshBranches` | src/ledger/mod.rs:471-491 | Drops DeliverTx and CheckTx and forks them off Main anew, never meeting a missing or duplicate name. |
| `Ledgers.Ledger.PrepareAll` | src/ledger/mod.rs:143-150 | The block's version is created on all three branches. |
| `Ledgers.Ledger.ConsensusRefresh` | src/ledger/mod.rs:112-153 | BeginBlock opens a block over the committed state and leaves the three branches. |
| `Ledgers.Ledger.Deliver` | src/consensus/mod.rs:164-184 | DeliverTx is one step of the plain ledger; the answer is `Accepted` if and only if the open block grew by exactly this transaction, and `Refused` for undecodable bytes, a rejection and a failed run. |
| `Ledgers.Ledger.Check` | src/consensus/mod.rs:125-150 | CheckTx changes nothing of the plain ledger; a recheck is accepted, any other check is answered as the trial on the state checks are tried on goes. |
| `Ledgers.Ledger.CommitBlock` | src/ledger/mod.rs:156-171 | Commit is one step of the plain ledger, leaves Main and CheckTx, and answers with the hash of the new block's header. |
| `Ledgers.Ledger.LoadFromSnapshot` | src/ledger/mod.rs:174-194 | A restart keeps chain and committed state, forgets the open block and restores the three branches. |
| `Ledgers.Ledger.CleanUp` | src/ledger/mod.rs:245-257 | Drops an uncommitted block's version from Main without changing what Main shows. |
| `Ledgers.Ledger.Handle` | src/consensus/mod.rs:97-197 | Every legal call is one step of the plain ledger and of the state checks are tried on, and gets through exactly when that step does not panic. |
| `Ledgers.Ledger.Drive` | src/consensus/mod.rs:125-197 | So is every legal run of calls, checks and restarts anywhere in it, and it gets through exactly when the plain run does. |
| `Ledgers.Ledger.DriveBlock` | src/consensus/mod.rs:125-197 | A driven block leaves the ledger with the fold of its delivered transactions over the last commit. |
| `Ledgers.Ledger.DriveInterrupted` | src/ledger/mod.rs:174-194 | So does a block stopped anywhere, reloaded and replayed. |
| `Ledgers.DeliverKeepsOpen` | src/ledger/mod.rs:261-331 | DeliverTx's versions for block h are (h,0)..(h,n), n the number of successes so far. |
| `Ledgers.CheckKeepsItself` | src/ledger/mod.rs:261-331 | The same for CheckTx, which leaves every other branch as it was. |
| `SerialLedger.BlocksAreSerial` | src/consensus/mod.rs:125-197 | A block committed under any interleaving of checks is the left fold of its delivered transactions. |
| `SerialLedger.BlockSaysWhatItHolds` | src/ledger/mod.rs:221-232 | The committed block carries its height, proposer and timestamp, the hash of the block before, and the transactions that succeeded, in order. |
| `SerialLedger.RestartReturnsToCommit` | src/ledger/mod.rs:122-141 | Stopping inside a block and loading returns to the last commit. |
| `SerialLedger.ReplayAfterRestart` | src/ledger/mod.rs:174-194 | Replaying the interrupted block commits what an uninterrupted run would have. |
| `SerialLedger.ChecksNeverInterfere` | src/consensus/mod.rs:125-150 | The plain ledger goes the same way whatever is checked and whatever state the checks are tried on. |
| `SerialLedger.ChecksAreSerial` | src/consensus/mod.rs:125-150 | Over a block, the state checks are tried on is the left fold of the checked transactions over what was committed when the block began, whatever is delivered; the commit does not move it. |
| `SerialLedger.RestartForgetsChecks` | src/ledger/mod.rs:174-194 | After a restart checks are tried on the last committed state again. |
| `SerialLedger.RunsUnlessTrialPanics` | src/ledger/mod.rs:288-331 | A run gets through if and only if no transaction it tries, delivered or checked, panics where it is tried. |
| `SerialLedger.HonestTrialsRunThrough` | src/ledger/mod.rs:403-414 | So it does if each run it makes is honest where it is made. |
| `TxProperties.RunsExactlyWhenCovered` | src/ethvm/tx/mod.rs:55-85 | A transaction runs exactly when signature, price, nonce and gas limit are right and the balance covers value and gas in unbounded arithmetic. |
| `TxProperties.TransactionsAreAtomic` | src/ledger/mod.rs:288-331 | Rejected: nothing changes. Failed: the caller pays min(balance, fee) and nothing else changes. Succeeded: one hash, one transaction and one receipt, given field by field with its logs numbered, and the header is otherwise as it was. |
| `TxProperties.PanicsExactlyWhen` | src/ethvm/tx/mod.rs:196-218 | An accepted transaction panics if and only if its run does or ends inside a frame, its fee passes 256 bits, or a positive fee finds its caller deleted. |
| `TxProperties.HonestExec` | src/ethvm/tx/mod.rs:209-218 | The fee of an honest run fits 256 bits and has an account to charge. |
| `TxProperties.HonestNeverPanics` | src/ledger/mod.rs:403-414 | A transaction whose run is honest where it is made does not panic. |
| `TxProperties.FeeIsCovered` | src/ethvm/tx/mod.rs:243-278 | What was checked up front still covers the fee when it is charged. |
| `TxProperties.FeesAreExact` | src/ledger/mod.rs:406-406 | Then the saturating subtraction is a true subtraction. |
| `TxProperties.SupplyAfterTx` | src/ledger/mod.rs:288-331 | From any state, a transaction lowers the supply by exactly the fee paid, what its run destroyed and what its transfers clipped; nothing is clipped below 2^256. |
| `TxProperties.SparingDestroysNothing` | src/ethvm/impls/stack.rs:347-350 | A run without deletions and balance resets destroys nothing. |
| `TxProperties.NoncesRise` | src/ethvm/tx/mod.rs:281-307 | No surviving account's nonce falls, a deleted account has nothing left, and a success moves its surviving caller past the nonce it used. |
| `TxProperties.DeletionReopens` | src/ethvm/tx/mod.rs:281-307 | After its signer is deleted a transaction is accepted exactly if it has nonce zero and needs no balance. |
| `TxOutcome.FourOutcomes` | src/ethvm/tx/mod.rs:34-48 | Rejected, panicked, succeeded or failed: each if and only if a condition on coverage, the run's end, the fee and the verdict. |
| `TxOutcome.SuccessWritesItsRun` | src/ethvm/tx/mod.rs:196-207 | A success leaves every surviving account and slot as the run read them at its end (but for cleared words), less the fee at the caller, and the run's logs in its receipt. |
| `TxOutcome.SuccessIsFinalWorld` | src/ethvm/tx/mod.rs:196-207 | For a harmless run that is the final world of the copying machine, less the fee, slot by slot up to words set to zero. |
| `ChainProperties.CommitKeepsShape` | src/ledger/mod.rs:368-378 | Appending a block keeps the chain contiguous, linked by hashes, with `block_hashes` in step. |
| `ChainProperties.ReachableChain` | src/ledger/mod.rs:335-378 | Every reachable chain is so, and all its blocks are sound. |
| `ChainProperties.ClosedIsSound` | src/ledger/mod.rs:335-369 | A committed block has a receipt for every hash, one block gas in all, and a bloom of exactly the bits its logs set. |
| `ChainProperties.ClosedBloomExact` | src/ledger/mod.rs:360-368 | A bit of the block's bloom is set if and only if some log of some listed receipt sets it, by its address or a topic. |
| `ChainProperties.ClosedKeepsItsDraft` | src/ledger/mod.rs:335-378 | Closing keeps height, proposer, timestamp, previous hash, transactions and every receipt but for its block gas. |
| `ChainProperties.DeliverKeepsSpent` | src/ethvm/tx/mod.rs:281-307 | A delivery keeps a recorded transaction's nonce spent if and only if it does not delete its signer. |
| `ChainProperties.SpentIffSignerSpared` | src/ethvm/tx/mod.rs:281-307 | So over any run: spent throughout if and only if no delivery deletes the signer. |
| `ChainProperties.ReplayNeedsDeletion` | src/ethvm/tx/mod.rs:281-307 | A transaction on the chain twice means that a delivery made when it was on record deleted its signer. |
| `ChainProperties.NoReplay` | src/ethvm/tx/mod.rs:281-307 | If no delivery deletes the signer of a recorded transaction, none is recorded twice over a whole chain. |
| `ChainProperties.ReplayAfterDeletion` | src/ethvm/impls/backend.rs:173-175 | With such a deletion in between, the same transaction succeeds twice in one block. |
| `ChainProperties.GasAddsUp` | src/ledger/mod.rs:351-359 | The sum over the receipt map is the sum over the block's transactions. |
| `ChainProperties.ReceiptsMatchTransactions` | src/ledger/mod.rs:291-304 | Under the same condition, receipts are one-to-one with transactions, numbered by position, logs numbered from zero, block gas the sum of all. |
| `ChainProperties.SupplyOverRuns` | src/ledger/mod.rs:288-331 | Over any run from any genesis the committed supply is genesis less fees, destruction and clipping; by fees alone if the delivered runs are sparing and genesis is below 2^256. |
| `LogSearch.FilterBlockLogs` | src/rpc/utils.rs:157-208 | The nested loops yield the logs that pass, by receipt and position. |
| `LogSearch.KeyedLogsAreMatches` | src/rpc/utils.rs:166-206 | Exactly the logs of the receipts that pass the filter are found. |
| `LogSearch.FindByHash` | src/common/mod.rs:131-146 | The first block by height with a given hash. |
| `LogSearch.BlockNumberToHeight` | src/common/mod.rs:115-169 | The height each kind of block number stands for. |
| `LogSearch.NamedHeights` | src/common/mod.rs:115-169 | Which height latest, earliest, pending, a number or a hash names. |
| `LogSearch.PassingLogsShowInBloom` | src/rpc/eth.rs:864-877 | A log that passes takes its block past both bloom tests. |
| `LogSearch.SkippedBlocksAreEmpty` | src/rpc/eth.rs:868-877 | A block the bloom skips has no log that passes. |
| `LogSearch.ScanRange` | src/rpc/eth.rs:868-877 | The bloom-filtered scan of a range finds exactly the records of the logs that pass, lower heights first and within a block by receipt and position. |
| `LogSearch.BlockAnswers` | src/rpc/utils.rs:157-208 | What one block contributes: the records of its passing logs and no others, by receipt and position. |
| `LogSearch.RangeAnswers` | src/rpc/eth.rs:868-877 | What a range contributes: those of its blocks, lower heights first. |
| `LogSearch.Logs` | src/rpc/eth.rs:829-881 | The query returns exactly the records of the passing logs in the clamped range, or in the one block asked for by hash, in that order, skipping blocks or not. |
| `LogSearch.ReachableBloomsCover` | src/ledger/mod.rs:360-368 | In every reachable ledger the blooms cover the logs they should. |
| `Token.SafeAddIsExact` | tests/contracts/token.sol:89-94 | The wrapped comparison detects exactly the sums that do not fit. |
| `Token.SafeMulIsExact` | tests/contracts/token.sol:121-133 | The divide-back test succeeds exactly when the product fits 256 bits. |
| `Token.ERC20.Receive` | tests/contracts/token.sol:237-313 | A call reverts exactly when it names a zero address or cannot be afforded, and then changes nothing; else it pays, allows, burns and supplies as its name says and touches no other balance or allowance. |
| `Token.CallsDoWhatTheySay` | tests/contracts/token.sol:237-313 | For every call and state: it goes through if and only if it names no zero address and can be afforded, and who pays, who receives and what is allowed afterwards. |
| `Token.ERC20.MoveTokens` | tests/contracts/token.sol:329-336 | Debit then credit with checked arithmetic is the plain move. |
| `Token.ERC20.SpendAllowance` | tests/contracts/token.sol:273-277 | Moves first, then lowers the allowance, or reverts. |
| `Token.ERC20.SetAllowance` | tests/contracts/token.sol:387-393 | Sets one allowance, or reverts for a zero address. |
| `Token.ERC20.BurnTokens` | tests/contracts/token.sol:366-372 | Lowers supply and balance together, or reverts. |
| `Token.TransfersNeverOverflow` | tests/contracts/token.sol:333-334 | In a backed state the recipient's addition cannot revert. |
| `Token.HistoryKeepsBacked` | tests/contracts/token.sol:237-313 | Over every history of calls the balances sum to the total supply. |
| `Token.DeployedIsBacked` | tests/contracts/token.sol:182-188 | So they do from deployment on. |
| `Token.DeployedToCreator` | tests/contracts/token.sol:182-188 | The whole first supply is the creator's and nothing is allowed. |
| `Token.AllowancesAddUp` | tests/contracts/token.sol:256-313 | Moved since the last approval plus the allowance is approved plus increases less decreases. |
| `Pack.LengthRoundTrip` | src/bins/ovrd/pack.rs:36-40 | A length written in native byte order reads back, in either order. |
| `Pack.PackInto` | src/bins/ovrd/pack.rs:20-41 | The packed file holds, each at its place, host, tendermint and ovrd, 256 zeros after each, and the two lengths; small hosts are refused. |
| `Pack.PackedIsLaidOut` | src/bins/ovrd/pack.rs:20-41 | Where each part of the packed file is found. |
| `Pack.NeBytesDigits` | src/bins/ovrd/pack.rs:36-40 | Byte i of a written length is its digit of weight 256^i, from the low end or the high end. |
| `Pack.Unpack` | src/bins/ovrd/pack.rs:43-91 | What unpacking any file writes, or the error or panic it ends in. |
| `Pack.UnpacksExactlyWhen` | src/bins/ovrd/pack.rs:43-91 | Which files unpack and to what bytes, which are too small, and which panic for a length no buffer can have. |
| `Pack.UnpackUndoesPack` | src/bins/ovrd/pack.rs:43-91 | Unpacking a packed host gives the tendermint bytes exactly and an ovrd file that starts with the ovrd bytes. |
| `Pack.RepackedHostsUnpackToTheLast` | src/bins/ovrd/pack.rs:20-41 | A host packed twice unpacks to the second pair. |

## Left out

- EVM bytecode, gas metering, access lists and precompiles: the executor is any sequence of journal calls with a gas number and a verdict.
- `StackSubstateMetadata` (gas and accessed sets, `is_cold`): opaque, and its swallow operations succeed.
- The vsdb store is not part of this repository: `VersionStore` reduces it to named branches of named overlays; a fork sees what its parent showed when it was made, a merge puts the branch's own versions on top of its parent's, and a version name is scoped by the branch it is created on, as the ledger's use of one name on all three branches needs.
- Slots are written to the branch the backend reads, which the ledger sets up as the default branch.
- Disk flush and the snapshot's format: the snapshot is the saved block in process and its hashes, and the store survives a restart as it was.
- StateBranches.StateBranch.PrepareNextBlock: does not model the vicinity refresh on Main (coinbase, timestamp, chain id), because it is environment for the executor that no property here rests on.
- The decoding of genesis bytecode and the address it is deployed at: part of what the executor is given.
- Signature recovery, SHA-3, Keccak, Merkle trees and serialisation: functions taken from outside, compared only by their results.
- The stored Merkle tree of a block: only its root is kept.
- Block gas is summed as an unbounded number: a sum of 64-bit amounts stays below 2^256.
- Native transactions: they are always rejected, as the source's stub does.
- `end_block` and staking: empty in the source.
- RPC handlers other than `logs`, and reads of past heights.
- Lock-level concurrency: calls are atomic steps in any legal order.
- A crash in the middle of one call, such as between the merge and the append of `commit`.
- Partial writes, other I/O errors and failed allocations of `pack` and `unpack`: each write is whole; the three byte strings are what the files hold; after an error of `unpack` nothing is claimed of the files.
- The library's matchers and the bits of a bloom entry: contracts, not code.
- ERC-20 events, names and the internal `_mint` and `_burnFrom`, which no public function calls.
