/**
 The layered journal against a machine that copies the whole world at each
 `enter`: exactly when one commit is faithful, and exactly which runs are.
 */
module JournalRefinement {
  import opened Wrappers
  import opened EvmTypes
  import opened Journal
  import opened JournalInvariants

  // ---------- exit_commit ----------

  /** The parent had reset `a`, and the child holds a copy of its record that does not say so. */
  predicate ForgetsReset(child: Frame, parent: Frame, a: Address) {
    Resets(parent, a) && a in child.accounts && !child.accounts[a].reset
  }

  function KnownBelow(parent: Stack, slot: Slot): Option<H256> {
    if parent.Nested? then KnownStorage(parent.parent, slot) else None
  }

  function KnownOriginalBelow(parent: Stack, slot: Slot): Option<H256> {
    if parent.Nested? then KnownOriginalStorage(parent.parent, slot) else None
  }

  predicate Uncovered(s: Stack, slot: Slot)
    requires s.Nested?
  {
    && ForgetsReset(s.top, s.parent.top, slot.address)
    && slot !in s.top.storages
    && slot !in s.parent.top.storages
  }

  /**
   After a commit the parent answers every query about accounts, deletions and
   logs as the child did, and every storage query except one that a forgotten
   reset no longer hides.
   */
  lemma CommitIsExact(s: Stack, a: Address, slot: Slot)
    requires s.Nested?
    ensures KnownAccount(Commit(s), a) == KnownAccount(s, a)
    ensures KnownEmpty(Commit(s), a) == KnownEmpty(s, a)
    ensures Deleted(Commit(s), a) == Deleted(s, a)
    ensures AllLogs(Commit(s)) == AllLogs(s)
    ensures KnownStorage(Commit(s), slot) == KnownStorage(s, slot) <==>
            !(Uncovered(s, slot) && KnownBelow(s.parent, slot) != Some(0))
    ensures KnownOriginalStorage(Commit(s), slot) == KnownOriginalStorage(s, slot) <==>
            !(ForgetsReset(s.top, s.parent.top, slot.address) && KnownOriginalBelow(s.parent, slot) != Some(0))
  {
    KnownAfterCommit(s, a);
    if s.parent.Nested? {
      assert AllLogs(Commit(s)) == AllLogs(s.parent.parent) + (s.parent.top.logs + s.top.logs);
    }
    StorageAfterCommit(s, slot);
  }

  lemma StorageAfterCommit(s: Stack, slot: Slot)
    requires s.Nested?
    ensures KnownStorage(Commit(s), slot) ==
            if Uncovered(s, slot) then KnownBelow(s.parent, slot) else KnownStorage(s, slot)
    ensures KnownOriginalStorage(Commit(s), slot) ==
            if ForgetsReset(s.top, s.parent.top, slot.address) then KnownOriginalBelow(s.parent, slot)
            else KnownOriginalStorage(s, slot)
    ensures Uncovered(s, slot) ==> KnownStorage(s, slot) == Some(0)
    ensures ForgetsReset(s.top, s.parent.top, slot.address) ==> KnownOriginalStorage(s, slot) == Some(0)
  {
  }

  // ---------- the copying machine ----------

  datatype World = World(
    accounts: map<Address, OvrAccount>,
    slots: map<Slot, H256>,
    wiped: set<Address>,
    deleted: set<Address>,
    logs: seq<Log>)
  {
    function Account(a: Address): OvrAccount {
      Lookup(accounts, a).GetOr(DEFAULT_ACCOUNT)
    }

    function Storage(slot: Slot): H256 {
      Lookup(slots, slot).GetOr(0)
    }

    function With(a: Address, account: OvrAccount): World {
      this.(accounts := accounts[a := account])
    }
  }

  datatype Worlds = Only(top: World) | Copied(top: World, below: Worlds)

  function WorldOf(b: ChainState): World {
    World(b.accounts, b.storages, {}, {}, [])
  }

  function Moved(w: World, source: Address, target: Address, value: U256): World {
    var payer := w.Account(source);
    if payer.balance < value then w.With(source, payer)
    else
      var w1 := w.With(source, payer.(balance := payer.balance - value));
      var payee := w1.Account(target);
      w1.With(target, payee.(balance := SaturatingAdd(payee.balance, value)))
  }

  /** What each call does to one flat world; None where the source panics. */
  function Act(w: World, op: Op): Option<World>
    requires !op.Enter? && !op.ExitCommit? && !op.ExitRevert? && !op.ExitDiscard?
  {
    match op
    case IncNonce(a) =>
      if w.Account(a).nonce == U256_MAX then None
      else Some(w.With(a, w.Account(a).(nonce := w.Account(a).nonce + 1)))
    case SetStorage(slot, word) => Some(w.(slots := w.slots[slot := word]))
    case ResetStorage(a) =>
      Some(w.With(a, w.Account(a)).(slots := DropSlots(w.slots, {a}), wiped := w.wiped + {a}))
    case EmitLog(log) => Some(w.(logs := w.logs + [log]))
    case SetDeleted(a) => Some(w.(deleted := w.deleted + {a}))
    case SetCode(a, code) => Some(w.With(a, w.Account(a).(code := code)))
    case Transfer(source, target, value) => Some(Moved(w, source, target, value))
    case ResetBalance(a) => Some(w.With(a, w.Account(a).(balance := 0)))
    case Touch(a) => Some(w.With(a, w.Account(a)))
  }

  function CopyStep(ws: Worlds, op: Op): Option<Worlds> {
    match op
    case Enter => Some(Copied(ws.top, ws))
    case ExitCommit => if ws.Only? then None else Some(ws.below.(top := ws.top))
    case ExitRevert => if ws.Only? then None else Some(ws.below)
    case ExitDiscard => if ws.Only? then None else Some(ws.below)
    case _ =>
      match Act(ws.top, op)
      case None => None
      case Some(w) => Some(ws.(top := w))
  }

  // ---------- agreement ----------

  /** Every read the executor can make answers the same on both sides. */
  ghost predicate ReadsAgree(s: Stack, w: World, b: ChainState) {
    && (forall a: Address :: AccountReadAgrees(s, w, b, a))
    && (forall slot: Slot :: StorageReadAgrees(s, w, b, slot))
    && AllLogs(s) == w.logs
  }

  predicate AccountReadAgrees(s: Stack, w: World, b: ChainState, a: Address) {
    && Exists(s, b, a) == (a in w.accounts)
    && BasicOf(s, b, a) == Basic(w.Account(a).balance, w.Account(a).nonce)
    && CodeOf(s, b, a) == w.Account(a).code
    && Deleted(s, a) == (a in w.deleted)
  }

  predicate StorageReadAgrees(s: Stack, w: World, b: ChainState, slot: Slot) {
    && StorageOf(s, b, slot) == w.Storage(slot)
    && OriginalStorageOf(s, b, slot) == if slot.address in w.wiped then 0 else b.Storage(slot)
  }

  ghost predicate AllLevelsAgree(s: Stack, ws: Worlds, b: ChainState) {
    && ReadsAgree(s, ws.top, b)
    && s.Nested? == ws.Copied?
    && (s.Nested? ==> AllLevelsAgree(s.parent, ws.below, b))
  }

  predicate PaymentsAgree(s: Stack, ws: Worlds, b: ChainState, op: Op) {
    op.Transfer? ==> CanPay(s, b, op.source, op.value) == (ws.top.Account(op.source).balance >= op.value)
  }

  /** The two machines are indistinguishable, through the top, after every prefix of the run. */
  ghost predicate Indistinguishable(s: Stack, ws: Worlds, b: ChainState, ops: seq<Op>)
    decreases |ops|
  {
    && ReadsAgree(s, ws.top, b)
    && (ops != [] ==>
          && PaymentsAgree(s, ws, b, ops[0])
          && match (Step(s, b, ops[0]), CopyStep(ws, ops[0]))
             case (Some(s'), Some(ws')) => Indistinguishable(s', ws', b, ops[1..])
             case (None, None) => true
             case _ => false)
  }

  /** A commit that uncovers a word a reset should still hide. */
  predicate Uncovers(s: Stack, b: ChainState, slot: Slot)
    requires s.Nested?
  {
    || (Uncovered(s, slot) && KnownBelow(s.parent, slot).GetOr(b.Storage(slot)) != 0)
    || (ForgetsReset(s.top, s.parent.top, slot.address) &&
        KnownOriginalBelow(s.parent, slot).GetOr(b.Storage(slot)) != 0)
  }

  ghost predicate Harmless(s: Stack, b: ChainState, op: Op) {
    op.ExitCommit? && s.Nested? ==> forall slot :: !Uncovers(s, b, slot)
  }

  ghost predicate CommitsHarmlessly(s: Stack, b: ChainState, ops: seq<Op>)
    decreases |ops|
  {
    ops != [] ==>
      && Harmless(s, b, ops[0])
      && match Step(s, b, ops[0])
         case Some(s') => CommitsHarmlessly(s', b, ops[1..])
         case None => true
  }

  // ---------- one step ----------

  lemma RecordAgrees(s: Stack, w: World, b: ChainState, a: Address)
    requires AccountReadAgrees(s, w, b, a)
    ensures Resolve(b, a, Record(s, b, a)) == w.Account(a)
  {
  }

  /** Rewriting one record, and nothing else, on both sides. */
  lemma RecordStep(s: Stack, w: World, b: ChainState, a: Address, acc: StackAccount, account: OvrAccount)
    requires ReadsAgree(s, w, b)
    requires acc.reset == Resets(s.top, a)
    requires Resolve(b, a, acc) == account
    ensures ReadsAgree(WithRecord(s, a, acc), w.With(a, account), b)
  {
    var s', w' := WithRecord(s, a, acc), w.With(a, account);
    forall x: Address ensures AccountReadAgrees(s', w', b, x) {
      assert AccountReadAgrees(s, w, b, x);
      RecordAccountAgrees(s, w, b, a, acc, account, x);
    }
    forall slot: Slot ensures StorageReadAgrees(s', w', b, slot) {
      assert StorageReadAgrees(s, w, b, slot);
    }
  }

  lemma RecordAccountAgrees(s: Stack, w: World, b: ChainState, a: Address, acc: StackAccount, account: OvrAccount,
                            x: Address)
    requires AccountReadAgrees(s, w, b, x) && Resolve(b, a, acc) == account
    ensures AccountReadAgrees(WithRecord(s, a, acc), w.With(a, account), b, x)
  {
  }

  /** Rewriting one balance on both sides. */
  lemma BalanceStep(s: Stack, w: World, b: ChainState, a: Address, balance: U256)
    requires ReadsAgree(s, w, b)
    ensures Record(s, b, a).basic.balance == w.Account(a).balance
    ensures ReadsAgree(WithRecord(s, a, WithBalance(Record(s, b, a), balance)),
                       w.With(a, w.Account(a).(balance := balance)), b)
  {
    assert AccountReadAgrees(s, w, b, a);
    RecordAgrees(s, w, b, a);
    RecordStep(s, w, b, a, WithBalance(Record(s, b, a), balance), w.Account(a).(balance := balance));
  }

  lemma TransferStep(s: Stack, w: World, b: ChainState, source: Address, target: Address, value: U256)
    requires ReadsAgree(s, w, b)
    ensures ReadsAgree(Transferred(s, b, source, target, value), Moved(w, source, target, value), b)
    ensures CanPay(s, b, source, value) == (w.Account(source).balance >= value)
  {
    var payer := Record(s, b, source);
    var balance := payer.basic.balance;
    BalanceStep(s, w, b, source, balance);
    if balance < value {
      assert WithBalance(payer, balance) == payer;
    } else {
      var s1 := WithRecord(s, source, WithBalance(payer, balance - value));
      var w1 := w.With(source, w.Account(source).(balance := balance - value));
      assert ReadsAgree(s1, w1, b) by {
        BalanceStep(s, w, b, source, balance - value);
      }
      BalanceStep(s1, w1, b, target, SaturatingAdd(w1.Account(target).balance, value));
    }
  }

  function AfterReset(s: Stack, b: ChainState, a: Address): Stack {
    WithTop(s, s.top.(accounts := s.top.accounts[a := Record(s, b, a).(reset := true)],
                      storages := DropSlots(s.top.storages, {a})))
  }

  lemma ResetSlotRead(s: Stack, b: ChainState, a: Address, slot: Slot)
    ensures StorageOf(AfterReset(s, b, a), b, slot) == if slot.address == a then 0 else StorageOf(s, b, slot)
    ensures OriginalStorageOf(AfterReset(s, b, a), b, slot) ==
            if slot.address == a then 0 else OriginalStorageOf(s, b, slot)
  {
  }

  lemma ResetAccountAgrees(s: Stack, w: World, b: ChainState, a: Address, x: Address)
    requires ReadsAgree(s, w, b) && AccountReadAgrees(s, w, b, x)
    ensures AccountReadAgrees(AfterReset(s, b, a), Act(w, ResetStorage(a)).value, b, x)
  {
    assert AccountReadAgrees(s, w, b, a);
  }

  lemma ResetStep(s: Stack, w: World, b: ChainState, a: Address)
    requires ReadsAgree(s, w, b)
    ensures Step(s, b, ResetStorage(a)) == Some(AfterReset(s, b, a))
    ensures ReadsAgree(AfterReset(s, b, a), Act(w, ResetStorage(a)).value, b)
  {
    var s1 := WithTop(s, s.top.(storages := DropSlots(s.top.storages, {a})));
    assert KnownAccount(s1, a) == KnownAccount(s, a);
    var s', w' := AfterReset(s, b, a), Act(w, ResetStorage(a)).value;
    forall x: Address ensures AccountReadAgrees(s', w', b, x) {
      assert AccountReadAgrees(s, w, b, x);
      ResetAccountAgrees(s, w, b, a, x);
    }
    forall slot: Slot ensures StorageReadAgrees(s', w', b, slot) {
      assert StorageReadAgrees(s, w, b, slot);
      ResetSlotRead(s, b, a, slot);
    }
  }

  lemma SlotReadAgrees(s: Stack, w: World, b: ChainState, slot: Slot, word: H256, at: Slot)
    requires StorageReadAgrees(s, w, b, at)
    ensures StorageReadAgrees(WithTop(s, s.top.(storages := s.top.storages[slot := word])),
                              w.(slots := w.slots[slot := word]), b, at)
  {
  }

  /** Setting one slot of the top frame on both sides. */
  lemma SlotStep(s: Stack, w: World, b: ChainState, slot: Slot, word: H256)
    requires ReadsAgree(s, w, b)
    ensures ReadsAgree(WithTop(s, s.top.(storages := s.top.storages[slot := word])),
                       w.(slots := w.slots[slot := word]), b)
  {
    var s' := WithTop(s, s.top.(storages := s.top.storages[slot := word]));
    var w' := w.(slots := w.slots[slot := word]);
    forall x: Address ensures AccountReadAgrees(s', w', b, x) {
      assert AccountReadAgrees(s, w, b, x);
    }
    forall at: Slot ensures StorageReadAgrees(s', w', b, at) {
      assert StorageReadAgrees(s, w, b, at);
      SlotReadAgrees(s, w, b, slot, word, at);
    }
  }

  /** Adding a log or a deletion to the top frame on both sides. */
  lemma MarkStep(s: Stack, w: World, b: ChainState, logs: seq<Log>, deletes: set<Address>)
    requires ReadsAgree(s, w, b)
    ensures ReadsAgree(WithTop(s, s.top.(logs := s.top.logs + logs, deletes := s.top.deletes + deletes)),
                       w.(logs := w.logs + logs, deleted := w.deleted + deletes), b)
  {
    var s' := WithTop(s, s.top.(logs := s.top.logs + logs, deletes := s.top.deletes + deletes));
    var w' := w.(logs := w.logs + logs, deleted := w.deleted + deletes);
    forall x: Address ensures AccountReadAgrees(s', w', b, x) {
      assert AccountReadAgrees(s, w, b, x);
    }
    forall at: Slot ensures StorageReadAgrees(s', w', b, at) {
      assert StorageReadAgrees(s, w, b, at);
    }
    assert AllLogs(s') == AllLogs(s) + logs;
  }

  /** The calls that write one record. */
  lemma RecordActStep(s: Stack, w: World, b: ChainState, op: Op)
    requires op.IncNonce? || op.SetCode? || op.ResetBalance? || op.Touch?
    requires ReadsAgree(s, w, b)
    ensures Step(s, b, op).Some? == Act(w, op).Some?
    ensures Step(s, b, op).Some? ==> ReadsAgree(Step(s, b, op).value, Act(w, op).value, b)
  {
    RecordAgrees(s, w, b, op.address);
    if Step(s, b, op).Some? {
      var acc := Step(s, b, op).value.top.accounts[op.address];
      var account := Resolve(b, op.address, acc);
      assert Step(s, b, op).value == WithRecord(s, op.address, acc);
      assert Act(w, op).value == w.With(op.address, account);
      RecordStep(s, w, b, op.address, acc, account);
    }
  }

  lemma ActStep(s: Stack, w: World, b: ChainState, op: Op)
    requires !op.Enter? && !op.ExitCommit? && !op.ExitRevert? && !op.ExitDiscard?
    requires ReadsAgree(s, w, b)
    ensures Step(s, b, op).Some? == Act(w, op).Some?
    ensures Step(s, b, op).Some? ==> ReadsAgree(Step(s, b, op).value, Act(w, op).value, b)
    ensures op.Transfer? ==> CanPay(s, b, op.source, op.value) == (w.Account(op.source).balance >= op.value)
  {
    match op {
      case SetStorage(slot, word) => SlotStep(s, w, b, slot, word);
      case EmitLog(log) =>
        MarkStep(s, w, b, [log], {});
        assert s.top.deletes + {} == s.top.deletes && w.deleted + {} == w.deleted;
      case SetDeleted(a) =>
        MarkStep(s, w, b, [], {a});
        assert s.top.logs + [] == s.top.logs && w.logs + [] == w.logs;
      case ResetStorage(a) => ResetStep(s, w, b, a);
      case Transfer(source, target, value) => TransferStep(s, w, b, source, target, value);
      case _ => RecordActStep(s, w, b, op);
    }
  }

  lemma CommitStep(s: Stack, w: World, b: ChainState)
    requires s.Nested? && ReadsAgree(s, w, b)
    ensures ReadsAgree(Commit(s), w, b) <==> Harmless(s, b, ExitCommit)
  {
    forall a: Address ensures AccountReadAgrees(Commit(s), w, b, a) {
      CommitIsExact(s, a, Slot(a, 0));
      assert AccountReadAgrees(s, w, b, a);
    }
    CommitIsExact(s, 0, Slot(0, 0));
    forall slot: Slot ensures StorageReadAgrees(Commit(s), w, b, slot) <==> !Uncovers(s, b, slot) {
      assert StorageReadAgrees(s, w, b, slot);
      StorageAfterCommit(s, slot);
    }
  }

  lemma EnterStep(s: Stack, w: World, b: ChainState)
    requires ReadsAgree(s, w, b)
    ensures ReadsAgree(Nested(EMPTY_FRAME, s), w, b)
  {
    var s' := Nested(EMPTY_FRAME, s);
    assert AllLogs(s') == AllLogs(s);
    forall a: Address ensures AccountReadAgrees(s', w, b, a) {
      assert AccountReadAgrees(s, w, b, a);
    }
    forall slot: Slot ensures StorageReadAgrees(s', w, b, slot) {
      assert StorageReadAgrees(s, w, b, slot);
    }
  }

  lemma InFrameStep(s: Stack, ws: Worlds, b: ChainState, op: Op)
    requires !op.Enter? && !op.ExitCommit? && !op.ExitRevert? && !op.ExitDiscard?
    requires AllLevelsAgree(s, ws, b)
    ensures PaymentsAgree(s, ws, b, op)
    ensures Step(s, b, op).Some? == CopyStep(ws, op).Some?
    ensures Step(s, b, op).Some? ==> AllLevelsAgree(Step(s, b, op).value, CopyStep(ws, op).value, b)
  {
    ActStep(s, ws.top, b, op);
    if Step(s, b, op).Some? {
      StepInFrame(s, b, op);
    }
  }

  lemma HarmlessStep(s: Stack, ws: Worlds, b: ChainState, op: Op)
    requires AllLevelsAgree(s, ws, b)
    requires Harmless(s, b, op)
    ensures PaymentsAgree(s, ws, b, op)
    ensures Step(s, b, op).Some? == CopyStep(ws, op).Some?
    ensures Step(s, b, op).Some? ==> AllLevelsAgree(Step(s, b, op).value, CopyStep(ws, op).value, b)
  {
    match op {
      case Enter => EnterStep(s, ws.top, b);
      case ExitCommit =>
        if s.Nested? {
          CommitStep(s, ws.top, b);
        }
      case ExitRevert =>
      case ExitDiscard =>
      case _ => InFrameStep(s, ws, b, op);
    }
  }

  // ---------- whole runs ----------

  /**
   A run of the journal is indistinguishable from copying the world at each
   `enter` if and only if none of its commits uncovers a word that a forgotten
   reset was hiding.
   */
  lemma {:induction false} IndistinguishableIffHarmless(s: Stack, ws: Worlds, b: ChainState, ops: seq<Op>)
    requires AllLevelsAgree(s, ws, b)
    ensures Indistinguishable(s, ws, b, ops) <==> CommitsHarmlessly(s, b, ops)
    decreases |ops|
  {
    if ops != [] {
      var op := ops[0];
      if Harmless(s, b, op) {
        HarmlessStep(s, ws, b, op);
        if Step(s, b, op).Some? {
          IndistinguishableIffHarmless(Step(s, b, op).value, CopyStep(ws, op).value, b, ops[1..]);
        }
      } else {
        CommitStep(s, ws.top, b);
        assert Step(s, b, op) == Some(Commit(s));
        assert !Indistinguishable(Commit(s), CopyStep(ws, op).value, b, ops[1..]);
      }
    }
  }

  lemma FreshStackAgrees(b: ChainState)
    ensures AllLevelsAgree(NEW_STACK, Only(WorldOf(b)), b)
  {
  }

  /** From a new stack over any backend. */
  lemma JournalRefinesCopying(b: ChainState, ops: seq<Op>)
    ensures Indistinguishable(NEW_STACK, Only(WorldOf(b)), b, ops) <==> CommitsHarmlessly(NEW_STACK, b, ops)
  {
    FreshStackAgrees(b);
    IndistinguishableIffHarmless(NEW_STACK, Only(WorldOf(b)), b, ops);
  }

  // ---------- the executor's own discipline is enough ----------

  /** No frame of the stack, nor the backend, holds a nonzero word for `a`. */
  ghost predicate NoWords(s: Stack, b: ChainState, a: Address) {
    && (forall slot :: slot in s.top.storages && slot.address == a ==> s.top.storages[slot] == 0)
    && (if s.Nested? then NoWords(s.parent, b, a)
        else forall slot :: slot in b.storages && slot.address == a ==> b.storages[slot] == 0)
  }

  ghost predicate NoWordsBelow(s: Stack, b: ChainState, a: Address) {
    if s.Nested? then NoWords(s.parent, b, a)
    else forall slot :: slot in b.storages && slot.address == a ==> b.storages[slot] == 0
  }

  /** Storage is reset only for addresses that own nothing beneath the current frame. */
  ghost predicate ResetsOnlyBlank(s: Stack, b: ChainState, ops: seq<Op>)
    decreases |ops|
  {
    ops != [] ==>
      && (ops[0].ResetStorage? ==> NoWordsBelow(s, b, ops[0].address))
      && match Step(s, b, ops[0])
         case Some(s') => ResetsOnlyBlank(s', b, ops[1..])
         case None => true
  }

  ghost predicate ResetsAreBlank(s: Stack, b: ChainState) {
    && (forall a :: Resets(s.top, a) ==> NoWordsBelow(s, b, a))
    && (s.Nested? ==> ResetsAreBlank(s.parent, b))
  }

  lemma {:induction false} BlankReadsZero(s: Stack, b: ChainState, slot: Slot)
    requires NoWords(s, b, slot.address)
    ensures StorageOf(s, b, slot) == 0 && OriginalStorageOf(s, b, slot) == 0 && b.Storage(slot) == 0
  {
    if s.Nested? {
      BlankReadsZero(s.parent, b, slot);
    }
  }

  lemma BlankCommitIsHarmless(s: Stack, b: ChainState)
    requires s.Nested? && ResetsAreBlank(s, b)
    ensures Harmless(s, b, ExitCommit)
  {
    forall slot ensures !Uncovers(s, b, slot) {
      if ForgetsReset(s.top, s.parent.top, slot.address) {
        assert NoWordsBelow(s.parent, b, slot.address);
        if s.parent.Nested? {
          BlankReadsZero(s.parent.parent, b, slot);
        }
      }
    }
  }

  lemma {:induction false} ResetsStayBlank(s: Stack, b: ChainState, op: Op)
    requires ResetsAreBlank(s, b)
    requires op.ResetStorage? ==> NoWordsBelow(s, b, op.address)
    requires Step(s, b, op).Some?
    ensures ResetsAreBlank(Step(s, b, op).value, b)
  {
    var s' := Step(s, b, op).value;
    if op.ExitCommit? {
      forall a | Resets(s'.top, a) ensures NoWordsBelow(s', b, a) {
        if Resets(s.top, a) {
          assert NoWords(s.parent, b, a);
        } else {
          assert Resets(s.parent.top, a);
        }
      }
    } else if !op.Enter? && !op.ExitRevert? && !op.ExitDiscard? {
      forall a | Resets(s'.top, a) ensures NoWordsBelow(s', b, a) {
        assert Resets(s.top, a) || (op.ResetStorage? && a == op.address);
      }
    }
  }

  lemma {:induction false} BlankRunIsHarmless(s: Stack, b: ChainState, ops: seq<Op>)
    requires ResetsAreBlank(s, b) && ResetsOnlyBlank(s, b, ops)
    ensures CommitsHarmlessly(s, b, ops)
    decreases |ops|
  {
    if ops != [] {
      if ops[0].ExitCommit? && s.Nested? {
        BlankCommitIsHarmless(s, b);
      }
      if Step(s, b, ops[0]).Some? {
        ResetsStayBlank(s, b, ops[0]);
        BlankRunIsHarmless(Step(s, b, ops[0]).value, b, ops[1..]);
      }
    }
  }

  /** Under the executor's discipline the journal is a faithful copy-on-enter machine. */
  lemma DisciplinedRunsAreFaithful(b: ChainState, ops: seq<Op>)
    requires ResetsOnlyBlank(NEW_STACK, b, ops)
    ensures Indistinguishable(NEW_STACK, Only(WorldOf(b)), b, ops)
  {
    BlankRunIsHarmless(NEW_STACK, b, ops);
    JournalRefinesCopying(b, ops);
  }

  lemma RunCons(s: Stack, b: ChainState, op: Op, rest: seq<Op>)
    ensures Run(s, b, [op] + rest) ==
            match Step(s, b, op) { case Some(s') => Run(s', b, rest) case None => None }
    ensures Step(s, b, op).Some? && !CommitsHarmlessly(Step(s, b, op).value, b, rest) ==>
            !CommitsHarmlessly(s, b, [op] + rest)
    ensures !Harmless(s, b, op) ==> !CommitsHarmlessly(s, b, [op] + rest)
  {
  }

  /** Without it a committed child that merely touched a reset contract brings old storage back. */
  lemma TouchedResetComesBack(b: ChainState, slot: Slot)
    requires b.Storage(slot) != 0
    ensures var before := [ResetStorage(slot.address)];
            var ops := before + ([Enter] + ([Touch(slot.address)] + ([ExitCommit] + [])));
            && Run(NEW_STACK, b, before + []).Some? && Run(NEW_STACK, b, ops).Some?
            && StorageOf(Run(NEW_STACK, b, before + []).value, b, slot) == 0
            && StorageOf(Run(NEW_STACK, b, ops).value, b, slot) == b.Storage(slot)
            && !Indistinguishable(NEW_STACK, Only(WorldOf(b)), b, ops)
  {
    var a := slot.address;
    var acc := Record(NEW_STACK, b, a);
    var frame := Frame(map[a := acc.(reset := true)], map[], {}, []);
    assert Step(NEW_STACK, b, ResetStorage(a)) == Some(Root(frame));
    var touched := Nested(Frame(map[a := acc], map[], {}, []), Root(frame));
    assert KnownAccount(Nested(EMPTY_FRAME, Root(frame)), a) == KnownAccount(Root(frame), a) ==
           Some(acc.(reset := true));
    assert Step(Nested(EMPTY_FRAME, Root(frame)), b, Touch(a)) == Some(touched);
    assert Commit(touched) == Root(Frame(map[a := acc], map[], {}, []));
    assert Uncovers(touched, b, slot);
    RunCons(touched, b, ExitCommit, []);
    RunCons(Nested(EMPTY_FRAME, Root(frame)), b, Touch(a), [ExitCommit] + []);
    RunCons(Root(frame), b, Enter, [Touch(a)] + ([ExitCommit] + []));
    RunCons(NEW_STACK, b, ResetStorage(a), [Enter] + ([Touch(a)] + ([ExitCommit] + [])));
    RunCons(NEW_STACK, b, ResetStorage(a), []);
    JournalRefinesCopying(b, [ResetStorage(a)] + ([Enter] + ([Touch(a)] + ([ExitCommit] + []))));
  }
}
