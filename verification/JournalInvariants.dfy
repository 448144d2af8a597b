/** What whole runs of the journal keep: enclosing frames, the currency, and nonces. */
module JournalInvariants {
  import opened Wrappers
  import opened FiniteSums
  import opened EvmTypes
  import opened Journal

  lemma {:induction false} RunConcat(s: Stack, b: ChainState, xs: seq<Op>, ys: seq<Op>)
    ensures Run(s, b, xs + ys) ==
            match Run(s, b, xs) { case Some(s') => Run(s', b, ys) case None => None }
    decreases |xs|
  {
    if xs == [] {
      assert xs + ys == ys;
    } else {
      assert (xs + ys)[1..] == xs[1..] + ys;
      if Step(s, b, xs[0]).Some? {
        RunConcat(Step(s, b, xs[0]).value, b, xs[1..], ys);
      }
    }
  }

  // ---------- rollback ----------

  function Ancestor(s: Stack, depth: nat): Stack
    requires depth <= Depth(s)
  {
    if depth == Depth(s) then s else Ancestor(s.parent, depth)
  }

  /** The run never leaves the frame it started in, whatever it opens and closes above it. */
  predicate StaysAbove(s: Stack, b: ChainState, ops: seq<Op>, depth: nat)
    decreases |ops|
  {
    && depth < Depth(s)
    && (ops != [] ==>
          match Step(s, b, ops[0])
          case Some(s') => StaysAbove(s', b, ops[1..], depth)
          case None => true)
  }

  lemma StepKeepsAncestor(s: Stack, b: ChainState, op: Op, depth: nat)
    requires depth < Depth(s) && Step(s, b, op).Some? && depth < Depth(Step(s, b, op).value)
    ensures Ancestor(Step(s, b, op).value, depth) == Ancestor(s, depth)
  {
  }

  lemma {:induction false} RunKeepsAncestor(s: Stack, b: ChainState, ops: seq<Op>, depth: nat)
    requires StaysAbove(s, b, ops, depth) && Run(s, b, ops).Some?
    ensures depth < Depth(Run(s, b, ops).value)
    ensures Ancestor(Run(s, b, ops).value, depth) == Ancestor(s, depth)
    decreases |ops|
  {
    if ops != [] {
      StepKeepsAncestor(s, b, ops[0], depth);
      RunKeepsAncestor(Step(s, b, ops[0]).value, b, ops[1..], depth);
    }
  }

  /**
   From an `enter` to the revert or discard that matches it, a run leaves the
   accounts, storages, deletions and logs of every enclosing frame as they were.
   */
  lemma RevertRestoresEveryFrame(s: Stack, b: ChainState, body: seq<Op>, exit: Op)
    requires exit.ExitRevert? || exit.ExitDiscard?
    requires StaysAbove(Nested(EMPTY_FRAME, s), b, body, Depth(s))
    requires Run(Nested(EMPTY_FRAME, s), b, body).Some?
    requires Depth(Run(Nested(EMPTY_FRAME, s), b, body).value) == Depth(s) + 1
    ensures Run(s, b, [Enter] + body + [exit]) == Some(s)
  {
    var entered := Nested(EMPTY_FRAME, s);
    var t := Run(entered, b, body).value;
    RunKeepsAncestor(entered, b, body, Depth(s));
    assert t.parent == Ancestor(t, Depth(s)) == Ancestor(entered, Depth(s)) == s;
    RunConcat(s, b, [Enter] + body, [exit]);
    RunConcat(s, b, [Enter], body);
    assert Run(entered, b, []) == Some(entered);
    assert Run(s, b, [Enter]) == Some(entered);
    assert Run(t, b, [exit]) == Run(s, b, []);
  }

  // ---------- currency ----------

  /**
   Currency gone, per level: burned by `reset_balance`, and clipped off credits
   by `saturating_add`. Leaving a level by a revert takes its own losses back.
   */
  datatype Losses = Base(burned: nat, clipped: nat) | Push(burned: nat, clipped: nat, below: Losses)

  function Debited(s: Stack, b: ChainState, source: Address, value: U256): Stack
    requires CanPay(s, b, source, value)
  {
    var payer := Record(s, b, source);
    WithRecord(s, source, WithBalance(payer, payer.basic.balance - value))
  }

  /** What a transfer loses where the target cannot hold the value in full. */
  function Clipped(s: Stack, b: ChainState, source: Address, target: Address, value: U256): nat {
    if !CanPay(s, b, source, value) then 0
    else
      var held := Record(Debited(s, b, source, value), b, target).basic.balance;
      if held + value > U256_MAX then held + value - U256_MAX else 0
  }

  function LossStep(s: Stack, b: ChainState, op: Op, losses: Losses): Losses {
    match op
    case Enter => Push(losses.burned, losses.clipped, losses)
    case ExitCommit =>
      if losses.Base? then losses else losses.below.(burned := losses.burned, clipped := losses.clipped)
    case ExitRevert => if losses.Base? then losses else losses.below
    case ExitDiscard => if losses.Base? then losses else losses.below
    case ResetBalance(a) => losses.(burned := losses.burned + BasicOf(s, b, a).balance)
    case Transfer(source, target, value) =>
      losses.(clipped := losses.clipped + Clipped(s, b, source, target, value))
    case _ => losses
  }

  function Lost(s: Stack, b: ChainState, ops: seq<Op>, losses: Losses): Losses
    decreases |ops|
  {
    if ops == [] then losses
    else match Step(s, b, ops[0])
      case None => losses
      case Some(s') => Lost(s', b, ops[1..], LossStep(s, b, ops[0], losses))
  }

  ghost predicate Conserved(s: Stack, b: ChainState, losses: Losses, total: nat) {
    && Supply(View(s, b)) + losses.burned + losses.clipped == total
    && s.Nested? == losses.Push?
    && (s.Nested? ==> Conserved(s.parent, b, losses.below, total))
  }

  lemma RecordMovesSupply(s: Stack, b: ChainState, a: Address, acc: StackAccount)
    ensures Supply(View(WithRecord(s, a, acc), b)) ==
            Supply(View(s, b)) + acc.basic.balance - Record(s, b, a).basic.balance
  {
    ViewAfterRecord(s, b, a, acc);
    ViewOfRecord(s, b, a);
    SupplyUpdate(View(s, b), a, Resolve(b, a, acc));
  }

  lemma BalanceWithinSupply(s: Stack, b: ChainState, a: Address)
    ensures Record(s, b, a).basic.balance <= Supply(View(s, b))
  {
    ViewOfRecord(s, b, a);
    SumMember(Balances(View(s, b)), a);
  }

  lemma DebitMovesSupply(s: Stack, b: ChainState, source: Address, value: U256)
    requires CanPay(s, b, source, value)
    ensures Supply(View(Debited(s, b, source, value), b)) + value == Supply(View(s, b))
  {
    var payer := Record(s, b, source);
    var paid := WithBalance(payer, payer.basic.balance - value);
    assert Debited(s, b, source, value) == WithRecord(s, source, paid);
    assert paid.basic.balance == payer.basic.balance - value;
    RecordMovesSupply(s, b, source, paid);
  }

  /** A transfer keeps the supply but for what it clips, to oneself or failed included. */
  lemma TransferConserves(s: Stack, b: ChainState, source: Address, target: Address, value: U256)
    ensures Supply(View(Transferred(s, b, source, target, value), b)) + Clipped(s, b, source, target, value) ==
            Supply(View(s, b))
  {
    if CanPay(s, b, source, value) {
      DebitMovesSupply(s, b, source, value);
      var s1 := Debited(s, b, source, value);
      var payee := Record(s1, b, target);
      var credited := WithBalance(payee, SaturatingAdd(payee.basic.balance, value));
      assert Transferred(s, b, source, target, value) == WithRecord(s1, target, credited);
      assert credited.basic.balance + Clipped(s, b, source, target, value) == payee.basic.balance + value;
      RecordMovesSupply(s1, b, target, credited);
    } else {
      var payer := Record(s, b, source);
      assert Transferred(s, b, source, target, value) == WithRecord(s, source, payer);
      RecordMovesSupply(s, b, source, payer);
    }
  }

  /** With the whole supply below 2^256 `saturating_add` never clips. */
  lemma TransferNeverClips(s: Stack, b: ChainState, source: Address, target: Address, value: U256)
    requires Supply(View(s, b)) <= U256_MAX
    ensures Clipped(s, b, source, target, value) == 0
  {
    if CanPay(s, b, source, value) {
      var s1 := Debited(s, b, source, value);
      assert Supply(View(s1, b)) + value == Supply(View(s, b)) by {
        DebitMovesSupply(s, b, source, value);
      }
      BalanceWithinSupply(s1, b, target);
    }
  }

  /** Above 2^256 it may: what is sent to a full account is lost. */
  lemma FullAccountsSwallowTransfers(b: ChainState, source: Address, target: Address, value: U256)
    requires source != target && value <= b.Account(source).balance && b.Account(target).balance == U256_MAX
    ensures var s := Step(NEW_STACK, b, Transfer(source, target, value)).value;
            && BasicOf(s, b, source).balance == b.Account(source).balance - value
            && BasicOf(s, b, target).balance == U256_MAX
            && Clipped(NEW_STACK, b, source, target, value) == value
  {
  }

  /** Calls that write one record and nothing else. */
  predicate WritesRecord(op: Op) {
    op.IncNonce? || op.SetCode? || op.ResetBalance? || op.Touch?
  }

  lemma RecordOpWrites(s: Stack, b: ChainState, op: Op)
    requires WritesRecord(op) && Step(s, b, op).Some?
    ensures var acc := Step(s, b, op).value.top.accounts[op.address];
            && Step(s, b, op).value == WithRecord(s, op.address, acc)
            && acc.basic.balance == (if op.ResetBalance? then 0 else Record(s, b, op.address).basic.balance)
            && acc.basic.nonce >= Record(s, b, op.address).basic.nonce
  {
  }

  /** Calls that stay in the frame they are made in. */
  predicate StaysInFrame(op: Op) {
    !op.Enter? && !op.ExitCommit? && !op.ExitRevert? && !op.ExitDiscard?
  }

  lemma {:induction false} StepInFrame(s: Stack, b: ChainState, op: Op)
    requires StaysInFrame(op) && Step(s, b, op).Some?
    ensures var t := Step(s, b, op).value; s.Nested? == t.Nested? && (s.Nested? ==> t.parent == s.parent)
  {
  }

  /** What such a call takes out of the frame's view is what it adds to the frame's losses. */
  lemma {:induction false} StepMovesSupply(s: Stack, b: ChainState, op: Op, losses: Losses)
    requires StaysInFrame(op) && Step(s, b, op).Some?
    ensures var after := LossStep(s, b, op, losses);
            Supply(View(Step(s, b, op).value, b)) + after.burned + after.clipped ==
            Supply(View(s, b)) + losses.burned + losses.clipped
  {
    if WritesRecord(op) {
      RecordOpWrites(s, b, op);
      RecordMovesSupply(s, b, op.address, Step(s, b, op).value.top.accounts[op.address]);
      assert Record(s, b, op.address).basic.balance == BasicOf(s, b, op.address).balance;
    } else if op.Transfer? {
      TransferConserves(s, b, op.source, op.target, op.value);
    } else if op.ResetStorage? {
      var s1 := WithTop(s, s.top.(storages := DropSlots(s.top.storages, {op.address})));
      ViewAfterTop(s, b, s1.top);
      RecordMovesSupply(s1, b, op.address, Record(s1, b, op.address).(reset := true));
    } else {
      ViewAfterTop(s, b, Step(s, b, op).value.top);
    }
  }

  lemma {:induction false} StepConserves(s: Stack, b: ChainState, op: Op, losses: Losses, total: nat)
    requires Conserved(s, b, losses, total) && Step(s, b, op).Some?
    ensures Conserved(Step(s, b, op).value, b, LossStep(s, b, op, losses), total)
  {
    if StaysInFrame(op) {
      StepInFrame(s, b, op);
      StepMovesSupply(s, b, op, losses);
    } else if op.Enter? {
      ViewAfterEnter(s, b);
    } else if op.ExitCommit? {
      ViewAfterCommit(s, b);
    }
  }

  lemma {:induction false} RunConserves(s: Stack, b: ChainState, ops: seq<Op>, losses: Losses, total: nat)
    requires Conserved(s, b, losses, total) && Run(s, b, ops).Some?
    ensures Conserved(Run(s, b, ops).value, b, Lost(s, b, ops, losses), total)
    decreases |ops|
  {
    if ops != [] {
      StepConserves(s, b, ops[0], losses, total);
      RunConserves(Step(s, b, ops[0]).value, b, ops[1..], LossStep(s, b, ops[0], losses), total);
    }
  }

  predicate NoneClipped(losses: Losses) {
    losses.clipped == 0 && (losses.Push? ==> NoneClipped(losses.below))
  }

  lemma {:induction false} StepNeverClips(s: Stack, b: ChainState, op: Op, losses: Losses, total: nat)
    requires total <= U256_MAX && NoneClipped(losses) && Conserved(s, b, losses, total)
    ensures NoneClipped(LossStep(s, b, op, losses))
  {
    if op.Transfer? {
      TransferNeverClips(s, b, op.source, op.target, op.value);
    }
  }

  lemma {:induction false} RunNeverClips(s: Stack, b: ChainState, ops: seq<Op>, losses: Losses, total: nat)
    requires total <= U256_MAX && NoneClipped(losses)
    requires Conserved(s, b, losses, total)
    ensures NoneClipped(Lost(s, b, ops, losses))
    decreases |ops|
  {
    if ops != [] && Step(s, b, ops[0]).Some? {
      StepNeverClips(s, b, ops[0], losses, total);
      StepConserves(s, b, ops[0], losses, total);
      RunNeverClips(Step(s, b, ops[0]).value, b, ops[1..], LossStep(s, b, ops[0], losses), total);
    }
  }

  /**
   Over any run from a new stack, what the stack shows plus what surviving
   `reset_balance` calls destroyed and surviving transfers clipped is exactly
   what the backend held; and nothing is clipped if that is below 2^256.
   */
  lemma CurrencyIsConserved(b: ChainState, ops: seq<Op>)
    requires Run(NEW_STACK, b, ops).Some?
    ensures var lost := Lost(NEW_STACK, b, ops, Base(0, 0));
            && Supply(View(Run(NEW_STACK, b, ops).value, b)) + lost.burned + lost.clipped == Supply(b.accounts)
            && (Supply(b.accounts) <= U256_MAX ==> lost.clipped == 0)
  {
    assert View(NEW_STACK, b) == b.accounts;
    RunConserves(NEW_STACK, b, ops, Base(0, 0), Supply(b.accounts));
    if Supply(b.accounts) <= U256_MAX {
      RunNeverClips(NEW_STACK, b, ops, Base(0, 0), Supply(b.accounts));
    }
  }

  lemma {:induction false} NothingBurnedWithoutResets(s: Stack, b: ChainState, ops: seq<Op>, losses: Losses)
    requires NoneBurned(losses)
    requires forall i :: 0 <= i < |ops| ==> !ops[i].ResetBalance?
    ensures NoneBurned(Lost(s, b, ops, losses))
    decreases |ops|
  {
    if ops != [] && Step(s, b, ops[0]).Some? {
      NothingBurnedWithoutResets(Step(s, b, ops[0]).value, b, ops[1..], LossStep(s, b, ops[0], losses));
    }
  }

  predicate NoneBurned(losses: Losses) {
    losses.burned == 0 && (losses.Push? ==> NoneBurned(losses.below))
  }

  // ---------- nonces ----------

  /** Every level shows `a` with a nonce of at least `floor`. */
  predicate NonceAtLeast(s: Stack, b: ChainState, a: Address, floor: nat) {
    && floor <= BasicOf(s, b, a).nonce
    && (s.Nested? ==> NonceAtLeast(s.parent, b, a, floor))
  }

  /** A record whose nonce is no lower keeps the floor everywhere. */
  lemma RecordKeepsNonce(s: Stack, b: ChainState, x: Address, acc: StackAccount, a: Address, floor: nat)
    requires NonceAtLeast(s, b, a, floor) && acc.basic.nonce >= Record(s, b, x).basic.nonce
    ensures NonceAtLeast(WithRecord(s, x, acc), b, a, floor)
  {
  }

  lemma TransferKeepsNonce(s: Stack, b: ChainState, source: Address, target: Address, value: U256,
                           a: Address, floor: nat)
    requires NonceAtLeast(s, b, a, floor)
    ensures NonceAtLeast(Transferred(s, b, source, target, value), b, a, floor)
  {
    if CanPay(s, b, source, value) {
      var s1 := Debited(s, b, source, value);
      RecordKeepsNonce(s, b, source, s1.top.accounts[source], a, floor);
      var payee := Record(s1, b, target);
      RecordKeepsNonce(s1, b, target, WithBalance(payee, SaturatingAdd(payee.basic.balance, value)), a, floor);
    } else {
      RecordKeepsNonce(s, b, source, Record(s, b, source), a, floor);
    }
  }

  lemma {:induction false} StepKeepsNonce(s: Stack, b: ChainState, op: Op, a: Address, floor: nat)
    requires NonceAtLeast(s, b, a, floor) && Step(s, b, op).Some?
    ensures NonceAtLeast(Step(s, b, op).value, b, a, floor)
  {
    if WritesRecord(op) {
      RecordOpWrites(s, b, op);
      RecordKeepsNonce(s, b, op.address, Step(s, b, op).value.top.accounts[op.address], a, floor);
    } else if op.Transfer? {
      TransferKeepsNonce(s, b, op.source, op.target, op.value, a, floor);
    } else if op.ResetStorage? {
      var s1 := WithTop(s, s.top.(storages := DropSlots(s.top.storages, {op.address})));
      assert KnownAccount(s1, a) == KnownAccount(s, a);
      RecordKeepsNonce(s1, b, op.address, Record(s1, b, op.address).(reset := true), a, floor);
    } else if op.ExitCommit? {
      KnownAfterCommit(s, a);
    }
  }

  lemma {:induction false} RunKeepsNonce(s: Stack, b: ChainState, ops: seq<Op>, a: Address, floor: nat)
    requires NonceAtLeast(s, b, a, floor) && Run(s, b, ops).Some?
    ensures NonceAtLeast(Run(s, b, ops).value, b, a, floor)
    decreases |ops|
  {
    if ops != [] {
      StepKeepsNonce(s, b, ops[0], a, floor);
      RunKeepsNonce(Step(s, b, ops[0]).value, b, ops[1..], a, floor);
    }
  }
}
