/**
 The layered journal of one EVM run (src/ethvm/impls/stack.rs), as values: a
 stack of partial overlays over a backend, the reads that fall through it, and
 the effect of each call the executor can make on it.
 */
module Journal {
  import opened Wrappers
  import opened EvmTypes

  datatype Basic = Basic(balance: U256, nonce: U256)

  datatype StackAccount = StackAccount(basic: Basic, code: Option<Bytes>, reset: bool)

  datatype Frame = Frame(
    accounts: map<Address, StackAccount>,
    storages: map<Slot, H256>,
    deletes: set<Address>,
    logs: seq<Log>)

  const EMPTY_FRAME := Frame(map[], map[], {}, [])

  datatype Stack = Root(top: Frame) | Nested(top: Frame, parent: Stack)

  const NEW_STACK := Root(EMPTY_FRAME)

  // ---------- reads of the overlays alone ----------

  function KnownAccount(s: Stack, a: Address): Option<StackAccount> {
    if a in s.top.accounts then Some(s.top.accounts[a])
    else if s.Nested? then KnownAccount(s.parent, a)
    else None
  }

  predicate Resets(f: Frame, a: Address) {
    a in f.accounts && f.accounts[a].reset
  }

  function KnownStorage(s: Stack, slot: Slot): Option<H256> {
    if slot in s.top.storages then Some(s.top.storages[slot])
    else if Resets(s.top, slot.address) then Some(0)
    else if s.Nested? then KnownStorage(s.parent, slot)
    else None
  }

  function KnownOriginalStorage(s: Stack, slot: Slot): Option<H256> {
    if Resets(s.top, slot.address) then Some(0)
    else if s.Nested? then KnownOriginalStorage(s.parent, slot)
    else None
  }

  function KnownEmpty(s: Stack, a: Address): Option<bool> {
    match KnownAccount(s, a)
    case None => None
    case Some(acc) =>
      if acc.basic.balance != 0 || acc.basic.nonce != 0 then Some(false)
      else if acc.code.Some? then Some(acc.code.value == [])
      else None
  }

  predicate Deleted(s: Stack, a: Address) {
    a in s.top.deletes || (s.Nested? && Deleted(s.parent, a))
  }

  /** The logs of all frames, outermost first. */
  function AllLogs(s: Stack): seq<Log> {
    if s.Root? then s.top.logs else AllLogs(s.parent) + s.top.logs
  }

  function Depth(s: Stack): nat {
    if s.Root? then 0 else 1 + Depth(s.parent)
  }

  // ---------- reads with backend fallback ----------

  function BackendBasic(b: ChainState, a: Address): Basic {
    Basic(b.Account(a).balance, b.Account(a).nonce)
  }

  predicate Exists(s: Stack, b: ChainState, a: Address) {
    KnownAccount(s, a).Some? || a in b.accounts
  }

  function BasicOf(s: Stack, b: ChainState, a: Address): Basic {
    match KnownAccount(s, a)
    case Some(acc) => acc.basic
    case None => BackendBasic(b, a)
  }

  function CodeOf(s: Stack, b: ChainState, a: Address): Bytes {
    match KnownAccount(s, a)
    case Some(acc) => acc.code.GetOr(b.Account(a).code)
    case None => b.Account(a).code
  }

  function StorageOf(s: Stack, b: ChainState, slot: Slot): H256 {
    KnownStorage(s, slot).GetOr(b.Storage(slot))
  }

  function OriginalStorageOf(s: Stack, b: ChainState, slot: Slot): H256 {
    KnownOriginalStorage(s, slot).GetOr(b.Storage(slot))
  }

  predicate IsEmpty(s: Stack, b: ChainState, a: Address) {
    match KnownEmpty(s, a)
    case Some(empty) => empty
    case None => b.Account(a) == DEFAULT_ACCOUNT
  }

  // ---------- the calls ----------

  datatype Op =
    | Enter
    | ExitCommit
    | ExitRevert
    | ExitDiscard
    | IncNonce(address: Address)
    | SetStorage(slot: Slot, word: H256)
    | ResetStorage(address: Address)
    | EmitLog(log: Log)
    | SetDeleted(address: Address)
    | SetCode(address: Address, code: Bytes)
    | Transfer(source: Address, target: Address, value: U256)
    | ResetBalance(address: Address)
    | Touch(address: Address)

  /** The record `account_mut` hands out: a copy from below forgets `reset`. */
  function Record(s: Stack, b: ChainState, a: Address): StackAccount {
    if a in s.top.accounts then s.top.accounts[a]
    else match KnownAccount(s, a)
      case Some(acc) => acc.(reset := false)
      case None => StackAccount(BackendBasic(b, a), None, false)
  }

  function WithTop(s: Stack, f: Frame): Stack {
    s.(top := f)
  }

  function WithRecord(s: Stack, a: Address, acc: StackAccount): Stack {
    WithTop(s, s.top.(accounts := s.top.accounts[a := acc]))
  }

  function WithBalance(acc: StackAccount, balance: U256): StackAccount {
    acc.(basic := acc.basic.(balance := balance))
  }

  function DropSlots(storages: map<Slot, H256>, addresses: set<Address>): map<Slot, H256> {
    map slot | slot in storages && slot.address !in addresses :: storages[slot]
  }

  function ResetAddresses(f: Frame): set<Address> {
    set a | a in f.accounts && f.accounts[a].reset
  }

  /** The frame `exit_commit` leaves: the child laid over its parent. */
  function Merge(child: Frame, parent: Frame): Frame {
    Frame(
      parent.accounts + child.accounts,
      DropSlots(parent.storages, ResetAddresses(child)) + child.storages,
      parent.deletes + child.deletes,
      parent.logs + child.logs)
  }

  function Commit(s: Stack): Stack
    requires s.Nested?
  {
    WithTop(s.parent, Merge(s.top, s.parent.top))
  }

  predicate CanPay(s: Stack, b: ChainState, source: Address, value: U256) {
    Record(s, b, source).basic.balance >= value
  }

  /** A failed transfer still leaves a record for its source. */
  function Transferred(s: Stack, b: ChainState, source: Address, target: Address, value: U256): Stack {
    var payer := Record(s, b, source);
    if payer.basic.balance < value then WithRecord(s, source, payer)
    else
      var s1 := WithRecord(s, source, WithBalance(payer, payer.basic.balance - value));
      var payee := Record(s1, b, target);
      WithRecord(s1, target, WithBalance(payee, SaturatingAdd(payee.basic.balance, value)))
  }

  /** The stack after one call; None where the source panics. */
  function Step(s: Stack, b: ChainState, op: Op): Option<Stack> {
    match op
    case Enter => Some(Nested(EMPTY_FRAME, s))
    case ExitCommit => if s.Root? then None else Some(Commit(s))
    case ExitRevert => if s.Root? then None else Some(s.parent)
    case ExitDiscard => if s.Root? then None else Some(s.parent)
    case IncNonce(a) =>
      var acc := Record(s, b, a);
      if acc.basic.nonce == U256_MAX then None
      else Some(WithRecord(s, a, acc.(basic := acc.basic.(nonce := acc.basic.nonce + 1))))
    case SetStorage(slot, word) => Some(WithTop(s, s.top.(storages := s.top.storages[slot := word])))
    case ResetStorage(a) =>
      var s1 := WithTop(s, s.top.(storages := DropSlots(s.top.storages, {a})));
      Some(WithRecord(s1, a, Record(s1, b, a).(reset := true)))
    case EmitLog(log) => Some(WithTop(s, s.top.(logs := s.top.logs + [log])))
    case SetDeleted(a) => Some(WithTop(s, s.top.(deletes := s.top.deletes + {a})))
    case SetCode(a, code) => Some(WithRecord(s, a, Record(s, b, a).(code := Some(code))))
    case Transfer(source, target, value) => Some(Transferred(s, b, source, target, value))
    case ResetBalance(a) => Some(WithRecord(s, a, WithBalance(Record(s, b, a), 0)))
    case Touch(a) => Some(WithRecord(s, a, Record(s, b, a)))
  }

  /** A whole run of calls; None as soon as one panics. */
  function Run(s: Stack, b: ChainState, ops: seq<Op>): Option<Stack>
    decreases |ops|
  {
    if ops == [] then Some(s)
    else match Step(s, b, ops[0])
      case None => None
      case Some(s') => Run(s', b, ops[1..])
  }

  // ---------- the accounts a stack shows ----------

  function Recorded(s: Stack): set<Address> {
    s.top.accounts.Keys + if s.Nested? then Recorded(s.parent) else {}
  }

  function ViewAt(s: Stack, b: ChainState, a: Address): OvrAccount {
    var basic := BasicOf(s, b, a);
    OvrAccount(basic.nonce, basic.balance, CodeOf(s, b, a))
  }

  /** Every account that exists for a reader of the stack. */
  function View(s: Stack, b: ChainState): map<Address, OvrAccount> {
    map a | a in b.accounts.Keys + Recorded(s) :: ViewAt(s, b, a)
  }

  lemma {:induction false} RecordedIsKnown(s: Stack, a: Address)
    ensures a in Recorded(s) <==> KnownAccount(s, a).Some?
  {
    if s.Nested? {
      RecordedIsKnown(s.parent, a);
    }
  }

  lemma ViewIsReads(s: Stack, b: ChainState, a: Address)
    ensures a in View(s, b) <==> Exists(s, b, a)
    ensures a in View(s, b) ==> View(s, b)[a] == ViewAt(s, b, a)
    ensures a !in View(s, b) ==> ViewAt(s, b, a) == DEFAULT_ACCOUNT
  {
    RecordedIsKnown(s, a);
  }

  function Resolve(b: ChainState, a: Address, acc: StackAccount): OvrAccount {
    OvrAccount(acc.basic.nonce, acc.basic.balance, acc.code.GetOr(b.Account(a).code))
  }

  lemma ViewOfRecord(s: Stack, b: ChainState, a: Address)
    ensures Resolve(b, a, Record(s, b, a)) == Lookup(View(s, b), a).GetOr(DEFAULT_ACCOUNT)
  {
    ViewIsReads(s, b, a);
  }

  /** Writing a record changes the view at that address and nowhere else. */
  lemma ViewAfterRecord(s: Stack, b: ChainState, a: Address, acc: StackAccount)
    ensures View(WithRecord(s, a, acc), b) == View(s, b)[a := Resolve(b, a, acc)]
  {
  }

  lemma ViewAfterTop(s: Stack, b: ChainState, f: Frame)
    requires f.accounts == s.top.accounts
    ensures View(WithTop(s, f), b) == View(s, b)
  {
  }

  lemma ViewAfterEnter(s: Stack, b: ChainState)
    ensures View(Nested(EMPTY_FRAME, s), b) == View(s, b)
  {
  }

  lemma KnownAfterCommit(s: Stack, a: Address)
    requires s.Nested?
    ensures KnownAccount(Commit(s), a) == KnownAccount(s, a)
  {
  }

  lemma ViewAfterCommit(s: Stack, b: ChainState)
    requires s.Nested?
    ensures View(Commit(s), b) == View(s, b)
  {
    forall x ensures KnownAccount(Commit(s), x) == KnownAccount(s, x) {
      KnownAfterCommit(s, x);
    }
    assert Recorded(Commit(s)) == Recorded(s);
  }

  // ---------- emptiness ----------

  /**
   `is_empty` never calls a non-empty account empty. The converse fails exactly
   for a recorded account with zero balance and nonce and no code of its own
   over a backend account that is not itself empty.
   */
  lemma IsEmptyIsOneSided(s: Stack, b: ChainState, a: Address)
    ensures IsEmpty(s, b, a) <==>
            && ViewAt(s, b, a) == DEFAULT_ACCOUNT
            && !(KnownAccount(s, a).Some? && KnownAccount(s, a).value.code.None? && b.Account(a) != DEFAULT_ACCOUNT)
  {
  }
}
