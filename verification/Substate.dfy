/**
 The journal as the source keeps it: a chain of mutable substates, each boxing
 its parent. Every method is proved to do to the chain what `Journal` says.
 */
module Substate {
  import opened Wrappers
  import opened EvmTypes
  import opened Journal
  import opened Flush

  class OvrStackSubstate {
    var parent: OvrStackSubstate?
    var accounts: map<Address, StackAccount>
    var storages: map<Slot, H256>
    var deletes: set<Address>
    var logs: seq<Log>
    ghost var Repr: set<object>

    ghost predicate Valid()
      reads this, Repr
      ensures Valid() ==> this in Repr
      decreases Repr
    {
      && this in Repr
      && (parent != null ==>
            && parent in Repr && parent.Repr <= Repr && this !in parent.Repr
            && parent.Valid())
    }

    function Top(): Frame
      reads this
    {
      Frame(accounts, storages, deletes, logs)
    }

    ghost function Layers(): Stack
      requires Valid()
      reads this, Repr
      decreases Repr
    {
      if parent == null then Root(Top()) else Nested(Top(), parent.Layers())
    }

    constructor ()
      ensures Valid() && fresh(Repr)
      ensures Layers() == NEW_STACK
    {
      parent := null;
      accounts, storages, deletes, logs := map[], map[], {}, [];
      Repr := {this};
    }

    constructor Boxed(parent: OvrStackSubstate?, frame: Frame)
      requires parent != null ==> parent.Valid()
      ensures Valid() && fresh(Repr - if parent == null then {} else parent.Repr)
      ensures Repr == {this} + if parent == null then {} else parent.Repr
      ensures Layers() == if parent == null then Root(frame) else Nested(frame, parent.Layers())
    {
      this.parent := parent;
      accounts, storages, deletes, logs := frame.accounts, frame.storages, frame.deletes, frame.logs;
      Repr := {this} + if parent == null then {} else parent.Repr;
    }

    // ---------- entering and leaving ----------

    /** The substate's contents move into a new box, which becomes its parent. */
    method Enter()
      requires Valid()
      modifies this
      ensures Valid() && fresh(Repr - old(Repr))
      ensures Layers() == Nested(EMPTY_FRAME, old(Layers()))
    {
      var entering := new OvrStackSubstate.Boxed(parent, Top());
      Clear(entering);
    }

    /** Starts empty over a box. */
    method Clear(box: OvrStackSubstate)
      requires box.Valid() && this !in box.Repr
      modifies this
      ensures Valid() && Repr == {this} + box.Repr
      ensures Layers() == Nested(EMPTY_FRAME, old(box.Layers()))
    {
      accounts, storages, deletes, logs := map[], map[], {}, [];
      parent := box;
      Repr := {this} + box.Repr;
    }

    /** Takes the parent's contents back into this object and hands out what it held itself. */
    method Leave() returns (exited: Frame)
      requires Valid() && parent != null
      modifies this
      ensures Valid() && Repr <= old(Repr)
      ensures exited == old(Top()) && Layers() == old(parent.Layers())
    {
      exited := Top();
      var box := parent;
      accounts, storages, deletes, logs := box.accounts, box.storages, box.deletes, box.logs;
      parent := box.parent;
      Repr := {this} + if parent == null then {} else parent.Repr;
    }

    method ExitRevert()
      requires Valid() && parent != null
      modifies this
      ensures Valid() && Repr <= old(Repr)
      ensures Layers() == old(Layers()).parent
    {
      var _ := Leave();
    }

    method ExitDiscard()
      requires Valid() && parent != null
      modifies this
      ensures Valid() && Repr <= old(Repr)
      ensures Layers() == old(Layers()).parent
    {
      var _ := Leave();
    }

    method ExitCommit()
      requires Valid() && parent != null
      modifies this
      ensures Valid() && Repr <= old(Repr)
      ensures Layers() == Commit(old(Layers()))
    {
      var exited := Leave();
      TakeIn(exited);
    }

    /** Lays a frame that was left over this one. */
    method TakeIn(exited: Frame)
      requires Valid()
      modifies this`accounts, this`storages, this`deletes, this`logs
      ensures Valid() && Top() == Merge(exited, old(Top()))
      ensures Layers() == WithTop(old(Layers()), Merge(exited, old(Top())))
    {
      ghost var parentTop := Top();
      logs := logs + exited.logs;
      var resets := CollectResets(exited.accounts);
      DropStorages(resets);
      accounts := accounts + exited.accounts;
      storages := storages + exited.storages;
      deletes := deletes + exited.deletes;
      assert resets == ResetAddresses(exited);
      assert Top() == Merge(exited, parentTop);
    }

    static method CollectResets(accounts: map<Address, StackAccount>) returns (resets: set<Address>)
      ensures resets == ResetAddresses(Frame(accounts, map[], {}, []))
    {
      resets := {};
      var rest := accounts.Keys;
      while rest != {}
        invariant rest <= accounts.Keys
        invariant resets == set a | a in accounts && a !in rest && accounts[a].reset
        decreases |rest|
      {
        var a :| a in rest;
        rest := rest - {a};
        if accounts[a].reset {
          resets := resets + {a};
        }
      }
    }

    method SlotsOn(addresses: set<Address>) returns (keys: set<Slot>)
      ensures keys == set slot | slot in storages && slot.address in addresses
    {
      keys := {};
      var rest := storages.Keys;
      while rest != {}
        invariant rest <= storages.Keys
        invariant keys == set slot | slot in storages && slot !in rest && slot.address in addresses
        decreases |rest|
      {
        var slot :| slot in rest;
        rest := rest - {slot};
        if slot.address in addresses {
          keys := keys + {slot};
        }
      }
    }

    /** Collects the slots of the given addresses, then removes them one by one. */
    method DropStorages(addresses: set<Address>)
      requires Valid()
      modifies this`storages
      ensures storages == DropSlots(old(storages), addresses)
      ensures Valid()
    {
      var keys := SlotsOn(addresses);
      ghost var kept := DropSlots(storages, addresses);
      while keys != {}
        invariant keys == set slot | slot in storages && slot.address in addresses
        invariant DropSlots(storages, addresses) == kept
        decreases |keys|
      {
        var slot :| slot in keys;
        DropOneSlot(storages, addresses, slot);
        keys := keys - {slot};
        storages := storages - {slot};
      }
      assert forall slot :: slot in storages ==> (slot in keys <==> slot.address in addresses);
    }

    // ---------- queries ----------

    function KnownAccount(a: Address): (r: Option<StackAccount>)
      requires Valid()
      reads this, Repr
      ensures r == Journal.KnownAccount(Layers(), a)
      decreases Repr
    {
      if a in accounts then Some(accounts[a])
      else if parent != null then parent.KnownAccount(a)
      else None
    }

    function KnownStorage(slot: Slot): (r: Option<H256>)
      requires Valid()
      reads this, Repr
      ensures r == Journal.KnownStorage(Layers(), slot)
      decreases Repr
    {
      if slot in storages then Some(storages[slot])
      else if slot.address in accounts && accounts[slot.address].reset then Some(0)
      else if parent != null then parent.KnownStorage(slot)
      else None
    }

    function KnownOriginalStorage(slot: Slot): (r: Option<H256>)
      requires Valid()
      reads this, Repr
      ensures r == Journal.KnownOriginalStorage(Layers(), slot)
      decreases Repr
    {
      if slot.address in accounts && accounts[slot.address].reset then Some(0)
      else if parent != null then parent.KnownOriginalStorage(slot)
      else None
    }

    function KnownEmpty(a: Address): (r: Option<bool>)
      requires Valid()
      reads this, Repr
      ensures r == Journal.KnownEmpty(Layers(), a)
    {
      var known := KnownAccount(a);
      if known.None? then None
      else if known.value.basic.balance != 0 then Some(false)
      else if known.value.basic.nonce != 0 then Some(false)
      else if known.value.code.Some? then Some(known.value.code.value == [])
      else None
    }

    predicate Deleted(a: Address)
      requires Valid()
      reads this, Repr
      ensures Deleted(a) == Journal.Deleted(Layers(), a)
      decreases Repr
    {
      a in deletes || (parent != null && parent.Deleted(a))
    }

    // ---------- mutators ----------

    method AccountMut(a: Address, b: ChainState) returns (acc: StackAccount)
      requires Valid()
      modifies this`accounts
      ensures Valid()
      ensures acc == Record(old(Layers()), b, a)
      ensures Layers() == WithRecord(old(Layers()), a, acc)
    {
      var known := KnownAccount(a);
      if a !in accounts {
        acc := match known
          case Some(v) => v.(reset := false)
          case None => StackAccount(Basic(b.Account(a).balance, b.Account(a).nonce), None, false);
        accounts := accounts[a := acc];
      } else {
        acc := accounts[a];
        assert accounts == accounts[a := acc];
      }
    }

    /** Writes through the record `AccountMut` handed out. */
    method PutRecord(a: Address, acc: StackAccount, ghost before: Stack, ghost was: StackAccount)
      requires Valid() && Layers() == WithRecord(before, a, was)
      modifies this`accounts
      ensures Valid() && Layers() == WithRecord(before, a, acc)
    {
      accounts := accounts[a := acc];
      assert before.top.accounts[a := was][a := acc] == before.top.accounts[a := acc];
    }

    /** False where the source panics on overflow. */
    method IncNonce(a: Address, b: ChainState) returns (ok: bool)
      requires Valid()
      modifies this
      ensures Valid() && Repr == old(Repr)
      ensures ok == Step(old(Layers()), b, Op.IncNonce(a)).Some?
      ensures ok ==> Layers() == Step(old(Layers()), b, Op.IncNonce(a)).value
    {
      var acc := AccountMut(a, b);
      ok := acc.basic.nonce != U256_MAX;
      if ok {
        PutRecord(a, acc.(basic := acc.basic.(nonce := acc.basic.nonce + 1)), old(Layers()), acc);
      }
    }

    method SetStorage(slot: Slot, word: H256)
      requires Valid()
      modifies this
      ensures Valid() && Repr == old(Repr)
      ensures Some(Layers()) == Step(old(Layers()), EMPTY_STATE, Op.SetStorage(slot, word))
    {
      storages := storages[slot := word];
    }

    method ResetStorage(a: Address, b: ChainState)
      requires Valid()
      modifies this
      ensures Valid() && Repr == old(Repr)
      ensures Some(Layers()) == Step(old(Layers()), b, Op.ResetStorage(a))
    {
      DropStorages({a});
      ghost var cleared := WithTop(old(Layers()), old(Top()).(storages := DropSlots(old(storages), {a})));
      assert Layers() == cleared;
      var acc := AccountMut(a, b);
      PutRecord(a, acc.(reset := true), cleared, acc);
    }

    method EmitLog(log: Log)
      requires Valid()
      modifies this
      ensures Valid() && Repr == old(Repr)
      ensures Some(Layers()) == Step(old(Layers()), EMPTY_STATE, Op.EmitLog(log))
    {
      logs := logs + [log];
    }

    method SetDeleted(a: Address)
      requires Valid()
      modifies this
      ensures Valid() && Repr == old(Repr)
      ensures Some(Layers()) == Step(old(Layers()), EMPTY_STATE, Op.SetDeleted(a))
    {
      deletes := deletes + {a};
    }

    method SetCode(a: Address, code: Bytes, b: ChainState)
      requires Valid()
      modifies this
      ensures Valid() && Repr == old(Repr)
      ensures Some(Layers()) == Step(old(Layers()), b, Op.SetCode(a, code))
    {
      var acc := AccountMut(a, b);
      PutRecord(a, acc.(code := Some(code)), old(Layers()), acc);
    }

    /** False for `OutOfFund`; the source's record is created either way. */
    method Transfer(source: Address, target: Address, value: U256, b: ChainState) returns (paid: bool)
      requires Valid()
      modifies this
      ensures Valid() && Repr == old(Repr)
      ensures paid == CanPay(old(Layers()), b, source, value)
      ensures Layers() == Transferred(old(Layers()), b, source, target, value)
    {
      var payer := AccountMut(source, b);
      paid := payer.basic.balance >= value;
      if paid {
        PutRecord(source, WithBalance(payer, payer.basic.balance - value), old(Layers()), payer);
        ghost var debited := Layers();
        var payee := AccountMut(target, b);
        PutRecord(target, WithBalance(payee, SaturatingAdd(payee.basic.balance, value)), debited, payee);
      }
    }

    method ResetBalance(a: Address, b: ChainState)
      requires Valid()
      modifies this
      ensures Valid() && Repr == old(Repr)
      ensures Some(Layers()) == Step(old(Layers()), b, Op.ResetBalance(a))
    {
      var acc := AccountMut(a, b);
      PutRecord(a, WithBalance(acc, 0), old(Layers()), acc);
    }

    method Touch(a: Address, b: ChainState)
      requires Valid()
      modifies this
      ensures Valid() && Repr == old(Repr)
      ensures Some(Layers()) == Step(old(Layers()), b, Op.Touch(a))
    {
      var _ := AccountMut(a, b);
    }

    // ---------- the change list ----------

    /** The addresses with a record or a slot of their own. */
    method TouchedAddresses() returns (addresses: set<Address>)
      requires Valid()
      ensures addresses == Touched(Top())
    {
      addresses := accounts.Keys;
      var slots := storages.Keys;
      while slots != {}
        invariant slots <= storages.Keys
        invariant addresses == accounts.Keys + set slot | slot in storages && slot !in slots :: slot.address
        decreases |slots|
      {
        var slot :| slot in slots;
        slots := slots - {slot};
        addresses := addresses + {slot.address};
      }
    }

    /** Lists the change of one address unless it was deleted; the record this may create says nothing new. */
    method ModifyOne(a: Address, b: ChainState, ghost f: Frame, applies: seq<Apply>,
                     ghost all: set<Address>, ghost rest: set<Address>)
      returns (longer: seq<Apply>)
      requires Valid() && parent == null
      requires SameRecords(f, Top(), b) && storages == f.storages && deletes == f.deletes
      requires a in rest && rest <= all && ListsChanges(f, b, applies, all - rest - deletes)
      modifies this`accounts
      ensures Valid() && SameRecords(f, Top(), b)
      ensures ListsChanges(f, b, longer, all - (rest - {a}) - deletes)
    {
      MoveOne(all, rest, deletes, a);
      if a in deletes {
        return applies;
      }
      RecordingChangesNoRecord(f, Top(), b, a);
      var acc := AccountMut(a, b);
      ListOneMore(f, b, applies, all - rest - deletes, a);
      longer := applies + [Modify(a, acc.basic, acc.code, SlotsOf(Top(), a), acc.reset)];
    }

    /** One `Modify` for each of these addresses that was not deleted. */
    method Modifications(addresses: set<Address>, b: ChainState) returns (applies: seq<Apply>)
      requires Valid() && parent == null
      modifies this`accounts
      ensures ListsChanges(old(Top()), b, applies, addresses - deletes)
    {
      ghost var f := Top();
      var rest := addresses;
      applies := [];
      assert addresses - addresses - deletes == {};
      while rest != {}
        invariant Valid() && rest <= addresses
        invariant SameRecords(f, Top(), b)
        invariant ListsChanges(f, b, applies, addresses - rest - deletes)
        decreases |rest|
      {
        var a :| a in rest;
        applies := ModifyOne(a, b, f, applies, addresses, rest);
        rest := rest - {a};
      }
      assert addresses - {} - deletes == addresses - deletes;
    }

    /** One `Delete` for each deleted address, after the modifications. */
    method Deletions(ghost f: Frame, b: ChainState, modified: seq<Apply>, ghost done: set<Address>)
      returns (applies: seq<Apply>)
      requires deletes == f.deletes && done !! f.deletes
      requires ListsChanges(f, b, modified, done)
      ensures ListsChanges(f, b, applies, done + f.deletes)
    {
      applies := modified;
      var doomed := deletes;
      ghost var listed := done;
      while doomed != {}
        invariant doomed <= f.deletes && listed == done + (f.deletes - doomed)
        invariant ListsChanges(f, b, applies, listed)
        decreases |doomed|
      {
        var a :| a in doomed;
        assert a !in listed && ChangeOf(f, b, a) == Delete(a);
        ListOneMore(f, b, applies, listed, a);
        applies := applies + [Delete(a)];
        DoomOne(done, f.deletes, doomed, a);
        doomed := doomed - {a};
        listed := listed + {a};
      }
      assert listed == done + f.deletes;
    }

    /** The logs, and one change for each touched or deleted address. */
    method Deconstruct(b: ChainState) returns (applies: seq<Apply>, out: seq<Log>)
      requires Valid() && parent == null
      modifies this`accounts
      ensures IsChangeList(old(Top()), b, applies) && out == old(logs)
    {
      ghost var f := Top();
      var addresses := TouchedAddresses();
      ghost var done := addresses - deletes;
      applies := Modifications(addresses, b);
      applies := Deletions(f, b, applies, done);
      assert done + f.deletes == Touched(f) + f.deletes;
      out := logs;
    }
  }

  lemma DoomOne(done: set<Address>, deletes: set<Address>, doomed: set<Address>, a: Address)
    requires a in doomed && doomed <= deletes
    ensures done + (deletes - doomed) + {a} == done + (deletes - (doomed - {a}))
  {
  }

  lemma DropOneSlot(storages: map<Slot, H256>, addresses: set<Address>, slot: Slot)
    requires slot in storages && slot.address in addresses
    ensures DropSlots(storages - {slot}, addresses) == DropSlots(storages, addresses)
    ensures (set x | x in storages - {slot} && x.address in addresses) ==
            (set x | x in storages && x.address in addresses) - {slot}
  {
  }

  /** `g` is `f` with some of the records it implies written out. */
  ghost predicate SameRecords(f: Frame, g: Frame, b: ChainState) {
    && f.accounts.Keys <= g.accounts.Keys
    && forall a :: a in g.accounts ==> g.accounts[a] == Record(Root(f), b, a)
  }

  lemma RecordingChangesNoRecord(f: Frame, g: Frame, b: ChainState, a: Address)
    requires SameRecords(f, g, b)
    ensures Record(Root(g), b, a) == Record(Root(f), b, a)
    ensures SameRecords(f, g.(accounts := g.accounts[a := Record(Root(g), b, a)]), b)
  {
  }

  lemma MoveOne(all: set<Address>, rest: set<Address>, skipped: set<Address>, a: Address)
    requires a in rest && rest <= all
    ensures a in skipped ==> all - (rest - {a}) - skipped == all - rest - skipped
    ensures a !in skipped ==> all - (rest - {a}) - skipped == all - rest - skipped + {a}
  {
  }

  /** The journal with its backend, as the executor drives it. */
  class OvrStackState {
    const backend: ChainState
    const substate: OvrStackSubstate

    constructor (backend: ChainState)
      ensures this.backend == backend
      ensures substate.Valid() && fresh(substate) && fresh(substate.Repr) && this !in substate.Repr
      ensures substate.Layers() == NEW_STACK
    {
      this.backend := backend;
      substate := new OvrStackSubstate();
    }

    predicate Exists(a: Address)
      requires substate.Valid()
      reads substate, substate.Repr
      ensures Exists(a) == Journal.Exists(substate.Layers(), backend, a)
    {
      substate.KnownAccount(a).Some? || a in backend.accounts
    }

    function Basic(a: Address): (r: Basic)
      requires substate.Valid()
      reads substate, substate.Repr
      ensures r == BasicOf(substate.Layers(), backend, a)
    {
      match substate.KnownAccount(a)
      case Some(acc) => acc.basic
      case None => BackendBasic(backend, a)
    }

    function Code(a: Address): (r: Bytes)
      requires substate.Valid()
      reads substate, substate.Repr
      ensures r == CodeOf(substate.Layers(), backend, a)
    {
      var known := substate.KnownAccount(a);
      if known.Some? && known.value.code.Some? then known.value.code.value else backend.Account(a).code
    }

    function Storage(slot: Slot): (r: H256)
      requires substate.Valid()
      reads substate, substate.Repr
      ensures r == StorageOf(substate.Layers(), backend, slot)
    {
      substate.KnownStorage(slot).GetOr(backend.Storage(slot))
    }

    function OriginalStorage(slot: Slot): (r: H256)
      requires substate.Valid()
      reads substate, substate.Repr
      ensures r == OriginalStorageOf(substate.Layers(), backend, slot)
    {
      substate.KnownOriginalStorage(slot).GetOr(backend.Storage(slot))
    }

    predicate IsEmpty(a: Address)
      requires substate.Valid()
      reads substate, substate.Repr
      ensures IsEmpty(a) == Journal.IsEmpty(substate.Layers(), backend, a)
    {
      var known := substate.KnownEmpty(a);
      if known.Some? then known.value
      else backend.Account(a).balance == 0 && backend.Account(a).nonce == 0 && |backend.Account(a).code| == 0
    }

    /** One call of the executor; false where the source panics. */
    method Call(op: Op) returns (ok: bool)
      requires substate.Valid()
      modifies substate
      ensures substate.Valid() && fresh(substate.Repr - old(substate.Repr))
      ensures ok == Step(old(substate.Layers()), backend, op).Some?
      ensures ok ==> substate.Layers() == Step(old(substate.Layers()), backend, op).value
    {
      ok := true;
      match op {
        case Enter => substate.Enter();
        case ExitCommit => ok := substate.parent != null; if ok { substate.ExitCommit(); }
        case ExitRevert => ok := substate.parent != null; if ok { substate.ExitRevert(); }
        case ExitDiscard => ok := substate.parent != null; if ok { substate.ExitDiscard(); }
        case IncNonce(a) => ok := substate.IncNonce(a, backend);
        case SetStorage(slot, word) => substate.SetStorage(slot, word);
        case ResetStorage(a) => substate.ResetStorage(a, backend);
        case EmitLog(log) => substate.EmitLog(log);
        case SetDeleted(a) => substate.SetDeleted(a);
        case SetCode(a, code) => substate.SetCode(a, code, backend);
        case Transfer(source, target, value) => var _ := substate.Transfer(source, target, value, backend);
        case ResetBalance(a) => substate.ResetBalance(a, backend);
        case Touch(a) => substate.Touch(a, backend);
      }
    }

    /** Any finite sequence of calls the executor makes. */
    method Drive(ops: seq<Op>) returns (ok: bool)
      requires substate.Valid()
      modifies substate
      ensures substate.Valid() && fresh(substate.Repr - old(substate.Repr))
      ensures ok == Run(old(substate.Layers()), backend, ops).Some?
      ensures ok ==> substate.Layers() == Run(old(substate.Layers()), backend, ops).value
    {
      ok := true;
      var i := 0;
      while i < |ops|
        invariant 0 <= i <= |ops|
        invariant substate.Valid() && fresh(substate.Repr - old(substate.Repr))
        invariant Run(substate.Layers(), backend, ops[i..]) == Run(old(substate.Layers()), backend, ops)
      {
        assert ops[i..][1..] == ops[i + 1..];
        ok := Call(ops[i]);
        if !ok { return; }
        i := i + 1;
      }
    }
  }
}
