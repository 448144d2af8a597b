/**
 Turning the root frame into a change list and writing that list to the
 backend (src/ethvm/impls/stack.rs `deconstruct`, src/ethvm/impls/backend.rs `apply`).
 */
module Flush {
  import opened Wrappers
  import opened FiniteSums
  import opened EvmTypes
  import opened Journal

  datatype Apply =
    | Modify(address: Address, basic: Basic, code: Option<Bytes>, storage: map<H256, H256>, resetStorage: bool)
    | Delete(address: Address)

  // ---------- the change list ----------

  function Touched(f: Frame): set<Address> {
    f.accounts.Keys + set slot | slot in f.storages :: slot.address
  }

  function SlotsOf(f: Frame, a: Address): map<H256, H256> {
    map slot | slot in f.storages && slot.address == a :: slot.key := f.storages[slot]
  }

  function ChangeOf(f: Frame, b: ChainState, a: Address): Apply {
    if a in f.deletes then Delete(a)
    else
      var acc := Record(Root(f), b, a);
      Modify(a, acc.basic, acc.code, SlotsOf(f, a), acc.reset)
  }

  /** One change for each address in `done` and no other; the order is left open. */
  ghost predicate ListsChanges(f: Frame, b: ChainState, applies: seq<Apply>, done: set<Address>) {
    if applies == [] then done == {}
    else
      var last := applies[|applies| - 1];
      && last.address in done
      && last == ChangeOf(f, b, last.address)
      && ListsChanges(f, b, applies[..|applies| - 1], done - {last.address})
  }

  lemma ListOneMore(f: Frame, b: ChainState, applies: seq<Apply>, done: set<Address>, a: Address)
    requires ListsChanges(f, b, applies, done) && a !in done
    ensures ListsChanges(f, b, applies + [ChangeOf(f, b, a)], done + {a})
  {
  }

  ghost predicate IsChangeList(f: Frame, b: ChainState, applies: seq<Apply>) {
    ListsChanges(f, b, applies, Touched(f) + f.deletes)
  }

  lemma {:induction false} ListedCover(f: Frame, b: ChainState, applies: seq<Apply>, done: set<Address>, a: Address)
    requires ListsChanges(f, b, applies, done)
    ensures a in done <==> exists i :: 0 <= i < |applies| && applies[i].address == a
  {
    if applies == [] {
      assert a !in done;
    } else {
      var n := |applies| - 1;
      var last := applies[n].address;
      ListedCover(f, b, applies[..n], done - {last}, a);
      if a in done && a != last {
        var i :| 0 <= i < n && applies[..n][i].address == a;
        assert applies[i].address == a;
      }
      forall i | 0 <= i < n && applies[i].address == a ensures a in done {
        assert applies[..n][i].address == a;
      }
    }
  }

  lemma {:induction false} ListedApart(f: Frame, b: ChainState, applies: seq<Apply>, done: set<Address>)
    requires ListsChanges(f, b, applies, done)
    ensures forall i, j :: 0 <= i < j < |applies| ==> applies[i].address != applies[j].address
  {
    if applies != [] {
      var n := |applies| - 1;
      var last := applies[n].address;
      ListedApart(f, b, applies[..n], done - {last});
      ListedCover(f, b, applies[..n], done - {last}, last);
      forall i | 0 <= i < n ensures applies[i].address != last {
        assert applies[..n][i] == applies[i];
      }
    }
  }

  lemma {:induction false} ListedChange(f: Frame, b: ChainState, applies: seq<Apply>, done: set<Address>, i: nat)
    requires ListsChanges(f, b, applies, done) && i < |applies|
    ensures applies[i] == ChangeOf(f, b, applies[i].address)
    ensures applies[i].Delete? <==> applies[i].address in f.deletes
  {
    var n := |applies| - 1;
    if i < n {
      ListedChange(f, b, applies[..n], done - {applies[n].address}, i);
    }
  }

  /** Each address of the list appears in exactly one change, a `Delete` just for the deleted ones. */
  lemma {:induction false} ListedOnce(f: Frame, b: ChainState, applies: seq<Apply>, done: set<Address>, a: Address)
    requires ListsChanges(f, b, applies, done)
    ensures a in done <==> exists i :: 0 <= i < |applies| && applies[i].address == a
    ensures forall i, j :: 0 <= i < j < |applies| ==> applies[i].address != applies[j].address
    ensures forall i :: 0 <= i < |applies| ==>
              && applies[i] == ChangeOf(f, b, applies[i].address)
              && (applies[i].Delete? <==> applies[i].address in f.deletes)
  {
    ListedCover(f, b, applies, done, a);
    ListedApart(f, b, applies, done);
    forall i | 0 <= i < |applies|
      ensures applies[i] == ChangeOf(f, b, applies[i].address)
      ensures applies[i].Delete? <==> applies[i].address in f.deletes
    {
      ListedChange(f, b, applies, done, i);
    }
  }

  // ---------- writing it ----------

  /** Only nonzero words are written; a zero leaves what is stored. */
  function WithSlots(storages: map<Slot, H256>, a: Address, words: map<H256, H256>): map<Slot, H256> {
    storages + map k | k in words && words[k] != 0 :: Slot(a, k) := words[k]
  }

  function ApplyOne(b: ChainState, apply: Apply, deleteEmpty: bool): ChainState {
    match apply
    case Modify(a, basic, code, storage, resetStorage) =>
      var account := OvrAccount(basic.nonce, basic.balance, code.GetOr(b.Account(a).code));
      var kept := if resetStorage then DropSlots(b.storages, {a}) else b.storages;
      ChainState(
        if account == DEFAULT_ACCOUNT && deleteEmpty then b.accounts - {a} else b.accounts[a := account],
        WithSlots(kept, a, storage))
    case Delete(a) => b.(accounts := b.accounts - {a})
  }

  function ApplyAll(b: ChainState, applies: seq<Apply>, deleteEmpty: bool): ChainState {
    if applies == [] then b
    else ApplyOne(ApplyAll(b, applies[..|applies| - 1], deleteEmpty), applies[|applies| - 1], deleteEmpty)
  }

  /** Asked to, a change leaves no empty account behind; otherwise it always leaves one. */
  lemma EmptyAccountsAreDropped(b: ChainState, apply: Apply, deleteEmpty: bool)
    requires apply.Modify?
    ensures var after := ApplyOne(b, apply, deleteEmpty);
            && after.Account(apply.address) == OvrAccount(apply.basic.nonce, apply.basic.balance,
                                                         apply.code.GetOr(b.Account(apply.address).code))
            && (apply.address in after.accounts <==> !(deleteEmpty && after.Account(apply.address) == DEFAULT_ACCOUNT))
  {
  }

  // ---------- what the flush amounts to ----------

  function FlushedAccount(f: Frame, b: ChainState, a: Address): Option<OvrAccount> {
    if a in f.deletes then None
    else if a in Touched(f) then Some(Resolve(b, a, Record(Root(f), b, a)))
    else Lookup(b.accounts, a)
  }

  function FlushedWord(f: Frame, b: ChainState, slot: Slot): Option<H256> {
    if slot.address in f.deletes then Lookup(b.storages, slot)
    else if slot in f.storages && f.storages[slot] != 0 then Some(f.storages[slot])
    else if Resets(f, slot.address) then None
    else Lookup(b.storages, slot)
  }

  /** The backend with the addresses in `done` flushed and the others as they were. */
  function PartlyFlushed(f: Frame, b: ChainState, done: set<Address>): ChainState {
    ChainState(
      map a | a in b.accounts.Keys + done && (if a in done then FlushedAccount(f, b, a).Some? else true) ::
        if a in done then FlushedAccount(f, b, a).value else b.accounts[a],
      map slot | slot in b.storages.Keys + f.storages.Keys &&
                 (if slot.address in done then FlushedWord(f, b, slot).Some? else slot in b.storages) ::
        if slot.address in done then FlushedWord(f, b, slot).value else b.storages[slot])
  }

  function Flushed(f: Frame, b: ChainState): ChainState {
    PartlyFlushed(f, b, Touched(f) + f.deletes)
  }

  lemma PartlyFlushedReads(f: Frame, b: ChainState, done: set<Address>, a: Address, slot: Slot)
    requires done <= Touched(f) + f.deletes
    ensures Lookup(PartlyFlushed(f, b, done).accounts, a) ==
            if a in done then FlushedAccount(f, b, a) else Lookup(b.accounts, a)
    ensures Lookup(PartlyFlushed(f, b, done).storages, slot) ==
            if slot.address in done then FlushedWord(f, b, slot) else Lookup(b.storages, slot)
  {
  }

  lemma MapsEqual<K, V>(m: map<K, V>, n: map<K, V>)
    requires forall k: K :: Lookup(m, k) == Lookup(n, k)
    ensures m == n
  {
    forall k ensures k in m <==> k in n {
      assert Lookup(m, k) == Lookup(n, k);
    }
    forall k | k in m ensures m[k] == n[k] {
      assert Lookup(m, k) == Lookup(n, k);
    }
  }

  /** What one change of the list makes of an account, over a backend that still has its code. */
  lemma ChangedAccount(f: Frame, b: ChainState, before: ChainState, a: Address, x: Address)
    requires a in Touched(f) + f.deletes && Lookup(before.accounts, a) == Lookup(b.accounts, a)
    ensures Lookup(ApplyOne(before, ChangeOf(f, b, a), false).accounts, x) ==
            if x == a then FlushedAccount(f, b, a) else Lookup(before.accounts, x)
  {
    assert before.Account(a) == b.Account(a);
  }

  lemma FlushOneAccount(f: Frame, b: ChainState, done: set<Address>, a: Address, x: Address)
    requires done <= Touched(f) + f.deletes && a in Touched(f) + f.deletes && a !in done
    ensures Lookup(ApplyOne(PartlyFlushed(f, b, done), ChangeOf(f, b, a), false).accounts, x) ==
            Lookup(PartlyFlushed(f, b, done + {a}).accounts, x)
  {
    PartlyFlushedReads(f, b, done, x, Slot(x, 0));
    PartlyFlushedReads(f, b, done, a, Slot(a, 0));
    PartlyFlushedReads(f, b, done + {a}, x, Slot(x, 0));
    ChangedAccount(f, b, PartlyFlushed(f, b, done), a, x);
  }

  lemma SlotsOfReads(f: Frame, slot: Slot)
    ensures Lookup(SlotsOf(f, slot.address), slot.key) == Lookup(f.storages, slot)
  {
  }

  lemma WithSlotsReads(storages: map<Slot, H256>, a: Address, words: map<H256, H256>, slot: Slot)
    ensures Lookup(WithSlots(storages, a, words), slot) ==
            if slot.address == a && slot.key in words && words[slot.key] != 0 then Some(words[slot.key])
            else Lookup(storages, slot)
  {
  }

  lemma DropSlotsReads(storages: map<Slot, H256>, a: Address, slot: Slot)
    ensures Lookup(DropSlots(storages, {a}), slot) == if slot.address == a then None else Lookup(storages, slot)
  {
  }

  lemma ModifiedSlot(f: Frame, b: ChainState, before: ChainState, a: Address, slot: Slot)
    requires a !in f.deletes
    ensures Lookup(ApplyOne(before, ChangeOf(f, b, a), false).storages, slot) ==
            if slot.address != a then Lookup(before.storages, slot)
            else if slot in f.storages && f.storages[slot] != 0 then Some(f.storages[slot])
            else if Resets(f, a) then None
            else Lookup(before.storages, slot)
  {
    var acc := Record(Root(f), b, a);
    var kept := if acc.reset then DropSlots(before.storages, {a}) else before.storages;
    assert acc.reset == Resets(f, a);
    assert ApplyOne(before, ChangeOf(f, b, a), false).storages == WithSlots(kept, a, SlotsOf(f, a));
    WithSlotsReads(kept, a, SlotsOf(f, a), slot);
    DropSlotsReads(before.storages, a, slot);
    if slot.address == a {
      SlotsOfReads(f, slot);
    }
  }

  lemma FlushOneSlot(f: Frame, b: ChainState, done: set<Address>, a: Address, slot: Slot)
    requires done <= Touched(f) + f.deletes && a in Touched(f) + f.deletes && a !in done
    ensures Lookup(ApplyOne(PartlyFlushed(f, b, done), ChangeOf(f, b, a), false).storages, slot) ==
            Lookup(PartlyFlushed(f, b, done + {a}).storages, slot)
  {
    PartlyFlushedReads(f, b, done, a, slot);
    PartlyFlushedReads(f, b, done + {a}, a, slot);
    if a !in f.deletes {
      ModifiedSlot(f, b, PartlyFlushed(f, b, done), a, slot);
    }
  }

  lemma FlushOne(f: Frame, b: ChainState, done: set<Address>, a: Address)
    requires done <= Touched(f) + f.deletes && a in Touched(f) + f.deletes && a !in done
    ensures ApplyOne(PartlyFlushed(f, b, done), ChangeOf(f, b, a), false) == PartlyFlushed(f, b, done + {a})
  {
    var after := PartlyFlushed(f, b, done + {a});
    var result := ApplyOne(PartlyFlushed(f, b, done), ChangeOf(f, b, a), false);
    assert result.accounts == after.accounts by {
      forall x: Address ensures Lookup(result.accounts, x) == Lookup(after.accounts, x) {
        FlushOneAccount(f, b, done, a, x);
      }
      MapsEqual(result.accounts, after.accounts);
    }
    assert result.storages == after.storages by {
      forall slot: Slot ensures Lookup(result.storages, slot) == Lookup(after.storages, slot) {
        FlushOneSlot(f, b, done, a, slot);
      }
      MapsEqual(result.storages, after.storages);
    }
  }

  lemma NothingFlushed(f: Frame, b: ChainState)
    ensures PartlyFlushed(f, b, {}) == b
  {
    MapsEqual(PartlyFlushed(f, b, {}).accounts, b.accounts);
    MapsEqual(PartlyFlushed(f, b, {}).storages, b.storages);
  }

  lemma {:induction false} ApplyListed(f: Frame, b: ChainState, applies: seq<Apply>, done: set<Address>)
    requires ListsChanges(f, b, applies, done) && done <= Touched(f) + f.deletes
    ensures ApplyAll(b, applies, false) == PartlyFlushed(f, b, done)
    decreases |applies|, 1
  {
    if applies == [] {
      NothingFlushed(f, b);
    } else {
      ApplyLast(f, b, applies, done, applies[|applies| - 1].address);
    }
  }

  lemma {:induction false} ApplyLast(f: Frame, b: ChainState, applies: seq<Apply>, done: set<Address>, a: Address)
    requires applies != [] && ListsChanges(f, b, applies, done) && done <= Touched(f) + f.deletes
    requires a == applies[|applies| - 1].address
    ensures ApplyAll(b, applies, false) == PartlyFlushed(f, b, done)
    decreases |applies|, 0
  {
    var shorter, rest := applies[..|applies| - 1], done - {a};
    assert rest + {a} == done;
    assert ApplyAll(b, shorter, false) == PartlyFlushed(f, b, rest) by {
      ApplyListed(f, b, shorter, rest);
    }
    assert ApplyOne(PartlyFlushed(f, b, rest), ChangeOf(f, b, a), false) == PartlyFlushed(f, b, done) by {
      FlushOne(f, b, rest, a);
    }
  }

  /** Every change list of a frame, in whatever order, writes the same backend. */
  lemma ApplyIsFlush(f: Frame, b: ChainState, applies: seq<Apply>)
    requires IsChangeList(f, b, applies)
    ensures ApplyAll(b, applies, false) == Flushed(f, b)
  {
    ApplyListed(f, b, applies, Touched(f) + f.deletes);
  }

  lemma FlushedReads(f: Frame, b: ChainState, a: Address, slot: Slot)
    ensures Lookup(Flushed(f, b).accounts, a) == FlushedAccount(f, b, a)
    ensures Lookup(Flushed(f, b).storages, slot) == FlushedWord(f, b, slot)
  {
  }

  /**
   The flushed backend reads like the root frame: at every address not deleted
   the same balance, nonce and code; none of the deleted accounts is left.
   Existence differs only for an address whose slots alone were written.
   */
  lemma FlushKeepsAccounts(f: Frame, b: ChainState, a: Address)
    ensures a in f.deletes ==> a !in Flushed(f, b).accounts
    ensures a !in f.deletes ==> Flushed(f, b).Account(a) == ViewAt(Root(f), b, a)
    ensures a !in f.deletes ==>
              (a in Flushed(f, b).accounts <==>
                 Exists(Root(f), b, a) || exists slot :: slot in f.storages && slot.address == a)
  {
  }

  /**
   A slot of a surviving address reads the same after the flush unless it was
   set to zero over a stored nonzero word with no reset; a deleted address
   keeps every stored word.
   */
  lemma FlushKeepsStorage(f: Frame, b: ChainState, slot: Slot)
    ensures slot.address !in f.deletes ==>
              (Flushed(f, b).Storage(slot) == StorageOf(Root(f), b, slot) <==>
               !(slot in f.storages && f.storages[slot] == 0 && b.Storage(slot) != 0 && !Resets(f, slot.address)))
    ensures slot.address in f.deletes ==> Flushed(f, b).Storage(slot) == b.Storage(slot)
  {
  }

  /** A zero over a stored nonzero word, with no reset: the one write that is not written through. */
  predicate Cleared(g: Frame, before: ChainState, slot: Slot) {
    && slot in g.storages && g.storages[slot] == 0 && before.Storage(slot) != 0
    && !(slot.address in g.accounts && g.accounts[slot.address].reset)
  }

  /**
   `after` is what is left of `before` once a run that ended in the root frame
   `g` is written: it reads as the journal did at every surviving address and
   slot but the cleared words, has no deleted account, and keeps their words.
   */
  ghost predicate Wrote(before: ChainState, g: Frame, after: ChainState) {
    && (forall a: Address :: a in g.deletes ==> a !in after.accounts)
    && (forall a: Address :: a !in g.deletes ==> after.Account(a) == ViewAt(Root(g), before, a))
    && (forall a: Address :: a !in g.deletes && Exists(Root(g), before, a) ==> a in after.accounts)
    && (forall slot: Slot :: slot.address in g.deletes || Cleared(g, before, slot) ==>
          after.Storage(slot) == before.Storage(slot))
    && (forall slot: Slot :: slot.address !in g.deletes && !Cleared(g, before, slot) ==>
          after.Storage(slot) == StorageOf(Root(g), before, slot))
  }

  lemma FlushWrites(g: Frame, before: ChainState)
    ensures Wrote(before, g, Flushed(g, before))
  {
    forall a: Address
      ensures a in g.deletes ==> a !in Flushed(g, before).accounts
      ensures a !in g.deletes ==> Flushed(g, before).Account(a) == ViewAt(Root(g), before, a)
      ensures a !in g.deletes && Exists(Root(g), before, a) ==> a in Flushed(g, before).accounts
    {
      FlushKeepsAccounts(g, before, a);
    }
    forall slot: Slot
      ensures slot.address in g.deletes || Cleared(g, before, slot) ==>
                Flushed(g, before).Storage(slot) == before.Storage(slot)
      ensures slot.address !in g.deletes && !Cleared(g, before, slot) ==>
                Flushed(g, before).Storage(slot) == StorageOf(Root(g), before, slot)
    {
      FlushKeepsStorage(g, before, slot);
      FlushedReads(g, before, slot.address, slot);
    }
  }

  // ---------- the currency through a flush ----------

  function DeletedBalances(f: Frame, b: ChainState): map<Address, nat> {
    map a | a in View(Root(f), b) && a in f.deletes :: View(Root(f), b)[a].balance
  }

  /** Addresses whose slots alone were written, over no account: they gain an empty one. */
  function Bare(f: Frame, b: ChainState): set<Address> {
    Touched(f) - View(Root(f), b).Keys - f.deletes
  }

  lemma BalancesRead(accounts: map<Address, OvrAccount>, a: Address)
    ensures Lookup(Balances(accounts), a) == if a in accounts then Some(accounts[a].balance) else None
  {
  }

  lemma FlushedAccountIsViewed(f: Frame, b: ChainState, a: Address)
    ensures a in f.deletes ==> FlushedAccount(f, b, a) == None
    ensures a in View(Root(f), b) && a !in f.deletes ==> FlushedAccount(f, b, a) == Some(View(Root(f), b)[a])
    ensures a !in View(Root(f), b) && a !in f.deletes ==>
              FlushedAccount(f, b, a) == if a in Bare(f, b) then Some(DEFAULT_ACCOUNT) else None
  {
    ViewIsReads(Root(f), b, a);
  }

  lemma FlushedBalance(f: Frame, b: ChainState, a: Address)
    ensures Lookup(Balances(Flushed(f, b).accounts), a) ==
            Lookup(Balances(View(Root(f), b)) - f.deletes + (map x | x in Bare(f, b) :: 0), a)
  {
    FlushedReads(f, b, a, Slot(a, 0));
    ViewIsReads(Root(f), b, a);
    BalancesRead(Flushed(f, b).accounts, a);
    BalancesRead(View(Root(f), b), a);
    FlushedAccountIsViewed(f, b, a);
  }

  /** What the flushed backend holds is what the root showed less the balances of deleted accounts. */
  lemma FlushedSupply(f: Frame, b: ChainState)
    ensures Supply(Flushed(f, b).accounts) + Sum(DeletedBalances(f, b)) == Supply(View(Root(f), b))
  {
    var view := Balances(View(Root(f), b));
    var kept := view - f.deletes;
    SumSplit(view, f.deletes);
    assert (map a | a in view && a in f.deletes :: view[a]) == DeletedBalances(f, b);
    var padded := kept + (map x | x in Bare(f, b) :: 0);
    assert Balances(Flushed(f, b).accounts) == padded by {
      forall a: Address ensures Lookup(Balances(Flushed(f, b).accounts), a) == Lookup(padded, a) {
        FlushedBalance(f, b, a);
      }
      MapsEqual(Balances(Flushed(f, b).accounts), padded);
    }
    SumPad(kept, Bare(f, b));
  }

  lemma {:induction false} SumPad(m: map<Address, nat>, keys: set<Address>)
    requires m.Keys !! keys
    ensures Sum(m + (map a | a in keys :: 0)) == Sum(m)
    decreases |keys|
  {
    if keys == {} {
      assert m + (map a | a in keys :: 0) == m;
    } else {
      var k :| k in keys;
      var less := m + (map a | a in keys - {k} :: 0);
      assert Sum(less) == Sum(m) by {
        SumPad(m, keys - {k});
      }
      assert m + (map a | a in keys :: 0) == less[k := 0];
      SumUpdate(less, k, 0);
    }
  }
}
