/**
 The branch and version store the ledger's state lives in, reduced to what the
 ledger asks of it: named branches, each a stack of named overlays above the
 versions it was forked from.
 */
module VersionStore {
  import opened Wrappers
  import opened EvmTypes
  import opened Journal
  import opened Flush
  import opened ChainTypes

  datatype BranchName = Main | DeliverTx | CheckTx

  datatype VersionName = Initial | VsVersion(height: nat, position: nat)

  /** A version is known by its name and the branch it was created on. */
  datatype Tag = Tag(branch: BranchName, name: VersionName)

  /** What one version wrote: None marks a removal. */
  datatype Version = Version(
    tag: Tag,
    accounts: map<Address, Option<OvrAccount>>,
    slots: map<Slot, Option<H256>>)

  datatype Branch = Branch(parent: Option<BranchName>, base: seq<Version>, own: seq<Version>)

  function NewVersion(tag: Tag): Version {
    Version(tag, map[], map[])
  }

  function Tags(vs: seq<Version>): seq<Tag> {
    seq(|vs|, i requires 0 <= i < |vs| => vs[i].tag)
  }

  predicate DistinctTags(tags: seq<Tag>) {
    forall i, j :: 0 <= i < j < |tags| ==> tags[i] != tags[j]
  }

  predicate Disjoint(xs: seq<Tag>, ys: seq<Tag>) {
    forall tag :: tag in xs ==> tag !in ys
  }

  // ---------- what a branch shows ----------

  function OverlayMap<K, V>(m: map<K, V>, written: map<K, Option<V>>): map<K, V> {
    map k | k in m.Keys + written.Keys && (k in written ==> written[k].Some?) ::
      if k in written then written[k].value else m[k]
  }

  function Overlay(st: ChainState, v: Version): ChainState {
    ChainState(OverlayMap(st.accounts, v.accounts), OverlayMap(st.storages, v.slots))
  }

  function Replay(st: ChainState, vs: seq<Version>): ChainState {
    if vs == [] then st else Overlay(Replay(st, vs[..|vs| - 1]), vs[|vs| - 1])
  }

  function Visible(branch: Branch): ChainState {
    Replay(EMPTY_STATE, branch.base + branch.own)
  }

  lemma {:induction false} ReplayConcat(st: ChainState, xs: seq<Version>, ys: seq<Version>)
    ensures Replay(st, xs + ys) == Replay(Replay(st, xs), ys)
  {
    if ys == [] {
      assert xs + ys == xs;
    } else {
      var n := |ys| - 1;
      ReplayConcat(st, xs, ys[..n]);
      assert (xs + ys)[..|xs + ys| - 1] == xs + ys[..n];
    }
  }

  lemma NewVersionShowsNothing(st: ChainState, vs: seq<Version>, tag: Tag)
    ensures Replay(st, vs + [NewVersion(tag)]) == Replay(st, vs)
  {
  }

  /** Writing in the last version of a branch. */
  function Rewritten(branch: Branch, v: Version): Branch
    requires branch.own != []
  {
    branch.(own := branch.own[..|branch.own| - 1] + [v])
  }

  lemma VisibleRewritten(branch: Branch, v: Version)
    requires branch.own != []
    ensures Visible(Rewritten(branch, v)) ==
            Overlay(Replay(EMPTY_STATE, branch.base + branch.own[..|branch.own| - 1]), v)
    ensures Visible(branch) ==
            Overlay(Replay(EMPTY_STATE, branch.base + branch.own[..|branch.own| - 1]), branch.own[|branch.own| - 1])
  {
    var n := |branch.own| - 1;
    assert (branch.base + branch.own)[..|branch.base + branch.own| - 1] == branch.base + branch.own[..n];
    var all := branch.base + (branch.own[..n] + [v]);
    assert all[..|all| - 1] == branch.base + branch.own[..n];
  }

  lemma OverlayTwice<K, V>(m: map<K, V>, first: map<K, Option<V>>, second: map<K, Option<V>>)
    ensures OverlayMap(m, first + second) == OverlayMap(OverlayMap(m, first), second)
  {
  }

  lemma OverlayOne<K, V>(m: map<K, V>, k: K, v: V)
    ensures OverlayMap(m, map[k := Some(v)]) == m[k := v]
    ensures OverlayMap(m, map[k := None]) == m - {k}
    ensures OverlayMap(m, map[]) == m
  {
  }

  /** The branch after its newest version takes some more writes. */
  function Written(branch: Branch, accounts: map<Address, Option<OvrAccount>>, slots: map<Slot, Option<H256>>): Branch
    requires branch.own != []
  {
    var last := branch.own[|branch.own| - 1];
    Rewritten(branch, last.(accounts := last.accounts + accounts, slots := last.slots + slots))
  }

  lemma VisibleWritten(branch: Branch, accounts: map<Address, Option<OvrAccount>>, slots: map<Slot, Option<H256>>)
    requires branch.own != []
    ensures Visible(Written(branch, accounts, slots)) ==
            ChainState(OverlayMap(Visible(branch).accounts, accounts), OverlayMap(Visible(branch).storages, slots))
  {
    var last := branch.own[|branch.own| - 1];
    var below := Replay(EMPTY_STATE, branch.base + branch.own[..|branch.own| - 1]);
    VisibleRewritten(branch, last.(accounts := last.accounts + accounts, slots := last.slots + slots));
    OverlayTwice(below.accounts, last.accounts, accounts);
    OverlayTwice(below.storages, last.slots, slots);
  }

  // ---------- the store ----------

  /** `after` differs from `before` only in what the last version of `b` has written. */
  predicate WroteOnly(before: map<BranchName, Branch>, after: map<BranchName, Branch>, b: BranchName) {
    && b in before && before[b].own != []
    && b in after && after[b].own != []
    && after == before[b := after[b]]
    && after[b] == Rewritten(before[b], after[b].own[|after[b].own| - 1])
    && after[b].own[|after[b].own| - 1].tag == before[b].own[|before[b].own| - 1].tag
  }

  lemma WroteOnlyTransitive(x: map<BranchName, Branch>, y: map<BranchName, Branch>, z: map<BranchName, Branch>,
                            b: BranchName)
    requires WroteOnly(x, y, b) && WroteOnly(y, z, b)
    ensures WroteOnly(x, z, b)
  {
  }

  lemma WroteNothing(x: map<BranchName, Branch>, b: BranchName)
    requires b in x && x[b].own != []
    ensures WroteOnly(x, x, b)
  {
  }

  predicate Mergeable(branches: map<BranchName, Branch>, b: BranchName) {
    && b in branches && branches[b].parent.Some? && branches[b].parent.value in branches
    && branches[b].parent.value != b
    && var into := branches[branches[b].parent.value];
       Disjoint(Tags(branches[b].own), Tags(into.base + into.own))
  }

  /** The handle all of the ledger's branches share; `blocks` and `blockHashes` are unversioned. */
  class State {
    var branches: map<BranchName, Branch>
    var blocks: map<nat, Block>
    var blockHashes: map<nat, H256>

    constructor ()
      ensures branches == map[] && blocks == map[] && blockHashes == map[]
    {
      branches, blocks, blockHashes := map[], map[], map[];
    }

    /** A branch with no parent. False if the name is taken. */
    method CreateRoot(name: BranchName) returns (ok: bool)
      modifies this`branches
      ensures ok == (name !in old(branches))
      ensures branches == if ok then old(branches)[name := Branch(None, [], [])] else old(branches)
    {
      ok := name !in branches;
      if ok {
        branches := branches[name := Branch(None, [], [])];
      }
    }

    /** Forks off all that `parent` shows now. False if the name is taken or there is no such parent. */
    method CreateBranch(name: BranchName, parent: BranchName) returns (ok: bool)
      modifies this`branches
      ensures ok == (name !in old(branches) && parent in old(branches))
      ensures branches ==
              if ok then
                var from := old(branches)[parent];
                old(branches)[name := Branch(Some(parent), from.base + from.own, [])]
              else old(branches)
    {
      ok := name !in branches && parent in branches;
      if ok {
        branches := branches[name := Branch(Some(parent), branches[parent].base + branches[parent].own, [])];
      }
    }

    method RemoveBranch(name: BranchName) returns (ok: bool)
      modifies this`branches
      ensures ok == (name in old(branches)) && branches == old(branches) - {name}
    {
      ok := name in branches;
      branches := branches - {name};
    }

    /**
     The branch's own versions go on top of its parent's; the branch disappears.
     False if there is no such branch or parent, or if the parent already holds
     one of those versions.
     */
    method MergeToParent(name: BranchName) returns (ok: bool)
      modifies this`branches
      ensures ok == Mergeable(old(branches), name)
      ensures branches ==
              if ok then
                var parent := old(branches)[name].parent.value;
                var into := old(branches)[parent];
                old(branches)[parent := into.(own := into.own + old(branches)[name].own)] - {name}
              else old(branches)
    {
      ok := Mergeable(branches, name);
      if ok {
        var parent := branches[name].parent.value;
        var into := branches[parent];
        branches := branches[parent := into.(own := into.own + branches[name].own)] - {name};
      }
    }

    /** False if the branch is missing or already shows a version created on it under that name. */
    method CreateVersion(name: VersionName, b: BranchName) returns (ok: bool)
      modifies this`branches
      ensures ok == (b in old(branches) && Tag(b, name) !in Tags(old(branches)[b].base + old(branches)[b].own))
      ensures branches ==
              if ok then old(branches)[b := old(branches)[b].(own := old(branches)[b].own + [NewVersion(Tag(b, name))])]
              else old(branches)
    {
      ok := b in branches && Tag(b, name) !in Tags(branches[b].base + branches[b].own);
      if ok {
        branches := branches[b := branches[b].(own := branches[b].own + [NewVersion(Tag(b, name))])];
      }
    }

    /** Forgets the newest version of the branch. False if it has none of its own. */
    method PopVersion(b: BranchName) returns (ok: bool)
      modifies this`branches
      ensures ok == (b in old(branches) && old(branches)[b].own != [])
      ensures branches ==
              if ok then
                var own := old(branches)[b].own;
                old(branches)[b := old(branches)[b].(own := own[..|own| - 1])]
              else old(branches)
    {
      ok := b in branches && branches[b].own != [];
      if ok {
        var own := branches[b].own;
        branches := branches[b := branches[b].(own := own[..|own| - 1])];
      }
    }

    predicate Writable(b: BranchName)
      reads this`branches
    {
      b in branches && branches[b].own != []
    }

    method Write(b: BranchName, accounts: map<Address, Option<OvrAccount>>, slots: map<Slot, Option<H256>>)
      requires Writable(b)
      modifies this`branches
      ensures WroteOnly(old(branches), branches, b)
      ensures var was := old(Visible(branches[b]));
              Visible(branches[b]) == ChainState(OverlayMap(was.accounts, accounts), OverlayMap(was.storages, slots))
    {
      VisibleWritten(branches[b], accounts, slots);
      branches := branches[b := Written(branches[b], accounts, slots)];
    }

    method InsertAccount(a: Address, account: OvrAccount, b: BranchName)
      requires Writable(b)
      modifies this`branches
      ensures WroteOnly(old(branches), branches, b)
      ensures var was := old(Visible(branches[b]));
              Visible(branches[b]) == was.(accounts := was.accounts[a := account])
    {
      OverlayOne(Visible(branches[b]).accounts, a, account);
      OverlayOne(Visible(branches[b]).storages, Slot(a, 0), 0);
      Write(b, map[a := Some(account)], map[]);
    }

    method RemoveAccount(a: Address, b: BranchName)
      requires Writable(b)
      modifies this`branches
      ensures WroteOnly(old(branches), branches, b)
      ensures var was := old(Visible(branches[b]));
              Visible(branches[b]) == was.(accounts := was.accounts - {a})
    {
      OverlayOne(Visible(branches[b]).accounts, a, DEFAULT_ACCOUNT);
      OverlayOne(Visible(branches[b]).storages, Slot(a, 0), 0);
      Write(b, map[a := None], map[]);
    }

    method InsertSlot(slot: Slot, word: H256, b: BranchName)
      requires Writable(b)
      modifies this`branches
      ensures WroteOnly(old(branches), branches, b)
      ensures var was := old(Visible(branches[b]));
              Visible(branches[b]) == was.(storages := was.storages[slot := word])
    {
      OverlayOne(Visible(branches[b]).accounts, slot.address, DEFAULT_ACCOUNT);
      OverlayOne(Visible(branches[b]).storages, slot, word);
      Write(b, map[], map[slot := Some(word)]);
    }

    /** Removes every slot of an address that the branch shows. */
    method RemoveSlots(a: Address, b: BranchName)
      requires Writable(b)
      modifies this`branches
      ensures WroteOnly(old(branches), branches, b)
      ensures var was := old(Visible(branches[b]));
              Visible(branches[b]) == was.(storages := DropSlots(was.storages, {a}))
    {
      var shown := Visible(branches[b]).storages;
      var erased: map<Slot, Option<H256>> := map slot | slot in shown && slot.address == a :: None;
      OverlayOne(Visible(branches[b]).accounts, a, DEFAULT_ACCOUNT);
      assert OverlayMap(shown, erased) == DropSlots(shown, {a});
      Write(b, map[], erased);
    }
  }

  // ---------- the EVM's backend ----------

  lemma InsertThenRemove<K, V>(m: map<K, V>, k: K, v: V)
    ensures m[k := v] - {k} == m - {k}
  {
  }

  lemma WithSlotsEnds(storages: map<Slot, H256>, a: Address, words: map<H256, H256>)
    ensures WithSlots(storages, a, words - words.Keys) == storages
    ensures words - {} == words
  {
  }

  lemma WithSlotsMore(storages: map<Slot, H256>, a: Address, words: map<H256, H256>, rest: set<H256>, k: H256)
    requires k in rest && rest <= words.Keys
    ensures WithSlots(storages, a, words - (rest - {k})) ==
            if words[k] != 0 then WithSlots(storages, a, words - rest)[Slot(a, k) := words[k]]
            else WithSlots(storages, a, words - rest)
  {
    var more := WithSlots(storages, a, words - (rest - {k}));
    var less := WithSlots(storages, a, words - rest);
    var expected := if words[k] != 0 then less[Slot(a, k) := words[k]] else less;
    forall slot: Slot ensures Lookup(more, slot) == Lookup(expected, slot) {
      WithSlotsReads(storages, a, words - (rest - {k}), slot);
      WithSlotsReads(storages, a, words - rest, slot);
      assert slot == Slot(a, k) <==> slot.address == a && slot.key == k;
    }
    MapsEqual(more, expected);
  }

  /** A branch of the store as the EVM's backend (src/ethvm/impls/backend.rs). */
  class OvrBackend {
    const state: State
    const branch: BranchName

    constructor (state: State, branch: BranchName)
      ensures this.state == state && this.branch == branch
    {
      this.state, this.branch := state, branch;
    }

    method ApplyChange(apply: Apply, deleteEmpty: bool)
      requires state.Writable(branch)
      modifies state`branches
      ensures WroteOnly(old(state.branches), state.branches, branch)
      ensures Visible(state.branches[branch]) == ApplyOne(old(Visible(state.branches[branch])), apply, deleteEmpty)
    {
      match apply {
        case Modify(a, basic, code, storage, resetStorage) =>
          var account := Visible(state.branches[branch]).Account(a);
          account := account.(balance := basic.balance, nonce := basic.nonce);
          if code.Some? {
            account := account.(code := code.value);
          }
          WriteSlots(a, storage, resetStorage);
          ghost var slotted := state.branches;
          WriteAccount(a, account, deleteEmpty);
          WroteOnlyTransitive(old(state.branches), slotted, state.branches, branch);
        case Delete(a) =>
          state.RemoveAccount(a, branch);
      }
    }

    method WriteSlots(a: Address, storage: map<H256, H256>, resetStorage: bool)
      requires state.Writable(branch)
      modifies state`branches
      ensures WroteOnly(old(state.branches), state.branches, branch)
      ensures var was := old(Visible(state.branches[branch]));
              Visible(state.branches[branch]) ==
              was.(storages :=
                     WithSlots(if resetStorage then DropSlots(was.storages, {a}) else was.storages, a, storage))
    {
      WroteNothing(state.branches, branch);
      if resetStorage {
        state.RemoveSlots(a, branch);
      }
      ghost var cleared := state.branches;
      InsertWords(a, storage);
      WroteOnlyTransitive(old(state.branches), cleared, state.branches, branch);
    }

    method WriteAccount(a: Address, account: OvrAccount, deleteEmpty: bool)
      requires state.Writable(branch)
      modifies state`branches
      ensures WroteOnly(old(state.branches), state.branches, branch)
      ensures var was := old(Visible(state.branches[branch]));
              Visible(state.branches[branch]) ==
              was.(accounts := if account == DEFAULT_ACCOUNT && deleteEmpty then was.accounts - {a}
                               else was.accounts[a := account])
    {
      ghost var was := Visible(state.branches[branch]);
      state.InsertAccount(a, account, branch);
      if account == DEFAULT_ACCOUNT && deleteEmpty {
        ghost var inserted := state.branches;
        state.RemoveAccount(a, branch);
        WroteOnlyTransitive(old(state.branches), inserted, state.branches, branch);
        InsertThenRemove(was.accounts, a, account);
      }
    }

    method InsertWords(a: Address, storage: map<H256, H256>)
      requires state.Writable(branch)
      modifies state`branches
      ensures WroteOnly(old(state.branches), state.branches, branch)
      ensures var was := old(Visible(state.branches[branch]));
              Visible(state.branches[branch]) == was.(storages := WithSlots(was.storages, a, storage))
    {
      ghost var was := Visible(state.branches[branch]);
      var rest := storage.Keys;
      WroteNothing(state.branches, branch);
      WithSlotsEnds(was.storages, a, storage);
      while rest != {}
        invariant rest <= storage.Keys && state.Writable(branch)
        invariant WroteOnly(old(state.branches), state.branches, branch)
        invariant Visible(state.branches[branch]) == was.(storages := WithSlots(was.storages, a, storage - rest))
        decreases |rest|
      {
        var k :| k in rest;
        WithSlotsMore(was.storages, a, storage, rest, k);
        rest := rest - {k};
        if storage[k] != 0 {
          ghost var before := state.branches;
          state.InsertSlot(Slot(a, k), storage[k], branch);
          WroteOnlyTransitive(old(state.branches), before, state.branches, branch);
        }
      }
    }

    method ApplyChanges(applies: seq<Apply>, deleteEmpty: bool)
      requires state.Writable(branch)
      modifies state`branches
      ensures WroteOnly(old(state.branches), state.branches, branch)
      ensures Visible(state.branches[branch]) == ApplyAll(old(Visible(state.branches[branch])), applies, deleteEmpty)
    {
      WroteNothing(state.branches, branch);
      for i := 0 to |applies|
        invariant state.Writable(branch)
        invariant WroteOnly(old(state.branches), state.branches, branch)
        invariant Visible(state.branches[branch]) ==
                  ApplyAll(old(Visible(state.branches[branch])), applies[..i], deleteEmpty)
      {
        ghost var atBefore := state.branches;
        ApplyChange(applies[i], deleteEmpty);
        WroteOnlyTransitive(old(state.branches), atBefore, state.branches, branch);
        assert applies[..i + 1][..i] == applies[..i];
      }
      assert applies[..|applies|] == applies;
    }
  }
}
