/**
 The ledger and the ABCI application over it (src/ledger/mod.rs `Ledger`,
 src/consensus/mod.rs). Each handler is proved to move the plain ledger exactly
 as `PlainStep` says, whatever the branches and versions do underneath.
 */
module Ledgers {
  import opened Wrappers
  import opened EvmTypes
  import opened ChainTypes
  import opened PlainLedger
  import opened SerialLedger
  import opened GenesisState
  import opened TxProperties
  import opened StateBranches
  import opened VersionNames
  import V = VersionStore

  const ALL_BRANCHES := {V.Main, V.DeliverTx, V.CheckTx}

  /** CheckTx always exists and always has room for one more name. */
  predicate ValidCheck(branches: map<V.BranchName, V.Branch>, draft: Draft) {
    && V.CheckTx in branches
    && Tracks(branches[V.CheckTx], draft.block.header.height, |draft.hashes|)
    && (draft.block.header.height != 0 ==>
          V.Tags(branches[V.CheckTx].own) == BlockNames(V.CheckTx, draft.block.header.height, |draft.hashes|))
  }

  /**
   Inside a block: Main holds one empty version for it, and DeliverTx forks off
   below that version with exactly the versions (h,0)..(h,n).
   */
  predicate ValidOpen(branches: map<V.BranchName, V.Branch>, last: nat, draft: Draft) {
    && branches.Keys == ALL_BRANCHES
    && draft.block.header.height == last + 1
    && var main := branches[V.Main];
       var deliver := branches[V.DeliverTx];
    && main.own != []
    && var closed := main.(own := main.own[..|main.own| - 1]);
    && MainShape(closed, last)
    && main == Prepared(closed, V.Main, last + 1)
    && deliver.parent == Some(V.Main) && deliver.base == closed.own
    && Tracks(deliver, last + 1, |draft.hashes|)
    && V.Tags(deliver.own) == BlockNames(V.DeliverTx, last + 1, |draft.hashes|)
  }

  predicate ValidIdle(branches: map<V.BranchName, V.Branch>, last: nat) {
    V.Main in branches && MainShape(branches[V.Main], last)
  }

  /** A chain has a snapshot to restart from, taken with no block in process. */
  predicate KeepsChain(blocks: map<nat, Block>, snapshot: Option<Draft>) {
    && TipHeight(blocks) == LastHeight(blocks)
    && (blocks != map[] ==> snapshot.Some? && snapshot.value.block.header.height == 0)
  }

  /** What the ledger keeps true between calls, of its store and its blocks in process. */
  predicate Keeps(branches: map<V.BranchName, V.Branch>, blocks: map<nat, Block>, snapshot: Option<Draft>,
                  delivered: Draft, checked: Draft, inBlock: bool) {
    && ValidCheck(branches, checked)
    && KeepsChain(blocks, snapshot)
    && if inBlock then ValidOpen(branches, LastHeight(blocks), delivered)
       else ValidIdle(branches, LastHeight(blocks))
  }

  /** The plain ledger such a store stands for. */
  function Shows(branches: map<V.BranchName, V.Branch>, blocks: map<nat, Block>, blockHashes: map<nat, H256>,
                 delivered: Draft, inBlock: bool): Plain
    requires V.Main in branches && (inBlock ==> V.DeliverTx in branches)
  {
    Plain(V.Visible(branches[V.Main]), blocks, blockHashes,
          if inBlock then Some(Pending(V.Visible(branches[V.DeliverTx]), delivered)) else None)
  }

  class Ledger {
    const chain: Chain
    const state: V.State
    const main: StateBranch
    const deliverTx: StateBranch
    const checkTx: StateBranch
    var snapshot: Option<Draft>
    ghost var inBlock: bool

    ghost predicate Wired() {
      && main.state == state && deliverTx.state == state && checkTx.state == state
      && main.chain == chain && deliverTx.chain == chain && checkTx.chain == chain
      && main.branch == V.Main && deliverTx.branch == V.DeliverTx && checkTx.branch == V.CheckTx
      && main != deliverTx && main != checkTx && deliverTx != checkTx
    }

    ghost predicate Valid()
      reads this, state, main, deliverTx, checkTx
    {
      && Wired()
      && Keeps(state.branches, state.blocks, snapshot, deliverTx.InProcess(), checkTx.InProcess(), inBlock)
    }

    /** The ledger as its users see it. */
    ghost function Abs(): Plain
      requires Valid()
      reads this, state, main, deliverTx, checkTx
    {
      Shows(state.branches, state.blocks, state.blockHashes, deliverTx.InProcess(), inBlock)
    }

    /** The same beside what the CheckTx branch shows. */
    ghost function AbsNode(): Node
      requires Valid()
      reads this, state, main, deliverTx, checkTx
    {
      Node(Abs(), V.Visible(state.branches[V.CheckTx]))
    }

    /** A new chain, before its genesis state is written. */
    constructor (chain: Chain)
      ensures Valid() && fresh(state) && fresh(main) && fresh(deliverTx) && fresh(checkTx)
      ensures this.chain == chain && !inBlock
      ensures Abs() == Plain(EMPTY_STATE, map[], map[], None)
      ensures state.branches.Keys == ALL_BRANCHES
    {
      var s := new V.State();
      var ok := s.CreateRoot(V.Main);
      assert ok;
      ok := s.CreateVersion(V.Initial, V.Main);
      assert ok;
      ok := s.CreateBranch(V.DeliverTx, V.Main);
      assert ok;
      ok := s.CreateBranch(V.CheckTx, V.Main);
      assert ok;
      ForkTracks(s.branches[V.Main], 0, 0, 0);
      ShowsThroughNew(V.Branch(None, [], []), V.Tag(V.Main, V.Initial));
      this.chain, state, snapshot, inBlock := chain, s, None, false;
      main := new StateBranch(chain, s, V.Main);
      deliverTx := new StateBranch(chain, s, V.DeliverTx);
      checkTx := new StateBranch(chain, s, V.CheckTx);
    }

    /** The genesis balances and contracts, written on Main before the first block; false where the source panics. */
    method InitChain(distribution: map<Address, U256>, contracts: seq<GenesisContract>) returns (ok: bool)
      requires Valid() && !inBlock && state.blocks == map[]
      modifies state`branches
      ensures var spec := AllDeployed(chain, Funded(old(Abs()).state, distribution), contracts);
              && ok == spec.Some?
              && (ok ==> Valid() && Abs() == old(Abs()).(state := spec.value))
      ensures ok ==> exists funded :: FundedWith(old(Abs()).state, distribution, funded) &&
                                      DeployedInTurn(chain, funded, contracts, Abs().state)
    {
      ghost var before := state.branches;
      Distribute(distribution);
      ghost var funded := state.branches;
      ok := Deploy(contracts);
      if ok {
        V.WroteOnlyTransitive(before, funded, state.branches, V.Main);
        Initialises(before, state.branches, snapshot, deliverTx.InProcess(), checkTx.InProcess());
        FundedAsListed(V.Visible(before[V.Main]), distribution);
        AllDeployInTurn(chain, V.Visible(funded[V.Main]), contracts);
      }
    }

    method Distribute(distribution: map<Address, U256>)
      requires state.Writable(V.Main)
      modifies state`branches
      ensures V.WroteOnly(old(state.branches), state.branches, V.Main)
      ensures V.Visible(state.branches[V.Main]) == Funded(old(V.Visible(state.branches[V.Main])), distribution)
      ensures FundedWith(old(V.Visible(state.branches[V.Main])), distribution, V.Visible(state.branches[V.Main]))
    {
      ghost var before := state.branches;
      ghost var was := V.Visible(before[V.Main]);
      var rest := distribution.Keys;
      FundedEnds(was, distribution);
      FundedAsListed(was, distribution);
      V.WroteNothing(before, V.Main);
      while rest != {}
        invariant rest <= distribution.Keys && state.Writable(V.Main)
        invariant V.WroteOnly(before, state.branches, V.Main)
        invariant V.Visible(state.branches[V.Main]) == Funded(was, distribution - rest)
        decreases |rest|
      {
        var a :| a in rest;
        ghost var midway := state.branches;
        FundedMore(was, distribution, rest, a);
        state.InsertAccount(a, OvrAccount(0, distribution[a], []), V.Main);
        V.WroteOnlyTransitive(before, midway, state.branches, V.Main);
        rest := rest - {a};
      }
    }

    method Deploy(contracts: seq<GenesisContract>) returns (ok: bool)
      requires main.state == state && main.chain == chain && main.branch == V.Main && state.Writable(V.Main)
      modifies state`branches
      ensures V.WroteOnly(old(state.branches), state.branches, V.Main)
      ensures var spec := AllDeployed(chain, old(V.Visible(state.branches[V.Main])), contracts);
              if ok then spec == Some(V.Visible(state.branches[V.Main])) else spec.None?
      ensures ok ==>
                DeployedInTurn(chain, old(V.Visible(state.branches[V.Main])), contracts,
                               V.Visible(state.branches[V.Main]))
    {
      ghost var before := state.branches;
      ghost var was := V.Visible(before[V.Main]);
      V.WroteNothing(before, V.Main);
      ok := true;
      for i := 0 to |contracts|
        invariant state.Writable(V.Main) && V.WroteOnly(before, state.branches, V.Main)
        invariant AllDeployed(chain, was, contracts[..i]) == Some(V.Visible(state.branches[V.Main]))
      {
        ghost var midway := state.branches;
        assert contracts[..i + 1][..i] == contracts[..i];
        ok := main.InitialCreate2(contracts[i]);
        V.WroteOnlyTransitive(before, midway, state.branches, V.Main);
        if !ok {
          OneFailureFailsAll(chain, was, contracts, i + 1);
          return;
        }
      }
      assert contracts[..|contracts|] == contracts;
      AllDeployInTurn(chain, was, contracts);
    }

    /** DeliverTx and CheckTx are dropped and forked off Main anew. */
    method RefreshBranches() returns (ok: bool)
      requires V.Main in state.branches && V.CheckTx in state.branches
      modifies state`branches
      ensures ok
      ensures var main := old(state.branches)[V.Main];
              state.branches == map[V.Main := main, V.DeliverTx := Fork(V.Main, main), V.CheckTx := Fork(V.Main, main)]
    {
      ok := state.RemoveBranch(V.CheckTx);
      if !ok { return; }
      if V.DeliverTx in state.branches {
        ok := state.RemoveBranch(V.DeliverTx);
        if !ok { return; }
      }
      ok := state.CreateBranch(V.DeliverTx, V.Main);
      if !ok { return; }
      ok := state.CreateBranch(V.CheckTx, V.Main);
      OnlyThree(state.branches, old(state.branches)[V.Main]);
    }

    /** Opens the block's own version on all three branches. */
    method PrepareAll(proposer: Bytes, timestamp: nat, ghost trunk: V.Branch) returns (ok: bool)
      requires Wired()
      requires KeepsChain(state.blocks, snapshot) && MainShape(trunk, LastHeight(state.blocks))
      requires state.branches ==
               map[V.Main := trunk, V.DeliverTx := Fork(V.Main, trunk), V.CheckTx := Fork(V.Main, trunk)]
      modifies state`branches, main, deliverTx, checkTx
      ensures ok && state.branches.Keys == ALL_BRANCHES
      ensures Keeps(state.branches, state.blocks, snapshot, deliverTx.InProcess(), checkTx.InProcess(), true)
      ensures var p := Plain(V.Visible(trunk), state.blocks, state.blockHashes, None);
              Shows(state.branches, state.blocks, state.blockHashes, deliverTx.InProcess(), true) ==
              p.(pending := Some(Begun(p, proposer, timestamp)))
      ensures V.Visible(state.branches[V.CheckTx]) == V.Visible(trunk)
    {
      BlockNameIsFresh(trunk, V.Main, LastHeight(state.blocks));
      BlockNameIsFresh(trunk, V.DeliverTx, LastHeight(state.blocks));
      BlockNameIsFresh(trunk, V.CheckTx, LastHeight(state.blocks));
      assert Fork(V.Main, trunk).base + Fork(V.Main, trunk).own == trunk.base + trunk.own;
      ok := main.PrepareNextBlock(proposer, timestamp);
      if !ok { return; }
      ok := deliverTx.PrepareNextBlock(proposer, timestamp);
      if !ok { return; }
      ok := checkTx.PrepareNextBlock(proposer, timestamp);
      Begins(trunk, state.branches, state.blocks, state.blockHashes, snapshot, proposer, timestamp);
    }

    /** BeginBlock: fresh branches, and the block's own version on all three. */
    method ConsensusRefresh(proposer: Bytes, timestamp: nat) returns (ok: bool)
      requires Valid() && !inBlock
      modifies this, state`branches, main, deliverTx, checkTx
      ensures ok && Valid() && inBlock
      ensures Abs() == old(Abs()).(pending := Some(Begun(old(Abs()), proposer, timestamp)))
      ensures V.Visible(state.branches[V.CheckTx]) == old(V.Visible(state.branches[V.Main]))
      ensures state.branches.Keys == ALL_BRANCHES
    {
      ghost var trunk := state.branches[V.Main];
      inBlock := true;
      ok := RefreshBranches();
      ok := PrepareAll(proposer, timestamp, trunk);
    }

    /** DeliverTx with bytes that may not decode. */
    method Deliver(tx: Option<Tx>) returns (r: Response)
      requires Valid() && inBlock
      modifies state`branches, deliverTx
      ensures r == Aborted <==> NodeStep(chain, old(AbsNode()), DeliverTx(tx)).None?
      ensures r != Aborted ==> Valid() && Some(AbsNode()) == NodeStep(chain, old(AbsNode()), DeliverTx(tx))
      ensures r != Aborted ==> Some(Abs()) == PlainStep(chain, old(Abs()), DeliverTx(tx))
      ensures r != Aborted ==>
                var was, now := old(Abs()).pending.value.draft.block.txs, Abs().pending.value.draft.block.txs;
                && (r == Accepted <==> tx.Some? && now == was + [tx.value])
                && (r == Refused <==> now == was)
      ensures Answered(r, tx, chain, old(Abs()).pending.value.state, state.blockHashes)
    {
      if tx.None? {
        return Refused;
      }
      ghost var before := state.branches;
      ghost var draft := deliverTx.InProcess();
      r := deliverTx.ApplyTx(tx.value);
      Delivers(chain, before, state.branches, state.blocks, state.blockHashes, snapshot,
               draft, deliverTx.InProcess(), checkTx.InProcess(), tx.value, r);
    }

    /** CheckTx touches nothing that Main, DeliverTx or the chain show. */
    method Check(recheck: bool, tx: Option<Tx>) returns (r: Response)
      requires Valid()
      modifies state`branches, checkTx
      ensures r == Aborted <==> NodeStep(chain, old(AbsNode()), CheckTx(recheck, tx)).None?
      ensures r != Aborted ==> Valid() && Some(AbsNode()) == NodeStep(chain, old(AbsNode()), CheckTx(recheck, tx))
      ensures r != Aborted ==> Abs() == old(Abs())
      ensures if recheck then r == Accepted
              else Answered(r, tx, chain, old(AbsNode()).tried, state.blockHashes)
    {
      if recheck || tx.None? {
        return if recheck then Accepted else Refused;
      }
      ghost var before := state.branches;
      ghost var draft := checkTx.InProcess();
      r := checkTx.ApplyTx(tx.value);
      Checks(chain, before, state.branches, state.blocks, state.blockHashes, snapshot,
             deliverTx.InProcess(), draft, checkTx.InProcess(), inBlock, tx.value, r);
    }

    /** DeliverTx's block in process and its versions go over to Main. */
    method TakeDelivered() returns (ok: bool)
      requires main.state == state && main != deliverTx && V.Mergeable(state.branches, V.DeliverTx)
      requires state.branches[V.DeliverTx].parent == Some(V.Main)
      modifies state`branches, main, deliverTx
      ensures ok
      ensures main.InProcess() == old(deliverTx.InProcess()) && deliverTx.InProcess() == old(main.InProcess())
      ensures state.branches == Taken(old(state.branches))
    {
      main.block, deliverTx.block := deliverTx.block, main.block;
      main.txHashes, deliverTx.txHashes := deliverTx.txHashes, main.txHashes;
      ok := state.MergeToParent(V.DeliverTx);
    }

    /** Commit: DeliverTx's block and versions become Main's, and its hash is handed back. */
    method CommitBlock() returns (ok: bool, data: Hash)
      requires Valid() && inBlock
      modifies this, state, main, deliverTx
      ensures ok && Valid() && !inBlock
      ensures Some(Abs()) == PlainStep(chain, old(Abs()), Commit)
      ensures var height := old(Abs()).pending.value.draft.block.header.height;
              height in Abs().blocks && data == Abs().blocks[height].headerHash
      ensures state.branches.Keys == {V.Main, V.CheckTx}
      ensures state.branches[V.CheckTx] == old(state.branches)[V.CheckTx]
    {
      ghost var before := state.branches;
      ghost var draft := deliverTx.InProcess();
      MergeMeetsNothing(before, LastHeight(state.blocks), draft);
      ok := TakeDelivered();
      LastHeightGrows(state.blocks, LastHeight(state.blocks) + 1, Closed(chain, draft));
      Commits(chain, before, state.blocks, state.blockHashes, snapshot, draft,
              checkTx.InProcess(), deliverTx.InProcess(), Draft(draft.hashes + [chain.emptyHash], DEFAULT_BLOCK));
      main.CommitBlock();
      snapshot := Some(main.InProcess());
      inBlock := false;
      data := LastHash(state.blocks);
    }

    /** What Tendermint is told on starting: the last height, and the hash of its block if there is one. */
    method Info() returns (height: nat, appHash: Option<Hash>)
      requires Valid()
      ensures forall k :: k in state.blocks ==> k <= height
      ensures height in state.blocks || (height == 0 && state.blocks == map[])
      ensures appHash == if 0 < height then Some(state.blocks[height].headerHash) else None
    {
      height := TipHeight(state.blocks);
      appHash := if 0 < height then Some(LastHash(state.blocks)) else None;
    }

    /** A restart: what memory held is lost, and the branches are rebuilt from Main. */
    method LoadFromSnapshot() returns (ok: bool)
      requires Valid() && state.blocks != map[]
      modifies this, state`branches, main, deliverTx, checkTx
      ensures ok && Valid() && !inBlock
      ensures Abs() == old(Abs()).(pending := None)
      ensures state.branches.Keys == ALL_BRANCHES
      ensures V.Visible(state.branches[V.CheckTx]) == V.Visible(state.branches[V.Main])
    {
      MayHaveBegun(state.branches, state.blocks, snapshot, deliverTx.InProcess(), checkTx.InProcess(), inBlock);
      main.txHashes, main.block := snapshot.value.hashes, snapshot.value.block;
      deliverTx.txHashes, deliverTx.block := main.txHashes, main.block;
      checkTx.txHashes, checkTx.block := main.txHashes, main.block;
      ok := CleanUp();
      if !ok { return; }
      ghost var trunk := state.branches[V.Main];
      ok := RefreshBranches();
      inBlock := false;
      Reloads(trunk, state.branches, state.blocks, snapshot, main.InProcess());
    }

    /** Drops the version of a block that was begun on Main but never committed. */
    method CleanUp() returns (ok: bool)
      requires V.Main in state.branches && Restartable(state.branches[V.Main], LastHeight(state.blocks))
      modifies state`branches
      ensures ok && V.Main in state.branches
      ensures state.branches == old(state.branches)[V.Main := state.branches[V.Main]]
      ensures MainShape(state.branches[V.Main], LastHeight(state.blocks))
      ensures V.Visible(state.branches[V.Main]) == old(V.Visible(state.branches[V.Main]))
    {
      var br := state.branches[V.Main];
      var ver := V.Tag(V.Main, V.VsVersion(1 + LastHeight(state.blocks), 0));
      ok := true;
      BlockNameTellsBegun(br, LastHeight(state.blocks));
      assert state.branches == state.branches[V.Main := br];
      if ver in V.Tags(br.base + br.own) {
        ShowsThroughNew(br.(own := br.own[..|br.own| - 1]), ver);
        ok := state.PopVersion(V.Main);
      }
    }

    /**
     One call of Tendermint, in any legal order; false exactly where the plain
     machine, with its checks, panics.
     */
    method Handle(ev: Event) returns (ok: bool)
      requires Valid() && Legal(Abs(), ev)
      modifies this, state, main, deliverTx, checkTx
      ensures ok == NodeStep(chain, old(AbsNode()), ev).Some?
      ensures ok ==> Valid() && Some(AbsNode()) == NodeStep(chain, old(AbsNode()), ev)
      ensures !ok ==> ev.DeliverTx? || ev.CheckTx?
      ensures ok && (ev.BeginBlock? || ev.Restart?) ==> state.branches.Keys == ALL_BRANCHES
      ensures ok && ev.Commit? ==> state.branches.Keys == {V.Main, V.CheckTx}
    {
      match ev {
        case DeliverTx(tx) =>
          var r := Deliver(tx);
          ok := r != Aborted;
        case CheckTx(recheck, tx) =>
          var r := Check(recheck, tx);
          ok := r != Aborted;
        case _ => ok := HandleBlock(ev);
      }
    }

    /** The calls that open, close or drop a block: none of them can panic. */
    method HandleBlock(ev: Event) returns (ok: bool)
      requires Valid() && Legal(Abs(), ev) && (ev.BeginBlock? || ev.Commit? || ev.Restart?)
      modifies this, state, main, deliverTx, checkTx
      ensures ok && Valid() && Some(AbsNode()) == NodeStep(chain, old(AbsNode()), ev)
      ensures state.branches.Keys == if ev.Commit? then {V.Main, V.CheckTx} else ALL_BRANCHES
    {
      ghost var n := AbsNode();
      match ev {
        case BeginBlock(proposer, timestamp) => ok := ConsensusRefresh(proposer, timestamp);
        case Commit => var data; ok, data := CommitBlock();
        case Restart => ok := LoadFromSnapshot();
      }
      NodeStepsTo(chain, n, ev, AbsNode());
    }

    /**
     Any legal run of calls, with checks and restarts anywhere between them,
     leaves the ledger where the plain machine stands after the same run, and
     gets through exactly when that does.
     */
    method Drive(events: seq<Event>) returns (ok: bool)
      requires Valid() && LegalRun(chain, Abs(), events)
      modifies this, state, main, deliverTx, checkTx
      ensures ok == NodeRun(chain, old(AbsNode()), events).Some?
      ensures ok ==> Valid() && Some(AbsNode()) == NodeRun(chain, old(AbsNode()), events)
      ensures ok ==> Some(Abs()) == PlainRun(chain, old(Abs()), events)
    {
      ghost var start := AbsNode();
      ghost var n := start;
      ok := true;
      for i := 0 to |events|
        invariant Valid() && n == AbsNode()
        invariant LegalRun(chain, n.plain, events[i..])
        invariant NodeRun(chain, n, events[i..]) == NodeRun(chain, start, events)
      {
        NodeRunSteps(chain, n, events, i);
        ok := Handle(events[i]);
        if !ok { return; }
        n := AbsNode();
      }
      ChecksNeverInterfere(chain, start, events);
    }

    /**
     A whole block, whatever checks come between its deliveries, leaves the ledger
     with the fold of the delivered transactions over what was last committed.
     */
    method DriveBlock(proposer: Bytes, timestamp: nat, events: seq<Event>) returns (ok: bool)
      requires Valid() && !inBlock && WithinBlock(events)
      modifies this, state, main, deliverTx, checkTx
      ensures var run := BlockRun(proposer, timestamp, events);
              LegalRun(chain, old(Abs()), run) && ok == NodeRun(chain, old(AbsNode()), run).Some?
      ensures ok ==> Valid() && Some(Abs()) == AfterBlock(chain, old(Abs()), proposer, timestamp, Delivered(events))
    {
      BlocksAreSerial(chain, Abs(), proposer, timestamp, events);
      ok := Drive(BlockRun(proposer, timestamp, events));
    }

    /**
     So does a block that was stopped anywhere, and replayed in full after the
     ledger was loaded again.
     */
    method DriveInterrupted(proposer: Bytes, timestamp: nat, cut: seq<Event>, events: seq<Event>) returns (ok: bool)
      requires Valid() && !inBlock && state.blocks != map[] && WithinBlock(cut) && WithinBlock(events)
      requires PlainRunsThrough(chain, Abs(), proposer, timestamp, cut)
      modifies this, state, main, deliverTx, checkTx
      ensures var run := [BeginBlock(proposer, timestamp)] + cut + [Restart] + BlockRun(proposer, timestamp, events);
              LegalRun(chain, old(Abs()), run) && ok == NodeRun(chain, old(AbsNode()), run).Some?
      ensures ok ==> Valid() && Some(Abs()) == AfterBlock(chain, old(Abs()), proposer, timestamp, Delivered(events))
    {
      BlocksAreSerial(chain, Abs(), proposer, timestamp, events);
      ReplayAfterRestart(chain, Abs(), proposer, timestamp, cut, events);
      ok := Drive([BeginBlock(proposer, timestamp)] + cut + [Restart] + BlockRun(proposer, timestamp, events));
    }
  }

  function BlockRun(proposer: Bytes, timestamp: nat, events: seq<Event>): seq<Event> {
    [BeginBlock(proposer, timestamp)] + events + [Commit]
  }

  lemma NodeStepsTo(chain: Chain, n: Node, ev: Event, m: Node)
    requires Legal(n.plain, ev) && !ev.CheckTx? && PlainStep(chain, n.plain, ev) == Some(m.plain)
    requires m.tried == if ev.BeginBlock? || ev.Restart? then m.plain.state else n.tried
    ensures NodeStep(chain, n, ev) == Some(m)
  {
  }

  lemma NodeRunSteps(chain: Chain, n: Node, events: seq<Event>, i: nat)
    requires i < |events| && LegalRun(chain, n.plain, events[i..])
    ensures Legal(n.plain, events[i])
    ensures match NodeStep(chain, n, events[i])
            case None => NodeRun(chain, n, events[i..]) == None
            case Some(m) => LegalRun(chain, m.plain, events[i + 1..]) &&
                            NodeRun(chain, n, events[i..]) == NodeRun(chain, m, events[i + 1..])
  {
    assert events[i..][1..] == events[i + 1..];
  }

  lemma FundedEnds(st: ChainState, distribution: map<Address, U256>)
    ensures Funded(st, distribution - distribution.Keys) == st
    ensures distribution - {} == distribution
  {
  }

  lemma FundedMore(st: ChainState, distribution: map<Address, U256>, rest: set<Address>, a: Address)
    requires a in rest && rest <= distribution.Keys
    ensures var less := Funded(st, distribution - rest);
            Funded(st, distribution - (rest - {a})) ==
            less.(accounts := less.accounts[a := OvrAccount(0, distribution[a], [])])
  {
  }

  /**
   The answer to a transaction: a refusal for bytes that do not decode, and
   otherwise accepted, refused or aborted as its effect on `st` says.
   */
  predicate Answered(r: Response, tx: Option<Tx>, chain: Chain, st: ChainState, hashes: map<nat, H256>) {
    match tx
    case None => r == Refused
    case Some(tx) =>
      match Effect(chain, st, hashes, tx)
      case Succeeded(_, _) => r == Accepted
      case Rejected => r == Refused
      case Failed(_) => r == Refused
      case Panicked => r == Aborted
  }

  lemma OnlyThree(branches: map<V.BranchName, V.Branch>, main: V.Branch)
    requires ALL_BRANCHES <= branches.Keys && branches[V.Main] == main
    requires branches[V.DeliverTx] == Fork(V.Main, main) && branches[V.CheckTx] == Fork(V.Main, main)
    ensures branches == map[V.Main := main, V.DeliverTx := Fork(V.Main, main), V.CheckTx := Fork(V.Main, main)]
  {
    forall b | b in branches ensures b in ALL_BRANCHES {
      match b {
        case Main =>
        case DeliverTx =>
        case CheckTx =>
      }
    }
  }

  /** Main prepared for the block after `last`, beside two prepared forks of it. */
  predicate AllPrepared(trunk: V.Branch, last: nat, branches: map<V.BranchName, V.Branch>) {
    && branches.Keys == ALL_BRANCHES
    && branches[V.Main] == Prepared(trunk, V.Main, last + 1)
    && branches[V.DeliverTx] == Prepared(Fork(V.Main, trunk), V.DeliverTx, last + 1)
    && branches[V.CheckTx] == Prepared(Fork(V.Main, trunk), V.CheckTx, last + 1)
  }

  lemma BeginsOpen(trunk: V.Branch, last: nat, branches: map<V.BranchName, V.Branch>, draft: Draft)
    requires MainShape(trunk, last) && AllPrepared(trunk, last, branches)
    requires draft.hashes == [] && draft.block.header.height == last + 1
    ensures ValidOpen(branches, last, draft) && ValidCheck(branches, draft)
  {
    ForkBegins(trunk, V.DeliverTx, last);
    ForkBegins(trunk, V.CheckTx, last);
    assert trunk.base + trunk.own == trunk.own;
    assert Prepared(trunk, V.Main, last + 1).own[..|trunk.own|] == trunk.own;
  }

  lemma BeginsShowing(trunk: V.Branch, last: nat, branches: map<V.BranchName, V.Branch>)
    requires MainShape(trunk, last) && AllPrepared(trunk, last, branches)
    ensures V.Visible(branches[V.Main]) == V.Visible(branches[V.DeliverTx]) == V.Visible(branches[V.CheckTx]) ==
            V.Visible(trunk)
  {
    ForkBegins(trunk, V.DeliverTx, last);
    ForkBegins(trunk, V.CheckTx, last);
    ShowsThroughNew(trunk, V.Tag(V.Main, V.VsVersion(last + 1, 0)));
  }

  lemma Begins(trunk: V.Branch, branches: map<V.BranchName, V.Branch>, blocks: map<nat, Block>,
               blockHashes: map<nat, H256>, snapshot: Option<Draft>, proposer: Bytes, timestamp: nat)
    requires KeepsChain(blocks, snapshot) && MainShape(trunk, LastHeight(blocks))
    requires AllPrepared(trunk, LastHeight(blocks), branches)
    ensures var p := Plain(V.Visible(trunk), blocks, blockHashes, None);
            var begun := Begun(p, proposer, timestamp);
            && Keeps(branches, blocks, snapshot, begun.draft, begun.draft, true)
            && Shows(branches, blocks, blockHashes, begun.draft, true) == p.(pending := Some(begun))
    ensures V.Visible(branches[V.CheckTx]) == V.Visible(trunk)
  {
    var p := Plain(V.Visible(trunk), blocks, blockHashes, None);
    BeginsOpen(trunk, LastHeight(blocks), branches, Begun(p, proposer, timestamp).draft);
    BeginsShowing(trunk, LastHeight(blocks), branches);
  }

  /** Main between blocks, or with the next block begun on it and not committed. */
  predicate Restartable(br: V.Branch, last: nat) {
    || MainShape(br, last)
    || (br.own != [] && MainShape(br.(own := br.own[..|br.own| - 1]), last) &&
        br == Prepared(br.(own := br.own[..|br.own| - 1]), V.Main, last + 1))
  }

  lemma MayHaveBegun(branches: map<V.BranchName, V.Branch>, blocks: map<nat, Block>, snapshot: Option<Draft>,
                     delivered: Draft, checked: Draft, inBlock: bool)
    requires Keeps(branches, blocks, snapshot, delivered, checked, inBlock)
    ensures V.Main in branches && Restartable(branches[V.Main], LastHeight(blocks))
  {
  }

  lemma Reloads(trunk: V.Branch, branches: map<V.BranchName, V.Branch>, blocks: map<nat, Block>,
                snapshot: Option<Draft>, draft: Draft)
    requires KeepsChain(blocks, snapshot) && MainShape(trunk, LastHeight(blocks)) && draft.block.header.height == 0
    requires branches == map[V.Main := trunk, V.DeliverTx := Fork(V.Main, trunk), V.CheckTx := Fork(V.Main, trunk)]
    ensures Keeps(branches, blocks, snapshot, draft, draft, false)
    ensures V.Visible(branches[V.CheckTx]) == V.Visible(branches[V.Main]) == V.Visible(trunk)
  {
    ForkTracks(trunk, LastHeight(blocks), 0, |draft.hashes|);
    ForkShows(V.Main, trunk);
  }

  /** What DeliverTx brings to the merge is not on Main already. */
  lemma MergeMeetsNothing(branches: map<V.BranchName, V.Branch>, last: nat, draft: Draft)
    requires ValidOpen(branches, last, draft)
    ensures V.Mergeable(branches, V.DeliverTx)
  {
    var main := branches[V.Main];
    MergeMeetsNoClash(main.(own := main.own[..|main.own| - 1]), branches[V.DeliverTx], last, |draft.hashes|);
  }

  /** The branches once DeliverTx is merged into Main. */
  function Taken(branches: map<V.BranchName, V.Branch>): map<V.BranchName, V.Branch>
    requires V.Main in branches && V.DeliverTx in branches
  {
    var main := branches[V.Main];
    branches[V.Main := main.(own := main.own + branches[V.DeliverTx].own)] - {V.DeliverTx}
  }

  lemma MergesIdle(before: map<V.BranchName, V.Branch>, after: map<V.BranchName, V.Branch>, last: nat, draft: Draft)
    requires ValidOpen(before, last, draft) && after == Taken(before)
    ensures after.Keys == {V.Main, V.CheckTx} && after[V.CheckTx] == before[V.CheckTx]
    ensures ValidIdle(after, last + 1)
    ensures V.Visible(after[V.Main]) == V.Visible(before[V.DeliverTx])
  {
    var main := before[V.Main];
    var trunk := main.(own := main.own[..|main.own| - 1]);
    MergeShows(trunk, before[V.DeliverTx], last);
    MergeKeepsShape(trunk, before[V.DeliverTx], last, |draft.hashes|);
    assert after[V.Main] == Merged(trunk, before[V.DeliverTx], last);
  }

  lemma Commits(chain: Chain, before: map<V.BranchName, V.Branch>, blocks: map<nat, Block>,
                blockHashes: map<nat, H256>, snapshot: Option<Draft>,
                draft: Draft, checked: Draft, swapped: Draft, saved: Draft)
    requires Keeps(before, blocks, snapshot, draft, checked, true) && saved.block == DEFAULT_BLOCK
    ensures Taken(before).Keys == {V.Main, V.CheckTx} && Taken(before)[V.CheckTx] == before[V.CheckTx]
    ensures var p := Shows(before, blocks, blockHashes, draft, true);
            var q := PlainStep(chain, p, Commit).value;
            Keeps(Taken(before), q.blocks, Some(saved), swapped, checked, false) &&
            Shows(Taken(before), q.blocks, q.blockHashes, swapped, false) == q
  {
    MergesIdle(before, Taken(before), LastHeight(blocks), draft);
    LastHeightGrows(blocks, LastHeight(blocks) + 1, Closed(chain, draft));
  }

  lemma Delivers(chain: Chain, before: map<V.BranchName, V.Branch>, after: map<V.BranchName, V.Branch>,
                 blocks: map<nat, Block>, blockHashes: map<nat, H256>, snapshot: Option<Draft>,
                 draft: Draft, draft': Draft, checked: Draft, tx: Tx, r: Response)
    requires Keeps(before, blocks, snapshot, draft, checked, true)
    requires TookTx(chain, blockHashes, V.DeliverTx, before, after, draft, draft', tx, r)
    ensures r == Aborted <==>
            PlainStep(chain, Shows(before, blocks, blockHashes, draft, true), DeliverTx(Some(tx))).None?
    ensures r != Aborted ==>
              && Keeps(after, blocks, snapshot, draft', checked, true)
              && after[V.CheckTx] == before[V.CheckTx]
              && PlainStep(chain, Shows(before, blocks, blockHashes, draft, true), DeliverTx(Some(tx))) ==
                 Some(Shows(after, blocks, blockHashes, draft', true))
              && (r == Accepted <==> draft'.block.txs == draft.block.txs + [tx])
              && (r == Refused <==> draft'.block.txs == draft.block.txs)
    ensures Answered(r, Some(tx), chain, V.Visible(before[V.DeliverTx]), blockHashes)
  {
    if r != Aborted {
      DeliverKeepsOpen(before, after, LastHeight(blocks), draft, draft', r == Accepted);
      CheckUndisturbed(before, after, V.DeliverTx, checked);
    }
  }

  lemma Checks(chain: Chain, before: map<V.BranchName, V.Branch>, after: map<V.BranchName, V.Branch>,
               blocks: map<nat, Block>, blockHashes: map<nat, H256>, snapshot: Option<Draft>,
               delivered: Draft, draft: Draft, draft': Draft, inBlock: bool, tx: Tx, r: Response)
    requires Keeps(before, blocks, snapshot, delivered, draft, inBlock)
    requires TookTx(chain, blockHashes, V.CheckTx, before, after, draft, draft', tx, r)
    ensures r == Aborted <==> Effect(chain, V.Visible(before[V.CheckTx]), blockHashes, tx).Panicked?
    ensures Answered(r, Some(tx), chain, V.Visible(before[V.CheckTx]), blockHashes)
    ensures r != Aborted ==>
              && Keeps(after, blocks, snapshot, delivered, draft', inBlock)
              && Shows(after, blocks, blockHashes, delivered, inBlock) ==
                 Shows(before, blocks, blockHashes, delivered, inBlock)
              && V.Visible(after[V.CheckTx]) ==
                 StateAfter(V.Visible(before[V.CheckTx]), Effect(chain, V.Visible(before[V.CheckTx]), blockHashes, tx))
  {
    if r != Aborted {
      CheckKeepsItself(before, after, draft, draft', r == Accepted);
    }
  }

  lemma RewriteKeepsMain(x: V.Branch, y: V.Branch, last: nat)
    requires MainShape(x, last) && y.own != []
    requires y == V.Rewritten(x, y.own[|y.own| - 1])
    requires y.own[|y.own| - 1].tag == x.own[|x.own| - 1].tag
    ensures MainShape(y, last)
  {
    RewriteKeepsTags(x, y);
    assert forall i :: 0 <= i < |y.own| ==> y.own[i].tag == V.Tags(y.own)[i] == V.Tags(x.own)[i] == x.own[i].tag;
  }

  lemma Initialises(before: map<V.BranchName, V.Branch>, after: map<V.BranchName, V.Branch>,
                    snapshot: Option<Draft>, delivered: Draft, checked: Draft)
    requires Keeps(before, map[], snapshot, delivered, checked, false) && V.WroteOnly(before, after, V.Main)
    ensures Keeps(after, map[], snapshot, delivered, checked, false)
  {
    RewriteKeepsMain(before[V.Main], after[V.Main], 0);
    CheckUndisturbed(before, after, V.Main, checked);
  }

  lemma CheckUndisturbed(before: map<V.BranchName, V.Branch>, after: map<V.BranchName, V.Branch>,
                         b: V.BranchName, draft: Draft)
    requires ValidCheck(before, draft) && b in after && after == before[b := after[b]] && b != V.CheckTx
    ensures ValidCheck(after, draft)
  {
  }

  /** A block in process keeps its height and grows by one hash exactly when its transaction is accepted. */
  predicate Continues(draft: Draft, draft': Draft, accepted: bool) {
    && draft'.block.header.height == draft.block.header.height
    && |draft'.hashes| == if accepted then |draft.hashes| + 1 else |draft.hashes|
  }

  /** DeliverTx's versions stay (h,0)..(h,n), with n the number of transactions accepted so far. */
  lemma DeliverKeepsOpen(before: map<V.BranchName, V.Branch>, after: map<V.BranchName, V.Branch>, last: nat,
                         draft: Draft, draft': Draft, accepted: bool)
    requires ValidOpen(before, last, draft) && Continues(draft, draft', accepted)
    requires KeptShape(V.DeliverTx, before, after, draft.block.header.height, |draft.hashes|, accepted)
    ensures ValidOpen(after, last, draft') && after[V.Main] == before[V.Main]
  {
    BlockNamesGrow(V.DeliverTx, last + 1, |draft.hashes|);
    assert V.Tags(before[V.DeliverTx].own) != [];
  }

  /** So do CheckTx's, and no other branch changes. */
  lemma CheckKeepsItself(before: map<V.BranchName, V.Branch>, after: map<V.BranchName, V.Branch>,
                         draft: Draft, draft': Draft, accepted: bool)
    requires ValidCheck(before, draft) && Continues(draft, draft', accepted)
    requires KeptShape(V.CheckTx, before, after, draft.block.header.height, |draft.hashes|, accepted)
    ensures ValidCheck(after, draft') && after.Keys == before.Keys
    ensures forall b :: b in before && b != V.CheckTx ==> after[b] == before[b]
  {
    if draft.block.header.height != 0 {
      BlockNamesGrow(V.CheckTx, draft.block.header.height, |draft.hashes|);
      assert V.Tags(before[V.CheckTx].own) != [];
    }
  }

  lemma LastHeightGrows(blocks: map<nat, Block>, height: nat, block: Block)
    requires height == LastHeight(blocks) + 1
    requires block.header.height == height
    ensures LastHeight(blocks[height := block]) == TipHeight(blocks[height := block]) == height
  {
    assert height in blocks[height := block];
  }
}
