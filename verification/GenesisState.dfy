/** What the genesis file leaves behind: the balances it lists, and its contracts deployed one after the other. */
module GenesisState {
  import opened Wrappers
  import opened EvmTypes
  import opened Journal
  import opened Flush
  import opened ChainTypes
  import opened PlainLedger

  /** Every listed address holds its amount and nothing else; all else is as it was. */
  ghost predicate FundedWith(before: ChainState, distribution: map<Address, U256>, after: ChainState) {
    && after.storages == before.storages
    && after.accounts.Keys == before.accounts.Keys + distribution.Keys
    && (forall a :: a in distribution ==>
          after.accounts[a].balance == distribution[a] && after.accounts[a].nonce == 0 && after.accounts[a].code == [])
    && (forall a :: a in before.accounts && a !in distribution ==> after.accounts[a] == before.accounts[a])
  }

  lemma FundedAsListed(before: ChainState, distribution: map<Address, U256>)
    ensures FundedWith(before, distribution, Funded(before, distribution))
  {
  }

  /** The deployment's run succeeds, comes back to the root, and is written. */
  ghost predicate Deploys(chain: Chain, before: ChainState, contract: GenesisContract, after: ChainState) {
    var e := chain.deploy(contract, before);
    var end := Run(NEW_STACK, before, e.ops);
    e.success && end.Some? && end.value.Root? && Wrote(before, end.value.top, after)
  }

  /** A deployment goes through exactly when its run succeeds and comes back to the root. */
  lemma DeployedWritesItsRun(chain: Chain, st: ChainState, contract: GenesisContract)
    ensures var e := chain.deploy(contract, st);
            Deployed(chain, st, contract).Some? <==>
            e.success && Run(NEW_STACK, st, e.ops).Some? && Run(NEW_STACK, st, e.ops).value.Root?
    ensures Deployed(chain, st, contract).Some? ==>
              Deploys(chain, st, contract, Deployed(chain, st, contract).value)
  {
    var end := Run(NEW_STACK, st, chain.deploy(contract, st).ops);
    if Deployed(chain, st, contract).Some? {
      FlushWrites(end.value.top, st);
    }
  }

  /** Each contract is deployed over the state the one before it left. */
  ghost predicate Deployments(chain: Chain, contracts: seq<GenesisContract>, states: seq<ChainState>) {
    && |states| == |contracts| + 1
    && forall i :: 0 <= i < |contracts| ==> Deploys(chain, states[i], contracts[i], states[i + 1])
  }

  ghost predicate DeployedInTurn(chain: Chain, before: ChainState, contracts: seq<GenesisContract>, after: ChainState) {
    exists states :: Deployments(chain, contracts, states) && states[0] == before && states[|contracts|] == after
  }

  lemma OneMoreDeployment(chain: Chain, contracts: seq<GenesisContract>, states: seq<ChainState>, after: ChainState)
    requires contracts != [] && Deployments(chain, contracts[..|contracts| - 1], states)
    requires Deploys(chain, states[|contracts| - 1], contracts[|contracts| - 1], after)
    ensures Deployments(chain, contracts, states + [after])
    ensures (states + [after])[0] == states[0] && (states + [after])[|contracts|] == after
  {
    var n, grown := |contracts| - 1, states + [after];
    forall i | 0 <= i < |contracts| ensures Deploys(chain, grown[i], contracts[i], grown[i + 1]) {
      assert grown[i] == states[i];
      if i < n {
        assert Deploys(chain, states[i], contracts[..n][i], states[i + 1]);
        assert grown[i + 1] == states[i + 1];
      } else {
        assert grown[i + 1] == after;
      }
    }
  }

  lemma {:induction false} LastDeploys(chain: Chain, st: ChainState, contracts: seq<GenesisContract>)
    requires contracts != [] && AllDeployed(chain, st, contracts).Some?
    ensures var midway := AllDeployed(chain, st, contracts[..|contracts| - 1]);
            midway.Some? &&
            Deploys(chain, midway.value, contracts[|contracts| - 1], AllDeployed(chain, st, contracts).value)
  {
    DeployedWritesItsRun(chain, AllDeployed(chain, st, contracts[..|contracts| - 1]).value, contracts[|contracts| - 1]);
  }

  lemma {:induction false} DeploymentTrace(chain: Chain, st: ChainState, contracts: seq<GenesisContract>)
    returns (states: seq<ChainState>)
    requires AllDeployed(chain, st, contracts).Some?
    ensures Deployments(chain, contracts, states)
    ensures states[0] == st && states[|contracts|] == AllDeployed(chain, st, contracts).value
  {
    if contracts == [] {
      states := [st];
    } else {
      var n := |contracts| - 1;
      LastDeploys(chain, st, contracts);
      var before := DeploymentTrace(chain, st, contracts[..n]);
      var after := AllDeployed(chain, st, contracts).value;
      OneMoreDeployment(chain, contracts, before, after);
      states := before + [after];
    }
  }

  lemma AllDeployInTurn(chain: Chain, st: ChainState, contracts: seq<GenesisContract>)
    requires AllDeployed(chain, st, contracts).Some?
    ensures DeployedInTurn(chain, st, contracts, AllDeployed(chain, st, contracts).value)
  {
    var states := DeploymentTrace(chain, st, contracts);
  }

  /** A contract that does not go through fails the whole list. */
  lemma {:induction false} OneFailureFailsAll(chain: Chain, st: ChainState, contracts: seq<GenesisContract>, i: nat)
    requires i <= |contracts| && AllDeployed(chain, st, contracts[..i]).None?
    ensures AllDeployed(chain, st, contracts).None?
    decreases |contracts|
  {
    if i < |contracts| {
      var shorter := contracts[..|contracts| - 1];
      assert shorter[..i] == contracts[..i];
      OneFailureFailsAll(chain, st, shorter, i);
    } else {
      assert contracts[..i] == contracts;
    }
  }
}
