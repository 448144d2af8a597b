/** Addresses, words, accounts, and the world state a backend holds. */
module EvmTypes {
  import opened Wrappers
  import opened FiniteSums

  const U256_MAX: nat := 0xFFFF_FFFF_FFFF_FFFF_FFFF_FFFF_FFFF_FFFF_FFFF_FFFF_FFFF_FFFF_FFFF_FFFF_FFFF_FFFF

  type U256 = n: nat | n <= U256_MAX

  // Addresses and storage words are only ever compared, so their widths play no part.
  type Address = nat
  type H256 = nat
  type Byte = n: nat | n < 256
  type Bytes = seq<Byte>

  datatype Slot = Slot(address: Address, key: H256)

  datatype Log = Log(address: Address, topics: seq<H256>, data: Bytes)

  datatype OvrAccount = OvrAccount(nonce: U256, balance: U256, code: Bytes)

  const DEFAULT_ACCOUNT := OvrAccount(0, 0, [])

  /** The accounts and storages as seen on one branch. */
  datatype ChainState = ChainState(accounts: map<Address, OvrAccount>, storages: map<Slot, H256>) {
    function Account(a: Address): OvrAccount {
      Lookup(accounts, a).GetOr(DEFAULT_ACCOUNT)
    }

    function Storage(slot: Slot): H256 {
      Lookup(storages, slot).GetOr(0)
    }
  }

  const EMPTY_STATE := ChainState(map[], map[])

  function SaturatingAdd(a: U256, b: U256): U256 {
    if a + b > U256_MAX then U256_MAX else a + b
  }

  function SaturatingSub(a: U256, b: U256): U256 {
    if a < b then 0 else a - b
  }

  function Balances(accounts: map<Address, OvrAccount>): map<Address, nat> {
    map a | a in accounts :: accounts[a].balance
  }

  ghost function Supply(accounts: map<Address, OvrAccount>): nat {
    Sum(Balances(accounts))
  }

  lemma SupplyUpdate(accounts: map<Address, OvrAccount>, a: Address, account: OvrAccount)
    ensures Supply(accounts[a := account]) ==
            Supply(accounts) + account.balance - Lookup(accounts, a).GetOr(DEFAULT_ACCOUNT).balance
  {
    SumUpdate(Balances(accounts), a, account.balance);
    assert Balances(accounts[a := account]) == Balances(accounts)[a := account.balance];
  }
}
