/** The ERC-20 test contract (tests/contracts/token.sol), with 256-bit wrap-around and revert. */
module Token {
  import opened Wrappers
  import opened FiniteSums
  import opened EvmTypes

  const MODULUS: nat := U256_MAX + 1

  // ---------- SafeMath ----------

  /** None is a revert. */
  function SafeAdd(a: U256, b: U256): Option<U256> {
    var c := (a + b) % MODULUS;
    if c >= a then Some(c) else None
  }

  function SafeSub(a: U256, b: U256): Option<U256> {
    if b <= a then Some(a - b) else None
  }

  function SafeMul(a: U256, b: U256): Option<U256> {
    if a == 0 then Some(0)
    else
      var c := (a * b) % MODULUS;
      if c / a == b then Some(c) else None
  }

  /** The wrapped sum is at least its first term exactly when nothing wrapped. */
  lemma SafeAddIsExact(a: U256, b: U256)
    ensures SafeAdd(a, b) == if a + b <= U256_MAX then Some(a + b) else None
  {
  }

  lemma ProductGrows(a: nat, x: nat, y: nat)
    requires x <= y
    ensures a * x <= a * y
  {
  }

  lemma QuotientBelow(c: nat, a: nat, b: nat)
    requires a > 0 && c < a * b
    ensures c / a < b
  {
  }

  lemma QuotientExact(a: nat, b: nat)
    requires a > 0
    ensures (a * b) / a == b
  {
    var n := a * b;
    var q := n / a;
    assert a * q <= n < a * q + a;
    if q < b {
      ProductGrows(a, q + 1, b);
    }
  }

  lemma WrappedIsLess(n: nat)
    requires n >= MODULUS
    ensures n % MODULUS < n
  {
  }

  /** Dividing the wrapped product back gives the factor exactly when the product fits. */
  lemma SafeMulIsExact(a: U256, b: U256)
    ensures SafeMul(a, b) == if a * b <= U256_MAX then Some(a * b) else None
  {
    if a != 0 {
      if a * b <= U256_MAX {
        assert (a * b) % MODULUS == a * b;
        QuotientExact(a, b);
      } else {
        WrappedIsLess(a * b);
        QuotientBelow((a * b) % MODULUS, a, b);
      }
    } else {
      assert a * b == 0;
    }
  }

  // ---------- the contract's state ----------

  datatype TokenState = TokenState(
    balances: map<Address, U256>, allowances: map<(Address, Address), U256>, totalSupply: U256)
  {
    function Balance(a: Address): U256 {
      Lookup(balances, a).GetOr(0)
    }

    function Allowance(owner: Address, spender: Address): U256 {
      Lookup(allowances, (owner, spender)).GetOr(0)
    }
  }

  const INITIAL_SUPPLY: U256 := 1000000000000000000000000

  function Deployed(creator: Address): TokenState {
    TokenState(map[creator := INITIAL_SUPPLY], map[], INITIAL_SUPPLY)
  }

  datatype Call =
    | Transfer(recipient: Address, amount: U256)
    | Approve(spender: Address, value: U256)
    | TransferFrom(sender: Address, recipient: Address, amount: U256)
    | IncreaseAllowance(spender: Address, value: U256)
    | DecreaseAllowance(spender: Address, value: U256)
    | Burn(value: U256)

  /** What EIP-20 asks of each call; None is a revert, which leaves the state alone. */
  function Effect(t: TokenState, caller: Address, call: Call): Option<TokenState> {
    match call
    case Transfer(to, amount) => Moved(t, caller, to, amount)
    case Approve(spender, value) => Approved(t, caller, spender, value)
    case TransferFrom(from, to, amount) =>
      if amount > t.Allowance(from, caller) then None
      else (match Moved(t, from, to, amount)
        case None => None
        case Some(t') => Approved(t', from, caller, t.Allowance(from, caller) - amount))
    case IncreaseAllowance(spender, value) =>
      if t.Allowance(caller, spender) + value > U256_MAX then None
      else Approved(t, caller, spender, t.Allowance(caller, spender) + value)
    case DecreaseAllowance(spender, value) =>
      if value > t.Allowance(caller, spender) then None
      else Approved(t, caller, spender, t.Allowance(caller, spender) - value)
    case Burn(value) =>
      if caller == 0 || value > t.totalSupply || value > t.Balance(caller) then None
      else Some(t.(totalSupply := t.totalSupply - value, balances := t.balances[caller := t.Balance(caller) - value]))
  }

  /** A transfer has no overflow to fear: it is the plain move of an amount that is there. */
  function Moved(t: TokenState, from: Address, to: Address, amount: U256): Option<TokenState> {
    if from == 0 || to == 0 || amount > t.Balance(from) then None
    else
      var debited := t.(balances := t.balances[from := t.Balance(from) - amount]);
      if debited.Balance(to) + amount > U256_MAX then None
      else Some(debited.(balances := debited.balances[to := debited.Balance(to) + amount]))
  }

  function Approved(t: TokenState, owner: Address, spender: Address, value: U256): Option<TokenState> {
    if owner == 0 || spender == 0 then None
    else Some(t.(allowances := t.allowances[(owner, spender) := value]))
  }

  // ---------- what each call means for everyone ----------

  ghost predicate SameBalances(t: TokenState, t': TokenState) {
    forall a: Address :: t'.Balance(a) == t.Balance(a)
  }

  ghost predicate SameAllowances(t: TokenState, t': TokenState) {
    forall owner: Address, spender: Address :: t'.Allowance(owner, spender) == t.Allowance(owner, spender)
  }

  /** `from` is poorer and `to` richer by the amount, which cancels if they are the same; nobody else is touched. */
  ghost predicate Pays(t: TokenState, t': TokenState, from: Address, to: Address, amount: nat) {
    && (from != to ==> t'.Balance(from) + amount == t.Balance(from) && t'.Balance(to) == t.Balance(to) + amount)
    && (from == to ==> t'.Balance(from) == t.Balance(from) >= amount)
    && (forall a: Address :: a != from && a != to ==> t'.Balance(a) == t.Balance(a))
  }

  /** One allowance becomes `value`; no other is touched. */
  ghost predicate Allows(t: TokenState, t': TokenState, owner: Address, spender: Address, value: int) {
    && t'.Allowance(owner, spender) == value
    && (forall o: Address, s: Address :: o != owner || s != spender ==> t'.Allowance(o, s) == t.Allowance(o, s))
  }

  /** A call that gets through, by what everyone holds and may spend before and after it. */
  ghost predicate Does(t: TokenState, caller: Address, call: Call, t': TokenState) {
    match call
    case Transfer(to, amount) =>
      Pays(t, t', caller, to, amount) && SameAllowances(t, t') && t'.totalSupply == t.totalSupply
    case TransferFrom(from, to, amount) =>
      && Pays(t, t', from, to, amount) && t'.totalSupply == t.totalSupply
      && Allows(t, t', from, caller, t.Allowance(from, caller) - amount)
    case Approve(spender, value) =>
      Allows(t, t', caller, spender, value) && SameBalances(t, t') && t'.totalSupply == t.totalSupply
    case IncreaseAllowance(spender, value) =>
      && Allows(t, t', caller, spender, t.Allowance(caller, spender) + value)
      && SameBalances(t, t') && t'.totalSupply == t.totalSupply
    case DecreaseAllowance(spender, value) =>
      && Allows(t, t', caller, spender, t.Allowance(caller, spender) - value)
      && SameBalances(t, t') && t'.totalSupply == t.totalSupply
    case Burn(value) =>
      && t'.Balance(caller) + value == t.Balance(caller) && t'.totalSupply + value == t.totalSupply
      && (forall a: Address :: a != caller ==> t'.Balance(a) == t.Balance(a)) && SameAllowances(t, t')
  }

  /** The zero address takes part in no call. */
  predicate NamesZero(caller: Address, call: Call) {
    match call
    case Transfer(to, _) => caller == 0 || to == 0
    case TransferFrom(from, to, _) => from == 0 || to == 0 || caller == 0
    case Approve(spender, _) => caller == 0 || spender == 0
    case IncreaseAllowance(spender, _) => caller == 0 || spender == 0
    case DecreaseAllowance(spender, _) => caller == 0 || spender == 0
    case Burn(_) => caller == 0
  }

  /** What the call takes is there, and what it adds to fits 256 bits. */
  predicate Affords(t: TokenState, caller: Address, call: Call) {
    match call
    case Transfer(to, amount) =>
      amount <= t.Balance(caller) && (caller != to ==> t.Balance(to) + amount <= U256_MAX)
    case TransferFrom(from, to, amount) =>
      && amount <= t.Balance(from) && (from != to ==> t.Balance(to) + amount <= U256_MAX)
      && amount <= t.Allowance(from, caller)
    case Approve(_, _) => true
    case IncreaseAllowance(spender, value) => t.Allowance(caller, spender) + value <= U256_MAX
    case DecreaseAllowance(spender, value) => value <= t.Allowance(caller, spender)
    case Burn(value) => value <= t.Balance(caller) && value <= t.totalSupply
  }

  /** A call gets through exactly when it can be afforded and names no zero address, and then does what it says. */
  lemma CallsDoWhatTheySay(t: TokenState, caller: Address, call: Call)
    ensures Effect(t, caller, call).Some? <==> !NamesZero(caller, call) && Affords(t, caller, call)
    ensures Effect(t, caller, call).Some? ==> Does(t, caller, call, Effect(t, caller, call).value)
  {
    match call {
      case Transfer(to, amount) => MovedPays(t, caller, to, amount);
      case TransferFrom(from, to, amount) => TransferFromPays(t, caller, from, to, amount);
      case Approve(spender, value) => ApprovedAllows(t, caller, spender, value);
      case IncreaseAllowance(spender, value) =>
        if t.Allowance(caller, spender) + value <= U256_MAX {
          ApprovedAllows(t, caller, spender, t.Allowance(caller, spender) + value);
        }
      case DecreaseAllowance(spender, value) =>
        if value <= t.Allowance(caller, spender) {
          ApprovedAllows(t, caller, spender, t.Allowance(caller, spender) - value);
        }
      case Burn(value) =>
    }
  }

  lemma TransferFromPays(t: TokenState, caller: Address, from: Address, to: Address, amount: U256)
    ensures var effect := Effect(t, caller, TransferFrom(from, to, amount));
            && (effect.Some? <==> !NamesZero(caller, TransferFrom(from, to, amount)) &&
                                  Affords(t, caller, TransferFrom(from, to, amount)))
            && (effect.Some? ==> Does(t, caller, TransferFrom(from, to, amount), effect.value))
  {
    MovedPays(t, from, to, amount);
    if amount <= t.Allowance(from, caller) && Moved(t, from, to, amount).Some? {
      ApprovedAllows(Moved(t, from, to, amount).value, from, caller, t.Allowance(from, caller) - amount);
    }
  }

  lemma ApprovedAllows(t: TokenState, owner: Address, spender: Address, value: U256)
    ensures Approved(t, owner, spender, value).Some? <==> owner != 0 && spender != 0
    ensures Approved(t, owner, spender, value).Some? ==>
              && Allows(t, Approved(t, owner, spender, value).value, owner, spender, value)
              && Approved(t, owner, spender, value).value.balances == t.balances
              && Approved(t, owner, spender, value).value.totalSupply == t.totalSupply
  {
  }

  lemma MovedPays(t: TokenState, from: Address, to: Address, amount: U256)
    ensures Moved(t, from, to, amount).Some? <==>
            && from != 0 && to != 0 && amount <= t.Balance(from)
            && (from != to ==> t.Balance(to) + amount <= U256_MAX)
    ensures Moved(t, from, to, amount).Some? ==>
              && Pays(t, Moved(t, from, to, amount).value, from, to, amount)
              && Moved(t, from, to, amount).value.allowances == t.allowances
              && Moved(t, from, to, amount).value.totalSupply == t.totalSupply
  {
  }

  /** On deployment the creator holds the whole supply, and nobody may spend for anybody. */
  lemma DeployedToCreator(creator: Address)
    ensures var t := Deployed(creator);
            && t.totalSupply == 1_000_000_000_000_000_000_000_000 == t.Balance(creator)
            && (forall a: Address :: a != creator ==> t.Balance(a) == 0)
            && (forall owner: Address, spender: Address :: t.Allowance(owner, spender) == 0)
  {
  }

  // ---------- the contract ----------

  class ERC20 {
    var balances: map<Address, U256>
    var allowances: map<(Address, Address), U256>
    var totalSupply: U256

    function State(): TokenState
      reads this
    {
      TokenState(balances, allowances, totalSupply)
    }

    constructor (sender: Address)
      ensures State() == Deployed(sender)
    {
      totalSupply := INITIAL_SUPPLY;
      balances := map[sender := INITIAL_SUPPLY];
      allowances := map[];
    }

    /** One external call; a revert anywhere inside it rolls the whole call back. */
    method Receive(caller: Address, call: Call) returns (ok: bool)
      modifies this
      ensures ok == Effect(old(State()), caller, call).Some?
      ensures State() == Effect(old(State()), caller, call).GetOr(old(State()))
      ensures ok == (!NamesZero(caller, call) && Affords(old(State()), caller, call))
      ensures if ok then Does(old(State()), caller, call, State()) else State() == old(State())
    {
      CallsDoWhatTheySay(State(), caller, call);
      var savedBalances, savedAllowances, savedSupply := balances, allowances, totalSupply;
      match call {
        case Transfer(to, amount) => ok := MoveTokens(caller, to, amount);
        case Approve(spender, value) => ok := SetAllowance(caller, spender, value);
        case TransferFrom(from, to, amount) => ok := SpendAllowance(caller, from, to, amount);
        case IncreaseAllowance(spender, value) =>
          SafeAddIsExact(State().Allowance(caller, spender), value);
          var sum := SafeAdd(State().Allowance(caller, spender), value);
          ok := sum.Some?;
          if ok { ok := SetAllowance(caller, spender, sum.value); }
        case DecreaseAllowance(spender, value) =>
          var rest := SafeSub(State().Allowance(caller, spender), value);
          ok := rest.Some?;
          if ok { ok := SetAllowance(caller, spender, rest.value); }
        case Burn(value) => ok := BurnTokens(caller, value);
      }
      if !ok {
        balances, allowances, totalSupply := savedBalances, savedAllowances, savedSupply;
      }
    }

    method SpendAllowance(caller: Address, from: Address, to: Address, amount: U256) returns (ok: bool)
      modifies this
      ensures ok == Effect(old(State()), caller, TransferFrom(from, to, amount)).Some?
      ensures ok ==> Some(State()) == Effect(old(State()), caller, TransferFrom(from, to, amount))
    {
      ok := MoveTokens(from, to, amount);
      if ok {
        var rest := SafeSub(State().Allowance(from, caller), amount);
        ok := rest.Some?;
        if ok { ok := SetAllowance(from, caller, rest.value); }
      }
    }

    method MoveTokens(from: Address, to: Address, amount: U256) returns (ok: bool)
      modifies this
      ensures ok == Moved(old(State()), from, to, amount).Some?
      ensures ok ==> Some(State()) == Moved(old(State()), from, to, amount)
      ensures allowances == old(allowances)
    {
      if from == 0 || to == 0 { return false; }
      var rest := SafeSub(State().Balance(from), amount);
      if rest.None? { return false; }
      balances := balances[from := rest.value];
      SafeAddIsExact(State().Balance(to), amount);
      var sum := SafeAdd(State().Balance(to), amount);
      if sum.None? { return false; }
      balances := balances[to := sum.value];
      ok := true;
    }

    method SetAllowance(owner: Address, spender: Address, value: U256) returns (ok: bool)
      modifies this
      ensures ok == Approved(old(State()), owner, spender, value).Some?
      ensures ok ==> Some(State()) == Approved(old(State()), owner, spender, value)
    {
      ok := owner != 0 && spender != 0;
      if ok {
        allowances := allowances[(owner, spender) := value];
      }
    }

    method BurnTokens(account: Address, value: U256) returns (ok: bool)
      modifies this
      ensures ok == Effect(old(State()), account, Burn(value)).Some?
      ensures ok ==> Some(State()) == Effect(old(State()), account, Burn(value))
    {
      if account == 0 { return false; }
      var supply := SafeSub(totalSupply, value);
      if supply.None? { return false; }
      totalSupply := supply.value;
      var rest := SafeSub(State().Balance(account), value);
      if rest.None? { return false; }
      balances := balances[account := rest.value];
      ok := true;
    }
  }

  // ---------- whole histories ----------

  function After(t: TokenState, caller: Address, call: Call): TokenState {
    Effect(t, caller, call).GetOr(t)
  }

  function History(t: TokenState, calls: seq<(Address, Call)>): TokenState
    decreases |calls|
  {
    if calls == [] then t else History(After(t, calls[0].0, calls[0].1), calls[1..])
  }

  ghost predicate Backed(t: TokenState) {
    Sum(AsNats(t.balances)) == t.totalSupply
  }

  function AsNats(m: map<Address, U256>): map<Address, nat> {
    map a | a in m :: m[a]
  }

  lemma BalanceMoves(m: map<Address, U256>, a: Address, v: U256)
    ensures Sum(AsNats(m[a := v])) == Sum(AsNats(m)) + v - Lookup(m, a).GetOr(0)
    ensures Lookup(m, a).GetOr(0) <= Sum(AsNats(m))
  {
    SumUpdate(AsNats(m), a, v);
    SumMember(AsNats(m), a);
    assert AsNats(m[a := v]) == AsNats(m)[a := v];
  }

  /**
   In a backed state the recipient's addition cannot overflow: a transfer
   reverts only for a zero address or an amount that is not there.
   */
  lemma TransfersNeverOverflow(t: TokenState, from: Address, to: Address, amount: U256)
    requires Backed(t)
    ensures Moved(t, from, to, amount).None? <==> from == 0 || to == 0 || amount > t.Balance(from)
    ensures Moved(t, from, to, amount).Some? ==> Backed(Moved(t, from, to, amount).value)
  {
    if from != 0 && to != 0 && amount <= t.Balance(from) {
      MovesWithinSum(t.balances, from, to, amount);
      var debited := t.(balances := t.balances[from := t.Balance(from) - amount]);
      assert debited.Balance(to) + amount <= U256_MAX;
      assert Moved(t, from, to, amount) ==
             Some(debited.(balances := debited.balances[to := debited.Balance(to) + amount]));
    }
  }

  lemma MovesWithinSum(m: map<Address, U256>, from: Address, to: Address, amount: U256)
    requires amount <= Lookup(m, from).GetOr(0) && Sum(AsNats(m)) <= U256_MAX
    ensures var debited := m[from := Lookup(m, from).GetOr(0) - amount];
            && Lookup(debited, to).GetOr(0) + amount <= U256_MAX
            && Sum(AsNats(debited[to := Lookup(debited, to).GetOr(0) + amount])) == Sum(AsNats(m))
  {
    DebitLeavesRoom(m, from, to, amount);
    var debited := m[from := Lookup(m, from).GetOr(0) - amount];
    BalanceMoves(debited, to, Lookup(debited, to).GetOr(0) + amount);
  }

  /** Once the sender is debited the amount fits on top of what any recipient holds. */
  lemma DebitLeavesRoom(m: map<Address, U256>, from: Address, to: Address, amount: U256)
    requires amount <= Lookup(m, from).GetOr(0)
    ensures var debited := m[from := Lookup(m, from).GetOr(0) - amount];
            && Sum(AsNats(debited)) + amount == Sum(AsNats(m))
            && Lookup(debited, to).GetOr(0) + amount <= Sum(AsNats(m))
  {
    BalanceMoves(m, from, Lookup(m, from).GetOr(0) - amount);
    BalanceMoves(m[from := Lookup(m, from).GetOr(0) - amount], to, 0);
  }

  lemma CallKeepsBacked(t: TokenState, caller: Address, call: Call)
    requires Backed(t)
    ensures Backed(After(t, caller, call))
  {
    match call {
      case Transfer(to, amount) => TransfersNeverOverflow(t, caller, to, amount);
      case TransferFrom(from, to, amount) => TransfersNeverOverflow(t, from, to, amount);
      case Burn(value) => if value <= t.Balance(caller) { BalanceMoves(t.balances, caller, t.Balance(caller) - value); }
      case _ =>
    }
  }

  /** Over every history of calls, reverted ones included, the balances sum to the total supply. */
  lemma {:induction false} HistoryKeepsBacked(t: TokenState, calls: seq<(Address, Call)>)
    requires Backed(t)
    ensures Backed(History(t, calls))
    decreases |calls|
  {
    if calls != [] {
      CallKeepsBacked(t, calls[0].0, calls[0].1);
      HistoryKeepsBacked(After(t, calls[0].0, calls[0].1), calls[1..]);
    }
  }

  lemma DeployedIsBacked(creator: Address, calls: seq<(Address, Call)>)
    ensures Backed(History(Deployed(creator), calls))
  {
    var m := AsNats(Deployed(creator).balances);
    SumRemove(m, creator);
    assert m - {creator} == map[];
    HistoryKeepsBacked(Deployed(creator), calls);
  }

  // ---------- allowances over whole histories ----------

  /** What became of one allowance since it was last approved. */
  datatype Account = Account(approved: nat, increased: nat, decreased: nat, moved: nat)

  function Charge(t: TokenState, owner: Address, spender: Address, caller: Address, call: Call, acc: Account): Account {
    if Effect(t, caller, call).None? then acc
    else match call
      case Approve(s, value) => if caller == owner && s == spender then Account(value, 0, 0, 0) else acc
      case IncreaseAllowance(s, value) =>
        if caller == owner && s == spender then acc.(increased := acc.increased + value) else acc
      case DecreaseAllowance(s, value) =>
        if caller == owner && s == spender then acc.(decreased := acc.decreased + value) else acc
      case TransferFrom(from, _, amount) =>
        if from == owner && caller == spender then acc.(moved := acc.moved + amount) else acc
      case _ => acc
  }

  function Charges(t: TokenState, owner: Address, spender: Address, calls: seq<(Address, Call)>, acc: Account): Account
    decreases |calls|
  {
    if calls == [] then acc
    else
      Charges(After(t, calls[0].0, calls[0].1), owner, spender, calls[1..],
              Charge(t, owner, spender, calls[0].0, calls[0].1, acc))
  }

  predicate Settled(t: TokenState, owner: Address, spender: Address, acc: Account) {
    acc.moved + t.Allowance(owner, spender) + acc.decreased == acc.approved + acc.increased
  }

  /**
   What a spender moved since the last approval plus what it may still move is
   what was approved, plus increases, less decreases.
   */
  lemma {:induction false} AllowancesAddUp(t: TokenState, owner: Address, spender: Address,
                                           calls: seq<(Address, Call)>, acc: Account)
    requires Settled(t, owner, spender, acc)
    ensures Settled(History(t, calls), owner, spender, Charges(t, owner, spender, calls, acc))
    decreases |calls|
  {
    if calls != [] {
      var (caller, call) := calls[0];
      CallSettles(t, owner, spender, caller, call, acc);
      AllowancesAddUp(After(t, caller, call), owner, spender, calls[1..], Charge(t, owner, spender, caller, call, acc));
    }
  }

  lemma CallSettles(t: TokenState, owner: Address, spender: Address, caller: Address, call: Call, acc: Account)
    requires Settled(t, owner, spender, acc)
    ensures Settled(After(t, caller, call), owner, spender, Charge(t, owner, spender, caller, call, acc))
  {
  }
}
