/**
 The BabyToken ledger: an ERC-20 token with a single genesis mint, burning,
 and a pause switch guarded by the pauser role.

 The contract's storage is an immutable `Ledger` value. Every state-changing
 call takes the calling account explicitly and returns either the new ledger
 or the error it reverts with; a revert hands back no state, so a failed call
 changes nothing.
 */
module BabyToken {
  import opened Results

  const UINT256_LIMIT: nat := 0x1_0000_0000_0000_0000_0000_0000_0000_0000_0000_0000_0000_0000_0000_0000_0000_0000
  type uint256 = x: nat | x < UINT256_LIMIT
  const UINT256_MAX: uint256 := UINT256_LIMIT - 1
  type uint8 = x: nat | x < 256

  /** An address able to hold tokens and to call the contract. */
  type Account = nat

  /** Deployment constants of the token. */
  const NAME: string := "BABYToken"
  const SYMBOL: string := "BABY"
  const DECIMALS: uint8 := 18
  /** 2,100,000,000 whole tokens of 18 decimals: both the cap and the genesis mint. */
  const MINT_AMOUNT: uint256 := 2_100_000_000 * 1_000_000_000_000_000_000

  /**
   Which calls besides `transfer` and `transferFrom` the pause switch also
   blocks. The tests leave this open, so it is a fixed configuration of a
   deployed ledger and every property below holds for each choice.
   */
  datatype PauseScope = PauseScope(gatesApprove: bool, gatesBurn: bool)

  /**
   The revert reasons: `Underflow` is "SafeMath: subtraction overflow",
   `Overflow` is "SafeMath: addition overflow", `Paused` is
   "Pausable: paused", `NotPauser` is "PauserRole: caller does not have the
   Pauser role".
   */
  datatype Error = Underflow | Overflow | Paused | NotPauser

  /**
   Balances and allowances are total functions that are zero almost
   everywhere; a map holds exactly the non-zero entries.
   */
  datatype Ledger = Ledger(
    name: string,
    symbol: string,
    decimals: uint8,
    cap: uint256,
    balances: map<Account, uint256>,
    allowances: map<(Account, Account), uint256>,
    totalSupply: uint256,
    paused: bool,
    pausers: set<Account>,
    scope: PauseScope)

  function Lookup<K(!new)>(m: map<K, uint256>, k: K): uint256 {
    if k in m then m[k] else 0
  }

  ghost predicate Canonical<K(!new)>(m: map<K, uint256>) {
    forall k :: k in m ==> m[k] != 0
  }

  /** Writes one entry of a storage mapping; every other entry keeps its value. */
  function Store<K(!new)>(m: map<K, uint256>, k: K, v: uint256): (m': map<K, uint256>)
    ensures Lookup(m', k) == v
    ensures forall j :: j != k ==> Lookup(m', j) == Lookup(m, j)
    ensures Canonical(m) ==> Canonical(m')
  {
    if v == 0 then m - {k} else m[k := v]
  }

  /** `balanceOf(a)`: an account the ledger has no entry for holds zero. */
  function BalanceOf(s: Ledger, a: Account): (r: uint256)
    ensures a in s.balances ==> r == s.balances[a]
    ensures a !in s.balances ==> r == 0
  {
    Lookup(s.balances, a)
  }

  /** `allowance(owner, spender)`: a pair the ledger has no entry for is allowed zero. */
  function Allowance(s: Ledger, owner: Account, spender: Account): (r: uint256)
    ensures (owner, spender) in s.allowances ==> r == s.allowances[(owner, spender)]
    ensures (owner, spender) !in s.allowances ==> r == 0
  {
    Lookup(s.allowances, (owner, spender))
  }

  /** `t` is `s` with `amount` moved from `from` to `to`, and nothing else changed. */
  ghost predicate Moved(s: Ledger, t: Ledger, from: Account, to: Account, amount: nat) {
    && t == s.(balances := t.balances)
    && (from != to ==> BalanceOf(t, from) == BalanceOf(s, from) - amount)
    && (from != to ==> BalanceOf(t, to) == BalanceOf(s, to) + amount)
    && (from == to ==> BalanceOf(t, from) == BalanceOf(s, from))
    && forall a :: a != from && a != to ==> BalanceOf(t, a) == BalanceOf(s, a)
  }

  /** `t` is `s` with `amount` destroyed from `account` and from the supply, and nothing else changed. */
  ghost predicate Burned(s: Ledger, t: Ledger, account: Account, amount: nat) {
    && t == s.(balances := t.balances, totalSupply := t.totalSupply)
    && t.totalSupply == s.totalSupply - amount
    && BalanceOf(t, account) == BalanceOf(s, account) - amount
    && forall a :: a != account ==> BalanceOf(t, a) == BalanceOf(s, a)
  }

  /** Allowances of `t` equal those of `s` except the one of `owner` towards `spender`, which is `v`. */
  ghost predicate AllowanceSet(s: Ledger, t: Ledger, owner: Account, spender: Account, v: nat) {
    && Allowance(t, owner, spender) == v
    && forall o: Account, sp: Account :: (o, sp) != (owner, spender) ==> Allowance(t, o, sp) == Allowance(s, o, sp)
  }

  /**
   Construction: the whole cap is minted to the deployer, who also becomes
   the only pauser. This is the only place tokens are created.
   */
  function Genesis(deployer: Account, name: string, symbol: string, decimals: uint8, cap: uint256,
                   scope: PauseScope): (s: Ledger)
    ensures s.totalSupply == cap && s.cap == cap
    ensures BalanceOf(s, deployer) == cap
    ensures forall a :: a != deployer ==> BalanceOf(s, a) == 0
    ensures forall o: Account, sp: Account :: Allowance(s, o, sp) == 0
    ensures !s.paused && s.pausers == {deployer}
  {
    Ledger(name, symbol, decimals, cap, Store(map[], deployer, cap), map[], cap, false, {deployer}, scope)
  }

  /** The deployment of the token with its name, symbol, decimals and cap. */
  function Deploy(deployer: Account, scope: PauseScope): (s: Ledger)
    ensures s.name == "BABYToken" && s.symbol == "BABY" && s.decimals == 18
    ensures BalanceOf(s, deployer) == s.totalSupply == 2100000000 * 1000000000000000000
  {
    Genesis(deployer, NAME, SYMBOL, DECIMALS, MINT_AMOUNT, scope)
  }

  /** The unguarded balance move shared by `transfer` and `transferFrom`. */
  function Move(s: Ledger, from: Account, to: Account, amount: uint256): (r: Result<Ledger, Error>)
    ensures BalanceOf(s, from) < amount ==> r == Err(Underflow)
    ensures r.Ok? <==> amount <= BalanceOf(s, from) && (from == to || BalanceOf(s, to) + amount < UINT256_LIMIT)
    ensures r.Err? ==> r.error in {Underflow, Overflow}
    ensures r.Ok? ==> Moved(s, r.value, from, to, amount)
  {
    var held := BalanceOf(s, from);
    if held < amount then Err(Underflow)
    else
      var debited := Store(s.balances, from, held - amount);
      var credited := Lookup(debited, to) + amount;
      if credited >= UINT256_LIMIT then Err(Overflow)
      else Ok(s.(balances := Store(debited, to, credited)))
  }

  /** `transfer(to, amount)` sent by `caller`. */
  function Transfer(s: Ledger, caller: Account, to: Account, amount: uint256): (r: Result<Ledger, Error>)
    ensures s.paused ==> r == Err(Paused)
    ensures !s.paused && BalanceOf(s, caller) < amount ==> r == Err(Underflow)
    ensures r.Ok? <==> !s.paused && amount <= BalanceOf(s, caller)
                       && (caller == to || BalanceOf(s, to) + amount < UINT256_LIMIT)
    ensures r.Ok? ==> Moved(s, r.value, caller, to, amount)
  {
    if s.paused then Err(Paused) else Move(s, caller, to, amount)
  }

  /** `approve(spender, amount)` sent by `caller`: overwrites the allowance. */
  function Approve(s: Ledger, caller: Account, spender: Account, amount: uint256): (r: Result<Ledger, Error>)
    ensures r.Ok? <==> !(s.scope.gatesApprove && s.paused)
    ensures r.Err? ==> r.error == Paused
    ensures r.Ok? ==> r.value == s.(allowances := r.value.allowances)
    ensures r.Ok? ==> AllowanceSet(s, r.value, caller, spender, amount)
  {
    if s.scope.gatesApprove && s.paused then Err(Paused)
    else Ok(s.(allowances := Store(s.allowances, (caller, spender), amount)))
  }

  /**
   `transferFrom(from, to, amount)` sent by `caller` as spender: the move
   happens first and the allowance is then reduced by `amount`.
   */
  function TransferFrom(s: Ledger, caller: Account, from: Account, to: Account, amount: uint256)
    : (r: Result<Ledger, Error>)
    ensures s.paused ==> r == Err(Paused)
    ensures !s.paused && BalanceOf(s, from) < amount ==> r == Err(Underflow)
    ensures r.Ok? <==> && !s.paused
                       && amount <= BalanceOf(s, from)
                       && amount <= Allowance(s, from, caller)
                       && (from == to || BalanceOf(s, to) + amount < UINT256_LIMIT)
    ensures r.Ok? ==> Moved(s, r.value.(allowances := s.allowances), from, to, amount)
    ensures r.Ok? ==> AllowanceSet(s, r.value, from, caller, Allowance(s, from, caller) - amount)
  {
    if s.paused then Err(Paused)
    else match Move(s, from, to, amount)
      case Err(e) => Err(e)
      case Ok(t) =>
        var allowed := Allowance(s, from, caller);
        if allowed < amount then Err(Underflow)
        else Ok(t.(allowances := Store(t.allowances, (from, caller), allowed - amount)))
  }

  /** The unguarded destruction shared by `burn` and `burnFrom`. */
  function Destroy(s: Ledger, account: Account, amount: uint256): (r: Result<Ledger, Error>)
    ensures r.Ok? <==> amount <= s.totalSupply && amount <= BalanceOf(s, account)
    ensures r.Err? ==> r.error == Underflow
    ensures r.Ok? ==> Burned(s, r.value, account, amount)
  {
    var held := BalanceOf(s, account);
    if s.totalSupply < amount || held < amount then Err(Underflow)
    else Ok(s.(totalSupply := s.totalSupply - amount, balances := Store(s.balances, account, held - amount)))
  }

  /** `burn(amount)` sent by `caller`. */
  function Burn(s: Ledger, caller: Account, amount: uint256): (r: Result<Ledger, Error>)
    ensures s.scope.gatesBurn && s.paused ==> r == Err(Paused)
    ensures r.Ok? <==> && !(s.scope.gatesBurn && s.paused)
                       && amount <= s.totalSupply && amount <= BalanceOf(s, caller)
    ensures r.Err? && !(s.scope.gatesBurn && s.paused) ==> r.error == Underflow
    ensures r.Ok? ==> Burned(s, r.value, caller, amount)
  {
    if s.scope.gatesBurn && s.paused then Err(Paused) else Destroy(s, caller, amount)
  }

  /**
   `burnFrom(owner, amount)` sent by `caller` as spender: the burn happens
   first and the allowance is then reduced by `amount`.
   */
  function BurnFrom(s: Ledger, caller: Account, owner: Account, amount: uint256): (r: Result<Ledger, Error>)
    ensures s.scope.gatesBurn && s.paused ==> r == Err(Paused)
    ensures r.Ok? <==> && !(s.scope.gatesBurn && s.paused)
                       && amount <= s.totalSupply && amount <= BalanceOf(s, owner)
                       && amount <= Allowance(s, owner, caller)
    ensures r.Err? && !(s.scope.gatesBurn && s.paused) ==> r.error == Underflow
    ensures r.Ok? ==> Burned(s, r.value.(allowances := s.allowances), owner, amount)
    ensures r.Ok? ==> AllowanceSet(s, r.value, owner, caller, Allowance(s, owner, caller) - amount)
  {
    if s.scope.gatesBurn && s.paused then Err(Paused)
    else match Destroy(s, owner, amount)
      case Err(e) => Err(e)
      case Ok(t) =>
        var allowed := Allowance(s, owner, caller);
        if allowed < amount then Err(Underflow)
        else Ok(t.(allowances := Store(t.allowances, (owner, caller), allowed - amount)))
  }

  /** `pause()` sent by `caller`. */
  function Pause(s: Ledger, caller: Account): (r: Result<Ledger, Error>)
    ensures r.Ok? <==> caller in s.pausers
    ensures r.Err? ==> r.error == NotPauser
    ensures r.Ok? ==> r.value.paused && r.value.(paused := s.paused) == s
  {
    if caller !in s.pausers then Err(NotPauser) else Ok(s.(paused := true))
  }

  /** `unpause()` sent by `caller`. */
  function Unpause(s: Ledger, caller: Account): (r: Result<Ledger, Error>)
    ensures r.Ok? <==> caller in s.pausers
    ensures r.Err? ==> r.error == NotPauser
    ensures r.Ok? ==> !r.value.paused && r.value.(paused := s.paused) == s
  {
    if caller !in s.pausers then Err(NotPauser) else Ok(s.(paused := false))
  }

  /** `addPauser(account)` sent by `caller`. */
  function AddPauser(s: Ledger, caller: Account, account: Account): (r: Result<Ledger, Error>)
    ensures r.Ok? <==> caller in s.pausers
    ensures r.Err? ==> r.error == NotPauser
    ensures r.Ok? ==> account in r.value.pausers
    ensures r.Ok? ==> forall a :: a != account ==> (a in r.value.pausers <==> a in s.pausers)
    ensures r.Ok? ==> r.value.(pausers := s.pausers) == s
  {
    if caller !in s.pausers then Err(NotPauser) else Ok(s.(pausers := s.pausers + {account}))
  }

  /** `renouncePauser()` sent by `caller`: always succeeds, even for the last pauser. */
  function RenouncePauser(s: Ledger, caller: Account): (t: Ledger)
    ensures caller !in t.pausers
    ensures forall a :: a != caller ==> (a in t.pausers <==> a in s.pausers)
    ensures t.(pausers := s.pausers) == s
  {
    s.(pausers := s.pausers - {caller})
  }
}
