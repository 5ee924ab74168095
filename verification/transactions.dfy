/**
 The contract as a sequential machine: transactions are applied one at a
 time, a reverted one leaves the ledger as it was.
 */
module Transactions {
  import opened Results
  import T = BabyToken
  import opened Supply
  import Sums

  /** A call to the contract, with the account that sends it. */
  datatype Call =
    | Transfer(caller: T.Account, to: T.Account, amount: T.uint256)
    | Approve(caller: T.Account, spender: T.Account, amount: T.uint256)
    | TransferFrom(caller: T.Account, from: T.Account, to: T.Account, amount: T.uint256)
    | Burn(caller: T.Account, amount: T.uint256)
    | BurnFrom(caller: T.Account, owner: T.Account, amount: T.uint256)
    | Pause(caller: T.Account)
    | Unpause(caller: T.Account)
    | AddPauser(caller: T.Account, account: T.Account)
    | RenouncePauser(caller: T.Account)

  /**
   One call. No call touches the metadata or the cap, or raises the supply;
   only the role-gated calls can fail with `NotPauser`, and `renouncePauser`
   never fails.
   */
  function Step(s: T.Ledger, c: Call): (r: Result<T.Ledger, T.Error>)
    ensures r.Ok? ==> Unminted(s, r.value)
    ensures (c.Pause? || c.Unpause? || c.AddPauser?) ==> (r.Ok? <==> c.caller in s.pausers)
    ensures r == Err(T.NotPauser) ==> c.Pause? || c.Unpause? || c.AddPauser?
    ensures c.RenouncePauser? ==> r.Ok?
  {
    match c
    case Transfer(caller, to, amount) => T.Transfer(s, caller, to, amount)
    case Approve(caller, spender, amount) => T.Approve(s, caller, spender, amount)
    case TransferFrom(caller, from, to, amount) => T.TransferFrom(s, caller, from, to, amount)
    case Burn(caller, amount) => T.Burn(s, caller, amount)
    case BurnFrom(caller, owner, amount) => T.BurnFrom(s, caller, owner, amount)
    case Pause(caller) => T.Pause(s, caller)
    case Unpause(caller) => T.Unpause(s, caller)
    case AddPauser(caller, account) => T.AddPauser(s, caller, account)
    case RenouncePauser(caller) => Ok(T.RenouncePauser(s, caller))
  }

  /** `t` keeps the metadata and the cap of `s`, and its supply is no larger. */
  ghost predicate Unminted(s: T.Ledger, t: T.Ledger) {
    && t.name == s.name && t.symbol == s.symbol && t.decimals == s.decimals
    && t.cap == s.cap
    && t.totalSupply <= s.totalSupply
  }

  /** The ledger after a transaction: a reverted call leaves it exactly as it was. */
  function Apply(s: T.Ledger, c: Call): (t: T.Ledger)
    ensures Step(s, c).Err? ==> t == s
    ensures Unminted(s, t)
  {
    match Step(s, c)
    case Ok(t) => t
    case Err(_) => s
  }

  /** Transactions are applied one at a time, in order. */
  function Run(s: T.Ledger, calls: seq<Call>): (t: T.Ledger)
    ensures Unminted(s, t)
    ensures (forall i :: 0 <= i < |calls| ==> !calls[i].AddPauser?) ==> t.pausers <= s.pausers
    decreases |calls|
  {
    if calls == [] then s else Run(Apply(s, calls[0]), calls[1..])
  }

  /** No call from a valid ledger overflows, breaks the invariant, raises the supply or moves the cap. */
  lemma StepValid(s: T.Ledger, c: Call)
    requires Valid(s)
    ensures Step(s, c) != Err(T.Overflow)
    ensures Valid(Apply(s, c))
    ensures Apply(s, c).totalSupply <= s.totalSupply
    ensures Apply(s, c).cap == s.cap
  {
    match c
    case Transfer(caller, to, amount) => TransferValid(s, caller, to, amount);
    case Approve(caller, spender, amount) =>
    case TransferFrom(caller, from, to, amount) => TransferFromValid(s, caller, from, to, amount);
    case Burn(caller, amount) => BurnValid(s, caller, amount);
    case BurnFrom(caller, owner, amount) => BurnFromValid(s, caller, owner, amount);
    case Pause(caller) =>
    case Unpause(caller) =>
    case AddPauser(caller, account) =>
    case RenouncePauser(caller) =>
  }

  lemma {:induction false} RunValid(s: T.Ledger, calls: seq<Call>)
    requires Valid(s)
    ensures Valid(Run(s, calls))
    ensures Run(s, calls).totalSupply <= s.totalSupply
    ensures Run(s, calls).cap == s.cap
    decreases |calls|
  {
    if calls != [] {
      StepValid(s, calls[0]);
      RunValid(Apply(s, calls[0]), calls[1..]);
    }
  }

  /**
   In every state reachable from the deployment, the supply is the sum of
   the balances and at most the genesis amount: nothing can mint.
   */
  lemma ReachableSupply(deployer: T.Account, scope: T.PauseScope, calls: seq<Call>)
    ensures Sums.Sum(Run(T.Deploy(deployer, scope), calls).balances) == Run(T.Deploy(deployer, scope), calls).totalSupply
    ensures Run(T.Deploy(deployer, scope), calls).totalSupply <= T.MINT_AMOUNT
    ensures Run(T.Deploy(deployer, scope), calls).cap == T.MINT_AMOUNT
  {
    GenesisValid(deployer, T.NAME, T.SYMBOL, T.DECIMALS, T.MINT_AMOUNT, scope);
    RunValid(T.Deploy(deployer, scope), calls);
  }
}
