/**
 The behaviours the token's test suite pins down, stated for every ledger
 that satisfies the supply invariant and for every choice of accounts.
 */
module TokenScenarios {
  import opened Results
  import opened BabyToken
  import opened Supply
  import Decimal
  import Transactions

  /** The genesis mint is `toBN(2100000000, 18)`, the cap of the deployment script. */
  lemma MintAmountIsScaled()
    ensures Decimal.ToBN(2100000000, 18) == Ok(MINT_AMOUNT)
    ensures Decimal.IsDigits(Decimal.ToDecimalString(2100000000) + Decimal.Zeros(18))
    ensures Decimal.ParseDecimal(Decimal.ToDecimalString(2100000000) + Decimal.Zeros(18)) == MINT_AMOUNT
  {
    Decimal.ToBNScales(2100000000, 18);
    assert Decimal.Pow10(6) == 1000000;
    assert Decimal.Pow10(12) == 1000000000000;
    assert Decimal.Pow10(18) == 1000000000000000000;
    Decimal.ParseAppendZeros(Decimal.ToDecimalString(2100000000), 18);
  }

  /** Deployment: the owner holds the whole supply, which is the mint amount; the ledger is valid. */
  lemma Deployed(owner: Account, scope: PauseScope)
    ensures Valid(Deploy(owner, scope))
    ensures BalanceOf(Deploy(owner, scope), owner) == MINT_AMOUNT
    ensures Deploy(owner, scope).totalSupply == MINT_AMOUNT
    ensures !Deploy(owner, scope).paused
    ensures owner in Deploy(owner, scope).pausers
  {
    GenesisValid(owner, NAME, SYMBOL, DECIMALS, MINT_AMOUNT, scope);
  }

  /** A pauser pauses; transfers then revert with `Paused`; the pauser unpauses. */
  lemma PauseBlocksTransfer(s: Ledger, owner: Account, user1: Account)
    requires owner in s.pausers && !s.paused
    ensures Pause(s, owner).Ok? && Pause(s, owner).value.paused
    ensures Transfer(Pause(s, owner).value, owner, user1, 1) == Err(Paused)
    ensures Unpause(Pause(s, owner).value, owner).Ok?
    ensures !Unpause(Pause(s, owner).value, owner).value.paused
  {
  }

  /** A non-pauser can neither pause, unpause nor grant the role. */
  lemma NonPauserRejected(s: Ledger, caller: Account, account: Account)
    requires caller !in s.pausers
    ensures Pause(s, caller) == Err(NotPauser)
    ensures Unpause(s, caller) == Err(NotPauser)
    ensures AddPauser(s, caller, account) == Err(NotPauser)
  {
  }

  /**
   The owner grants the role to user4, who pauses; after user4 renounces,
   user4 can no longer unpause, the ledger stays paused, and the owner
   unpauses.
   */
  lemma PauserLifecycle(s: Ledger, owner: Account, user4: Account)
    requires owner in s.pausers && !s.paused && owner != user4
    ensures AddPauser(s, owner, user4).Ok?
    ensures var granted := AddPauser(s, owner, user4).value;
            && Pause(granted, user4).Ok?
            && var renounced := RenouncePauser(Pause(granted, user4).value, user4);
            && renounced.paused
            && Unpause(renounced, user4) == Err(NotPauser)
            && Unpause(renounced, owner).Ok?
            && !Unpause(renounced, owner).value.paused
  {
  }

  /** Two transfers of one token each lower the sender by two and raise the receiver by two. */
  lemma TransferTwice(s: Ledger, owner: Account, user1: Account)
    requires Valid(s) && !s.paused && owner != user1 && BalanceOf(s, owner) >= 2
    ensures Transfer(s, owner, user1, 1).Ok?
    ensures var once := Transfer(s, owner, user1, 1).value;
            && Transfer(once, owner, user1, 1).Ok?
            && var twice := Transfer(once, owner, user1, 1).value;
            && BalanceOf(twice, owner) == BalanceOf(s, owner) - 2
            && BalanceOf(twice, user1) == BalanceOf(s, user1) + 2
            && twice.totalSupply == s.totalSupply
            && Valid(twice)
  {
    TransferValid(s, owner, user1, 1);
    var once := Transfer(s, owner, user1, 1).value;
    TransferValid(once, owner, user1, 1);
  }

  /**
   Spending more than the balance, up to the largest 256-bit value, reverts
   with `Underflow` in every state reachable from the deployment.
   */
  lemma TransferOverBalance(s: Ledger, user1: Account, user2: Account, amount: uint256)
    requires Valid(s) && !s.paused && s.totalSupply <= MINT_AMOUNT
    requires amount == BalanceOf(s, user1) + 1 || amount == UINT256_MAX || amount == UINT256_MAX - 1
    ensures Transfer(s, user1, user2, amount) == Err(Underflow)
    ensures Transactions.Apply(s, Transactions.Call.Transfer(user1, user2, amount)) == s
  {
    BalanceBelowSupply(s, user1);
  }

  /**
   After `approve(user2, 1)` by the owner, user2 moves one token to user3:
   the allowance drops to zero, user2's balance is untouched, and a second
   such spend reverts with `Underflow`.
   */
  lemma SpendAllowance(s: Ledger, owner: Account, user2: Account, user3: Account)
    requires Valid(s) && !s.paused && BalanceOf(s, owner) >= 1
    requires owner != user2 && owner != user3 && user2 != user3
    ensures Approve(s, owner, user2, 1).Ok?
    ensures var approved := Approve(s, owner, user2, 1).value;
            && Allowance(approved, owner, user2) == 1
            && TransferFrom(approved, user2, owner, user3, 1).Ok?
            && var spent := TransferFrom(approved, user2, owner, user3, 1).value;
            && Allowance(spent, owner, user2) == 0
            && BalanceOf(spent, user2) == BalanceOf(s, user2)
            && BalanceOf(spent, owner) == BalanceOf(s, owner) - 1
            && BalanceOf(spent, user3) == BalanceOf(s, user3) + 1
            && TransferFrom(spent, user2, owner, user3, 1) == Err(Underflow)
  {
    var approved := Approve(s, owner, user2, 1).value;
    assert Valid(approved);
    TransferFromValid(approved, user2, owner, user3, 1);
    var spent := TransferFrom(approved, user2, owner, user3, 1).value;
    TransferFromValid(spent, user2, owner, user3, 1);
  }

  /** A delegated spend above an allowance of one reverts with `Underflow`; the allowance stays one. */
  lemma TransferFromOverAllowance(s: Ledger, owner: Account, user2: Account, user3: Account, amount: uint256)
    requires Valid(s) && !s.paused
    requires amount in {2, UINT256_MAX, UINT256_MAX - 1}
    ensures Approve(s, owner, user2, 1).Ok?
    ensures var approved := Approve(s, owner, user2, 1).value;
            && Allowance(approved, owner, user2) == 1
            && TransferFrom(approved, user2, owner, user3, amount) == Err(Underflow)
            && Transactions.Apply(approved, Transactions.Call.TransferFrom(user2, owner, user3, amount)) == approved
  {
    var approved := Approve(s, owner, user2, 1).value;
    assert Valid(approved);
    TransferFromValid(approved, user2, owner, user3, amount);
  }

  /** Burning one token lowers the owner's balance and the supply by one. */
  lemma BurnOne(s: Ledger, owner: Account)
    requires Valid(s) && !s.paused && BalanceOf(s, owner) >= 1
    ensures Burn(s, owner, 1).Ok?
    ensures BalanceOf(Burn(s, owner, 1).value, owner) == BalanceOf(s, owner) - 1
    ensures Burn(s, owner, 1).value.totalSupply == s.totalSupply - 1
    ensures Valid(Burn(s, owner, 1).value)
  {
    BurnValid(s, owner, 1);
  }

  /** Burning more than the balance, up to the largest 256-bit value, reverts with `Underflow`. */
  lemma BurnOverBalance(s: Ledger, owner: Account, amount: uint256)
    requires Valid(s) && !s.paused && s.totalSupply <= MINT_AMOUNT
    requires amount == BalanceOf(s, owner) + 1 || amount == UINT256_MAX || amount == UINT256_MAX - 1
    ensures Burn(s, owner, amount) == Err(Underflow)
    ensures Transactions.Apply(s, Transactions.Call.Burn(owner, amount)) == s
  {
    BurnValid(s, owner, amount);
    BalanceBelowSupply(s, owner);
  }

  /**
   After `approve(user2, 1)` by the owner, user2 burns one of the owner's
   tokens: the allowance drops to zero, the owner's balance and the supply
   drop by one.
   */
  lemma BurnFromAllowance(s: Ledger, owner: Account, user2: Account)
    requires Valid(s) && !s.paused && BalanceOf(s, owner) >= 1
    ensures Approve(s, owner, user2, 1).Ok?
    ensures var approved := Approve(s, owner, user2, 1).value;
            && BurnFrom(approved, user2, owner, 1).Ok?
            && var burnt := BurnFrom(approved, user2, owner, 1).value;
            && Allowance(burnt, owner, user2) == 0
            && BalanceOf(burnt, owner) == BalanceOf(s, owner) - 1
            && burnt.totalSupply == s.totalSupply - 1
            && Valid(burnt)
  {
    var approved := Approve(s, owner, user2, 1).value;
    assert Valid(approved);
    BurnFromValid(approved, user2, owner, 1);
  }

  /** A delegated burn above an allowance of one reverts with `Underflow`. */
  lemma BurnFromOverAllowance(s: Ledger, owner: Account, user2: Account, amount: uint256)
    requires Valid(s) && !s.paused
    requires amount in {2, UINT256_MAX, UINT256_MAX - 1}
    ensures Approve(s, owner, user2, 1).Ok?
    ensures var approved := Approve(s, owner, user2, 1).value;
            && Allowance(approved, owner, user2) == 1
            && BurnFrom(approved, user2, owner, amount) == Err(Underflow)
            && Transactions.Apply(approved, Transactions.Call.BurnFrom(user2, owner, amount)) == approved
  {
    var approved := Approve(s, owner, user2, 1).value;
    assert Valid(approved);
    BurnFromValid(approved, user2, owner, amount);
  }
}
