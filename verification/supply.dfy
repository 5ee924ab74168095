/**
 The supply invariant of the ledger: the total supply is the sum of all
 balances and never exceeds the cap. Every call preserves it, no call
 increases the supply, and so it holds in every state reachable from the
 deployment by any sequence of calls.
 */
module Supply {
  import opened Results
  import opened BabyToken
  import Sums

  ghost predicate Valid(s: Ledger) {
    && Sums.Sum(s.balances) == s.totalSupply
    && s.totalSupply <= s.cap
    && Canonical(s.balances)
    && Canonical(s.allowances)
  }

  /** Writing one balance changes the sum by the difference between the new and the old value. */
  lemma SumStore(m: map<Account, uint256>, a: Account, v: uint256)
    ensures Sums.Sum(Store(m, a, v)) + Lookup(m, a) == Sums.Sum(m) + v
  {
    if v == 0 {
      Sums.SumWithout(m, a);
    } else {
      Sums.SumUpdate(m, a, v);
    }
  }

  lemma BalanceBelowSupply(s: Ledger, a: Account)
    requires Valid(s)
    ensures BalanceOf(s, a) <= s.totalSupply
  {
    if a in s.balances {
      Sums.ValueBelowSum(s.balances, a);
    }
  }

  lemma GenesisValid(deployer: Account, name: string, symbol: string, decimals: uint8, cap: uint256,
                     scope: PauseScope)
    ensures Valid(Genesis(deployer, name, symbol, decimals, cap, scope))
  {
    SumStore(map[], deployer, cap);
  }

  /**
   From a valid ledger a move never overflows: it succeeds exactly when the
   sender holds the amount, keeps the supply, and keeps the ledger valid.
   */
  lemma MoveValid(s: Ledger, from: Account, to: Account, amount: uint256)
    requires Valid(s)
    ensures Move(s, from, to, amount).Ok? <==> amount <= BalanceOf(s, from)
    ensures Move(s, from, to, amount).Ok? ==> Valid(Move(s, from, to, amount).value)
  {
    var held := BalanceOf(s, from);
    if amount <= held {
      var debited := Store(s.balances, from, held - amount);
      SumStore(s.balances, from, held - amount);
      if to in debited {
        Sums.ValueBelowSum(debited, to);
      }
      var credited := Lookup(debited, to) + amount;
      SumStore(debited, to, credited);
    }
  }

  lemma TransferValid(s: Ledger, caller: Account, to: Account, amount: uint256)
    requires Valid(s)
    ensures Transfer(s, caller, to, amount).Ok? <==> !s.paused && amount <= BalanceOf(s, caller)
    ensures Transfer(s, caller, to, amount).Ok? ==> Valid(Transfer(s, caller, to, amount).value)
  {
    MoveValid(s, caller, to, amount);
  }

  /** On a valid ledger that is not paused, transferring nothing changes nothing. */
  lemma TransferNothing(s: Ledger, from: Account, to: Account)
    requires Valid(s) && !s.paused
    ensures Transfer(s, from, to, 0) == Ok(s)
  {
    var m := s.balances;
    assert Store(m, from, Lookup(m, from)) == m;
    assert Store(m, to, Lookup(m, to)) == m;
  }

  lemma TransferFromValid(s: Ledger, caller: Account, from: Account, to: Account, amount: uint256)
    requires Valid(s)
    ensures TransferFrom(s, caller, from, to, amount).Ok? <==>
              !s.paused && amount <= BalanceOf(s, from) && amount <= Allowance(s, from, caller)
    ensures !s.paused && TransferFrom(s, caller, from, to, amount).Err? ==>
              TransferFrom(s, caller, from, to, amount).error == Underflow
    ensures TransferFrom(s, caller, from, to, amount).Ok? ==> Valid(TransferFrom(s, caller, from, to, amount).value)
  {
    MoveValid(s, from, to, amount);
  }

  lemma DestroyValid(s: Ledger, account: Account, amount: uint256)
    requires Valid(s)
    ensures Destroy(s, account, amount).Ok? <==> amount <= BalanceOf(s, account)
    ensures Destroy(s, account, amount).Ok? ==> Valid(Destroy(s, account, amount).value)
  {
    BalanceBelowSupply(s, account);
    var held := BalanceOf(s, account);
    if amount <= held {
      SumStore(s.balances, account, held - amount);
    }
  }

  lemma BurnValid(s: Ledger, caller: Account, amount: uint256)
    requires Valid(s)
    ensures Burn(s, caller, amount).Ok? <==> !(s.scope.gatesBurn && s.paused) && amount <= BalanceOf(s, caller)
    ensures Burn(s, caller, amount).Ok? ==> Valid(Burn(s, caller, amount).value)
  {
    DestroyValid(s, caller, amount);
  }

  lemma BurnFromValid(s: Ledger, caller: Account, owner: Account, amount: uint256)
    requires Valid(s)
    ensures BurnFrom(s, caller, owner, amount).Ok? <==>
              && !(s.scope.gatesBurn && s.paused)
              && amount <= BalanceOf(s, owner) && amount <= Allowance(s, owner, caller)
    ensures BurnFrom(s, caller, owner, amount).Ok? ==> Valid(BurnFrom(s, caller, owner, amount).value)
  {
    DestroyValid(s, owner, amount);
  }
}
