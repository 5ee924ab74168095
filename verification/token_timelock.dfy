/**
 The TokenTimelock vault: an account on the ledger that, once its release
 time has passed, hands its whole balance to a fixed beneficiary. It keeps no
 state of its own besides its constants; its holdings are its ledger balance,
 and it pays out through the ledger's own `transfer`. The current time is a
 parameter, so maturity is a stateless comparison.
 */
module TokenTimelock {
  import opened Results
  import T = BabyToken
  import Supply

  /** The vault's address on the ledger, its beneficiary and its release time, all fixed at construction. */
  datatype Vault = Vault(account: T.Account, beneficiary: T.Account, releaseTime: T.uint256)

  /**
   `NotMatured` is "TokenTimelock: current time is before release time";
   `Token` is a revert of the ledger's `transfer` propagated to the caller.
   */
  datatype Error = NotMatured | Token(cause: T.Error)

  /** The vault has matured at `now` exactly when `now` is not before its release time. */
  function Matured(v: Vault, now: nat): (b: bool)
    ensures b <==> !(now < v.releaseTime)
  {
    v.releaseTime <= now
  }

  /**
   `release()` sent by `caller` at time `now`: before the release time it
   reverts; afterwards the vault transfers its whole balance to the
   beneficiary. Anyone may call it.
   */
  function Release(v: Vault, s: T.Ledger, caller: T.Account, now: nat): (r: Result<T.Ledger, Error>)
    ensures !Matured(v, now) ==> r == Err(NotMatured)
    ensures Matured(v, now) && s.paused ==> r == Err(Token(T.Paused))
    ensures Matured(v, now) ==>
              (r.Ok? <==> !s.paused && (v.account == v.beneficiary ||
                                        T.BalanceOf(s, v.beneficiary) + T.BalanceOf(s, v.account) < T.UINT256_LIMIT))
    ensures Matured(v, now) && r.Err? ==> r.error.Token?
    ensures r.Ok? ==> Matured(v, now)
    ensures r.Ok? ==> T.Moved(s, r.value, v.account, v.beneficiary, T.BalanceOf(s, v.account))
  {
    if now < v.releaseTime then Err(NotMatured)
    else
      match T.Transfer(s, v.account, v.beneficiary, T.BalanceOf(s, v.account))
      case Ok(t) => Ok(t)
      case Err(e) => Err(Token(e))
  }

  /** Maturity is one-way: once matured, a vault stays matured forever. */
  lemma MaturedForever(v: Vault, now: nat, later: nat)
    requires Matured(v, now) && now <= later
    ensures Matured(v, later)
  {
  }

  /**
   On a valid ledger that is not paused, release succeeds exactly when the
   vault has matured: the vault is emptied into the beneficiary, the supply is
   unchanged and the ledger stays valid.
   */
  lemma ReleaseValid(v: Vault, s: T.Ledger, caller: T.Account, now: nat)
    requires Supply.Valid(s)
    ensures Release(v, s, caller, now).Ok? <==> Matured(v, now) && !s.paused
    ensures Release(v, s, caller, now).Ok? ==>
              var t := Release(v, s, caller, now).value;
              && Supply.Valid(t)
              && t.totalSupply == s.totalSupply
              && (v.account != v.beneficiary ==> T.BalanceOf(t, v.account) == 0)
              && (v.account != v.beneficiary ==>
                    T.BalanceOf(t, v.beneficiary) == T.BalanceOf(s, v.beneficiary) + T.BalanceOf(s, v.account))
  {
    Supply.TransferValid(s, v.account, v.beneficiary, T.BalanceOf(s, v.account));
  }

  /** Who sends `release()` makes no difference. */
  lemma ReleaseByAnyone(v: Vault, s: T.Ledger, caller: T.Account, other: T.Account, now: nat)
    ensures Release(v, s, caller, now) == Release(v, s, other, now)
  {
  }

  /** After maturity the outcome no longer depends on the time: releasing late is as good as on time. */
  lemma ReleaseLate(v: Vault, s: T.Ledger, caller: T.Account, now: nat, later: nat)
    requires Matured(v, now) && now <= later
    ensures Release(v, s, caller, later) == Release(v, s, caller, now)
  {
  }

  /** Releasing again after a release is a successful no-op, at any later time and by anyone. */
  lemma ReleaseTwice(v: Vault, s: T.Ledger, caller: T.Account, now: nat, other: T.Account, later: nat)
    requires Supply.Valid(s) && v.account != v.beneficiary
    requires Release(v, s, caller, now).Ok? && now <= later
    ensures Release(v, Release(v, s, caller, now).value, other, later) == Ok(Release(v, s, caller, now).value)
  {
    ReleaseValid(v, s, caller, now);
    Supply.TransferNothing(Release(v, s, caller, now).value, v.account, v.beneficiary);
  }

  /**
   The test flow: the owner deposits one token into a fresh vault whose
   release time is 100 seconds away; a release after 90 seconds reverts with
   `NotMatured` and leaves the token in the vault; a release by anyone at
   any time from 100 seconds on pays the token to the beneficiary; the supply
   never changes.
   */
  lemma DepositThenRelease(s: T.Ledger, owner: T.Account, v: Vault, start: nat, caller: T.Account, later: nat)
    requires Supply.Valid(s) && !s.paused
    requires owner != v.account && owner != v.beneficiary && v.account != v.beneficiary
    requires T.BalanceOf(s, owner) >= 1 && T.BalanceOf(s, v.account) == 0
    requires v.releaseTime == start + 100 && start + 100 <= later
    ensures T.Transfer(s, owner, v.account, 1).Ok?
    ensures var deposited := T.Transfer(s, owner, v.account, 1).value;
            && T.BalanceOf(deposited, owner) == T.BalanceOf(s, owner) - 1
            && T.BalanceOf(deposited, v.account) == 1
            && T.BalanceOf(deposited, v.beneficiary) == T.BalanceOf(s, v.beneficiary)
            && Release(v, deposited, caller, start + 90) == Err(NotMatured)
            && Release(v, deposited, caller, later).Ok?
            && var released := Release(v, deposited, caller, later).value;
            && T.BalanceOf(released, v.account) == 0
            && T.BalanceOf(released, v.beneficiary) == T.BalanceOf(s, v.beneficiary) + 1
            && released.totalSupply == s.totalSupply
  {
    Supply.TransferValid(s, owner, v.account, 1);
    var deposited := T.Transfer(s, owner, v.account, 1).value;
    ReleaseValid(v, deposited, caller, later);
  }
}
