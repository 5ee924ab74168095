# BabyToken and TokenTimelock, modelled in Dafny

This project models the BABY token and its time-locked vault as the repository's
test suites describe them.

- **BabyToken** is an ERC-20 ledger. Name "BABYToken", symbol "BABY", 18 decimals.
  It mints its whole cap of 2,100,000,000 × 10^18 units to the deployer at
  construction and never mints again. It offers `transfer`, `approve`,
  `allowance`, `transferFrom`, `burn` and `burnFrom`. A pause switch is guarded by
  the pauser role: `pause`, `unpause`, `addPauser` and `renouncePauser`.
- **TokenTimelock** is a vault. It holds a ledger balance for one beneficiary.
  Its `release` pays the whole balance out through the ledger's `transfer`
  once the release time has passed. Anyone may call it.
- **toBN(n, unit)** is the decimal-scaling helper of the token tests. It appends
  `unit` zeros to the decimal form of `n` and parses the result back as a number.

The ledger is an immutable `BabyToken.Ledger` value. Each call takes its sender
explicitly. It returns `Ok(newLedger)` or `Err(kind)`. The error kinds are:

- `Underflow`: "SafeMath: subtraction overflow"
- `Overflow`: "SafeMath: addition overflow"
- `Paused`: "Pausable: paused"
- `NotPauser`: "PauserRole: caller does not have the Pauser role"

A reverted call returns no ledger, so it changes nothing.
`Transactions.Apply` and `Transactions.Run` apply calls one at a time and keep
the old ledger when a call reverts. A storage mapping is a finite map that holds
exactly its non-zero entries, so "nothing changed" is plain equality of ledgers.

The vault gets the ledger state and the current time as parameters.
`release` takes the caller as a parameter too, and its result does not depend on it.

Modules:

- `Results`: the `Result` type
- `Decimal`: `toBN` / `strToBN`
- `Sums`: the sum of a map's values
- `BabyToken`: the ledger and its calls
- `Supply`: the supply invariant
- `Transactions`: sequences of calls
- `TokenScenarios`: the token tests' behaviours
- `TokenTimelock`: the vault

## Model

| member | source | states |
|---|---|---|
| Decimal.ToBN | test/BabyToken.js:12-18 | `unit` defaults to 0; `toBN` fails exactly when `n` is non-zero and `unit` is negative; zero resets the unit first |
| Decimal.ToDecimalString | test/BabyToken.js:17 | `n.toString()` is a canonical numeral: digits only, no leading zero, and as many digits as `n` needs |
| Decimal.ParseDecimal | test/BabyToken.js:3-5 | `strToBN` of a k-digit numeral is below 10^k |
| Decimal.ParsePrinted | test/BabyToken.js:3-17 | parsing the printed form of `n` gives `n` back |
| Decimal.PrintParsed | test/BabyToken.js:3-17 | printing the parsed value of a canonical numeral gives the numeral back |
| Decimal.ParseAppendZeros | test/BabyToken.js:17 | appending k zeros multiplies the parsed value by 10^k |
| Decimal.ToBNScales | test/BabyToken.js:6-18 | `toBN(n, unit)` is `n * 10^unit` for non-zero `n` and a non-negative unit; `toBN(0, unit)` is 0 for every unit |
| Decimal.ToBNExamples | test/BabyToken.js:44-52 | the values in `toBN`'s doc comment and in its unit test: 990, 99, 0, 0 and 99×10^18; a negative unit throws |
| Decimal.ToBNDefaultUnit | test/BabyToken.js:55-57 | the unit defaults to 0, which leaves every number as it is; so `one`, `two` and `zero` are 1, 2 and 0 |
| Decimal.Zeros | test/BabyToken.js:17 | `'0'.repeat(count)` is exactly `count` characters, each a zero |
| Sums.SumRemove | test/BabyToken.js:92 | any account's balance can be split off the sum of balances, whichever account the sum's definition picks first |
| BabyToken.Genesis | migrations/2_deploy_contracts.js:10-12 | construction mints the cap to the deployer, leaves every other balance and every allowance zero, is unpaused, and makes the deployer the only pauser |
| BabyToken.Deploy | migrations/2_deploy_contracts.js:6-12 | the deployed token is "BABYToken"/"BABY" with 18 decimals; the deployer's balance and the supply are 2100000000×10^18 |
| BabyToken.BalanceOf | test/BabyToken.js:84-93 | `balanceOf` reads the stored balance; an account never credited holds 0 |
| BabyToken.Allowance | test/BabyToken.js:198-203 | `allowance` reads the stored allowance; a pair never approved, or spent down to nothing, is allowed 0 |
| BabyToken.Move | test/BabyToken.js:170-196 | a move succeeds exactly when the sender holds the amount and the receiver's balance stays 256-bit; it debits the sender, credits the receiver, and changes nothing else; a self-move changes nothing |
| BabyToken.Transfer | test/BabyToken.js:170-196 | `transfer` reverts with `Paused` while paused and with `Underflow` above the balance; on success the amount moves from caller to receiver and nothing else changes |
| BabyToken.Approve | test/BabyToken.js:198-200 | `approve` overwrites exactly the caller's allowance for the spender and changes nothing else |
| BabyToken.TransferFrom | test/BabyToken.js:198-230 | `transferFrom` succeeds exactly when unpaused with enough balance and allowance; it moves the amount and lowers exactly that allowance by the amount |
| BabyToken.Destroy | test/BabyToken.js:246-270 | destroying succeeds exactly when both the balance and the supply cover the amount, and then lowers both by the amount; otherwise `Underflow` |
| BabyToken.Burn | test/BabyToken.js:246-270 | `burn` lowers the caller's balance and the supply by the amount; above the balance it reverts with `Underflow` |
| BabyToken.BurnFrom | test/BabyToken.js:272-304 | `burnFrom` lowers the owner's balance, the supply and the caller's allowance by the amount; above the allowance or the balance it reverts with `Underflow` |
| BabyToken.Pause | test/BabyToken.js:122-141 | `pause` succeeds exactly for a pauser and sets the flag; a non-pauser gets `NotPauser` |
| BabyToken.Unpause | test/BabyToken.js:155-165 | `unpause` succeeds exactly for a pauser and clears the flag; a non-pauser gets `NotPauser` |
| BabyToken.AddPauser | test/BabyToken.js:143-153 | `addPauser` by a pauser grants the role to the account and to no one else; a non-pauser gets `NotPauser` |
| BabyToken.RenouncePauser | test/BabyToken.js:155-159 | `renouncePauser` removes only the caller from the pausers |
| Supply.SumStore | test/BabyToken.js:84-93 | writing one balance shifts the sum of balances by the difference between the new and the old value |
| Supply.BalanceBelowSupply | test/BabyToken.js:84-93 | in a valid ledger no balance exceeds the supply |
| Supply.GenesisValid | test/BabyToken.js:96-100 | the freshly constructed ledger satisfies the invariant: the supply is the sum of balances and at most the cap |
| Supply.MoveValid | test/BabyToken.js:170-175 | on a valid ledger a move cannot overflow; it succeeds exactly when the balance covers it, and the result is valid |
| Supply.TransferValid | test/BabyToken.js:170-196 | on a valid ledger `transfer` succeeds exactly when unpaused and covered by the balance, and keeps the ledger valid |
| Supply.TransferFromValid | test/BabyToken.js:198-230 | on a valid ledger `transferFrom` succeeds exactly when unpaused and covered by balance and allowance; any unpaused failure is `Underflow` |
| Supply.DestroyValid | test/BabyToken.js:246-270 | on a valid ledger destroying succeeds exactly when the balance covers it, and keeps the ledger valid |
| Supply.BurnValid | test/BabyToken.js:246-270 | on a valid ledger `burn` succeeds exactly when not blocked and covered by the balance, and keeps the ledger valid |
| Supply.BurnFromValid | test/BabyToken.js:272-304 | on a valid ledger `burnFrom` succeeds exactly when not blocked and covered by balance and allowance, and keeps the ledger valid |
| Transactions.StepValid | test/BabyToken.js:83-93 | no call on a valid ledger overflows, breaks the invariant, raises the supply or changes the cap |
| Transactions.Step | test/BabyToken.js:122-165 | on any ledger, no call changes the name, symbol, decimals or cap or raises the supply; `pause`, `unpause` and `addPauser` succeed exactly for a pauser and are the only calls that fail with `NotPauser`; `renouncePauser` never fails |
| Transactions.Apply | test/BabyToken.js:177-196 | a reverted call leaves the ledger exactly as it was; no call mints or touches the metadata |
| Transactions.Run | test/BabyToken.js:83-93 | a sequence of calls, each applied to the ledger the previous one left, never mints or touches the metadata, and without `addPauser` never widens the pauser set |
| Transactions.RunValid | test/BabyToken.js:83-93 | any sequence of calls keeps a valid ledger valid and never raises its supply |
| Transactions.ReachableSupply | test/BabyToken.js:83-117 | in every state reachable from the deployment, the supply equals the sum of balances and is at most the mint amount: nothing mints |
| TokenScenarios.MintAmountIsScaled | test/BabyToken.js:60 | the mint amount is `toBN(2100000000, 18)` and the deployment script's cap string parses to it |
| TokenScenarios.Deployed | test/BabyToken.js:96-100 | after deployment the owner holds the mint amount, the supply is the mint amount, and the ledger is valid |
| TokenScenarios.PauseBlocksTransfer | test/BabyToken.js:122-133 | a pauser pauses, a transfer then reverts with `Paused`, and unpausing clears the flag |
| TokenScenarios.NonPauserRejected | test/BabyToken.js:135-147 | a non-pauser's `pause`, `unpause` and `addPauser` revert with `NotPauser` |
| TokenScenarios.PauserLifecycle | test/BabyToken.js:149-165 | a granted pauser can pause; after renouncing, it cannot unpause, the ledger stays paused, and the owner can unpause |
| TokenScenarios.TransferTwice | test/BabyToken.js:232-240 | two transfers of 1 lower the sender by 2 and raise the receiver by 2, keeping the supply and the invariant |
| TokenScenarios.TransferOverBalance | test/BabyToken.js:177-196 | transferring balance+1, 2^256-1 or 2^256-2 reverts with `Underflow`, and the ledger is unchanged |
| TokenScenarios.SpendAllowance | test/BabyToken.js:198-208 | after approving 1, a delegated transfer of 1 zeroes the allowance, moves 1 from owner to recipient, leaves the spender's balance alone, and a second one reverts |
| TokenScenarios.TransferFromOverAllowance | test/BabyToken.js:210-230 | with an allowance of 1, delegated transfers of 2, 2^256-1 and 2^256-2 revert with `Underflow`, and the ledger including the allowance is unchanged |
| TokenScenarios.BurnOne | test/BabyToken.js:246-250 | burning 1 lowers the owner's balance and the supply by 1 |
| TokenScenarios.BurnOverBalance | test/BabyToken.js:252-270 | burning balance+1, 2^256-1 or 2^256-2 reverts with `Underflow`, and the ledger is unchanged |
| TokenScenarios.BurnFromAllowance | test/BabyToken.js:272-280 | after approving 1, a delegated burn of 1 zeroes the allowance and lowers the owner's balance and the supply by 1 |
| TokenScenarios.BurnFromOverAllowance | test/BabyToken.js:282-304 | with an allowance of 1, delegated burns of 2, 2^256-1 and 2^256-2 revert with `Underflow`, and the ledger is unchanged |
| TokenTimelock.Release | test/TokenTimelock.js:51-75 | `release` before the release time reverts with `NotMatured`; after it, it succeeds exactly when the ledger is unpaused and the beneficiary can be credited, moving the vault's whole balance to the beneficiary through `transfer`; every later failure is a ledger revert passed on |
| TokenTimelock.Matured | test/TokenTimelock.js:68-75 | the vault has matured exactly when the current time is not before the release time |
| TokenTimelock.MaturedForever | test/TokenTimelock.js:88-92 | maturity has no upper bound: once matured, always matured |
| TokenTimelock.ReleaseValid | test/TokenTimelock.js:51-55 | on a valid unpaused ledger, release succeeds exactly after maturity; it empties the vault into the beneficiary and keeps the supply and the invariant |
| TokenTimelock.ReleaseByAnyone | test/TokenTimelock.js:95-116 | the caller of `release` makes no difference |
| TokenTimelock.ReleaseLate | test/TokenTimelock.js:78-93 | after maturity, releasing at any later time gives the same outcome |
| TokenTimelock.ReleaseTwice | test/TokenTimelock.js:52-55 | a release after a successful release is a successful no-op, at any later time and by anyone, because the vault is empty |
| TokenTimelock.DepositThenRelease | test/TokenTimelock.js:58-76 | a deposit of 1 lowers the owner by 1, gives the vault 1, and leaves the beneficiary alone; release at +90s reverts with `NotMatured`; from +100s on, any caller's release empties the vault into the beneficiary; the supply stays the same throughout |

## Left out

- The Solidity sources of BabyToken and TokenTimelock are not part of this model. Behaviour is taken from the test assertions. Where the tests are silent, the choice made is listed below.
- The order of the checks inside `transferFrom` and `burnFrom` follows the OpenZeppelin 2.x library, whose revert messages the tests match. The order only shows in which error is reported, and only in ledgers that break the supply invariant.
- The `Overflow` error guards the 256-bit addition to the receiver. `Supply.MoveValid` and `Transactions.StepValid` prove it never happens from a valid ledger.
- Events (`Transfer`, `Approval`, `Paused`, `Unpaused`, `PauserAdded`, `PauserRemoved`) are not modelled.
- Metadata getters are fields of the ledger value, not separate calls.
- `BabyToken.PauseScope` records whether pausing also blocks `approve`, `burn` and `burnFrom`. No test settles this, so every property is proved for all four choices.
- BabyToken.Pause: calling `pause` while already paused is modelled as setting the flag again. No test exercises this case, so a revert on it is not modelled.
- BabyToken.Unpause: calling `unpause` while not paused is modelled as clearing the flag again. No test exercises this case, so a revert on it is not modelled.
- BabyToken.AddPauser: granting the role to an existing pauser is modelled as a no-op. Any revert for that case is not modelled.
- BabyToken.RenouncePauser: the call always succeeds, even for a non-pauser or the last pauser. Any revert for these cases is not modelled.
- The zero address is an ordinary account. Any zero-address checks are not modelled.
- Accounts are natural numbers, not 160-bit addresses.
- The vault constructor's rejection of a release time in the past is not modelled. No test exercises it.
- TokenTimelock.ReleaseTwice: a matured `release` of an empty vault is modelled as a successful transfer of zero, so a second release is a successful no-op. This is a modelling choice: no test releases twice or releases an empty vault, and a revert for an empty vault is not modelled.
- Vault construction does not touch the ledger. A vault is a value, and its address is a parameter.
- Freshness of the vault address is stated where needed as a zero starting balance.
- Decimal.ToBN: `n` is an exact non-negative integer. JavaScript numbers above 2^53, exponent notation from `toString` (values of 10^21 and above), string arguments and fractional units are not modelled.
- The test harness is not modelled: `assertThrow`, `eq`, hooks, `Promise.all` and `time.increase`. Concurrent client calls are two sequential transactions. The random caller is a universally quantified parameter. The current time is a parameter.
