# Moneybox withdrawal and transfer, modelled in Dafny

This project models the money-movement core of the Moneybox application: the
`Account` entity with its two availability checks and two mutators, and the two
features built on it, `WithdrawMoney.Execute` and `TransferMoney.Execute`.

- `services.dfy` (module `Services`): the notification service as a recording
  stand-in. Each notice sent is appended as a `(kind, email)` entry to a `Journal`.
  The notifier shares that journal with the repository, so it holds every notice and
  every persisted update in the order they happened.
- `domain.dfy` (module `Domain`): the value `AccountState` (balance, withdrawn,
  paid-in). The two checks are pure functions on it. They return `Ok(true)` or
  an `Err`, where the source returns `true` or throws `InvalidOperationException`.
  The class `Account` holds the same three amounts as mutable fields. Its
  `WithdrawnMoney` and `PayInMoney` update them in place and call the notifier.
  The module also proves that the two counters are running totals of every
  movement (`ReplayCounters`). So under the two mutators, `balance - withdrawn - paidIn`
  never changes. The source's setters can still assign any field directly, as the
  tests do.
- `data_access.dfy` (module `DataAccess`): the account repository as a stand-in.
  It has a fixed id-to-account lookup. Each `Update` call appends an entry to the
  shared journal: the account passed and its state at that moment.
- `withdraw_money.dfy`, `transfer_money.dfy`: the two features. Each is a class
  whose `Execute` mirrors the source step by step: fetch, check, mutate, persist.
  Each contract states the complete journal a call appends, in order. It requires
  the repository and the notifier to record into the same journal.
  Each `Execute` is proved against a value-level specification: `Withdraw`,
  `TransferAvailability`, `Transfer`, and `SelfTransfer` for the aliased case.
- `scenarios.dfy`: the repository's NUnit cases, written as client code. Their
  assertions follow from the contracts alone.

Amounts are exact, unbounded `real`s. C# `decimal` is exact only up to 28-29
significant digits. Beyond that, its `+` and `-` round, and the model does not. Exceptions are modelled as an `Outcome`:
`Completed`, or `Failed(InsufficientFunds | PayInLimitReached)`.

Two behaviours of the source are stated as written, not corrected:

- The transfer's pay-in check is made on the SOURCE account
  (src/Moneybox.App/Features/TransferMoney.cs:29). Whether a transfer succeeds,
  and the source's final state, therefore never depend on the destination
  (`TransferIgnoresDestination`).
  A successful transfer can take the destination's paid-in total past 4000
  (`DestinationCanPassPayInLimit`). So `paidIn <= 4000` holds after a checked pay-in
  into the same account (`CheckedPayInKeepsLimit`), but transfers do not keep it for
  the destination. The model follows the code here, not that intended invariant.
- The two account ids may be equal. Whether the repository then returns one
  object depends on the repository, which is not part of this model. With the
  lookup modelled as a fixed map, source and destination are the same object, and
  `Execute` withdraws from it and pays into it. It also notifies on
  the intermediate and final states and persists it twice. `TransferMoney.Execute`
  states this case separately through `SelfTransfer`.

Amounts are not validated. From any source whose balance is not negative and
whose paid-in total is within the limit, a non-positive amount passes both transfer
checks, and a negative one lowers the destination's balance and paid-in total
(`NonPositiveAmountPassesChecks`). It can leave the destination's balance below zero
(`NegativeAmountCanOverdrawDestination`). With negative
amounts, `paidIn` can also decrease, although it is meant to be a running total of
deposits. The model follows the code here too.

## Model

| member | source | states |
|---|---|---|
| `Domain.AccountState.CheckWithdrawnAvailability` | src/Moneybox.App/Domain/Account.cs:21-31 | fails with InsufficientFunds exactly when the amount exceeds the balance; otherwise answers true, never false |
| `Domain.AccountState.CheckPayInAvailability` | src/Moneybox.App/Domain/Account.cs:33-44 | fails with PayInLimitReached exactly when paid-in + amount > 4000 (4000 itself accepted); otherwise answers true, never false |
| `Domain.AccountState.AfterWithdrawal` | src/Moneybox.App/Domain/Account.cs:48-49 | balance and withdrawn each drop by the amount; paid-in untouched; balance - withdrawn - paidIn preserved |
| `Domain.AccountState.AfterPayIn` | src/Moneybox.App/Domain/Account.cs:61-62 | balance and paid-in each rise by the amount; withdrawn untouched; balance - withdrawn - paidIn preserved |
| `Domain.WithdrawalNotices` | src/Moneybox.App/Domain/Account.cs:51-54 | at most one notice, always funds-low to the owner's e-mail, sent exactly when the new balance is below 500 (exactly 500 sends nothing) |
| `Domain.PayInNotices` | src/Moneybox.App/Domain/Account.cs:64-67 | at most one notice, always approaching-limit to the owner's e-mail, sent exactly when the new paid-in total exceeds 3500 (exactly 3500 sends nothing) |
| `Domain.CheckedWithdrawalKeepsBalance` | src/Moneybox.App/Domain/Account.cs:23-26 | a withdrawal whose check succeeded leaves a non-negative balance |
| `Domain.CheckedPayInKeepsLimit` | src/Moneybox.App/Domain/Account.cs:35-38 | a pay-in whose check succeeded leaves the paid-in total at most 4000 |
| `Domain.ReplayCounters` | src/Moneybox.App/Domain/Account.cs:46-70 | after any series of mutator calls, withdrawn and paid-in have moved by the totals withdrawn and paid in, and the balance by their net |
| `Domain.ReplayKeepsOpening` | src/Moneybox.App/Domain/Account.cs:46-70 | balance - withdrawn - paidIn is invariant under any series of mutator calls |
| `Domain.Account.constructor` | src/Moneybox.App/Domain/Account.cs:10-18 | an account starts with the given id, owner e-mail and amounts |
| `Domain.Account.WithdrawnMoney` | src/Moneybox.App/Domain/Account.cs:46-56 | updates the fields in place to the withdrawn state without re-checking; appends exactly the funds-low notices for the new state; id and e-mail unchanged |
| `Domain.Account.PayInMoney` | src/Moneybox.App/Domain/Account.cs:59-70 | updates the fields in place to the paid-in state without re-checking; appends exactly the approaching-limit notices for the new state |
| `WithdrawMoneyFeature.Withdraw` | src/Moneybox.App/Features/WithdrawMoney.cs:23-27 | fails with InsufficientFunds exactly when amount > balance; on success balance and withdrawn drop by the amount, paid-in is kept and the balance is non-negative |
| `WithdrawMoneyFeature.WithdrawAllKeepsBalance` | src/Moneybox.App/Features/WithdrawMoney.cs:18-31 | no series of withdrawals, refused ones included, takes a non-negative balance below zero or changes paid-in |
| `WithdrawMoneyFeature.WithdrawMoney.constructor` | src/Moneybox.App/Features/WithdrawMoney.cs:12-16 | keeps the given repository and notifier |
| `WithdrawMoneyFeature.WithdrawMoney.Execute` | src/Moneybox.App/Features/WithdrawMoney.cs:18-31 | refused: account and journal unchanged. Success: the account takes the withdrawal; the journal gains, in order, at most one funds-low notice (never a pay-in notice) and then exactly one update carrying the mutated state |
| `TransferMoneyFeature.TransferAvailability` | src/Moneybox.App/Features/TransferMoney.cs:25-31 | fails exactly when the source lacks funds or the SOURCE's paid-in + amount > 4000; insufficient funds is the error whenever it applies; never answers false |
| `TransferMoneyFeature.Transfer` | src/Moneybox.App/Features/TransferMoney.cs:18-40 | distinct accounts: fails as the checks say; on success source balance and withdrawn drop, destination balance and paid-in rise by the amount, the sum of balances is kept and the source balance is non-negative |
| `TransferMoneyFeature.SelfTransfer` | src/Moneybox.App/Features/TransferMoney.cs:20-36 | same account on both sides: on success the balance is unchanged while withdrawn drops and paid-in rises by the amount |
| `TransferMoneyFeature.TransferIgnoresDestination` | src/Moneybox.App/Features/TransferMoney.cs:25-29 | whether a transfer succeeds, and what it does to the source, does not depend on the destination |
| `TransferMoneyFeature.DestinationCanPassPayInLimit` | src/Moneybox.App/Features/TransferMoney.cs:29-34 | a successful transfer can leave the destination's paid-in total above 4000 |
| `TransferMoneyFeature.SourcePayInLimitRefusesTransfer` | src/Moneybox.Tests/TransferMoneyTests.cs:63-69 | 4500 out of a 6000 balance is refused with PayInLimitReached whatever the destination |
| `TransferMoneyFeature.SourceLimitRefusesWhatDestinationAccepts` | src/Moneybox.App/Features/TransferMoney.cs:29 | a transfer can be refused with PayInLimitReached by the source's paid-in total (3000 + 2000) while the destination's own pay-in check accepts the amount |
| `TransferMoneyFeature.NonPositiveAmountPassesChecks` | src/Moneybox.App/Features/TransferMoney.cs:25-34 | for every source with a non-negative balance and paid-in at most 4000 and every destination, a non-positive amount passes both checks; the source's balance does not fall and the destination's balance and paid-in do not rise, and strictly fall when the amount is negative |
| `TransferMoneyFeature.NegativeAmountCanOverdrawDestination` | src/Moneybox.App/Features/TransferMoney.cs:25-34 | a witness: a negative amount can pass both checks and can leave the destination's balance negative |
| `TransferMoneyFeature.TransferMoney.constructor` | src/Moneybox.App/Features/TransferMoney.cs:12-16 | keeps the given repository and notifier |
| `TransferMoneyFeature.TransferMoney.Execute` | src/Moneybox.App/Features/TransferMoney.cs:18-40 | refused by either source check: both accounts and journal unchanged. Success: the journal gains, in order, the source's withdrawal notices, the destination's pay-in notices, the update of the source, then the update of the destination, each with its final state. Distinct accounts end as `Transfer` says; aliased ones as `SelfTransfer` says |
| `Scenarios.WithdrawScenario` | src/Moneybox.Tests/WithdrawMoneyTests.cs:20-37 | with the tests' account, the outcome and final state are those of `Withdraw`, and the journal holds its notices and then its one update |
| `Scenarios.TransferScenario` | src/Moneybox.Tests/TransferMoneyTests.cs:22-51 | with the tests' two accounts (destination balance 2000), the outcome and final states are those of `Transfer`, and the journal holds the notices and then the two updates |

## Left out

- The account repository's storage is not part of this model. `GetAccountById` is a fixed map lookup, and an unknown id is excluded by a precondition. Errors from the store (account not found, persistence failure) are not modelled.
- The notification service's delivery is not part of this model; only the notices sent are recorded, in the same journal as the updates.
- The `User` class is not part of this model; only the owner's e-mail is kept, as a field of `Account`.
- Account ids are natural numbers standing for the source's `Guid`; nothing in the core depends on their form.
- `decimal` range, rounding beyond 28-29 significant digits, and `OverflowException` are not modelled: amounts are unbounded exact reals. Near that precision the source's checks and counters can therefore differ from the model's.
- The public setters of `Account` are not modelled as operations: the invariants proved hold across the two mutators only.
- Concurrency and atomicity are out of scope. Two transfers touching one account are not coordinated, and nothing is rolled back if the second update fails.
- The NUnit/Moq test harness is not modelled; the test cases appear only as the verified client methods in `scenarios.dfy`.
