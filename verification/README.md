# Bank account entity, modelled in Dafny

This project models a small banking domain with two types:

- **`BankAccount`** has an account number fixed at construction, a balance and an interest rate. Its state changes only through three validated mutators: `Deposit`, `Withdraw` and the `InterestRate` setter.
- **`Transaction`** is an immutable record of an id, a timestamp, a message and an amount. Its constructor validates the id and the message.

Each mutator and constructor checks its input first:

- On failure it throws an `ArgumentException` with a fixed message and changes nothing.
- On success it applies one arithmetic update.

Here every such operation is a pure function that returns `Ok(new value)` or `Err(kind)`. Each literal message has exactly one error kind.

Files:

- `results.dfy`: `Option` (the C# `null`) and `Result`.
- `transaction.dfy` (module `Transactions`): the transaction record and its validating constructor.
- `bank_account.dfy` (module `BankAccounts`):
  - the account and its invariant: number ≥ 1, balance ≥ 0, and 0 ≤ rate ≤ 0.10;
  - the two constructors, the rate setter, `Deposit` and `Withdraw`;
  - round-trip lemmas relating these operations.
- `account_history.dfy` (module `AccountHistory`): a caller issues any sequence of calls and catches every rejection. Inductive lemmas show:
  - the invariant holds in every account reachable from a successful construction;
  - the account number never changes;
  - the balance moves only by the accepted calls;
  - rejected calls have no effect.
- `float_guards.dfy` (module `FloatGuards`): the guards read as IEEE comparisons on `double`. See Findings.

Amounts and rates are exact `real`s. The source only compares, adds and subtracts them. With exact reals the guards and the updates mean what the code intends, free of rounding.

`BankAccount.cs` disagrees with `IBankAccount.cs:10` and the three test suites about the transaction ledger. The interface declares a ledger and the tests assert entries in it, but `BankAccount.cs` keeps none. The model follows `BankAccount.cs` (see Left out).

The constructor assigns the default interest rate through the validated setter (`BankAccount.cs:24`), starting from the rate field's zero value. `BankAccounts.Create` does the same, and its contract proves that the setter's error can never come out of the constructor.

## Model

| member | source | states |
|---|---|---|
| `Transactions.NewTransaction` | ReviewProject/Entities/Transaction.cs:17-27 | Construction succeeds exactly when id ≥ 1 and the message is present and non-empty. An id ≤ 0 reports the id error even when the message is also bad. Otherwise a null or empty message reports the message error. On success the id, message, amount and supplied time are stored unchanged, and the result is well formed. |
| `Transactions.ConstructorRoundTrip` | ReviewProject/Entities/Transaction.cs:19-26 | Every well-formed transaction is exactly what the constructor builds from its own fields. |
| `Transactions.ConstructedIffWellFormed` | ReviewProject/Entities/Transaction.cs:10-26 | A transaction is well formed (id ≥ 1, non-empty message) if and only if some constructor call produces it. |
| `Transactions.AmountUnconstrained` | ReviewProject/Entities/Transaction.cs:17-26 | The amount plays no part in validation. Any two amounts, zero and negatives included, are accepted or rejected alike, with the same error. |
| `Transactions.Message` | ReviewProject/Entities/Transaction.cs:20-22 | Each error kind maps to its exact exception text: "Invalid Transaction Id" (line 20) and "Transaction Message is missing or empty" (22). The text is non-empty, and `ErrorOf` recovers the kind from it. |
| `Transactions.MessageDeterminesError` | ReviewProject/Entities/Transaction.cs:19-22 | The two literal messages are distinct, so the message identifies which check failed. |
| `BankAccounts.SetInterestRate` | ReviewProject/Entities/BankAccount.cs:37-42 | The setter accepts exactly the closed range [0, 0.10], both endpoints included, and afterwards the getter returns the new value. Any other value fails with the interest-rate error. Number and balance never change, and the invariant is kept. |
| `BankAccounts.Create` | ReviewProject/Entities/BankAccount.cs:16-25 | Construction succeeds if and only if number ≥ 1 and initial balance ≥ 0, so a balance of exactly 0 is accepted. An invalid number wins over a negative balance. On success the account holds the given number and balance with rate 0.01, and it satisfies the invariant. |
| `BankAccounts.CreateEmpty` | ReviewProject/Entities/BankAccount.cs:12-14 | The one-argument constructor fails only on a number ≤ 0. Otherwise it opens the account with balance 0 and the default rate. |
| `BankAccounts.Deposit` | ReviewProject/Entities/BankAccount.cs:45-50 | A deposit succeeds if and only if the amount is > 0, and then the balance grows by exactly that amount. Zero and negative amounts fail with the amount error. Number and rate are unchanged, and the invariant is kept. |
| `BankAccounts.Withdraw` | ReviewProject/Entities/BankAccount.cs:52-59 | A withdrawal succeeds if and only if 0 < amount ≤ balance. Positivity is checked first: an amount ≤ 0 gives the amount error, and a positive amount above the balance gives the insufficient-funds error. On success the balance drops by exactly the amount and stays ≥ 0. Number and rate are unchanged. |
| `BankAccounts.Message` | ReviewProject/Entities/BankAccount.cs:19-57 | Each error kind maps to its exact exception text: "Invalid Account Number" (line 19), "Invalid Initial Balance" (21), "Invalid Interest Rate" (40), "Amount must be greater than zero" (48, 55) and "Amount to withdraw exceeds the balance" (57). The text is non-empty, and `ErrorOf` recovers the kind from it. |
| `BankAccounts.MessageDeterminesError` | ReviewProject/Entities/BankAccount.cs:18-57 | The five literal messages are pairwise distinct, so each one identifies its failure. |
| `BankAccounts.WithdrawWholeBalance` | ReviewProject/Entities/BankAccount.cs:56-58 | When the balance is positive, the strict balance check lets the whole balance be withdrawn, leaving exactly 0. A zero balance cannot be withdrawn, because the amount 0 fails the positivity check first. |
| `BankAccounts.DepositThenWithdrawRestores` | ReviewProject/Entities/BankAccount.cs:45-59 | Withdrawing what was just deposited returns the account to its previous state. |
| `BankAccounts.WithdrawThenDepositRestores` | ReviewProject/Entities/BankAccount.cs:45-59 | Depositing what was just withdrawn returns the account to its previous state. |
| `BankAccounts.SetInterestRateUndoable` | ReviewProject/Entities/BankAccount.cs:37-42 | Setting a rate and then the old rate restores the account. Setting the same rate twice equals setting it once. |
| `AccountHistory.StepPreservesValid` | ReviewProject/Entities/BankAccount.cs:37-59 | Any single mutator call, accepted or rejected, keeps the invariant and the account number. |
| `AccountHistory.RunPreservesValid` | ReviewProject/Entities/BankAccount.cs:27-59 | Any sequence of mutator calls keeps the invariant. |
| `AccountHistory.RunKeepsNumber` | ReviewProject/Entities/BankAccount.cs:27 | No sequence of calls changes the account number. |
| `AccountHistory.RunBalance` | ReviewProject/Entities/BankAccount.cs:45-59 | After any sequence of calls, balance = opening balance + accepted deposits − accepted withdrawals. |
| `AccountHistory.RejectedCallsChangeNothing` | ReviewProject/Entities/BankAccount.cs:39-58 | Replaying only the accepted calls gives the same account as the full sequence, so rejected calls have no effect. |
| `AccountHistory.CreatedAccountsStayValid` | ReviewProject/Entities/BankAccount.cs:16-59 | Every account reachable from a successful construction satisfies the invariant and keeps its original number. |
| `FloatGuards.SetInterestRateAsWritten` | ReviewProject/Entities/BankAccount.cs:39-41 | The setter guard as written, with IEEE comparisons. It agrees with the corrected guard on every non-NaN value. |
| `FloatGuards.CreateAsWritten` | ReviewProject/Entities/BankAccount.cs:16-25 | The constructor guards as written, with IEEE comparisons. They agree with the corrected ones on every non-NaN balance. |
| `FloatGuards.DepositAsWritten` | ReviewProject/Entities/BankAccount.cs:45-50 | The deposit guard as written, with IEEE comparisons. It agrees with the corrected guard on every non-NaN amount. |
| `FloatGuards.WithdrawAsWritten` | ReviewProject/Entities/BankAccount.cs:52-59 | The withdrawal guards as written, with IEEE comparisons. They agree with the corrected ones whenever amount and balance are numbers. |
| `FloatGuards.NaNPassesEveryGuard` | ReviewProject/Entities/BankAccount.cs:20-58 | The as-written constructor, setter, deposit and withdrawal each accept NaN. Each yields an account that breaks the invariant, even when it starts from a valid one. |
| `FloatGuards.SetInterestRateChecked` | ReviewProject/Entities/BankAccount.cs:39-41 | The corrected setter accepts exactly the values with 0 ≤ v ≤ 0.10, and so rejects NaN. It keeps the invariant. |
| `FloatGuards.CreateChecked` | ReviewProject/Entities/BankAccount.cs:18-24 | The corrected constructor succeeds exactly on number ≥ 1 and 0 ≤ balance, and it always yields a valid account. |
| `FloatGuards.DepositChecked` | ReviewProject/Entities/BankAccount.cs:47-49 | The corrected deposit succeeds exactly on 0 < amount. It keeps the invariant. |
| `FloatGuards.WithdrawChecked` | ReviewProject/Entities/BankAccount.cs:54-58 | The corrected withdrawal succeeds exactly on 0 < amount ≤ balance. It keeps the invariant. |
| `FloatGuards.CheckedAgreesWithModel` | ReviewProject/Entities/BankAccount.cs:16-59 | On numbers the corrected guards coincide with the exact-real operations of `BankAccounts`, so those operations are the corrected behaviour. |

## Left out

- **Transaction ledger on the account.**
  - `BankAccount.cs` has no `Transactions` member, and no code creates a `Transaction`.
  - Yet `IBankAccount.cs:10` declares a transaction list, and all three test suites assert ledger entries. Examples are `MSUnitTestProject/BankAccountTest.cs:25-32` and `:86-97`. As written, the entity would not even implement that interface.
  - The model follows the entity as written and has no ledger. This is a mismatch between the source and its tests, and the model does not resolve it.
  - A related conflict: the constructor routes the default rate through the setter (`BankAccount.cs:24`). A setter that appended "Interest Rate changed" would therefore add a second entry at construction. The tests expect exactly one entry there.
- **`TransactionTime` / `DateTime.Now`.** Reading the clock is I/O. The caller supplies the instant (`now`), and the contract states that it is stored unchanged. The tests' "between before and after" check is not modelled.
- **IEEE `double`.** Rounding, overflow to infinity and infinities in general are not modelled. The tests' exact equalities on sums (such as `initialBalance + amount`) depend on rounding. NaN is modelled only in `FloatGuards`. The following contracts hold for exact reals but not for doubles as written:
- BankAccounts.Deposit: its `balance' > balance` clause can fail with doubles, because a tiny deposit such as 1e-300 on a balance of 1.0 rounds away and leaves the balance unchanged.
- BankAccounts.Withdraw: its `balance' < balance` clause can fail with doubles for the same reason.
- BankAccounts.DepositThenWithdrawRestores: with doubles, `0.2 + 0.1 - 0.1` is not `0.2`, so the account need not be restored exactly.
- BankAccounts.WithdrawThenDepositRestores: does not hold exactly with doubles, for the same reason.
- AccountHistory.RunBalance: the balance equation is exact in the model only; with doubles each step rounds.
- **Interfaces `IBankAccount` and `ITransaction`.** They contain no logic. They only name the observable fields, which appear here as datatype fields.
- **Exception types and C# property mechanics.** An `ArgumentException` becomes an `Err` of an error kind. `Message` maps each kind back to its literal text. The getters are field reads.
- **The three test projects.** They contain no product logic. They are used only as evidence for the properties above.

## Findings

| source | as written | input that shows it | evidently intended | confidence | as-written member | corrected member |
|---|---|---|---|---|---|---|
| ReviewProject/Entities/BankAccount.cs:39 | `value < 0` or `value > 0.10` rejects only values that compare out of range | `InterestRate = double.NaN` is accepted, and the rate becomes NaN | accept only 0 ≤ value ≤ 0.10 | high (not executed) | `FloatGuards.SetInterestRateAsWritten` (shown by `FloatGuards.NaNPassesEveryGuard`) | `FloatGuards.SetInterestRateChecked` |
| ReviewProject/Entities/BankAccount.cs:20 | `initialBalance < 0` rejects only values that compare negative | `new BankAccount(1, double.NaN)` succeeds with balance NaN | accept only 0 ≤ initialBalance | high (not executed) | `FloatGuards.CreateAsWritten` (shown by `FloatGuards.NaNPassesEveryGuard`) | `FloatGuards.CreateChecked` |
| ReviewProject/Entities/BankAccount.cs:47 | `amount <= 0` rejects only values that compare non-positive | `Deposit(double.NaN)` succeeds, and the balance becomes NaN | accept only 0 < amount | high (not executed) | `FloatGuards.DepositAsWritten` (shown by `FloatGuards.NaNPassesEveryGuard`) | `FloatGuards.DepositChecked` |
| ReviewProject/Entities/BankAccount.cs:54-56 | `amount <= 0`, then `amount > Balance`, reject only values that compare out of range | `Withdraw(double.NaN)` succeeds, and the balance becomes NaN | accept only 0 < amount ≤ Balance | high (not executed) | `FloatGuards.WithdrawAsWritten` (shown by `FloatGuards.NaNPassesEveryGuard`) | `FloatGuards.WithdrawChecked` |

The rest of the model uses the corrected behaviour. `FloatGuards.CheckedAgreesWithModel` proves that the exact-real operations of `BankAccounts` coincide with the corrected guards on numbers. Each `AsWritten` contract proves that the code as written matches them on every input except NaN.
