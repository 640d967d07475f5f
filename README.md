# FinanceDashboard ledger, modelled in Dafny

This project models the bookkeeping core of a personal-finance dApp. That
core is the `FinanceDashboard` contract. For every caller address it keeps
four things:

- a financial summary: monthly income, monthly expenses, savings rate and
  total balance;
- an append-only list of transactions;
- a list of budgets, addressed by index;
- a list of savings goals, addressed by index.

Six mutating operations update this state, each behind a validation check:
`updateFinancialData`, `addTransaction`, `addBudget`, `updateBudget`,
`addSavingsGoal` and `updateSavingsGoal`. Four getters read the caller's own
data. The project also models two client pages that feed the ledger. The
savings page computes a goal's integer progress percentage and wires its
forms to the contract. The transactions page guards required fields, converts
the date to unix seconds and encodes expenses as negative amounts.

The Solidity source of the contract is not part of this model. Its behaviour
is taken from two files. The Hardhat test suite
(`contracts/test/Finance-test.ts`) gives concrete values, revert reasons,
accumulation order and per-account isolation. The ABI
(`src/contract/contracts.ts`) gives signatures, field names, signedness and
event payloads.

Files:

- `abi.dfy` (module `Abi`): the Solidity integer types (`Uint256`, `Int256`,
  `Address`), the four structs, the six events, and the revert reasons.
- `arith.dfy` (module `Arith`): multiplication and truncating-division facts.
- `ledger.dfy` (module `Ledger`): one account's state and each operation as a
  pure step. A step returns the new state and the emitted event, or the
  revert. Also the savings-rate derivation and the per-account invariant
  `Wellformed`, with one preservation lemma per operation.
- `dashboard.dfy` (module `Dashboard`): the contract as the class
  `FinanceDashboard`. It holds `accounts: map<Address, UserState>` and is
  mutated in place by methods proved against the `Ledger` steps.
- `ledger_properties.dfy` (module `LedgerProperties`): accumulation over a run
  of transactions, replace versus accumulate, and the test-suite scenarios.
- `dashboard_scenarios.dfy` (module `DashboardScenarios`): the deployment,
  access-control and retrieval tests, proved against the class.
- `forms.dfy`, `savings_page.dfy`, `transactions_page.dfy`: the client pages.

Errors are values, not exceptions (`Result<T> = Ok | Err(Error)`). A revert
leaves the state unchanged. The caller identity `msg.sender` is an explicit
`caller` parameter. An event is returned as the method's result.

## Model

| member | source | states |
|---|---|---|
| `Ledger.Summary` | contracts/test/Finance-test.ts:40-55 | the stored summary keeps income and expenses; balance is income minus expenses; the savings rate is the truncated percentage r with r*I <= (I-E)*100 < (r+1)*I, at most 100 |
| `Ledger.SavingsRateWithoutExpenses` | contracts/test/Finance-test.ts:93-97 | with zero expenses the rate is exactly 100 and the balance equals income |
| `Ledger.SavingsRateWhenBalanced` | contracts/test/Finance-test.ts:43 | when expenses equal income the rate and the balance are 0 |
| `Ledger.FreshIsWellformed` | contracts/test/Finance-test.ts:311-323 | an account that never wrote reads zero income and expenses and empty lists, and satisfies the invariants |
| `Ledger.UpdateFinancialData` | contracts/test/Finance-test.ts:40-67 | reverts with IncomeBelowExpenses exactly when income < expenses; otherwise replaces the totals with the arguments, derives rate and balance, leaves the lists alone, and emits FinancialDataUpdated with the stored values |
| `Ledger.AddTransaction` | contracts/test/Finance-test.ts:80-114 | appends one record holding description, category, date and amount verbatim with isIncome = amount > 0; adds a positive amount to income or a negative amount's magnitude to expenses, then re-derives the summary; emits TransactionAdded |
| `Ledger.AddBudget` | contracts/test/Finance-test.ts:119-162 | reverts with SpentExceedsBudget exactly when spent > budget; otherwise appends Budget(name, spent, budget) and emits BudgetAdded |
| `Ledger.UpdateBudget` | contracts/test/Finance-test.ts:137-169 | succeeds exactly when index < length and spent <= budget; an out-of-range index reports BudgetIndexOutOfBounds; on success replaces both amounts at the index, keeps its name and every other entry, and emits BudgetUpdated with the index |
| `Ledger.AddSavingsGoal` | contracts/test/Finance-test.ts:173-216 | reverts with CurrentExceedsTarget exactly when current > target; otherwise appends SavingsGoal(name, current, target) and emits SavingsGoalAdded |
| `Ledger.UpdateSavingsGoal` | contracts/test/Finance-test.ts:191-223 | succeeds exactly when index < length and current <= target; an out-of-range index reports SavingsGoalIndexOutOfBounds; on success replaces both amounts at the index, keeps its name and every other entry, and emits SavingsGoalUpdated |
| `Ledger.UpdateFinancialDataKeepsWellformed` | contracts/test/Finance-test.ts:58-67 | a successful replace keeps the account invariants (income >= expenses, derived fields consistent) |
| `Ledger.AddTransactionKeepsWellformed` | contracts/test/Finance-test.ts:93-114 | booking a transaction keeps the invariants, including isIncome = amount > 0 for every record |
| `Ledger.AddBudgetKeepsWellformed` | contracts/test/Finance-test.ts:157-162 | a successful addBudget keeps spent <= budget for every budget |
| `Ledger.UpdateBudgetKeepsWellformed` | contracts/test/Finance-test.ts:137-155 | a successful updateBudget keeps spent <= budget for every budget |
| `Ledger.AddSavingsGoalKeepsWellformed` | contracts/test/Finance-test.ts:211-216 | a successful addSavingsGoal keeps current <= target for every goal |
| `Ledger.UpdateSavingsGoalKeepsWellformed` | contracts/test/Finance-test.ts:191-209 | a successful updateSavingsGoal keeps current <= target for every goal |
| `Dashboard.FinanceDashboard.constructor` | contracts/test/Finance-test.ts:23-29 | the deployer becomes the owner and no account holds data |
| `Dashboard.FinanceDashboard.GetFinancialData` | src/contract/contracts.ts:384-418 | returns the caller's summary; zero for an untouched account; under the invariant, expenses <= income, rate <= 100 and balance = income - expenses |
| `Dashboard.FinanceDashboard.GetTransactions` | src/contract/contracts.ts:449-488 | returns the caller's transactions; empty for an untouched account; every record has isIncome = amount > 0 |
| `Dashboard.FinanceDashboard.GetBudgets` | src/contract/contracts.ts:354-383 | returns the caller's budgets; empty for an untouched account; each has spent <= budget |
| `Dashboard.FinanceDashboard.GetSavingsGoals` | src/contract/contracts.ts:419-448 | returns the caller's goals; empty for an untouched account; each has current <= target |
| `Dashboard.FinanceDashboard.FinancialDataOf` | src/contract/contracts.ts:320-353 | the public `financialData(address)` getter reads any account: the zero summary for an account nobody wrote, and under the invariant a summary derived from its own totals |
| `Dashboard.FinanceDashboard.TransactionAt` | src/contract/contracts.ts:536-579 | the public `transactions(address, uint256)` getter returns the entry at the index and reverts past the end; under the invariant the entry is flagged by its sign |
| `Dashboard.FinanceDashboard.BudgetAt` | src/contract/contracts.ts:286-319 | the public `budgets(address, uint256)` getter returns the entry at the index and reverts past the end; under the invariant the entry is within its limit |
| `Dashboard.FinanceDashboard.SavingsGoalAt` | src/contract/contracts.ts:502-535 | the public `savingsGoals(address, uint256)` getter returns the entry at the index and reverts past the end; under the invariant the entry is within its target |
| `Dashboard.FinanceDashboard.UpdateFinancialData` | src/contract/contracts.ts:603-620 | performs the Ledger step on the caller's slot only, keeps every account's invariants, and leaves other accounts untouched; a revert changes nothing; on success `financialData(caller)` reads the derived summary of the arguments |
| `Dashboard.FinanceDashboard.AddTransaction` | src/contract/contracts.ts:258-285 | performs the Ledger step on the caller's slot only, keeps the invariants, and leaves other accounts untouched; `transactions(caller, n)` at the old length reads the new record and every other index reads as before; `financialData(caller)` is re-derived from the accrued totals |
| `Dashboard.FinanceDashboard.AddBudget` | src/contract/contracts.ts:212-234 | performs the Ledger step on the caller's slot only; a revert changes nothing; other accounts untouched; on success `budgets(caller, i)` reads the new budget at the old length and every other index as before |
| `Dashboard.FinanceDashboard.UpdateBudget` | src/contract/contracts.ts:580-602 | performs the Ledger step on the caller's slot only; a revert changes nothing; other accounts untouched; on success `budgets(caller, i)` reads the updated budget, name kept, at the index and every other index as before |
| `Dashboard.FinanceDashboard.AddSavingsGoal` | src/contract/contracts.ts:235-257 | performs the Ledger step on the caller's slot only; a revert changes nothing; other accounts untouched; on success `savingsGoals(caller, i)` reads the new goal at the old length and every other index as before |
| `Dashboard.FinanceDashboard.UpdateSavingsGoal` | src/contract/contracts.ts:621-643 | performs the Ledger step on the caller's slot only; a revert changes nothing; other accounts untouched; on success `savingsGoals(caller, i)` reads the updated goal, name kept, at the index and every other index as before |
| `DashboardScenarios.DeploymentScenario` | contracts/test/Finance-test.ts:23-38 | after deployment, owner() is the deployer and any account reads zero totals and empty lists |
| `DashboardScenarios.AccessControlScenario` | contracts/test/Finance-test.ts:226-253 | owner income is 10000 (5000 replaced plus 5000 booked) and the other account's is 4000; the owner has 1 transaction and the other account 0 |
| `DashboardScenarios.PublicGetterScenario` | src/contract/contracts.ts:286-353 | after addBudget(300, 500) and updateBudget(0, 400, 600), `budgets(user, 0)` reads (400, 600) with the name kept, `budgets(user, 1)` reverts, and another account's `financialData` is zero |
| `DashboardScenarios.TransactionRetrievalScenario` | contracts/test/Finance-test.ts:261-288 | three transactions read back in insertion order with their stored fields |
| `DashboardScenarios.BudgetRetrievalScenario` | contracts/test/Finance-test.ts:267-298 | three budgets read back in insertion order |
| `DashboardScenarios.GoalRetrievalScenario` | contracts/test/Finance-test.ts:272-308 | three savings goals read back in insertion order |
| `LedgerProperties.Records` | contracts/test/Finance-test.ts:282-288 | one record per call, in call order |
| `LedgerProperties.ReplayAccumulates` | contracts/test/Finance-test.ts:93-114 | any run of addTransaction calls appends their records in order; income grows by the sum of the positive amounts and expenses by the sum of the negative magnitudes; the summary is derived from the final totals |
| `LedgerProperties.UpdateIgnoresPriorTotals` | contracts/test/Finance-test.ts:231-244 | updateFinancialData replaces: its outcome does not depend on the totals stored before |
| `LedgerProperties.ReplaceThenAccumulate` | contracts/test/Finance-test.ts:231-244 | update(I, E) followed by a positive transaction A gives income I + A and expenses E |
| `LedgerProperties.FinancialDataScenario` | contracts/test/Finance-test.ts:31-67 | update(5000, 3000) stores (5000, 3000, 40, 2000) and emits those values; update(3000, 5000) reverts with "Income must be greater than or equal to expenses" |
| `LedgerProperties.TransactionScenario` | contracts/test/Finance-test.ts:71-115 | +5000 on a fresh account gives (5000, 0, 100, 5000) with isIncome true; a further -2000 gives (5000, 2000, 60, 3000) with isIncome false |
| `LedgerProperties.BudgetScenario` | contracts/test/Finance-test.ts:118-170 | add (300, 500), then update index 0 to (400, 600) keeping the name; add (600, 500) and an update on an empty list revert with their messages |
| `LedgerProperties.SavingsGoalScenario` | contracts/test/Finance-test.ts:172-224 | add (1000, 5000), then update index 0 to (2000, 6000) keeping the name; add (6000, 5000) and an update on an empty list revert with their messages |
| `SavingsPage.Percentage` | src/app/savings/page.tsx:181-184 | 0 for a zero target; otherwise the truncated percentage p with p*target <= current*100 < (p+1)*target |
| `SavingsPage.PercentageAtMostHundred` | src/app/savings/page.tsx:183 | with current <= target, the shown percentage is at most 100 |
| `SavingsPage.PercentageOfReachedGoal` | src/app/savings/page.tsx:183 | a goal with current = target > 0 shows exactly 100 |
| `SavingsPage.PercentageMonotone` | src/app/savings/page.tsx:183 | for a fixed target, the percentage never decreases as current grows |
| `SavingsPage.ShownProgressInRange` | src/app/savings/page.tsx:323-328 | every goal fetched from a consistent ledger renders between 0 and 100 percent |
| `SavingsPage.GoalSubmission` | src/app/savings/page.tsx:84-111 | no call when a field is empty or current exceeds target; otherwise addSavingsGoal(name, current, target) with the entered values, a call the contract accepts on every account |
| `SavingsPage.HandleSubmit` | src/app/savings/page.tsx:81-135 | a submitted goal always passes the contract check; the caller's new state is the old one with the entered goal appended, summary, transactions and budgets unchanged; no call leaves the ledger unchanged |
| `SavingsPage.HandleUpdateGoal` | src/app/savings/page.tsx:137-171 | resubmits the displayed goal's target with the new current and stores the updateSavingsGoal step; against the stored list the caller's new state differs from the old only in that goal's current (name, target, other goals, summary, transactions and budgets kept), and a current above target is refused with nothing changed |
| `TransactionsPage.UnixSeconds` | src/app/transactions/page.tsx:121 | whole seconds s with s*1000 <= ms < (s+1)*1000, i.e. floor(ms/1000) |
| `TransactionsPage.SecondsRoundTrip` | src/app/transactions/page.tsx:163-165 | a stored second shown as s*1000 milliseconds (plus any sub-second part) converts back to s |
| `TransactionsPage.SignedAmount` | src/app/transactions/page.tsx:124-128 | the submitted amount has the entered magnitude and is positive exactly when (income and wei > 0) or (expense and wei < 0) |
| `TransactionsPage.StoredIncomeFlag` | src/app/transactions/page.tsx:124-128 | read back through the ledger, a positive entered amount carries the checkbox value and a zero amount is never income |
| `TransactionsPage.HandleSubmit` | src/app/transactions/page.tsx:105-161 | no call when description, category or amount is empty; otherwise exactly one transaction is appended with those fields verbatim, the date in whole seconds and the sign-encoded amount; the caller's slot becomes the addTransaction step, so income grows by a positive amount, expenses by a negative amount's magnitude, and budgets and goals stay |

## Left out

- The Solidity source of `FinanceDashboard` is not part of this model. Every
  rule comes from the test suite and the ABI. Where these leave behaviour
  open, the model excludes it with a precondition rather than guessing.
- `Ledger.DerivationDefined` states that open range. The savings rate for a
  zero income is left unspecified, for example after `updateFinancialData(0, 0)`
  or a zero first transaction. So is a run of transactions whose expenses
  exceed income, where the unsigned `totalBalance` would underflow. So is a
  256-bit overflow of `(income - expenses) * 100` or of an accumulated total.
  `Ledger.UpdateFinancialData`, `Ledger.AddTransaction`, the matching
  class methods, `TransactionsPage.StoredIncomeFlag` and
  `TransactionsPage.HandleSubmit` (through `TransactionsPage.CallFits`)
  require the range. In particular the transactions page's default entry,
  an expense, submitted on a fresh account is outside the model.
- Ledger.UpdateBudget: when the index is out of range and spent > budget, the
  contract states only that one of the two reverts is reported. The model
  checks the index first, and `Dashboard.FinanceDashboard.UpdateBudget`
  inherits that order.
- Ledger.UpdateSavingsGoal: the same for an out-of-range index with
  current > target.
- The savings-rate formula `(income - expenses) * 100 / income` follows the
  tests' expected values (40, 100, 60). The contract's exact expression is
  not visible.
- Events are returned as method results. Log ordering, topics and the
  indexed-address encoding are not modelled.
- Wallet, provider and signer setup, `tx.wait()`, toasts, loading flags,
  list refreshes, form resets and all React rendering are I/O or UI.
- `ethers.parseEther` and `formatEther` are library calls. Form amounts are
  modelled as already-parsed wei, and a field left empty is modelled as
  `None`. A value that fails to parse, or that does not fit the ABI types,
  is not modelled.
- SavingsPage.GoalSubmission compares the parsed wei values. The page compares
  `parseFloat` of the two strings, which can round differently for very
  long decimals.
- SavingsPage.Percentage returns an unbounded integer. The page passes the
  BigInt quotient through `Number(...)`, which is exact for the 0..100 range
  the ledger invariant guarantees.
- The empty-amount guard of the child `UpdateSavingsForm` component is not
  modelled. `SavingsPage.HandleUpdateGoal` receives the parsed amount.
- TransactionsPage.UnixSeconds takes a non-negative millisecond time. The
  page always submits the current date, and dates before 1970 are not
  modelled.
- `formatDate` and `formatAmount` are display code. Locale date strings and
  floating-point ETH formatting are not modelled.
- The float-based duplicates in the dashboard and budgets pages, the
  ETH-to-USD display conversions, the AI helpers, the simulated agents, the
  price fetches, the deploy, cost-estimate and configuration scripts and the
  Progress component are outside the ledger core.
- Concurrency: calls are modelled as sequential and atomic, which is how the
  chain executes them.
