/** Properties of the per-account ledger that relate several operations:
    accumulation over a run of transactions, replace versus accumulate, and
    the concrete scenarios of the contract's test suite. */
module LedgerProperties {
  import opened Abi
  import opened Ledger

  /** The arguments of one addTransaction call. */
  datatype TransactionInput = TransactionInput(description: string, category: string, date: Uint256, amount: Int256)

  /** The record addTransaction stores for an input. */
  function Record(i: TransactionInput): Transaction {
    Transaction(i.description, i.category, i.date, i.amount, i.amount > 0)
  }

  function Records(inputs: seq<TransactionInput>): (ts: seq<Transaction>)
    ensures |ts| == |inputs|
    ensures forall k :: 0 <= k < |inputs| ==> ts[k] == Record(inputs[k])
  {
    if |inputs| == 0 then [] else [Record(inputs[0])] + Records(inputs[1..])
  }

  /** Sum of the positive amounts. */
  function IncomeSum(inputs: seq<TransactionInput>): nat {
    if |inputs| == 0 then 0
    else (if inputs[0].amount > 0 then inputs[0].amount as int else 0) + IncomeSum(inputs[1..])
  }

  /** Sum of the magnitudes of the negative amounts. */
  function ExpenseSum(inputs: seq<TransactionInput>): nat {
    if |inputs| == 0 then 0
    else (if inputs[0].amount < 0 then -(inputs[0].amount as int) else 0) + ExpenseSum(inputs[1..])
  }

  function Book(u: UserState, user: Address, i: TransactionInput): Step
    requires AddTransactionDefined(u, i.amount)
  {
    AddTransaction(u, user, i.description, i.category, i.date, i.amount)
  }

  /** Every call of a run of addTransaction calls stays where the derived
      summary is determined. */
  predicate ReplayDefined(u: UserState, user: Address, inputs: seq<TransactionInput>)
    decreases |inputs|
  {
    |inputs| == 0 ||
    (AddTransactionDefined(u, inputs[0].amount) &&
     ReplayDefined(Book(u, user, inputs[0]).state, user, inputs[1..]))
  }

  /** The account state after the given addTransaction calls, in order. */
  function Replay(u: UserState, user: Address, inputs: seq<TransactionInput>): UserState
    requires ReplayDefined(u, user, inputs)
    decreases |inputs|
  {
    if |inputs| == 0 then u else Replay(Book(u, user, inputs[0]).state, user, inputs[1..])
  }

  /** A run of transactions appends their records in call order and adds up:
      income grows by the positive amounts, expenses by the magnitudes of the
      negative ones, and the summary is the derivation of the final totals. */
  lemma {:induction false} ReplayAccumulates(u: UserState, user: Address, inputs: seq<TransactionInput>)
    requires ReplayDefined(u, user, inputs)
    ensures var v := Replay(u, user, inputs);
      && v.transactions == u.transactions + Records(inputs)
      && v.financialData.monthlyIncome == u.financialData.monthlyIncome + IncomeSum(inputs)
      && v.financialData.monthlyExpenses == u.financialData.monthlyExpenses + ExpenseSum(inputs)
      && v.budgets == u.budgets && v.savingsGoals == u.savingsGoals
      && (|inputs| > 0 ==>
            && DerivationDefined(v.financialData.monthlyIncome, v.financialData.monthlyExpenses)
            && v.financialData == Summary(v.financialData.monthlyIncome, v.financialData.monthlyExpenses))
    decreases |inputs|
  {
    if |inputs| > 0 {
      var s := Book(u, user, inputs[0]);
      var rest := inputs[1..];
      ReplayAccumulates(s.state, user, rest);
      assert Replay(u, user, inputs) == Replay(s.state, user, rest);
      assert s.state.transactions == u.transactions + [Record(inputs[0])] by {
        assert s.state.transactions == s.state.transactions[..|u.transactions|] + [s.state.transactions[|u.transactions|]];
      }
      calc {
        u.transactions + Records(inputs);
        u.transactions + ([Record(inputs[0])] + Records(rest));
        (u.transactions + [Record(inputs[0])]) + Records(rest);
      }
      assert IncomeSum(inputs) == (if inputs[0].amount > 0 then inputs[0].amount as int else 0) + IncomeSum(rest);
      assert ExpenseSum(inputs) == (if inputs[0].amount < 0 then -(inputs[0].amount as int) else 0) + ExpenseSum(rest);
      if |rest| == 0 {
        assert Replay(s.state, user, rest) == s.state;
      }
    }
  }

  /** updateFinancialData replaces: its result does not depend on the totals
      stored before, only on the arguments. */
  lemma UpdateIgnoresPriorTotals(u1: UserState, u2: UserState, user: Address, income: Uint256, expenses: Uint256)
    requires income >= expenses ==> DerivationDefined(income, expenses)
    requires u1.transactions == u2.transactions && u1.budgets == u2.budgets && u1.savingsGoals == u2.savingsGoals
    ensures UpdateFinancialData(u1, user, income, expenses) == UpdateFinancialData(u2, user, income, expenses)
  {
  }

  /** addTransaction accumulates on whatever updateFinancialData stored:
      update(I, E) followed by a transaction of amount A > 0 leaves income
      I + A and expenses E. */
  lemma ReplaceThenAccumulate(u: UserState, user: Address, income: Uint256, expenses: Uint256, i: TransactionInput)
    requires DerivationDefined(income, expenses)
    requires i.amount > 0
    requires DerivationDefined(income + i.amount as int, expenses)
    ensures var r := UpdateFinancialData(u, user, income, expenses);
      && r.Ok?
      && AddTransactionDefined(r.value.state, i.amount)
      && Book(r.value.state, user, i).state.financialData.monthlyIncome == income + i.amount as int
      && Book(r.value.state, user, i).state.financialData.monthlyExpenses == expenses
  {
  }

  // ---------------------------------------------------------------------
  // The scenarios of the test suite, on a fresh account.

  lemma FinancialDataScenario(user: Address)
    ensures var r := UpdateFinancialData(Fresh, user, 5000, 3000);
      && r.Ok?
      && r.value.state.financialData == FinancialData(5000, 3000, 40, 2000)
      && r.value.event == FinancialDataUpdated(user, 5000, 3000, 40, 2000)
    ensures UpdateFinancialData(Fresh, user, 3000, 5000) == Err(IncomeBelowExpenses)
    ensures IncomeBelowExpenses.Message() == "Income must be greater than or equal to expenses"
  {
  }

  lemma TransactionScenario(user: Address, date: Uint256)
    requires date + 1 < UINT256_LIMIT
    ensures var s1 := AddTransaction(Fresh, user, "Salary", "Income", date, 5000);
      && s1.event == TransactionAdded(user, "Salary", "Income", date, 5000, true)
      && s1.state.transactions == [Transaction("Salary", "Income", date, 5000, true)]
      && s1.state.financialData == FinancialData(5000, 0, 100, 5000)
      && AddTransactionDefined(s1.state, -2000)
      && var s2 := AddTransaction(s1.state, user, "Rent", "Housing", date + 1, -2000);
         && s2.event == TransactionAdded(user, "Rent", "Housing", date + 1, -2000, false)
         && s2.state.financialData == FinancialData(5000, 2000, 60, 3000)
  {
    var s1 := AddTransaction(Fresh, user, "Salary", "Income", date, 5000);
    assert s1.state.transactions == s1.state.transactions[..0] + [s1.state.transactions[0]];
    SavingsRateWithoutExpenses(5000);
  }

  lemma BudgetScenario(user: Address)
    ensures var r := AddBudget(Fresh, user, "Groceries", 300, 500);
      && r.Ok?
      && r.value.state.budgets == [Budget("Groceries", 300, 500)]
      && r.value.event == BudgetAdded(user, "Groceries", 300, 500)
      && var r2 := UpdateBudget(r.value.state, user, 0, 400, 600);
         && r2.Ok?
         && r2.value.state.budgets == [Budget("Groceries", 400, 600)]
         && r2.value.event == BudgetUpdated(user, 0, 400, 600)
    ensures AddBudget(Fresh, user, "Groceries", 600, 500) == Err(SpentExceedsBudget)
    ensures UpdateBudget(Fresh, user, 0, 300, 500) == Err(BudgetIndexOutOfBounds)
    ensures SpentExceedsBudget.Message() == "Spent amount cannot exceed budget"
    ensures BudgetIndexOutOfBounds.Message() == "Budget index out of bounds"
  {
    var r := AddBudget(Fresh, user, "Groceries", 300, 500);
    var r2 := UpdateBudget(r.value.state, user, 0, 400, 600);
    assert r2.value.state.budgets == [r2.value.state.budgets[0]];
  }

  lemma SavingsGoalScenario(user: Address)
    ensures var r := AddSavingsGoal(Fresh, user, "Vacation", 1000, 5000);
      && r.Ok?
      && r.value.state.savingsGoals == [SavingsGoal("Vacation", 1000, 5000)]
      && r.value.event == SavingsGoalAdded(user, "Vacation", 1000, 5000)
      && var r2 := UpdateSavingsGoal(r.value.state, user, 0, 2000, 6000);
         && r2.Ok?
         && r2.value.state.savingsGoals == [SavingsGoal("Vacation", 2000, 6000)]
         && r2.value.event == SavingsGoalUpdated(user, 0, 2000, 6000)
    ensures AddSavingsGoal(Fresh, user, "Vacation", 6000, 5000) == Err(CurrentExceedsTarget)
    ensures UpdateSavingsGoal(Fresh, user, 0, 2000, 5000) == Err(SavingsGoalIndexOutOfBounds)
    ensures CurrentExceedsTarget.Message() == "Current savings cannot exceed target"
    ensures SavingsGoalIndexOutOfBounds.Message() == "Savings goal index out of bounds"
  {
    var r := AddSavingsGoal(Fresh, user, "Vacation", 1000, 5000);
    var r2 := UpdateSavingsGoal(r.value.state, user, 0, 2000, 6000);
    assert r2.value.state.savingsGoals == [r2.value.state.savingsGoals[0]];
  }
}
