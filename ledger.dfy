/** The per-account bookkeeping of the FinanceDashboard contract, as pure
    steps on one account's state: what each validated mutation stores,
    which revert it reports, and which event it emits. */
module Ledger {
  import opened Abi
  import Arith

  /** Everything the contract keeps for one caller address. */
  datatype UserState = UserState(
    financialData: FinancialData,
    transactions: seq<Transaction>,
    budgets: seq<Budget>,
    savingsGoals: seq<SavingsGoal>)

  /** The all-zero summary Solidity storage starts from. */
  const ZeroSummary: FinancialData := FinancialData(0, 0, 0, 0)

  /** What an address that never wrote anything reads back. */
  const Fresh: UserState := UserState(ZeroSummary, [], [], [])

  /** A successful mutation: the account's new state and the event it emits. */
  datatype Step = Step(state: UserState, event: Event)

  /** Totals for which the derived summary is determined: income is positive
      and covers expenses, and (income - expenses) * 100 fits in 256 bits.
      Outside this range (a zero income, an unsigned underflow of the balance,
      a 256-bit overflow) the behaviour is not pinned down and is excluded. */
  predicate DerivationDefined(income: int, expenses: int) {
    0 <= expenses <= income < UINT256_LIMIT && 0 < income &&
    (income - expenses) * 100 < UINT256_LIMIT
  }

  /** The stored summary for the given totals: the savings rate is the
      percentage of income left after expenses, truncated, and the balance
      is income minus expenses. */
  function Summary(income: Uint256, expenses: Uint256): (d: FinancialData)
    requires DerivationDefined(income, expenses)
    ensures d.monthlyIncome == income && d.monthlyExpenses == expenses
    ensures d.totalBalance == income - expenses
    ensures d.savingsRate * income <= (income - expenses) * 100 < (d.savingsRate + 1) * income
    ensures d.savingsRate <= 100
  {
    var retained := (income - expenses) * 100;
    Arith.DivAtMostDividend(retained, income);
    Arith.DivBracket(retained, income);
    Arith.MulMonotone(income - expenses, income, 100);
    Arith.MulCancel(retained / income, 100, income);
    FinancialData(income, expenses, retained / income, income - expenses)
  }

  /** With no expenses nothing is spent: the rate is exactly 100. */
  lemma SavingsRateWithoutExpenses(income: Uint256)
    requires DerivationDefined(income, 0)
    ensures Summary(income, 0).savingsRate == 100
    ensures Summary(income, 0).totalBalance == income
  {
    var r := Summary(income, 0).savingsRate;
    Arith.MulCancel(100, r, income);
  }

  /** When expenses equal income nothing is saved: the rate is 0. */
  lemma SavingsRateWhenBalanced(income: Uint256)
    requires DerivationDefined(income, income)
    ensures Summary(income, income).savingsRate == 0
    ensures Summary(income, income).totalBalance == 0
  {
    var r := Summary(income, income).savingsRate;
    Arith.MulCancel(r, 0, income);
  }

  /** A summary is consistent when it is the untouched zero value or the
      derivation of its own totals. */
  predicate ConsistentSummary(d: FinancialData) {
    d == ZeroSummary ||
    (DerivationDefined(d.monthlyIncome, d.monthlyExpenses) &&
     d == Summary(d.monthlyIncome, d.monthlyExpenses))
  }

  predicate BudgetWithinLimit(b: Budget) {
    b.spent <= b.budget
  }

  predicate GoalWithinTarget(g: SavingsGoal) {
    g.current <= g.target
  }

  predicate FlaggedByAmount(t: Transaction) {
    t.isIncome == (t.amount > 0)
  }

  /** The invariants the validation checks keep for one account. */
  predicate Wellformed(u: UserState) {
    && ConsistentSummary(u.financialData)
    && (forall t :: t in u.transactions ==> FlaggedByAmount(t))
    && (forall b :: b in u.budgets ==> BudgetWithinLimit(b))
    && (forall g :: g in u.savingsGoals ==> GoalWithinTarget(g))
  }

  lemma FreshIsWellformed()
    ensures Wellformed(Fresh)
    ensures Fresh.financialData.monthlyIncome == 0 && Fresh.financialData.monthlyExpenses == 0
    ensures Fresh.transactions == [] && Fresh.budgets == [] && Fresh.savingsGoals == []
  {
  }

  // ---------------------------------------------------------------------
  // updateFinancialData(_monthlyIncome, _monthlyExpenses): replaces the totals.

  function UpdateFinancialData(u: UserState, user: Address, income: Uint256, expenses: Uint256)
    : (r: Result<Step>)
    requires income >= expenses ==> DerivationDefined(income, expenses)
    ensures r.Err? <==> income < expenses
    ensures r.Err? ==> r.error == IncomeBelowExpenses
    ensures r.Ok? ==>
      var d := r.value.state.financialData;
      && d.monthlyIncome == income && d.monthlyExpenses == expenses
      && d.totalBalance == income - expenses
      && d.savingsRate == Summary(income, expenses).savingsRate
      && r.value.state.transactions == u.transactions
      && r.value.state.budgets == u.budgets
      && r.value.state.savingsGoals == u.savingsGoals
      && r.value.event == FinancialDataUpdated(user, d.monthlyIncome, d.monthlyExpenses,
                                               d.savingsRate, d.totalBalance)
  {
    if income < expenses then Err(IncomeBelowExpenses)
    else
      var d := Summary(income, expenses);
      Ok(Step(u.(financialData := d),
              FinancialDataUpdated(user, d.monthlyIncome, d.monthlyExpenses, d.savingsRate, d.totalBalance)))
  }

  // ---------------------------------------------------------------------
  // addTransaction(_description, _category, _date, _amount): appends and accumulates.

  /** Income after booking `amount`: a positive amount adds to it. */
  function AccruedIncome(d: FinancialData, amount: int): int {
    d.monthlyIncome + (if amount > 0 then amount else 0)
  }

  /** Expenses after booking `amount`: a negative amount adds its magnitude. */
  function AccruedExpenses(d: FinancialData, amount: int): int {
    d.monthlyExpenses + (if amount < 0 then -amount else 0)
  }

  predicate AddTransactionDefined(u: UserState, amount: int) {
    DerivationDefined(AccruedIncome(u.financialData, amount), AccruedExpenses(u.financialData, amount))
  }

  function AddTransaction(u: UserState, user: Address, description: string, category: string,
                          date: Uint256, amount: Int256): (s: Step)
    requires AddTransactionDefined(u, amount)
    ensures |s.state.transactions| == |u.transactions| + 1
    ensures s.state.transactions[..|u.transactions|] == u.transactions
    ensures s.state.transactions[|u.transactions|] == Transaction(description, category, date, amount, amount > 0)
    ensures var d := s.state.financialData;
      && d.monthlyIncome - u.financialData.monthlyIncome == (if amount > 0 then amount else 0)
      && d.monthlyExpenses - u.financialData.monthlyExpenses == (if amount < 0 then -(amount as int) else 0)
      && d == Summary(d.monthlyIncome, d.monthlyExpenses)
    ensures s.state.budgets == u.budgets && s.state.savingsGoals == u.savingsGoals
    ensures s.event == TransactionAdded(user, description, category, date, amount, amount > 0)
  {
    var t := Transaction(description, category, date, amount, amount > 0);
    var d := Summary(AccruedIncome(u.financialData, amount), AccruedExpenses(u.financialData, amount));
    Step(u.(transactions := u.transactions + [t], financialData := d),
         TransactionAdded(user, description, category, date, amount, amount > 0))
  }

  // ---------------------------------------------------------------------
  // addBudget(_name, _spent, _budget) and updateBudget(_index, _spent, _budget).

  function AddBudget(u: UserState, user: Address, name: string, spent: Uint256, budget: Uint256)
    : (r: Result<Step>)
    ensures r.Err? <==> spent > budget
    ensures r.Err? ==> r.error == SpentExceedsBudget
    ensures r.Ok? ==>
      && r.value.state.budgets == u.budgets + [Budget(name, spent, budget)]
      && r.value.state.financialData == u.financialData
      && r.value.state.transactions == u.transactions
      && r.value.state.savingsGoals == u.savingsGoals
      && r.value.event == BudgetAdded(user, name, spent, budget)
  {
    if spent > budget then Err(SpentExceedsBudget)
    else Ok(Step(u.(budgets := u.budgets + [Budget(name, spent, budget)]),
                 BudgetAdded(user, name, spent, budget)))
  }

  /** Replaces both amounts of the budget at `index`; its name stays. When
      the index is out of range and spent also exceeds the limit, either
      revert may be reported. */
  function UpdateBudget(u: UserState, user: Address, index: Uint256, spent: Uint256, budget: Uint256)
    : (r: Result<Step>)
    ensures r.Ok? <==> index < |u.budgets| && spent <= budget
    ensures index >= |u.budgets| && spent <= budget ==> r == Err(BudgetIndexOutOfBounds)
    ensures index < |u.budgets| && spent > budget ==> r == Err(SpentExceedsBudget)
    ensures r.Err? ==> r.error == BudgetIndexOutOfBounds || r.error == SpentExceedsBudget
    ensures r.Ok? ==>
      && |r.value.state.budgets| == |u.budgets|
      && r.value.state.budgets[index] == Budget(u.budgets[index].name, spent, budget)
      && (forall i :: 0 <= i < |u.budgets| && i != index ==> r.value.state.budgets[i] == u.budgets[i])
      && r.value.state.financialData == u.financialData
      && r.value.state.transactions == u.transactions
      && r.value.state.savingsGoals == u.savingsGoals
      && r.value.event == BudgetUpdated(user, index, spent, budget)
  {
    if index >= |u.budgets| then Err(BudgetIndexOutOfBounds)
    else if spent > budget then Err(SpentExceedsBudget)
    else
      var b := u.budgets[index].(spent := spent, budget := budget);
      Ok(Step(u.(budgets := u.budgets[index := b]), BudgetUpdated(user, index, spent, budget)))
  }

  // ---------------------------------------------------------------------
  // addSavingsGoal(_name, _current, _target) and updateSavingsGoal(_index, _current, _target).

  function AddSavingsGoal(u: UserState, user: Address, name: string, current: Uint256, target: Uint256)
    : (r: Result<Step>)
    ensures r.Err? <==> current > target
    ensures r.Err? ==> r.error == CurrentExceedsTarget
    ensures r.Ok? ==>
      && r.value.state.savingsGoals == u.savingsGoals + [SavingsGoal(name, current, target)]
      && r.value.state.financialData == u.financialData
      && r.value.state.transactions == u.transactions
      && r.value.state.budgets == u.budgets
      && r.value.event == SavingsGoalAdded(user, name, current, target)
  {
    if current > target then Err(CurrentExceedsTarget)
    else Ok(Step(u.(savingsGoals := u.savingsGoals + [SavingsGoal(name, current, target)]),
                 SavingsGoalAdded(user, name, current, target)))
  }

  /** Replaces both amounts of the goal at `index`; its name stays. When the
      index is out of range and current also exceeds the target, either
      revert may be reported. */
  function UpdateSavingsGoal(u: UserState, user: Address, index: Uint256, current: Uint256, target: Uint256)
    : (r: Result<Step>)
    ensures r.Ok? <==> index < |u.savingsGoals| && current <= target
    ensures index >= |u.savingsGoals| && current <= target ==> r == Err(SavingsGoalIndexOutOfBounds)
    ensures index < |u.savingsGoals| && current > target ==> r == Err(CurrentExceedsTarget)
    ensures r.Err? ==> r.error == SavingsGoalIndexOutOfBounds || r.error == CurrentExceedsTarget
    ensures r.Ok? ==>
      && |r.value.state.savingsGoals| == |u.savingsGoals|
      && r.value.state.savingsGoals[index] == SavingsGoal(u.savingsGoals[index].name, current, target)
      && (forall i :: 0 <= i < |u.savingsGoals| && i != index ==> r.value.state.savingsGoals[i] == u.savingsGoals[i])
      && r.value.state.financialData == u.financialData
      && r.value.state.transactions == u.transactions
      && r.value.state.budgets == u.budgets
      && r.value.event == SavingsGoalUpdated(user, index, current, target)
  {
    if index >= |u.savingsGoals| then Err(SavingsGoalIndexOutOfBounds)
    else if current > target then Err(CurrentExceedsTarget)
    else
      var g := u.savingsGoals[index].(current := current, target := target);
      Ok(Step(u.(savingsGoals := u.savingsGoals[index := g]), SavingsGoalUpdated(user, index, current, target)))
  }

  // ---------------------------------------------------------------------
  // Every successful mutation keeps the account's invariants.

  lemma UpdateFinancialDataKeepsWellformed(u: UserState, user: Address, income: Uint256, expenses: Uint256)
    requires Wellformed(u)
    requires income >= expenses ==> DerivationDefined(income, expenses)
    ensures var r := UpdateFinancialData(u, user, income, expenses);
      r.Ok? ==> Wellformed(r.value.state)
  {
  }

  lemma AddTransactionKeepsWellformed(u: UserState, user: Address, description: string, category: string,
                                      date: Uint256, amount: Int256)
    requires Wellformed(u)
    requires AddTransactionDefined(u, amount)
    ensures Wellformed(AddTransaction(u, user, description, category, date, amount).state)
  {
    var s := AddTransaction(u, user, description, category, date, amount);
    forall t | t in s.state.transactions
      ensures FlaggedByAmount(t)
    {
      var k :| 0 <= k < |s.state.transactions| && s.state.transactions[k] == t;
      if k < |u.transactions| {
        assert t == s.state.transactions[..|u.transactions|][k];
      }
    }
  }

  lemma AddBudgetKeepsWellformed(u: UserState, user: Address, name: string, spent: Uint256, budget: Uint256)
    requires Wellformed(u)
    ensures var r := AddBudget(u, user, name, spent, budget);
      r.Ok? ==> Wellformed(r.value.state)
  {
  }

  lemma UpdateBudgetKeepsWellformed(u: UserState, user: Address, index: Uint256, spent: Uint256, budget: Uint256)
    requires Wellformed(u)
    ensures var r := UpdateBudget(u, user, index, spent, budget);
      r.Ok? ==> Wellformed(r.value.state)
  {
    var r := UpdateBudget(u, user, index, spent, budget);
    if r.Ok? {
      forall b | b in r.value.state.budgets
        ensures BudgetWithinLimit(b)
      {
        var k :| 0 <= k < |r.value.state.budgets| && r.value.state.budgets[k] == b;
        if k != index {
          assert u.budgets[k] in u.budgets;
        }
      }
    }
  }

  lemma AddSavingsGoalKeepsWellformed(u: UserState, user: Address, name: string, current: Uint256, target: Uint256)
    requires Wellformed(u)
    ensures var r := AddSavingsGoal(u, user, name, current, target);
      r.Ok? ==> Wellformed(r.value.state)
  {
  }

  lemma UpdateSavingsGoalKeepsWellformed(u: UserState, user: Address, index: Uint256, current: Uint256, target: Uint256)
    requires Wellformed(u)
    ensures var r := UpdateSavingsGoal(u, user, index, current, target);
      r.Ok? ==> Wellformed(r.value.state)
  {
    var r := UpdateSavingsGoal(u, user, index, current, target);
    if r.Ok? {
      forall g | g in r.value.state.savingsGoals
        ensures GoalWithinTarget(g)
      {
        var k :| 0 <= k < |r.value.state.savingsGoals| && r.value.state.savingsGoals[k] == g;
        if k != index {
          assert u.savingsGoals[k] in u.savingsGoals;
        }
      }
    }
  }
}
