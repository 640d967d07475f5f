/** The contract-level test scenarios on a freshly deployed
    FinanceDashboard, proved from the method contracts alone. */
module DashboardScenarios {
  import opened Abi
  import opened Forms
  import Ledger
  import Dashboard

  /** Deployment: the deployer is the owner and every account starts empty. */
  method DeploymentScenario(deployer: Address, anyone: Address)
    returns (owner: Address, data: FinancialData, txCount: nat, budgetCount: nat, goalCount: nat)
    ensures owner == deployer
    ensures data.monthlyIncome == 0 && data.monthlyExpenses == 0
    ensures txCount == 0 && budgetCount == 0 && goalCount == 0
  {
    var d := new Dashboard.FinanceDashboard(deployer);
    owner := d.owner;
    data := d.GetFinancialData(anyone);
    txCount := |d.GetTransactions(anyone)|;
    budgetCount := |d.GetBudgets(anyone)|;
    goalCount := |d.GetSavingsGoals(anyone)|;
  }

  /** Access control: each account reads only its own summary and lists. The
      owner's income counts both the replaced 5000 and the booked 5000. */
  method AccessControlScenario(owner: Address, other: Address, date: Uint256)
    returns (ownerIncome: Uint256, otherIncome: Uint256, ownerTxCount: nat, otherTxCount: nat)
    requires owner != other
    ensures ownerIncome == 10000 && otherIncome == 4000
    ensures ownerTxCount == 1 && otherTxCount == 0
  {
    var d := new Dashboard.FinanceDashboard(owner);
    var r := d.UpdateFinancialData(owner, 5000, 3000);
    var e := d.AddTransaction(owner, "Salary", "Income", date, 5000);
    r := d.AddBudget(owner, "Groceries", 300, 500);
    r := d.AddSavingsGoal(owner, "Vacation", 1000, 5000);
    r := d.UpdateFinancialData(other, 4000, 2000);
    ownerIncome := d.GetFinancialData(owner).monthlyIncome;
    otherIncome := d.GetFinancialData(other).monthlyIncome;
    ownerTxCount := |d.GetTransactions(owner)|;
    otherTxCount := |d.GetTransactions(other)|;
  }

  /** The public storage getters: an updated budget reads back at its index,
      an index past the end reverts, and an account nobody wrote reads the
      zero summary. */
  method PublicGetterScenario(user: Address, other: Address)
    returns (first: Option<Budget>, past: Option<Budget>, otherData: FinancialData)
    requires user != other
    ensures first == Some(Budget("Groceries", 400, 600))
    ensures past == None
    ensures otherData == Ledger.ZeroSummary
  {
    var d := new Dashboard.FinanceDashboard(user);
    var r := d.AddBudget(user, "Groceries", 300, 500);
    r := d.UpdateBudget(user, 0, 400, 600);
    first := d.BudgetAt(user, 0);
    past := d.BudgetAt(user, 1);
    otherData := d.FinancialDataOf(other);
  }

  /** Data retrieval: transactions read back in insertion order. */
  method TransactionRetrievalScenario(user: Address, date: Uint256) returns (txs: seq<Transaction>)
    requires date + 172800 < UINT256_LIMIT
    ensures txs == [Transaction("Salary", "Income", date, 5000, true),
                    Transaction("Rent", "Housing", date + 86400, -1500, false),
                    Transaction("Groceries", "Food", date + 172800, -300, false)]
  {
    var d := new Dashboard.FinanceDashboard(user);
    var e := d.AddTransaction(user, "Salary", "Income", date, 5000);
    assert d.GetFinancialData(user) == FinancialData(5000, 0, 100, 5000);
    e := d.AddTransaction(user, "Rent", "Housing", date + 86400, -1500);
    assert d.GetFinancialData(user).monthlyExpenses == 1500;
    e := d.AddTransaction(user, "Groceries", "Food", date + 172800, -300);
    txs := d.GetTransactions(user);
  }

  /** Data retrieval: budgets read back in insertion order. */
  method BudgetRetrievalScenario(user: Address) returns (budgets: seq<Budget>)
    ensures budgets == [Budget("Housing", 1500, 2000), Budget("Food", 300, 800), Budget("Entertainment", 200, 500)]
  {
    var d := new Dashboard.FinanceDashboard(user);
    var r := d.AddBudget(user, "Housing", 1500, 2000);
    r := d.AddBudget(user, "Food", 300, 800);
    r := d.AddBudget(user, "Entertainment", 200, 500);
    budgets := d.GetBudgets(user);
  }

  /** Data retrieval: savings goals read back in insertion order. */
  method GoalRetrievalScenario(user: Address) returns (goals: seq<SavingsGoal>)
    ensures goals == [SavingsGoal("Vacation", 1000, 5000), SavingsGoal("New Car", 2500, 15000),
                      SavingsGoal("Emergency Fund", 3000, 10000)]
  {
    var d := new Dashboard.FinanceDashboard(user);
    var r := d.AddSavingsGoal(user, "Vacation", 1000, 5000);
    r := d.AddSavingsGoal(user, "New Car", 2500, 15000);
    r := d.AddSavingsGoal(user, "Emergency Fund", 3000, 10000);
    goals := d.GetSavingsGoals(user);
  }
}
