/** The FinanceDashboard contract as an object: one map from caller address
    to that account's state, mutated in place by the six validated
    operations and read by the four caller-scoped getters. */
module Dashboard {
  import opened Abi
  import opened Forms
  import Ledger

  /** What a caller observes of a ledger step: the emitted event or the revert. */
  function Emitted(r: Result<Ledger.Step>): Result<Event> {
    match r
    case Ok(s) => Ok(s.event)
    case Err(e) => Err(e)
  }

  class FinanceDashboard {
    /** The deploying account. */
    const owner: Address
    /** Per-account storage; an absent key reads as the all-zero state. */
    var accounts: map<Address, Ledger.UserState>

    ghost predicate Valid()
      reads this
    {
      forall a :: a in accounts ==> Ledger.Wellformed(accounts[a])
    }

    /** The storage slot of `user`, defaulting as Solidity mappings do. */
    function StateOf(user: Address): Ledger.UserState
      reads this
    {
      if user in accounts then accounts[user] else Ledger.Fresh
    }

    constructor (deployer: Address)
      ensures owner == deployer
      ensures accounts == map[]
      ensures Valid()
    {
      owner := deployer;
      accounts := map[];
    }

    // -------------------------------------------------------------------
    // Getters: each reads the caller's own slot only.

    function GetFinancialData(caller: Address): (d: FinancialData)
      reads this
      ensures caller !in accounts ==> d.monthlyIncome == 0 && d.monthlyExpenses == 0
      ensures Valid() ==> d.monthlyExpenses <= d.monthlyIncome && d.savingsRate <= 100
      ensures Valid() ==> d.totalBalance == d.monthlyIncome - d.monthlyExpenses
    {
      StateOf(caller).financialData
    }

    function GetTransactions(caller: Address): (ts: seq<Transaction>)
      reads this
      ensures caller !in accounts ==> ts == []
      ensures Valid() ==> forall t :: t in ts ==> t.isIncome == (t.amount > 0)
    {
      StateOf(caller).transactions
    }

    function GetBudgets(caller: Address): (bs: seq<Budget>)
      reads this
      ensures caller !in accounts ==> bs == []
      ensures Valid() ==> forall b :: b in bs ==> b.spent <= b.budget
    {
      StateOf(caller).budgets
    }

    function GetSavingsGoals(caller: Address): (gs: seq<SavingsGoal>)
      reads this
      ensures caller !in accounts ==> gs == []
      ensures Valid() ==> forall g :: g in gs ==> g.current <= g.target
    {
      StateOf(caller).savingsGoals
    }

    // -------------------------------------------------------------------
    // Public storage getters: keyed by any address, not only the caller's.
    // An index past the end makes the generated getter revert (`None`).

    function FinancialDataOf(user: Address): (d: FinancialData)
      reads this
      ensures user !in accounts ==> d == Ledger.ZeroSummary
      ensures Valid() ==> Ledger.ConsistentSummary(d)
    {
      StateOf(user).financialData
    }

    function TransactionAt(user: Address, index: Uint256): (t: Option<Transaction>)
      reads this
      ensures t.Some? <==> index < |GetTransactions(user)|
      ensures t.Some? ==> t.value == GetTransactions(user)[index]
      ensures Valid() && t.Some? ==> Ledger.FlaggedByAmount(t.value)
    {
      if index < |StateOf(user).transactions| then Some(StateOf(user).transactions[index]) else None
    }

    function BudgetAt(user: Address, index: Uint256): (b: Option<Budget>)
      reads this
      ensures b.Some? <==> index < |GetBudgets(user)|
      ensures b.Some? ==> b.value == GetBudgets(user)[index]
      ensures Valid() && b.Some? ==> Ledger.BudgetWithinLimit(b.value)
    {
      if index < |StateOf(user).budgets| then Some(StateOf(user).budgets[index]) else None
    }

    function SavingsGoalAt(user: Address, index: Uint256): (g: Option<SavingsGoal>)
      reads this
      ensures g.Some? <==> index < |GetSavingsGoals(user)|
      ensures g.Some? ==> g.value == GetSavingsGoals(user)[index]
      ensures Valid() && g.Some? ==> Ledger.GoalWithinTarget(g.value)
    {
      if index < |StateOf(user).savingsGoals| then Some(StateOf(user).savingsGoals[index]) else None
    }

    // -------------------------------------------------------------------
    // Mutations: validate, then read-modify-write the caller's slot.

    method UpdateFinancialData(caller: Address, income: Uint256, expenses: Uint256) returns (r: Result<Event>)
      requires Valid()
      requires income >= expenses ==> Ledger.DerivationDefined(income, expenses)
      modifies this
      ensures Valid()
      ensures var step := Ledger.UpdateFinancialData(old(StateOf(caller)), caller, income, expenses);
        && r == Emitted(step)
        && accounts == if step.Ok? then old(accounts)[caller := step.value.state] else old(accounts)
      ensures r.Ok? ==> FinancialDataOf(caller) == Ledger.Summary(income, expenses)
      ensures forall a :: a != caller ==> StateOf(a) == old(StateOf(a))
    {
      var u := StateOf(caller);
      if income < expenses {
        return Err(IncomeBelowExpenses);
      }
      var d := Ledger.Summary(income, expenses);
      Ledger.UpdateFinancialDataKeepsWellformed(u, caller, income, expenses);
      accounts := accounts[caller := u.(financialData := d)];
      r := Ok(FinancialDataUpdated(caller, d.monthlyIncome, d.monthlyExpenses, d.savingsRate, d.totalBalance));
    }

    method AddTransaction(caller: Address, description: string, category: string,
                          date: Uint256, amount: Int256) returns (e: Event)
      requires Valid()
      requires Ledger.AddTransactionDefined(StateOf(caller), amount)
      modifies this
      ensures Valid()
      ensures var step := Ledger.AddTransaction(old(StateOf(caller)), caller, description, category, date, amount);
        e == step.event && accounts == old(accounts)[caller := step.state]
      ensures FinancialDataOf(caller) ==
        Ledger.Summary(Ledger.AccruedIncome(old(FinancialDataOf(caller)), amount),
                       Ledger.AccruedExpenses(old(FinancialDataOf(caller)), amount))
      ensures
        forall i: Uint256 :: TransactionAt(caller, i) ==
          if i == old(|GetTransactions(caller)|) then Some(Transaction(description, category, date, amount, amount > 0))
          else old(TransactionAt(caller, i))
      ensures forall a :: a != caller ==> StateOf(a) == old(StateOf(a))
    {
      var u := StateOf(caller);
      var income: int := u.financialData.monthlyIncome;
      var expenses: int := u.financialData.monthlyExpenses;
      if amount > 0 {
        income := income + amount;
      } else {
        expenses := expenses - amount;
      }
      var d := Ledger.Summary(income, expenses);
      var t := Transaction(description, category, date, amount, amount > 0);
      Ledger.AddTransactionKeepsWellformed(u, caller, description, category, date, amount);
      accounts := accounts[caller := u.(transactions := u.transactions + [t], financialData := d)];
      e := TransactionAdded(caller, description, category, date, amount, amount > 0);
    }

    method AddBudget(caller: Address, name: string, spent: Uint256, budget: Uint256) returns (r: Result<Event>)
      requires Valid()
      modifies this
      ensures Valid()
      ensures var step := Ledger.AddBudget(old(StateOf(caller)), caller, name, spent, budget);
        && r == Emitted(step)
        && accounts == if step.Ok? then old(accounts)[caller := step.value.state] else old(accounts)
      ensures r.Ok? ==>
        forall i: Uint256 :: BudgetAt(caller, i) ==
          if i == old(|GetBudgets(caller)|) then Some(Budget(name, spent, budget)) else old(BudgetAt(caller, i))
      ensures forall a :: a != caller ==> StateOf(a) == old(StateOf(a))
    {
      var u := StateOf(caller);
      if spent > budget {
        return Err(SpentExceedsBudget);
      }
      Ledger.AddBudgetKeepsWellformed(u, caller, name, spent, budget);
      accounts := accounts[caller := u.(budgets := u.budgets + [Budget(name, spent, budget)])];
      r := Ok(BudgetAdded(caller, name, spent, budget));
    }

    method UpdateBudget(caller: Address, index: Uint256, spent: Uint256, budget: Uint256) returns (r: Result<Event>)
      requires Valid()
      modifies this
      ensures Valid()
      ensures var step := Ledger.UpdateBudget(old(StateOf(caller)), caller, index, spent, budget);
        && r == Emitted(step)
        && accounts == if step.Ok? then old(accounts)[caller := step.value.state] else old(accounts)
      ensures r.Ok? ==>
        forall i: Uint256 :: BudgetAt(caller, i) ==
          if i == index then Some(Budget(old(GetBudgets(caller))[index].name, spent, budget))
          else old(BudgetAt(caller, i))
      ensures forall a :: a != caller ==> StateOf(a) == old(StateOf(a))
    {
      var u := StateOf(caller);
      if index >= |u.budgets| {
        return Err(BudgetIndexOutOfBounds);
      }
      if spent > budget {
        return Err(SpentExceedsBudget);
      }
      var b := u.budgets[index];
      b := b.(spent := spent, budget := budget);
      Ledger.UpdateBudgetKeepsWellformed(u, caller, index, spent, budget);
      accounts := accounts[caller := u.(budgets := u.budgets[index := b])];
      r := Ok(BudgetUpdated(caller, index, spent, budget));
    }

    method AddSavingsGoal(caller: Address, name: string, current: Uint256, target: Uint256) returns (r: Result<Event>)
      requires Valid()
      modifies this
      ensures Valid()
      ensures var step := Ledger.AddSavingsGoal(old(StateOf(caller)), caller, name, current, target);
        && r == Emitted(step)
        && accounts == if step.Ok? then old(accounts)[caller := step.value.state] else old(accounts)
      ensures r.Ok? ==>
        forall i: Uint256 :: SavingsGoalAt(caller, i) ==
          if i == old(|GetSavingsGoals(caller)|) then Some(SavingsGoal(name, current, target))
          else old(SavingsGoalAt(caller, i))
      ensures forall a :: a != caller ==> StateOf(a) == old(StateOf(a))
    {
      var u := StateOf(caller);
      if current > target {
        return Err(CurrentExceedsTarget);
      }
      Ledger.AddSavingsGoalKeepsWellformed(u, caller, name, current, target);
      accounts := accounts[caller := u.(savingsGoals := u.savingsGoals + [SavingsGoal(name, current, target)])];
      r := Ok(SavingsGoalAdded(caller, name, current, target));
    }

    method UpdateSavingsGoal(caller: Address, index: Uint256, current: Uint256, target: Uint256) returns (r: Result<Event>)
      requires Valid()
      modifies this
      ensures Valid()
      ensures var step := Ledger.UpdateSavingsGoal(old(StateOf(caller)), caller, index, current, target);
        && r == Emitted(step)
        && accounts == if step.Ok? then old(accounts)[caller := step.value.state] else old(accounts)
      ensures r.Ok? ==>
        forall i: Uint256 :: SavingsGoalAt(caller, i) ==
          if i == index then Some(SavingsGoal(old(GetSavingsGoals(caller))[index].name, current, target))
          else old(SavingsGoalAt(caller, i))
      ensures forall a :: a != caller ==> StateOf(a) == old(StateOf(a))
    {
      var u := StateOf(caller);
      if index >= |u.savingsGoals| {
        return Err(SavingsGoalIndexOutOfBounds);
      }
      if current > target {
        return Err(CurrentExceedsTarget);
      }
      var g := u.savingsGoals[index];
      g := g.(current := current, target := target);
      Ledger.UpdateSavingsGoalKeepsWellformed(u, caller, index, current, target);
      accounts := accounts[caller := u.(savingsGoals := u.savingsGoals[index := g])];
      r := Ok(SavingsGoalUpdated(caller, index, current, target));
    }
  }
}
