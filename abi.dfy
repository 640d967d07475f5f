/** Shapes of the FinanceDashboard contract as its ABI declares them:
    the Solidity integer widths, the four structs, the six events and the
    revert reasons of the validation checks. */
module Abi {

  const UINT256_LIMIT: int := 0x1_0000_0000_0000_0000_0000_0000_0000_0000_0000_0000_0000_0000_0000_0000_0000_0000
  const INT256_BOUND: int := UINT256_LIMIT / 2
  const ADDRESS_LIMIT: int := 0x1_0000_0000_0000_0000_0000_0000_0000_0000_0000_0000

  /** Solidity `uint256`. */
  type Uint256 = x: int | 0 <= x < UINT256_LIMIT
  /** Solidity `int256` (two's complement range). */
  type Int256 = x: int | -INT256_BOUND <= x < INT256_BOUND
  /** Solidity `address`: the caller identity `msg.sender`. */
  type Address = x: int | 0 <= x < ADDRESS_LIMIT

  /** `struct FinancialData`: every field unsigned, `totalBalance` included. */
  datatype FinancialData = FinancialData(
    monthlyIncome: Uint256,
    monthlyExpenses: Uint256,
    savingsRate: Uint256,
    totalBalance: Uint256)

  /** `struct Transaction`: `amount` is the only signed field. */
  datatype Transaction = Transaction(
    description: string,
    category: string,
    date: Uint256,
    amount: Int256,
    isIncome: bool)

  /** `struct Budget`: `spent` against the limit `budget`. */
  datatype Budget = Budget(name: string, spent: Uint256, budget: Uint256)

  /** `struct SavingsGoal`: `current` savings against `target`. */
  datatype SavingsGoal = SavingsGoal(name: string, current: Uint256, target: Uint256)

  /** The events; `user` is the indexed caller address in every one of them. */
  datatype Event =
    | BudgetAdded(user: Address, name: string, spent: Uint256, budget: Uint256)
    | BudgetUpdated(user: Address, index: Uint256, spent: Uint256, budget: Uint256)
    | FinancialDataUpdated(user: Address, monthlyIncome: Uint256, monthlyExpenses: Uint256,
                           savingsRate: Uint256, totalBalance: Uint256)
    | SavingsGoalAdded(user: Address, name: string, current: Uint256, target: Uint256)
    | SavingsGoalUpdated(user: Address, index: Uint256, current: Uint256, target: Uint256)
    | TransactionAdded(user: Address, description: string, category: string,
                       date: Uint256, amount: Int256, isIncome: bool)

  /** The revert conditions of the mutating functions. */
  datatype Error =
    | IncomeBelowExpenses
    | SpentExceedsBudget
    | CurrentExceedsTarget
    | BudgetIndexOutOfBounds
    | SavingsGoalIndexOutOfBounds
  {
    /** The revert reason string the contract reports. */
    function Message(): string {
      match this
      case IncomeBelowExpenses => "Income must be greater than or equal to expenses"
      case SpentExceedsBudget => "Spent amount cannot exceed budget"
      case CurrentExceedsTarget => "Current savings cannot exceed target"
      case BudgetIndexOutOfBounds => "Budget index out of bounds"
      case SavingsGoalIndexOutOfBounds => "Savings goal index out of bounds"
    }
  }

  /** A call either emits its event or reverts with a reason. */
  datatype Result<T> = Ok(value: T) | Err(error: Error)
}
