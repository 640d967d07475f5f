/** The transactions page: the required-field guard, the unix-second date
    and the sign encoding of income and expenses it submits to
    addTransaction. */
module TransactionsPage {
  import opened Abi
  import opened Forms
  import Ledger
  import Dashboard

  /** Whole unix seconds of a millisecond timestamp, floor(ms / 1000). */
  function UnixSeconds(ms: nat): (s: nat)
    ensures s * 1000 <= ms < (s + 1) * 1000
  {
    ms / 1000
  }

  /** A stored date shown again (formatDate multiplies by 1000) converts back
      to the same seconds. */
  lemma SecondsRoundTrip(s: nat, extra: nat)
    requires extra < 1000
    ensures UnixSeconds(s * 1000 + extra) == s
  {
  }

  /** The submitted amount: the entered wei for income, its negation for an
      expense. */
  function SignedAmount(wei: int, isIncome: bool): (a: int)
    ensures a == wei || a == -wei
    ensures a > 0 <==> (if isIncome then wei > 0 else wei < 0)
  {
    if isIncome then wei else -wei
  }

  /** Read back through the ledger's isIncome = amount > 0 rule, a positive
      entered amount carries the checkbox value and a zero amount is never
      income. */
  lemma StoredIncomeFlag(u: Ledger.UserState, user: Address, description: string, category: string,
                         date: Uint256, wei: int, isIncome: bool)
    requires -INT256_BOUND <= SignedAmount(wei, isIncome) < INT256_BOUND
    requires Ledger.AddTransactionDefined(u, SignedAmount(wei, isIncome))
    ensures var s := Ledger.AddTransaction(u, user, description, category, date, SignedAmount(wei, isIncome));
      && (wei > 0 ==> s.state.transactions[|u.transactions|].isIncome == isIncome)
      && (wei == 0 ==> !s.state.transactions[|u.transactions|].isIncome)
  {
  }

  /** The add-transaction form; `amount` is the entered value in wei once
      parsed, `None` when the field is empty. */
  datatype TransactionForm = TransactionForm(
    description: string,
    category: string,
    amount: Option<int>,
    dateMs: nat,
    isIncome: bool)

  predicate Complete(form: TransactionForm) {
    form.description != "" && form.category != "" && form.amount.Some?
  }

  /** The amounts of a complete form fit the ABI types and keep the caller's
      totals where the ledger's derivation is determined. */
  predicate CallFits(u: Ledger.UserState, form: TransactionForm)
    requires Complete(form)
  {
    var a := SignedAmount(form.amount.value, form.isIncome);
    UnixSeconds(form.dateMs) < UINT256_LIMIT &&
    -INT256_BOUND <= a < INT256_BOUND &&
    Ledger.AddTransactionDefined(u, a)
  }

  /** handleSubmit: no call for an incomplete form; otherwise one
      addTransaction call with the description and category verbatim, the
      date in whole seconds and the sign-encoded amount. */
  method HandleSubmit(d: Dashboard.FinanceDashboard, caller: Address, form: TransactionForm)
    returns (outcome: Option<Event>)
    requires d.Valid()
    requires Complete(form) ==> CallFits(d.StateOf(caller), form)
    modifies d
    ensures d.Valid()
    ensures outcome.None? <==> !Complete(form)
    ensures outcome.None? ==> d.accounts == old(d.accounts)
    ensures outcome.Some? ==>
      var a := SignedAmount(form.amount.value, form.isIncome);
      var date := UnixSeconds(form.dateMs);
      && outcome.value == TransactionAdded(caller, form.description, form.category, date, a, a > 0)
      && d.accounts == old(d.accounts)[caller := Ledger.AddTransaction(old(d.StateOf(caller)), caller,
                                                  form.description, form.category, date, a).state]
      && d.GetTransactions(caller) ==
           old(d.GetTransactions(caller)) + [Transaction(form.description, form.category, date, a, a > 0)]
      && d.GetFinancialData(caller).monthlyIncome == old(d.GetFinancialData(caller).monthlyIncome) + (if a > 0 then a else 0)
      && d.GetFinancialData(caller).monthlyExpenses == old(d.GetFinancialData(caller).monthlyExpenses) + (if a < 0 then -a else 0)
      && d.GetBudgets(caller) == old(d.GetBudgets(caller))
      && d.GetSavingsGoals(caller) == old(d.GetSavingsGoals(caller))
    ensures forall a :: a != caller ==> d.StateOf(a) == old(d.StateOf(a))
  {
    if form.description == "" || form.category == "" || form.amount.None? {
      return None;
    }
    var unixTimestamp := form.dateMs / 1000;
    var amount := form.amount.value;
    if !form.isIncome {
      amount := -amount;
    }
    var e := d.AddTransaction(caller, form.description, form.category, unixTimestamp, amount);
    outcome := Some(e);
  }
}
