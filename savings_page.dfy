/** The savings page: its integer progress percentage and the way its two
    handlers feed addSavingsGoal and updateSavingsGoal. */
module SavingsPage {
  import opened Abi
  import opened Forms
  import Arith
  import Ledger
  import Dashboard

  /** calculatePercentage: the progress of `current` towards `target` in
      whole percent, truncated (BigInt division); 0 for a zero target. */
  function Percentage(current: nat, target: nat): (p: nat)
    ensures target == 0 ==> p == 0
    ensures target > 0 ==> p * target <= current * 100 < (p + 1) * target
  {
    if target == 0 then 0
    else
      Arith.DivBracket(current * 100, target);
      current * 100 / target
  }

  /** A goal that respects the ledger's current <= target shows 0..100 percent. */
  lemma PercentageAtMostHundred(current: nat, target: nat)
    requires current <= target
    ensures Percentage(current, target) <= 100
  {
    if target > 0 {
      var p := Percentage(current, target);
      Arith.MulMonotone(current, target, 100);
      Arith.MulCancel(p, 100, target);
    }
  }

  /** A reached goal shows exactly 100 percent. */
  lemma PercentageOfReachedGoal(target: nat)
    requires 0 < target
    ensures Percentage(target, target) == 100
  {
    var p := Percentage(target, target);
    PercentageAtMostHundred(target, target);
    if p < 100 {
      Arith.MulMonotone(p + 1, 100, target);
    }
  }

  /** For a fixed target, more savings never show less progress. */
  lemma PercentageMonotone(c1: nat, c2: nat, target: nat)
    requires c1 <= c2
    ensures Percentage(c1, target) <= Percentage(c2, target)
  {
    if target > 0 {
      Arith.MulMonotone(c1, c2, 100);
      Arith.DivMonotone(c1 * 100, c2 * 100, target);
    }
  }

  /** Every goal the page fetches from a consistent ledger renders within 0..100. */
  lemma ShownProgressInRange(d: Dashboard.FinanceDashboard, caller: Address)
    requires d.Valid()
    ensures forall g :: g in d.GetSavingsGoals(caller) ==> Percentage(g.current, g.target) <= 100
  {
    forall g | g in d.GetSavingsGoals(caller)
      ensures Percentage(g.current, g.target) <= 100
    {
      PercentageAtMostHundred(g.current, g.target);
    }
  }

  /** The new-goal form: the name, and the amounts as wei once parsed
      (`None` for a field left empty). */
  datatype GoalForm = GoalForm(name: string, current: Option<Uint256>, target: Option<Uint256>)

  datatype AddGoalCall = AddGoalCall(name: string, current: Uint256, target: Uint256)

  /** The call handleSubmit makes, or None when it returns early: an empty
      field, or current savings above the target. */
  function GoalSubmission(form: GoalForm): (call: Option<AddGoalCall>)
    ensures call.None? <==>
      form.name == "" || form.current.None? || form.target.None? ||
      form.current.value > form.target.value
    ensures call.Some? ==>
      call.value == AddGoalCall(form.name, form.current.value, form.target.value)
    ensures call.Some? ==>
      forall u, user :: Ledger.AddSavingsGoal(u, user, call.value.name, call.value.current, call.value.target).Ok?
  {
    if form.name == "" || form.current.None? || form.target.None? then None
    else if form.current.value > form.target.value then None
    else Some(AddGoalCall(form.name, form.current.value, form.target.value))
  }

  /** handleSubmit: a call the page lets through always passes the
      contract's own check and appends exactly the entered goal. */
  method HandleSubmit(d: Dashboard.FinanceDashboard, caller: Address, form: GoalForm)
    returns (outcome: Option<Result<Event>>)
    requires d.Valid()
    modifies d
    ensures d.Valid()
    ensures outcome.None? <==> GoalSubmission(form).None?
    ensures outcome.None? ==> d.accounts == old(d.accounts)
    ensures outcome.Some? ==>
      var c := GoalSubmission(form).value;
      var step := Ledger.AddSavingsGoal(old(d.StateOf(caller)), caller, c.name, c.current, c.target);
      && step.Ok?
      && outcome.value == Ok(SavingsGoalAdded(caller, c.name, c.current, c.target))
      && d.accounts == old(d.accounts)[caller := step.value.state]
      && d.StateOf(caller) == old(d.StateOf(caller)).(savingsGoals :=
           old(d.GetSavingsGoals(caller)) + [SavingsGoal(c.name, c.current, c.target)])
    ensures forall a :: a != caller ==> d.StateOf(a) == old(d.StateOf(a))
  {
    var call := GoalSubmission(form);
    if call.None? {
      return None;
    }
    var r := d.AddSavingsGoal(caller, call.value.name, call.value.current, call.value.target);
    outcome := Some(r);
  }

  /** handleUpdateGoal: resubmits the displayed goal's target with the new
      current amount. When the displayed list is the caller's stored list,
      only `current` can change: the name and target stay, and a new amount
      above the target is refused. */
  method HandleUpdateGoal(d: Dashboard.FinanceDashboard, caller: Address, shown: seq<SavingsGoal>,
                          index: Uint256, newCurrent: Uint256)
    returns (r: Result<Event>)
    requires d.Valid()
    requires index < |shown|
    modifies d
    ensures d.Valid()
    ensures var step := Ledger.UpdateSavingsGoal(old(d.StateOf(caller)), caller, index, newCurrent, shown[index].target);
      && r == Dashboard.Emitted(step)
      && d.accounts == if step.Ok? then old(d.accounts)[caller := step.value.state] else old(d.accounts)
    ensures shown == old(d.GetSavingsGoals(caller)) ==>
      && (r.Ok? <==> newCurrent <= shown[index].target)
      && (r.Err? ==> r.error == CurrentExceedsTarget && d.accounts == old(d.accounts))
      && (r.Ok? ==>
            d.StateOf(caller) == old(d.StateOf(caller)).(savingsGoals :=
              shown[index := SavingsGoal(shown[index].name, newCurrent, shown[index].target)]))
    ensures forall a :: a != caller ==> d.StateOf(a) == old(d.StateOf(a))
  {
    var goal := shown[index];
    r := d.UpdateSavingsGoal(caller, index, newCurrent, goal.target);
  }
}
