/** The budget store (store/useBudgetStore.ts): three lists (income items,
    expense items, savings goals) with add, update and delete actions, a
    loading flag and an error text. Each `set(...)` call becomes a method
    that reassigns the fields it names. Ids come from `Date.now()` in the
    source and are a parameter here. */
module BudgetStore {
  import opened JsValue
  import opened ArrayOps

  /** A budget line; `source` is used by income items, `category` by
      expense items. */
  datatype BudgetItem = BudgetItem(
    id: string,
    source: Option<string>,
    category: Option<string>,
    budgeted: real,
    actual: real,
    difference: real)

  /** The argument of `addIncomeItem`/`addExpenseItem`: an item without its
      id and its difference. */
  datatype NewBudgetItem = NewBudgetItem(
    source: Option<string>,
    category: Option<string>,
    budgeted: real,
    actual: real)

  /** `Partial<BudgetItem>`: `Some` for each key present in the updates. */
  datatype ItemPatch = ItemPatch(
    id: Option<string>,
    source: Option<string>,
    category: Option<string>,
    budgeted: Option<real>,
    actual: Option<real>,
    difference: Option<real>)

  datatype SavingsGoal = SavingsGoal(
    id: string,
    category: string,
    target: real,
    saved: real,
    remaining: real)

  datatype NewSavingsGoal = NewSavingsGoal(category: string, target: real, saved: real)

  datatype GoalPatch = GoalPatch(
    id: Option<string>,
    category: Option<string>,
    target: Option<real>,
    saved: Option<real>,
    remaining: Option<real>)

  /** Which list a budget item belongs to; the two use opposite signs. */
  datatype Side = IncomeSide | ExpenseSide

  /** Income: actual − budgeted (more earned is positive). Expenses:
      budgeted − actual (positive means under budget). */
  function Difference(side: Side, budgeted: real, actual: real): real {
    match side
    case IncomeSide => actual - budgeted
    case ExpenseSide => budgeted - actual
  }

  /** The item's difference follows its side's sign convention. */
  predicate Conforms(side: Side, item: BudgetItem) {
    item.difference == Difference(side, item.budgeted, item.actual)
  }

  predicate AllConform(side: Side, items: seq<BudgetItem>) {
    forall i :: 0 <= i < |items| ==> Conforms(side, items[i])
  }

  predicate GoalConforms(g: SavingsGoal) {
    g.remaining == g.target - g.saved
  }

  predicate AllGoalsConform(goals: seq<SavingsGoal>) {
    forall i :: 0 <= i < |goals| ==> GoalConforms(goals[i])
  }

  /** The item `add*Item` appends. */
  function NewItem(side: Side, item: NewBudgetItem, id: string): (r: BudgetItem)
    ensures r.id == id && r.source == item.source && r.category == item.category
    ensures r.budgeted == item.budgeted && r.actual == item.actual
    ensures Conforms(side, r)
  {
    BudgetItem(id, item.source, item.category, item.budgeted, item.actual,
               Difference(side, item.budgeted, item.actual))
  }

  function NewGoal(goal: NewSavingsGoal, id: string): (r: SavingsGoal)
    ensures r.id == id && r.category == goal.category
    ensures r.target == goal.target && r.saved == goal.saved
    ensures GoalConforms(r)
  {
    SavingsGoal(id, goal.category, goal.target, goal.saved, goal.target - goal.saved)
  }

  /** The updates mention `actual` or `budgeted`. */
  predicate TouchesAmounts(patch: ItemPatch) {
    patch.actual.Some? || patch.budgeted.Some?
  }

  predicate TouchesGoalAmounts(patch: GoalPatch) {
    patch.target.Some? || patch.saved.Some?
  }

  /** `{ ...item, ...updates }`, with the difference recomputed only when
      the updates mention an amount. */
  function UpdatedItem(side: Side, item: BudgetItem, patch: ItemPatch): (r: BudgetItem)
    ensures r.id == patch.id.GetOr(item.id)
    ensures r.source == (if patch.source.Some? then patch.source else item.source)
    ensures r.category == (if patch.category.Some? then patch.category else item.category)
    ensures r.budgeted == patch.budgeted.GetOr(item.budgeted)
    ensures r.actual == patch.actual.GetOr(item.actual)
    ensures TouchesAmounts(patch) ==> Conforms(side, r)
    ensures !TouchesAmounts(patch) ==> r.difference == patch.difference.GetOr(item.difference)
  {
    var merged := BudgetItem(
      patch.id.GetOr(item.id),
      if patch.source.Some? then patch.source else item.source,
      if patch.category.Some? then patch.category else item.category,
      patch.budgeted.GetOr(item.budgeted),
      patch.actual.GetOr(item.actual),
      patch.difference.GetOr(item.difference));
    if TouchesAmounts(patch) then merged.(difference := Difference(side, merged.budgeted, merged.actual))
    else merged
  }

  function UpdatedGoal(goal: SavingsGoal, patch: GoalPatch): (r: SavingsGoal)
    ensures r.id == patch.id.GetOr(goal.id)
    ensures r.category == patch.category.GetOr(goal.category)
    ensures r.target == patch.target.GetOr(goal.target)
    ensures r.saved == patch.saved.GetOr(goal.saved)
    ensures TouchesGoalAmounts(patch) ==> GoalConforms(r)
    ensures !TouchesGoalAmounts(patch) ==> r.remaining == patch.remaining.GetOr(goal.remaining)
  {
    var merged := SavingsGoal(
      patch.id.GetOr(goal.id),
      patch.category.GetOr(goal.category),
      patch.target.GetOr(goal.target),
      patch.saved.GetOr(goal.saved),
      patch.remaining.GetOr(goal.remaining));
    if TouchesGoalAmounts(patch) then merged.(remaining := merged.target - merged.saved)
    else merged
  }

  /** `items.map(item => item.id === id ? updated : item)`. */
  function UpdateItems(side: Side, items: seq<BudgetItem>, id: string, patch: ItemPatch): (r: seq<BudgetItem>)
    ensures |r| == |items|
    ensures forall i :: 0 <= i < |items| && items[i].id != id ==> r[i] == items[i]
    ensures forall i :: 0 <= i < |items| && items[i].id == id ==> r[i] == UpdatedItem(side, items[i], patch)
  {
    seq(|items|, i requires 0 <= i < |items| =>
      if items[i].id == id then UpdatedItem(side, items[i], patch) else items[i])
  }

  function UpdateGoals(goals: seq<SavingsGoal>, id: string, patch: GoalPatch): (r: seq<SavingsGoal>)
    ensures |r| == |goals|
    ensures forall i :: 0 <= i < |goals| && goals[i].id != id ==> r[i] == goals[i]
    ensures forall i :: 0 <= i < |goals| && goals[i].id == id ==> r[i] == UpdatedGoal(goals[i], patch)
  {
    seq(|goals|, i requires 0 <= i < |goals| =>
      if goals[i].id == id then UpdatedGoal(goals[i], patch) else goals[i])
  }

  /** `items.filter(item => item.id !== id)`: no item with that id is left,
      every other item stays, as often as before and in its order. */
  function DeleteItems(items: seq<BudgetItem>, id: string): (r: seq<BudgetItem>)
    ensures forall x :: x in r ==> x.id != id
    ensures forall x: BudgetItem :: x.id != id ==> multiset(r)[x] == multiset(items)[x]
    ensures IsSubsequence(r, items)
  {
    KeepIsSubsequence(items, (x: BudgetItem) => x.id != id);
    Keep(items, (x: BudgetItem) => x.id != id)
  }

  function DeleteGoals(goals: seq<SavingsGoal>, id: string): (r: seq<SavingsGoal>)
    ensures forall g :: g in r ==> g.id != id
    ensures forall g: SavingsGoal :: g.id != id ==> multiset(r)[g] == multiset(goals)[g]
    ensures IsSubsequence(r, goals)
  {
    KeepIsSubsequence(goals, (g: SavingsGoal) => g.id != id);
    Keep(goals, (g: SavingsGoal) => g.id != id)
  }

  /** An update keeps every item in line with its side's convention when it
      mentions an amount or leaves the difference alone. */
  lemma UpdatePreservesConvention(side: Side, items: seq<BudgetItem>, id: string, patch: ItemPatch)
    requires AllConform(side, items)
    requires TouchesAmounts(patch) || patch.difference.None?
    ensures AllConform(side, UpdateItems(side, items, id, patch))
  {
  }

  lemma UpdatePreservesGoalConvention(goals: seq<SavingsGoal>, id: string, patch: GoalPatch)
    requires AllGoalsConform(goals)
    requires TouchesGoalAmounts(patch) || patch.remaining.None?
    ensures AllGoalsConform(UpdateGoals(goals, id, patch))
  {
  }

  /** Whatever an update does, an item it touches conforms again once the
      update mentions an amount. */
  lemma UpdateRestoresConvention(side: Side, items: seq<BudgetItem>, id: string, patch: ItemPatch, i: int)
    requires TouchesAmounts(patch)
    requires 0 <= i < |items| && items[i].id == id
    ensures Conforms(side, UpdateItems(side, items, id, patch)[i])
  {
  }

  /** A difference given without any amount is stored as given: here an
      income item 100/100 whose difference is set to 5 no longer conforms. */
  lemma DifferenceCanBeOverwritten()
    ensures var items := [BudgetItem("1", Some("Salary"), None, 100.0, 100.0, 0.0)];
            var patch := ItemPatch(None, None, None, None, None, Some(5.0));
            var r := UpdateItems(IncomeSide, items, "1", patch);
            AllConform(IncomeSide, items) && r[0].difference == 5.0 && !Conforms(IncomeSide, r[0])
  {
  }

  /** Deleting keeps a conforming list conforming. */
  lemma DeletePreservesConvention(side: Side, items: seq<BudgetItem>, id: string)
    requires AllConform(side, items)
    ensures AllConform(side, DeleteItems(items, id))
  {
    var r := DeleteItems(items, id);
    forall i | 0 <= i < |r| ensures Conforms(side, r[i]) {
      assert r[i] in multiset(r);
      assert multiset(items)[r[i]] > 0;
      var j :| 0 <= j < |items| && items[j] == r[i];
    }
  }

  /** Deleting an id no item carries changes nothing. */
  lemma DeleteAbsentId(items: seq<BudgetItem>, id: string)
    requires forall i :: 0 <= i < |items| ==> items[i].id != id
    ensures DeleteItems(items, id) == items
  {
    KeepAll(items, (x: BudgetItem) => x.id != id);
  }

  // ---------------------------------------------------------------------
  // The sample data loaded by `fetchBudgetData`.

  const SampleIncome: seq<BudgetItem> := [
    BudgetItem("1", Some("Salary"), None, 3000.0, 3000.0, 0.0),
    BudgetItem("2", Some("Freelance"), None, 500.0, 800.0, 300.0),
    BudgetItem("3", Some("Investments"), None, 200.0, 150.0, -50.0)
  ]

  const SampleExpenses: seq<BudgetItem> := [
    BudgetItem("1", None, Some("Rent/Mortgage"), 1000.0, 1000.0, 0.0),
    BudgetItem("2", None, Some("Utilities"), 150.0, 130.0, 20.0),
    BudgetItem("3", None, Some("Groceries"), 300.0, 350.0, -50.0),
    BudgetItem("4", None, Some("Transportation"), 100.0, 120.0, -20.0),
    BudgetItem("5", None, Some("Dining Out"), 50.0, 75.0, -25.0),
    BudgetItem("6", None, Some("Entertainment"), 50.0, 45.0, 5.0)
  ]

  const SampleGoals: seq<SavingsGoal> := [
    SavingsGoal("1", "Emergency Fund", 5000.0, 1500.0, 3500.0),
    SavingsGoal("2", "Vacation Fund", 2000.0, 800.0, 1200.0),
    SavingsGoal("3", "Home Down Payment", 30000.0, 5000.0, 25000.0),
    SavingsGoal("4", "Retirement Fund", 100000.0, 10000.0, 90000.0)
  ]

  /** The sample data follows the conventions. */
  lemma SampleDataConforms()
    ensures AllConform(IncomeSide, SampleIncome)
    ensures AllConform(ExpenseSide, SampleExpenses)
    ensures AllGoalsConform(SampleGoals)
  {
  }

  class BudgetStore {
    var incomeItems: seq<BudgetItem>
    var expenseItems: seq<BudgetItem>
    var savingsGoals: seq<SavingsGoal>
    var isLoading: bool
    var error: Option<string>

    /** Every list follows its convention. */
    ghost predicate Conventions()
      reads this
    {
      AllConform(IncomeSide, incomeItems) && AllConform(ExpenseSide, expenseItems) && AllGoalsConform(savingsGoals)
    }

    constructor()
      ensures incomeItems == [] && expenseItems == [] && savingsGoals == []
      ensures !isLoading && error == None
      ensures Conventions()
    {
      incomeItems := [];
      expenseItems := [];
      savingsGoals := [];
      isLoading := false;
      error := None;
    }

    /** The first `set` of `fetchBudgetData`. */
    method BeginFetch()
      modifies this
      ensures isLoading && error == None
      ensures incomeItems == old(incomeItems) && expenseItems == old(expenseItems)
      ensures savingsGoals == old(savingsGoals)
    {
      isLoading := true;
      error := None;
    }

    /** The `set` after the simulated delay: the lists become the sample
      data, loading ends, the error is left as it was. */
    method CompleteFetch()
      modifies this
      ensures incomeItems == SampleIncome && expenseItems == SampleExpenses && savingsGoals == SampleGoals
      ensures !isLoading && error == old(error)
      ensures Conventions()
    {
      incomeItems := SampleIncome;
      expenseItems := SampleExpenses;
      savingsGoals := SampleGoals;
      isLoading := false;
      SampleDataConforms();
    }

    method AddIncomeItem(item: NewBudgetItem, newId: string)
      modifies this
      ensures incomeItems == old(incomeItems) + [NewItem(IncomeSide, item, newId)]
      ensures expenseItems == old(expenseItems) && savingsGoals == old(savingsGoals)
      ensures isLoading == old(isLoading) && error == old(error)
      ensures old(Conventions()) ==> Conventions()
    {
      incomeItems := incomeItems + [NewItem(IncomeSide, item, newId)];
    }

    method UpdateIncomeItem(id: string, patch: ItemPatch)
      modifies this
      ensures incomeItems == UpdateItems(IncomeSide, old(incomeItems), id, patch)
      ensures expenseItems == old(expenseItems) && savingsGoals == old(savingsGoals)
      ensures isLoading == old(isLoading) && error == old(error)
      ensures old(Conventions()) && (TouchesAmounts(patch) || patch.difference.None?) ==> Conventions()
    {
      if Conventions() && (TouchesAmounts(patch) || patch.difference.None?) {
        UpdatePreservesConvention(IncomeSide, incomeItems, id, patch);
      }
      incomeItems := UpdateItems(IncomeSide, incomeItems, id, patch);
    }

    method DeleteIncomeItem(id: string)
      modifies this
      ensures incomeItems == DeleteItems(old(incomeItems), id)
      ensures expenseItems == old(expenseItems) && savingsGoals == old(savingsGoals)
      ensures isLoading == old(isLoading) && error == old(error)
      ensures old(Conventions()) ==> Conventions()
    {
      if Conventions() {
        DeletePreservesConvention(IncomeSide, incomeItems, id);
      }
      incomeItems := DeleteItems(incomeItems, id);
    }

    method AddExpenseItem(item: NewBudgetItem, newId: string)
      modifies this
      ensures expenseItems == old(expenseItems) + [NewItem(ExpenseSide, item, newId)]
      ensures incomeItems == old(incomeItems) && savingsGoals == old(savingsGoals)
      ensures isLoading == old(isLoading) && error == old(error)
      ensures old(Conventions()) ==> Conventions()
    {
      expenseItems := expenseItems + [NewItem(ExpenseSide, item, newId)];
    }

    method UpdateExpenseItem(id: string, patch: ItemPatch)
      modifies this
      ensures expenseItems == UpdateItems(ExpenseSide, old(expenseItems), id, patch)
      ensures incomeItems == old(incomeItems) && savingsGoals == old(savingsGoals)
      ensures isLoading == old(isLoading) && error == old(error)
      ensures old(Conventions()) && (TouchesAmounts(patch) || patch.difference.None?) ==> Conventions()
    {
      if Conventions() && (TouchesAmounts(patch) || patch.difference.None?) {
        UpdatePreservesConvention(ExpenseSide, expenseItems, id, patch);
      }
      expenseItems := UpdateItems(ExpenseSide, expenseItems, id, patch);
    }

    method DeleteExpenseItem(id: string)
      modifies this
      ensures expenseItems == DeleteItems(old(expenseItems), id)
      ensures incomeItems == old(incomeItems) && savingsGoals == old(savingsGoals)
      ensures isLoading == old(isLoading) && error == old(error)
      ensures old(Conventions()) ==> Conventions()
    {
      if Conventions() {
        DeletePreservesConvention(ExpenseSide, expenseItems, id);
      }
      expenseItems := DeleteItems(expenseItems, id);
    }

    method AddSavingsGoal(goal: NewSavingsGoal, newId: string)
      modifies this
      ensures savingsGoals == old(savingsGoals) + [NewGoal(goal, newId)]
      ensures incomeItems == old(incomeItems) && expenseItems == old(expenseItems)
      ensures isLoading == old(isLoading) && error == old(error)
      ensures old(Conventions()) ==> Conventions()
    {
      savingsGoals := savingsGoals + [NewGoal(goal, newId)];
    }

    method UpdateSavingsGoal(id: string, patch: GoalPatch)
      modifies this
      ensures savingsGoals == UpdateGoals(old(savingsGoals), id, patch)
      ensures incomeItems == old(incomeItems) && expenseItems == old(expenseItems)
      ensures isLoading == old(isLoading) && error == old(error)
      ensures old(Conventions()) && (TouchesGoalAmounts(patch) || patch.remaining.None?) ==> Conventions()
    {
      if Conventions() && (TouchesGoalAmounts(patch) || patch.remaining.None?) {
        UpdatePreservesGoalConvention(savingsGoals, id, patch);
      }
      savingsGoals := UpdateGoals(savingsGoals, id, patch);
    }

    method DeleteSavingsGoal(id: string)
      modifies this
      ensures savingsGoals == DeleteGoals(old(savingsGoals), id)
      ensures incomeItems == old(incomeItems) && expenseItems == old(expenseItems)
      ensures isLoading == old(isLoading) && error == old(error)
      ensures old(Conventions()) ==> Conventions()
    {
      if Conventions() {
        var r := DeleteGoals(savingsGoals, id);
        forall i | 0 <= i < |r| ensures GoalConforms(r[i]) {
          assert r[i] in multiset(r);
          var j :| 0 <= j < |savingsGoals| && savingsGoals[j] == r[i];
        }
      }
      savingsGoals := DeleteGoals(savingsGoals, id);
    }
  }
}
