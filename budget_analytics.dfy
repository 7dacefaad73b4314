/** The figures the budget analytics panel computes
    (app/components/budget/BudgetAnalytics.tsx): the spending total, one
    entry per expense item with its share of the total, sorted by amount
    with the largest first, and the overall savings progress. */
module BudgetAnalytics {
  import opened ArrayOps
  import opened BudgetStore

  /** `(x / total) * 100` in floating point: a finite value when the total
      is non-zero; NaN or an infinity (which the model does not tell apart)
      when it is zero, since the code has no guard. */
  datatype Percent = Finite(value: real) | NonFinite

  datatype CategoryEntry = CategoryEntry(category: string, amount: real, percentage: Percent)

  function Actual(item: BudgetItem): real { item.actual }
  function Amount(e: CategoryEntry): real { e.amount }
  function Target(g: SavingsGoal): real { g.target }
  function Saved(g: SavingsGoal): real { g.saved }

  /** The value of a finite percentage; a non-finite one counts as 0. */
  function PercentValue(e: CategoryEntry): real {
    if e.percentage.Finite? then e.percentage.value else 0.0
  }

  /** `expenseItems.reduce((sum, item) => sum + item.actual, 0)`. */
  function TotalExpenses(items: seq<BudgetItem>): real {
    SumBy(items, Actual)
  }

  function Share(x: real, total: real): Percent {
    if total == 0.0 then NonFinite else Finite(x / total * 100.0)
  }

  /** `item.category || ''`. */
  function CategoryLabel(item: BudgetItem): string {
    if item.category.Some? then item.category.value else ""
  }

  function EntryFor(item: BudgetItem, total: real): CategoryEntry {
    CategoryEntry(CategoryLabel(item), item.actual, Share(item.actual, total))
  }

  /** `expenseItems.map(...)`: one entry per item, in the items' order. */
  function Entries(items: seq<BudgetItem>, total: real): (r: seq<CategoryEntry>)
    ensures |r| == |items|
    ensures forall i :: 0 <= i < |items| ==> r[i] == EntryFor(items[i], total)
  {
    if items == [] then [] else [EntryFor(items[0], total)] + Entries(items[1..], total)
  }

  /** The category list after `sort((a, b) => b.amount - a.amount)`: the
      mapped entries, rearranged so that amounts never increase. */
  function ExpenseCategories(items: seq<BudgetItem>): (r: seq<CategoryEntry>)
    ensures |r| == |items|
    ensures multiset(r) == multiset(Entries(items, TotalExpenses(items)))
    ensures SortedDesc(r, Amount)
  {
    SortDescBy(Entries(items, TotalExpenses(items)), Amount)
  }

  /** Every entry carries the amount of an item and the share of that
      amount; a missing category becomes the empty string. */
  lemma EntryPerItem(items: seq<BudgetItem>, e: CategoryEntry)
    requires e in ExpenseCategories(items)
    ensures exists i :: 0 <= i < |items| && e == EntryFor(items[i], TotalExpenses(items))
  {
    var es := Entries(items, TotalExpenses(items));
    assert e in multiset(es);
    var i :| 0 <= i < |es| && es[i] == e;
    assert e == EntryFor(items[i], TotalExpenses(items));
  }

  /** With a zero total every percentage is non-finite; otherwise every
      percentage is finite. */
  lemma SharesFiniteIffTotalNonZero(items: seq<BudgetItem>, e: CategoryEntry)
    requires e in ExpenseCategories(items)
    ensures e.percentage.Finite? <==> TotalExpenses(items) != 0.0
  {
    EntryPerItem(items, e);
  }

  lemma {:induction false} EntriesPercentSum(items: seq<BudgetItem>, total: real)
    requires total != 0.0
    ensures SumBy(Entries(items, total), PercentValue) == SumBy(items, Actual) / total * 100.0
  {
    if items != [] {
      EntriesPercentSum(items[1..], total);
      var es := Entries(items, total);
      assert es[1..] == Entries(items[1..], total);
      var a := items[0].actual;
      var rest := SumBy(items[1..], Actual);
      assert SumBy(items, Actual) == a + rest;
      assert a / total * 100.0 + rest / total * 100.0 == (a + rest) / total * 100.0;
    }
  }

  /** When the total is non-zero the percentages add up to 100. */
  lemma PercentagesSumTo100(items: seq<BudgetItem>)
    requires TotalExpenses(items) != 0.0
    ensures SumBy(ExpenseCategories(items), PercentValue) == 100.0
  {
    var total := TotalExpenses(items);
    EntriesPercentSum(items, total);
    SortDescPreservesSum(Entries(items, total), Amount, PercentValue);
  }

  /** The amounts shown add up to the total. */
  lemma {:induction false} EntriesAmountSum(items: seq<BudgetItem>, total: real)
    ensures SumBy(Entries(items, total), Amount) == SumBy(items, Actual)
  {
    if items != [] {
      EntriesAmountSum(items[1..], total);
      assert Entries(items, total)[1..] == Entries(items[1..], total);
    }
  }

  lemma CategoryAmountsSumToTotal(items: seq<BudgetItem>)
    ensures SumBy(ExpenseCategories(items), Amount) == TotalExpenses(items)
  {
    EntriesAmountSum(items, TotalExpenses(items));
    SortDescPreservesSum(Entries(items, TotalExpenses(items)), Amount, Amount);
  }

  // ---------------------------------------------------------------------
  // Savings progress

  function TotalTarget(goals: seq<SavingsGoal>): real { SumBy(goals, Target) }
  function TotalSaved(goals: seq<SavingsGoal>): real { SumBy(goals, Saved) }

  /** `totalSavingsTarget > 0 ? (totalSaved / totalSavingsTarget) * 100 : 0`. */
  function SavingsProgress(goals: seq<SavingsGoal>): (r: real)
    ensures TotalTarget(goals) <= 0.0 ==> r == 0.0
    ensures TotalTarget(goals) > 0.0 ==> r * TotalTarget(goals) == TotalSaved(goals) * 100.0
  {
    if TotalTarget(goals) > 0.0 then TotalSaved(goals) / TotalTarget(goals) * 100.0 else 0.0
  }

  lemma {:induction false} SavedWithinTarget(goals: seq<SavingsGoal>)
    requires forall i :: 0 <= i < |goals| ==> 0.0 <= goals[i].saved <= goals[i].target
    ensures 0.0 <= TotalSaved(goals) <= TotalTarget(goals)
  {
    if goals != [] {
      SavedWithinTarget(goals[1..]);
    }
  }

  /** The progress is a percentage between 0 and 100 when no goal is
      over-saved and no amount is negative. */
  lemma ProgressBounded(goals: seq<SavingsGoal>)
    requires forall i :: 0 <= i < |goals| ==> 0.0 <= goals[i].saved <= goals[i].target
    ensures 0.0 <= SavingsProgress(goals) <= 100.0
  {
    SavedWithinTarget(goals);
    if TotalTarget(goals) > 0.0 {
      var s, t := TotalSaved(goals), TotalTarget(goals);
      assert s / t <= 1.0;
    }
  }

  /** The progress is not clamped: a goal saved beyond its target reports
      more than 100. */
  lemma ProgressCanExceed100()
    ensures SavingsProgress([SavingsGoal("1", "Vacation Fund", 1000.0, 1500.0, -500.0)]) == 150.0
  {
    var g := [SavingsGoal("1", "Vacation Fund", 1000.0, 1500.0, -500.0)];
    assert g[1..] == [];
    assert TotalTarget(g) == 1000.0;
    assert TotalSaved(g) == 1500.0;
  }

  /** Goals with no positive total target report 0. */
  lemma ProgressWithoutTarget(goals: seq<SavingsGoal>)
    requires TotalTarget(goals) <= 0.0
    ensures SavingsProgress(goals) == 0.0
  {
  }

  /** Two goals 5000/1500 and 2000/800: 2300 of 7000, that is 230/7 %. */
  lemma ProgressOfTwoGoals()
    ensures SavingsProgress([SavingsGoal("1", "Emergency Fund", 5000.0, 1500.0, 3500.0),
                             SavingsGoal("2", "Vacation Fund", 2000.0, 800.0, 1200.0)]) == 230.0 / 7.0
  {
    var g := [SavingsGoal("1", "Emergency Fund", 5000.0, 1500.0, 3500.0),
              SavingsGoal("2", "Vacation Fund", 2000.0, 800.0, 1200.0)];
    assert g[1..][1..] == [];
    assert TotalTarget(g) == 7000.0;
    assert TotalSaved(g) == 2300.0;
  }

  // ---------------------------------------------------------------------
  // Bar colours

  const BarColors: seq<string> := [
    "rgba(76, 175, 80, 0.8)",
    "rgba(33, 150, 243, 0.8)",
    "rgba(255, 193, 7, 0.8)",
    "rgba(156, 39, 176, 0.8)",
    "rgba(255, 87, 34, 0.8)",
    "rgba(0, 188, 212, 0.8)"
  ]

  /** `colors[index % colors.length]`: the colours repeat every six bars. */
  function BarColor(index: nat): (r: string)
    ensures r in BarColors
    ensures r == BarColors[index % 6]
  {
    BarColors[index % |BarColors|]
  }

  lemma BarColorsRepeat(index: nat)
    ensures BarColor(index + 6) == BarColor(index)
  {
    assert (index + 6) % 6 == index % 6;
  }
}
