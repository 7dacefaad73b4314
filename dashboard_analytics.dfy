/** The dashboard's budget summary
    (app/components/budget/DashboardAnalytics.tsx): the same category
    entries as the budget analytics panel, cut to the top three in compact
    mode with a "+ k more categories" line, and the savings progress,
    shown only outside compact mode. */
module DashboardAnalytics {
  import opened JsValue
  import opened ArrayOps
  import opened BudgetStore
  import opened BudgetAnalytics

  /** What the component renders: the bars, the "+ k more" count when that
      line appears, and the savings progress when that section appears. */
  datatype DashboardView = DashboardView(
    display: seq<CategoryEntry>,
    moreCount: Option<nat>,
    savingsProgress: Option<real>)

  /** `compact ? expenseCategories.slice(0, 3) : expenseCategories`. */
  function DisplayCategories(categories: seq<CategoryEntry>, compact: bool): (r: seq<CategoryEntry>)
    ensures !compact ==> r == categories
    ensures compact ==> |r| == (if |categories| < 3 then |categories| else 3)
    ensures compact ==> r == categories[..|r|]
  {
    if compact && |categories| > 3 then categories[..3] else categories
  }

  function Dashboard(items: seq<BudgetItem>, goals: seq<SavingsGoal>, compact: bool): (r: DashboardView)
    ensures r.display == DisplayCategories(ExpenseCategories(items), compact)
    ensures r.moreCount.Some? <==> compact && |ExpenseCategories(items)| > 3
    ensures r.moreCount.Some? ==> |r.display| + r.moreCount.value == |ExpenseCategories(items)|
    ensures r.savingsProgress == if compact then None else Some(SavingsProgress(goals))
  {
    var categories := ExpenseCategories(items);
    DashboardView(
      DisplayCategories(categories, compact),
      if compact && |categories| > 3 then Some(|categories| - 3) else None,
      if compact then None else Some(SavingsProgress(goals)))
  }

  /** Outside compact mode every category is shown, in sorted order. */
  lemma FullDisplay(items: seq<BudgetItem>, goals: seq<SavingsGoal>)
    ensures Dashboard(items, goals, false).display == ExpenseCategories(items)
  {
  }

  /** In compact mode the first min(3, n) sorted entries are shown. */
  lemma CompactDisplay(items: seq<BudgetItem>, goals: seq<SavingsGoal>)
    ensures var v := Dashboard(items, goals, true);
            var n := |items|;
            |v.display| == (if n < 3 then n else 3) && v.display == ExpenseCategories(items)[..|v.display|]
  {
  }

  /** The shown bars are the largest: each one is at least as large as any
      entry left out. */
  lemma CompactShowsLargest(items: seq<BudgetItem>, goals: seq<SavingsGoal>, i: int, j: int)
    requires var v := Dashboard(items, goals, true); 0 <= i < |v.display| <= j < |items|
    ensures Dashboard(items, goals, true).display[i].amount >= ExpenseCategories(items)[j].amount
  {
    var c := ExpenseCategories(items);
    TopAreLargest(c, Amount, |Dashboard(items, goals, true).display|, i, j);
  }

  /** The "+ k more" line appears exactly in compact mode with more than
      three items, and what is shown plus k is every item. */
  lemma MoreCount(items: seq<BudgetItem>, goals: seq<SavingsGoal>, compact: bool)
    ensures var v := Dashboard(items, goals, compact);
            (v.moreCount.Some? <==> compact && |items| > 3) &&
            |v.display| + v.moreCount.GetOr(0) == |items|
  {
  }

  /** The savings section exists exactly outside compact mode and shows the
      same progress as the budget analytics panel. */
  lemma SavingsSection(items: seq<BudgetItem>, goals: seq<SavingsGoal>, compact: bool)
    ensures var v := Dashboard(items, goals, compact);
            (v.savingsProgress.Some? <==> !compact) &&
            (!compact ==> v.savingsProgress.value == SavingsProgress(goals))
  {
  }

  /** The entries, their shares and their order are the budget analytics
      panel's: the shown bars are a prefix of that panel's list. */
  lemma SameAsBudgetAnalytics(items: seq<BudgetItem>, goals: seq<SavingsGoal>, compact: bool)
    ensures var d := Dashboard(items, goals, compact).display;
            d == ExpenseCategories(items)[..|d|]
  {
  }
}
