/** The budgets page: this month's spending record, one comparison per
    non-Income budget (not cut to five), the three summary cards and their
    status line, and the hand-off of a submitted budget to the store. */
module BudgetsPage {
  import opened Types
  import opened Spending
  import Seqs
  import FinanceContext

  /** The summary status of a percentage. */
  datatype Status = OverBudget | ApproachingLimit | WithinBudget

  /** Over budget above 100, approaching the limit above 80 up to 100, within
      budget at 80 or below. */
  function StatusOf(p: int): (s: Status)
    ensures s == OverBudget <==> p > 100
    ensures s == ApproachingLimit <==> 80 < p <= 100
    ensures s == WithinBudget <==> p <= 80
  {
    if p > 100 then OverBudget else if p > 80 then ApproachingLimit else WithinBudget
  }

  /** `totalBudgeted`: the amounts of the non-Income budgets, summed. */
  function TotalBudgeted(budgets: seq<CategoryBudget>): int {
    if budgets == [] then 0
    else (if budgets[0].category != Income then budgets[0].amount else 0) + TotalBudgeted(budgets[1..])
  }

  function Budgeted(e: BudgetComparison): int {
    e.budgeted
  }

  /** The total budgeted is the sum of the budgeted column of the comparisons. */
  lemma {:induction false} TotalBudgetedIsColumnSum(budgets: seq<CategoryBudget>, rec: seq<CategorySpending>)
    ensures TotalBudgeted(budgets) == Seqs.SumOf(Comparisons(budgets, rec), Budgeted)
  {
    EachBudgetedSum(budgets, rec);
    Seqs.SortDescSum(CompareEach(budgets, rec), PercentageKey, Budgeted);
  }

  lemma {:induction false} EachBudgetedSum(budgets: seq<CategoryBudget>, rec: seq<CategorySpending>)
    ensures TotalBudgeted(budgets) == Seqs.SumOf(CompareEach(budgets, rec), Budgeted)
  {
    if budgets != [] {
      EachBudgetedSum(budgets[1..], rec);
      var rest := CompareEach(budgets[1..], rec);
      if budgets[0].category != Income {
        assert ([CompareOne(budgets[0], rec)] + rest)[1..] == rest;
      }
    }
  }

  /** What the page shows: the comparisons, the totals, the overall
      percentage and its status. */
  datatype Summary = Summary(
    comparisons: seq<BudgetComparison>,
    totalBudgeted: int,
    totalSpent: int,
    overallPercentage: int,
    status: Status)

  /** Builds the page's figures: the spending loop runs once over this month's
      expenses, every non-Income budget is compared with it, and the overall
      percentage is the rounded share of the total budgeted that was spent.
      The total spent counts every expense of the month, whatever its
      category, Income included. */
  method BudgetsSummary(ts: seq<Transaction>, budgets: seq<CategoryBudget>, now: Date)
    returns (view: Summary)
    ensures view.comparisons == Comparisons(budgets, SpendingRecord(ts, Month(now.year, now.month)))
    ensures |view.comparisons| == NonIncomeCount(budgets)
    ensures Seqs.NonIncreasing(view.comparisons, PercentageKey)
    ensures forall e :: e in view.comparisons ==>
      e.category != Income
      && CategoryBudget(e.category, e.budgeted) in budgets
      && e.spent == CategorySum(ts, Month(now.year, now.month), e.category)
      && e.percentage == Percent(e.spent, e.budgeted)
    ensures forall b :: b in budgets && b.category != Income ==>
      exists e :: e in view.comparisons && e.category == b.category && e.budgeted == b.amount
    ensures view.totalBudgeted == TotalBudgeted(budgets) == Seqs.SumOf(view.comparisons, Budgeted)
    ensures view.totalSpent == ExpenseSum(ts, Month(now.year, now.month))
    ensures view.overallPercentage == Percent(view.totalSpent, view.totalBudgeted)
    ensures view.totalBudgeted <= 0 ==> view.overallPercentage == 0
    ensures view.status == StatusOf(view.overallPercentage)
  {
    var w := Month(now.year, now.month);
    var rec := AccumulateSpending(ts, w);
    var comparisons := Comparisons(budgets, rec);
    ComparisonsSpec(budgets, rec);
    forall b | b in budgets && b.category != Income
      ensures exists e :: e in comparisons && e.category == b.category && e.budgeted == b.amount
    {
      assert CompareOne(b, rec) in comparisons;
    }
    TotalBudgetedIsColumnSum(budgets, rec);
    var totalBudgeted := TotalBudgeted(budgets);
    var totalSpent := RecordSum(rec);
    var overall := Percent(totalSpent, totalBudgeted);
    view := Summary(comparisons, totalBudgeted, totalSpent, overall, StatusOf(overall));
  }

  /** `handleBudgetUpdate`: the submitted category and amount go to the
      store's budget update unchanged. */
  method HandleBudgetUpdate(store: FinanceContext.FinanceStore, c: Category, amount: int)
    modifies store
    ensures store.budgets == FinanceContext.SetBudget(old(store.budgets), c, amount)
    ensures store.transactions == old(store.transactions)
    ensures old(store.Valid()) ==> store.Valid()
  {
    store.UpdateBudget(c, amount);
  }
}
