/** The dashboard: the current month's expense and income totals, the net
    balance card, the month-over-month expense trend, and the five budget
    comparisons with the highest percentage. "Now" is a parameter. */
module IndexPage {
  import opened Types
  import opened Spending
  import Seqs

  /** The calendar month that contains `now`. */
  function CurrentMonth(now: Date): Window {
    Month(now.year, now.month)
  }

  /** `totalExpenses`: |amount| summed over this month's expenses. It is zero
      exactly when the month holds no expense, and it is what the month's
      per-category spending adds up to. */
  function TotalExpenses(ts: seq<Transaction>, now: Date): (total: nat)
    ensures total == 0 <==> forall i :: 0 <= i < |ts| ==> !Counts(ts[i], CurrentMonth(now))
    ensures total == RecordSum(SpendingRecord(ts, CurrentMonth(now)))
  {
    ExpenseSumZero(ts, CurrentMonth(now));
    ExpenseSum(ts, CurrentMonth(now))
  }

  /** Reference sum: amount over the incomes (amount > 0) inside the window. */
  function IncomeSum(ts: seq<Transaction>, w: Window): nat {
    if ts == [] then 0
    else
      var t := ts[|ts| - 1];
      IncomeSum(ts[..|ts| - 1], w) + (if t.amount > 0 && InWindow(t.date, w) then t.amount else 0)
  }

  /** `totalIncome`: amount summed over this month's incomes. With the
      expense total it splits the month's amounts: the two add up to the sum
      of their sizes and differ by the signed sum. */
  function TotalIncome(ts: seq<Transaction>, now: Date): (total: nat)
    ensures total + TotalExpenses(ts, now) == SizeSum(ts, CurrentMonth(now))
    ensures total - TotalExpenses(ts, now) == SignedSum(ts, CurrentMonth(now))
  {
    IncomeExpenseSplit(ts, CurrentMonth(now));
    IncomeSum(ts, CurrentMonth(now))
  }

  /** Reference sums over every transaction of the window: signed, and by size. */
  function SignedSum(ts: seq<Transaction>, w: Window): int {
    if ts == [] then 0
    else
      var t := ts[|ts| - 1];
      SignedSum(ts[..|ts| - 1], w) + (if InWindow(t.date, w) then t.amount else 0)
  }

  function SizeSum(ts: seq<Transaction>, w: Window): nat {
    if ts == [] then 0
    else
      var t := ts[|ts| - 1];
      SizeSum(ts[..|ts| - 1], w) + (if InWindow(t.date, w) then Abs(t.amount) else 0)
  }

  /** Every transaction of the window is counted by exactly one of the two
      totals or by neither (amount 0): together they add up to the sizes of
      all its amounts, and their difference is the signed sum. */
  lemma {:induction false} IncomeExpenseSplit(ts: seq<Transaction>, w: Window)
    ensures IncomeSum(ts, w) + ExpenseSum(ts, w) == SizeSum(ts, w)
    ensures IncomeSum(ts, w) - ExpenseSum(ts, w) == SignedSum(ts, w)
  {
    if ts != [] {
      IncomeExpenseSplit(ts[..|ts| - 1], w);
    }
  }

  /** The net balance card: the balance, whether it reads "Positive", and
      whether its border is green. */
  datatype BalanceCard = BalanceCard(net: int, positive: bool, greenBorder: bool)

  function NetBalance(ts: seq<Transaction>, now: Date): (card: BalanceCard)
    ensures card.net == SignedSum(ts, CurrentMonth(now))
    ensures card.positive <==> card.net > 0
    ensures card.greenBorder <==> card.net >= 0
  {
    IncomeExpenseSplit(ts, CurrentMonth(now));
    var net := TotalIncome(ts, now) - TotalExpenses(ts, now);
    BalanceCard(net, net > 0, net >= 0)
  }

  /** The month before `(year, month)`; January goes back to December of the
      year before. */
  function PrevMonth(year: int, month: int): (r: (int, int))
    requires 0 <= month < 12
    ensures 0 <= r.1 < 12
    ensures r.0 * 12 + r.1 == year * 12 + month - 1
  {
    var m := month - 1;
    if m < 0 then (year - 1, 11) else (year, m)
  }

  datatype TrendLabel = NewMonth | PercentChange(current: nat, previous: nat)
  datatype Trend = Trend(text: TrendLabel, positive: bool)

  /** The window of the month before `now`'s. */
  function PreviousMonth(now: Date): Window
    requires 0 <= now.month < 12
  {
    var (y, m) := PrevMonth(now.year, now.month);
    Month(y, m)
  }

  /** `expenseTrend`: "New month" when last month had no expenses; otherwise
      the change between the two months' expenses, positive when spending did
      not grow. */
  function ExpenseTrend(ts: seq<Transaction>, now: Date): Trend
    requires 0 <= now.month < 12
  {
    var current := ExpenseSum(ts, CurrentMonth(now));
    var previous := ExpenseSum(ts, PreviousMonth(now));
    if previous == 0 then Trend(NewMonth, false)
    else Trend(PercentChange(current, previous), current - previous <= 0)
  }

  /** The trend reads "New month", not positive, exactly when last month had
      no expense; otherwise it compares this month's total with last month's
      and is positive exactly when this month's is not larger. */
  lemma ExpenseTrendSpec(ts: seq<Transaction>, now: Date)
    requires 0 <= now.month < 12
    ensures ExpenseTrend(ts, now).text == NewMonth <==>
      forall i :: 0 <= i < |ts| ==> !Counts(ts[i], PreviousMonth(now))
    ensures ExpenseTrend(ts, now).text == NewMonth ==> !ExpenseTrend(ts, now).positive
    ensures ExpenseTrend(ts, now).text.PercentChange? ==>
      ExpenseTrend(ts, now).text.current == TotalExpenses(ts, now)
      && ExpenseTrend(ts, now).text.previous == ExpenseSum(ts, PreviousMonth(now)) > 0
      && (ExpenseTrend(ts, now).positive <==> TotalExpenses(ts, now) <= ExpenseSum(ts, PreviousMonth(now)))
  {
    ExpenseSumZero(ts, PreviousMonth(now));
  }

  /** The five comparisons with the highest percentage, or all when fewer. */
  function TopComparisons(budgets: seq<CategoryBudget>, rec: seq<CategorySpending>): seq<BudgetComparison> {
    Seqs.Take(Comparisons(budgets, rec), 5)
  }

  /** At most five comparisons, highest percentage first, each one a
      non-Income budget against the record. */
  lemma TopComparisonsSpec(budgets: seq<CategoryBudget>, rec: seq<CategorySpending>)
    ensures |TopComparisons(budgets, rec)| == if NonIncomeCount(budgets) < 5 then NonIncomeCount(budgets) else 5
    ensures Seqs.NonIncreasing(TopComparisons(budgets, rec), PercentageKey)
    ensures forall e :: e in TopComparisons(budgets, rec) ==>
      e.category != Income
      && CategoryBudget(e.category, e.budgeted) in budgets
      && e.spent == Lookup(rec, e.category)
      && e.percentage == Percent(e.spent, e.budgeted)
  {
    ComparisonsSpec(budgets, rec);
    Seqs.TakePrefix(Comparisons(budgets, rec), 5, PercentageKey);
  }

  /** A non-Income budget left out of the five has a percentage no higher
      than any of the five shown. */
  lemma TopComparisonsAreTop(budgets: seq<CategoryBudget>, rec: seq<CategorySpending>, b: CategoryBudget)
    requires b in budgets && b.category != Income
    requires CompareOne(b, rec) !in TopComparisons(budgets, rec)
    ensures forall e :: e in TopComparisons(budgets, rec) ==> e.percentage >= CompareOne(b, rec).percentage
  {
    var all := Comparisons(budgets, rec);
    var top := TopComparisons(budgets, rec);
    ComparisonsSpec(budgets, rec);
    var x := CompareOne(b, rec);
    var j :| 0 <= j < |all| && all[j] == x;
    forall e | e in top ensures e.percentage >= x.percentage {
      var i :| 0 <= i < |top| && top[i] == e;
      assert all[i] == e && i < j;
    }
  }

  /** `budgetComparisonData`: this month's spending record, built by the loop,
      compared with every non-Income budget, highest percentage first, cut to
      the first five; each entry's spent is the month's expenses in its category. */
  method BudgetComparisonData(ts: seq<Transaction>, budgets: seq<CategoryBudget>, now: Date)
    returns (top: seq<BudgetComparison>)
    ensures top == TopComparisons(budgets, SpendingRecord(ts, CurrentMonth(now)))
    ensures forall e :: e in top ==> e.spent == CategorySum(ts, CurrentMonth(now), e.category)
  {
    var rec := AccumulateSpending(ts, CurrentMonth(now));
    TopComparisonsSpec(budgets, rec);
    top := TopComparisons(budgets, rec);
  }
}
