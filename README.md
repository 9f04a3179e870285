# Finance canvas: a verified model of its bookkeeping

Finance canvas is a personal-finance web application. A user records
transactions: an amount, a date, a description and one of nine categories.
A positive amount is income and a negative one is an expense. The user also
keeps a monthly budget per category. The pages then derive views from these
two lists:

- the dashboard: this month's expense and income totals, the net balance, the
  month-over-month expense trend, the five fullest budgets, a pie of all-time
  spending per category, and a bar per day of this month's expenses;
- the budgets page: every budget against this month's spending, with an
  overall percentage and status;
- the categories page: this month's spending per category as a share of the
  month's total, largest first;
- the transactions page: the list in four sort orders, plus the add, edit and
  delete dialog;
- two forms whose schemas decide what reaches the store.

This project models that core in Dafny and proves what each part promises.

Modelling choices:

- Amounts are integers in minor units: cents in the dollar variant, paise in
  the rupee variant under `frontend/`.
- A date is `Date(year, month 0..11, day)`. The current date `now` is a
  parameter.
- A JavaScript `Record<Category, number>` is a list of `CategorySpending`
  entries kept in insertion order, which is the order `Object.entries` and
  `Object.values` walk it in. Every page builds it with the same loop,
  `Spending.AccumulateSpending`, over a window: one month, or all time.
- `Array.prototype.sort` is stable, so it is modelled by a stable insertion
  sort, `Seqs.SortDesc`. An ascending order sorts by the negated key.
- `Math.round(part / whole * 100)` is `Spending.Percent`: `floor(100 * part /
  whole + 1/2)`, computed exactly.
- The store (`FinanceProvider`) is the class `FinanceContext.FinanceStore`.
  Its two lists are fields, and each of its four operations is a method that
  reassigns them.
- The per-day bar chart fills an `array` in place, as the source does.

Modules, one per file:

- `Wrappers`, `Types`, `Calendar`, `Seqs`: shared definitions.
- `MockData`, `MockDataInr`: the seed data and category table of each variant.
- `Spending`: the per-category loop and the budget comparison.
- `FinanceContext`: the store.
- `IndexPage`, `MonthlyExpensesChart`, `CategoryChart`: the dashboard.
- `BudgetsPage`, `BudgetProgressList`, `BudgetForm`: the budgets page.
- `CategoriesPage`: the categories page.
- `TransactionsPage`, `TransactionForm`: the transactions page.

## Model

| member | source | states |
|---|---|---|
| Types.ParseCategory | src/types/index.ts:2-11 | a string is read as a category only if it is that category's name |
| Types.CategoryUnionClosed | src/types/index.ts:2-11 | the union has exactly nine distinct names, and each name reads back as its own category |
| Types.WithId | src/contexts/FinanceContext.tsx:21-25 | a new transaction carries the given id and exactly the submitted fields |
| Types.WithIdRoundTrip | src/types/index.ts:13-19 | taking a transaction's id off and putting it back gives the same transaction |
| Calendar.DaysInMonth | src/components/dashboard/MonthlyExpensesChart.tsx:16-23 | a month has 28 to 31 days, and it has 29 exactly for February of a leap year |
| Calendar.TimeKeyOrder | src/pages/Transactions.tsx:58-61 | on real dates the numeric key orders like the calendar, and equal keys mean equal dates |
| Calendar.SubDays | src/utils/mockData.ts:33 | going back k days from a real date gives a real date, strictly earlier when k > 0 |
| MockData.ColorIn | src/utils/mockData.ts:24-26 | the colour of the first row with that name, or the grey default when no row has it |
| MockData.CategoriesTable | src/utils/mockData.ts:11-21 | the table lists each of the nine categories once, in the union's order |
| MockData.CategoryColorListed | src/utils/mockData.ts:24-26 | looking a listed category up gives its row's colour |
| MockData.InitialTransactions | src/utils/mockData.ts:29-86 | eight seed transactions, each with its own generated id |
| MockData.SeedTransactions | src/utils/mockData.ts:29-86 | every seed amount is nonzero, and positive exactly for the Income entry; every seed date is a real date before today |
| MockData.SeedBudgets | src/utils/mockData.ts:89-98 | one positive budget for every category except Income, each category once |
| MockDataInr.SameTableAsDollarVariant | frontend/src/utils/mockData.ts:11-26 | the rupee variant has the same category table and colours as the dollar variant |
| MockDataInr.InitialTransactions | frontend/src/utils/mockData.ts:29-86 | eight seed transactions, each with its own generated id |
| MockDataInr.SeedTransactions | frontend/src/utils/mockData.ts:29-86 | the same sign, date and category facts as the dollar seeds |
| MockDataInr.SeedBudgets | frontend/src/utils/mockData.ts:89-98 | one positive budget for every category except Income, each category once |
| Seqs.SortDesc | src/pages/Transactions.tsx:56 | the result is ordered by the key, largest first, and is a permutation of the input |
| Seqs.SortDescStable | src/pages/Transactions.tsx:56 | elements with equal keys keep their relative order, as `Array.prototype.sort` guarantees |
| Seqs.SortDescDistinct | src/pages/Categories.tsx:59 | sorting does not make two entries share a name |
| Seqs.SortDescSum | frontend/src/pages/Budgets.tsx:61-67 | sorting does not change a column's sum |
| Seqs.NegatedKeyAscending | src/pages/Transactions.tsx:60-65 | largest first by the negated key is smallest first by the key |
| Seqs.FilterAppend | frontend/src/components/budgets/BudgetForm.tsx:69-70 | `filter` works piece by piece: filtering a concatenation concatenates the filtered parts, in order |
| Seqs.FilterAll | frontend/src/components/budgets/BudgetForm.tsx:69-70 | a list whose every element passes the test is kept whole |
| Seqs.TakePrefix | src/pages/Index.tsx:141-142 | the first elements of an ordered list are still ordered and come from the list |
| Seqs.Take | src/pages/Index.tsx:142 | `slice(0, n)`: the first min(n, length) elements, the whole list when it is short enough |
| Spending.FirstIndex | src/pages/Index.tsx:105-123 | the position of the first counted transaction of a category, or the length when there is none |
| Spending.BumpKeys | src/pages/Index.tsx:116-121 | incrementing a present key keeps the keys; an absent key is appended |
| Spending.BumpLookup | src/pages/Index.tsx:116-121 | incrementing adds the amount to that category's value and leaves the others alone |
| Spending.BumpSum | src/pages/Index.tsx:116-121 | incrementing raises the sum of values by the amount |
| Spending.BumpInvariant | src/pages/Index.tsx:116-121 | with a positive amount, the keys stay distinct and the values stay positive |
| Spending.SpendingRecord | src/pages/Index.tsx:105-123 | each category's value is its counted expense sum; a key is present exactly when that sum is positive; the values add up to the window's expense total |
| Spending.AccumulateSpending | frontend/src/pages/Budgets.tsx:16-42 | the loop builds exactly the specified record, with distinct keys, positive values and the per-category sums |
| Spending.CategorySumPositive | src/pages/Index.tsx:105-123 | a category has positive spending exactly when some counted transaction is in it |
| Spending.RecordInFirstAppearanceOrder | src/components/dashboard/CategoryChart.tsx:25-39 | the record's keys are in the order of each category's first counted transaction |
| Spending.ExpenseSumZero | src/components/dashboard/CategoryChart.tsx:25-36 | the window's expense total is zero exactly when no transaction in it is an expense |
| Spending.Percent | src/pages/Index.tsx:130-132 | the percentage is the share rounded to the nearest integer, with halves rounded up; it is 0 for a nonpositive whole |
| Spending.CompareEach | src/pages/Index.tsx:126-140 | one comparison per non-Income budget, each built from one such budget |
| Spending.ComparisonsSpec | frontend/src/pages/Budgets.tsx:45-62 | one comparison per non-Income budget, highest percentage first; each carries its budget, its category's spending and their rounded ratio |
| FinanceContext.Ids | src/contexts/FinanceContext.tsx:29-39 | a specification helper, not a source function: the list's ids in list order, used to state that update and delete keep ids |
| FinanceContext.ReplaceById | src/contexts/FinanceContext.tsx:29-35 | same length; every record with the updated id is replaced and every other is kept |
| FinanceContext.ReplaceByIdSpec | src/contexts/FinanceContext.tsx:29-35 | ids and their uniqueness are kept; an unknown id changes nothing; the update is present exactly when its id was; repeating it changes nothing |
| FinanceContext.RemoveById | src/contexts/FinanceContext.tsx:37-39 | the result holds exactly the records with another id, so the id is gone |
| FinanceContext.RemoveByIdAppend | src/contexts/FinanceContext.tsx:37-39 | removal works piece by piece, so the kept records stay in order |
| FinanceContext.RemoveAbsentId | src/contexts/FinanceContext.tsx:37-39 | deleting an unknown id changes nothing |
| FinanceContext.RemoveByIdUnique | src/contexts/FinanceContext.tsx:37-39 | deletion keeps ids unique |
| FinanceContext.AddThenDelete | src/contexts/FinanceContext.tsx:21-39 | adding under a fresh id and then deleting that id restores the list |
| FinanceContext.SetBudget | src/contexts/FinanceContext.tsx:41-47 | every budget of that category gets the new amount, and every other budget is kept |
| FinanceContext.SetBudgetSpec | src/contexts/FinanceContext.tsx:41-47 | the categories are kept; the category then reads the new amount if it had a budget; a category without a budget changes nothing |
| FinanceContext.FinanceStore.constructor | src/contexts/FinanceContext.tsx:17-19 | the store starts on the seed transactions and budgets, with unique ids and one budget per category |
| FinanceContext.FinanceStore.AddTransaction | src/contexts/FinanceContext.tsx:21-27 | the new transaction is put first under its fresh id; budgets are unchanged; the invariant is kept |
| FinanceContext.FinanceStore.UpdateTransaction | src/contexts/FinanceContext.tsx:29-35 | the list becomes the replacement by id; budgets are unchanged; the invariant is kept |
| FinanceContext.FinanceStore.DeleteTransaction | src/contexts/FinanceContext.tsx:37-39 | the list becomes the removal by id and no longer holds the id; budgets are unchanged; the invariant is kept |
| FinanceContext.FinanceStore.UpdateBudget | src/contexts/FinanceContext.tsx:41-47 | the budgets become the per-category update; transactions are unchanged; the invariant is kept |
| IndexPage.IncomeExpenseSplit | src/pages/Index.tsx:18-49 | income plus expenses is the window's total size, and income minus expenses is its signed sum |
| IndexPage.NetBalance | src/pages/Index.tsx:170-183 | the card shows income minus expenses for the month; it reads positive exactly when that is above 0, and has a green border exactly when it is at least 0 |
| IndexPage.PrevMonth | src/pages/Index.tsx:55-61 | the month before, with January wrapping to December of the previous year |
| IndexPage.ExpenseTrendSpec | src/pages/Index.tsx:52-95 | "New month", never positive, exactly when last month had no expenses; otherwise it compares this month's total with last month's positive total and is positive exactly when spending did not rise |
| IndexPage.TopComparisonsSpec | src/pages/Index.tsx:126-142 | at most five comparisons, highest percentage first, each with its budget and this month's spending |
| IndexPage.TopComparisonsAreTop | src/pages/Index.tsx:141-142 | every budget left out has a percentage no higher than any shown |
| IndexPage.BudgetComparisonData | src/pages/Index.tsx:98-143 | the loop and pipeline give the top five comparisons, each spent value being its category's expenses this month |
| MonthlyExpensesChart.FindDay | src/components/dashboard/MonthlyExpensesChart.tsx:36-38 | `findIndex`: the first bucket of that day, or -1 when none has it |
| MonthlyExpensesChart.DailyExpenses | src/components/dashboard/MonthlyExpensesChart.tsx:14-49 | one bucket per day of the month, in day order, each holding that day's expense total |
| MonthlyExpensesChart.DaysAddUpToMonth | src/components/dashboard/MonthlyExpensesChart.tsx:33-42 | on real dates, the days' totals add up to the month's expense total, with nothing missed or counted twice |
| MonthlyExpensesChart.ChartSumsToMonthlyExpenses | src/components/dashboard/MonthlyExpensesChart.tsx:14-49 | the chart's bars add up to the dashboard's monthly expense total |
| CategoryChart.Slices | src/components/dashboard/CategoryChart.tsx:39-45 | only slices with a positive value, at most one per record entry |
| CategoryChart.SlicesKeepAll | src/components/dashboard/CategoryChart.tsx:39-45 | on a record of positive values the filter drops nothing |
| CategoryChart.ChartData | src/components/dashboard/CategoryChart.tsx:20-46 | the loop over all transactions gives exactly the slices of the all-time record |
| CategoryChart.ChartDataSpec | src/components/dashboard/CategoryChart.tsx:20-46 | each slice holds its category's all-time expenses and the table colour; slices follow first appearance; a category has a slice exactly when it has expenses |
| CategoryChart.PlaceholderExactlyWithoutExpenses | src/components/dashboard/CategoryChart.tsx:62-73 | the placeholder shows exactly when no transaction is an expense |
| CategoriesPage.TableStats | src/pages/Categories.tsx:47-57 | one stat per table row, in table order, with the row's name and colour |
| CategoriesPage.WithExpenses | src/pages/Categories.tsx:58 | keeps exactly the stats with a positive amount |
| CategoriesPage.CategoriesData | src/pages/Categories.tsx:14-60 | the loop gives the breakdown; each amount is the category's positive spending this month and each percentage its rounded share of the month's total |
| CategoriesPage.BreakdownEntries | src/pages/Categories.tsx:19-59 | each entry holds its category's expenses, its share and its table colour; a category is listed exactly when it has expenses |
| CategoriesPage.BreakdownOrder | src/pages/Categories.tsx:58-59 | largest amount first, no category twice, and equal amounts in table order |
| CategoriesPage.Description | src/pages/Categories.tsx:155-178 | every category has a nonempty description |
| BudgetsPage.StatusOf | frontend/src/pages/Budgets.tsx:111-118 | over budget above 100%, approaching the limit above 80% up to 100%, within budget otherwise |
| BudgetsPage.TotalBudgetedIsColumnSum | frontend/src/pages/Budgets.tsx:65-67 | the non-Income budget total equals the sum of the comparisons' budget column |
| BudgetsPage.BudgetsSummary | frontend/src/pages/Budgets.tsx:16-70 | every non-Income budget is compared, highest percentage first; the totals are the non-Income budget sum and the month's expense sum; the overall percentage is their rounded ratio (0 without a budget), with its status |
| BudgetsPage.HandleBudgetUpdate | frontend/src/pages/Budgets.tsx:73-75 | the store's budgets get the new amount for the category; transactions are unchanged |
| BudgetProgressList.ProgressValue | src/components/budgets/BudgetProgressList.tsx:42 | the bar is the percentage capped at 100 |
| BudgetProgressList.MessagesSpec | src/components/budgets/BudgetProgressList.tsx:43-65 | each row shows exactly one message, matching the status and the colour: the overspend, the percentage used, or on track |
| BudgetProgressList.ExceededIsPositive | src/components/budgets/BudgetProgressList.tsx:51-55 | with a rounded percentage above 100, the budget is positive and the overspend shown is positive |
| BudgetProgressList.Render | src/components/budgets/BudgetProgressList.tsx:13-33 | the placeholder shows exactly for no data; otherwise one row per item, in order, bar at most 100, one message each |
| TransactionsPage.SortTransactionsSpec | src/pages/Transactions.tsx:56-69 | each option gives a permutation ordered by date or amount in its direction, and an unknown option orders as "date-desc" |
| TransactionsPage.SortTransactionsStable | src/pages/Transactions.tsx:56-69 | transactions that tie under the option keep their list order |
| TransactionsPage.Page.constructor | src/pages/Transactions.tsx:26-28 | the dialog is closed, nothing is selected, and the sort is "date-desc" |
| TransactionsPage.Page.OpenForm | src/pages/Transactions.tsx:31-34 | the dialog opens on the given selection |
| TransactionsPage.Page.SubmitForm | src/pages/Transactions.tsx:37-48 | with a selection, its record is updated under its id; without one, the data is added under a fresh id; then the dialog closes and the selection clears |
| TransactionsPage.Page.DeleteTransaction | src/pages/Transactions.tsx:51-53 | the store removes the id |
| TransactionForm.CategoryEnumIsUnion | src/components/transactions/TransactionForm.tsx:36 | the enum built from the table accepts exactly the nine category names |
| TransactionForm.Utf16Length | src/components/transactions/TransactionForm.tsx:33-35 | the platform's string length: at least one and at most two UTF-16 units per character |
| TransactionForm.Utf16LengthBmp | src/components/transactions/TransactionForm.tsx:33-35 | the length equals the number of characters exactly when no character lies outside the Basic Multilingual Plane |
| TransactionForm.Validate | src/components/transactions/TransactionForm.tsx:27-37 | succeeds exactly when the amount is nonzero, a date is given, the description is 3 to 50 UTF-16 units long and the category is listed; otherwise it reports each failed rule |
| TransactionForm.EmojiDescriptions | src/components/transactions/TransactionForm.tsx:33-35 | two emoji (four units) make a long enough description, and 26 emoji (52 units) one that is too long |
| TransactionForm.AllAstral | src/components/transactions/TransactionForm.tsx:33-35 | a string of characters outside the Basic Multilingual Plane is twice as long as its character count |
| TransactionForm.NormalizeSpec | src/components/transactions/TransactionForm.tsx:66-76 | the tab fixes the sign and keeps the size: expense not positive, income not negative, nonzero stays nonzero; applying it twice is applying it once |
| TransactionForm.EditKeepsAmount | src/components/transactions/TransactionForm.tsx:61-63 | editing a transaction opens on the tab of its sign, so an untouched submit keeps its amount |
| TransactionForm.Form.constructor | src/components/transactions/TransactionForm.tsx:61-63 | the form opens on income exactly for a positive default amount |
| TransactionForm.Form.SetTransactionType | src/components/transactions/TransactionForm.tsx:85 | switching tabs selects the given type |
| TransactionForm.Form.Submit | src/components/transactions/TransactionForm.tsx:66-76 | invalid values give the schema's errors; valid ones pass through with the tab-signed amount, negative for an expense and positive for income |
| TransactionForm.SeedsPassSchema | src/utils/mockData.ts:29-86 | every seed transaction would pass the form's schema |
| TransactionForm.KeepAmountChars | src/components/transactions/TransactionForm.tsx:109 | the filtered text is no longer than the input and holds exactly the input's digits and points |
| TransactionForm.KeepAmountCharsAppend | src/components/transactions/TransactionForm.tsx:109 | filtering a concatenation concatenates the filtered parts |
| TransactionForm.KeepAmountCharsSpec | src/components/transactions/TransactionForm.tsx:109 | a single character is kept when it is a digit or a point and dropped otherwise; the filter works piece by piece, so these pin it down; it keeps clean text unchanged, and filtering twice is filtering once |
| BudgetForm.Validate | frontend/src/components/budgets/BudgetForm.tsx:21-26 | succeeds exactly when the category is listed and the amount is positive; otherwise it reports each failed rule |
| BudgetForm.DefaultsAndIncome | frontend/src/components/budgets/BudgetForm.tsx:38-42 | the untouched form fails only on the amount, and the schema accepts an Income budget |
| BudgetForm.SelectableSpec | frontend/src/components/budgets/BudgetForm.tsx:69-71 | the select offers every category except Income, once each, in table order |
| IndexPage.TotalExpenses | src/pages/Index.tsx:18-32 | zero exactly when the month holds no expense, and equal to the sum of the month's per-category spending |
| IndexPage.TotalIncome | src/pages/Index.tsx:35-49 | with the expense total it splits the month: income plus expenses is the sum of sizes, and income minus expenses the signed sum |
| IndexPage.ExpenseTrend | src/pages/Index.tsx:52-95 | no contract of its own; `IndexPage.ExpenseTrendSpec` states its meaning |
| IndexPage.TopComparisons | src/pages/Index.tsx:126-142 | no contract of its own; `IndexPage.TopComparisonsSpec` and `IndexPage.TopComparisonsAreTop` state its meaning |
| Spending.Bump | src/pages/Index.tsx:116-121 | no contract of its own; `Spending.BumpKeys`, `BumpLookup`, `BumpSum` and `BumpInvariant` state its meaning |
| Spending.Comparisons | frontend/src/pages/Budgets.tsx:45-62 | no contract of its own; `Spending.ComparisonsSpec` states its meaning |
| CategoriesPage.Breakdown | src/pages/Categories.tsx:44-59 | no contract of its own; `CategoriesPage.BreakdownEntries` and `CategoriesPage.BreakdownOrder` state its meaning |
| TransactionsPage.SortTransactions | src/pages/Transactions.tsx:56-69 | no contract of its own; `TransactionsPage.SortTransactionsSpec` and `SortTransactionsStable` state its meaning |
| TransactionForm.Normalize | src/components/transactions/TransactionForm.tsx:66-76 | no contract of its own; `TransactionForm.NormalizeSpec` states its meaning |
| TransactionForm.InitialType | src/components/transactions/TransactionForm.tsx:61-63 | no contract of its own; `TransactionForm.EditKeepsAmount` and `TransactionForm.Form.constructor` state its meaning |
| BudgetProgressList.Messages | src/components/budgets/BudgetProgressList.tsx:51-65 | no contract of its own; `BudgetProgressList.MessagesSpec` states its meaning |
| BudgetProgressList.ToneOf | src/components/budgets/BudgetProgressList.tsx:43-47 | no contract of its own; `BudgetProgressList.MessagesSpec` ties each tone to its message |
| BudgetsPage.TotalBudgeted | frontend/src/pages/Budgets.tsx:65-67 | no contract of its own; `BudgetsPage.TotalBudgetedIsColumnSum` states its meaning |
| MockData.GetCategoryColor | src/utils/mockData.ts:24-26 | no contract of its own; it is `MockData.ColorIn` on the table, and `MockData.CategoryColorListed` states its meaning |
| BudgetForm.SelectableCategories | frontend/src/components/budgets/BudgetForm.tsx:69-71 | no contract of its own; `BudgetForm.SelectableSpec` states its meaning |
| CategoryChart.Render | src/components/dashboard/CategoryChart.tsx:62-73 | no contract of its own; `CategoryChart.PlaceholderExactlyWithoutExpenses` states its meaning |

Where the code and its documentation disagree, the model follows the code:

- The budgets page's total spent sums every expense of the month
  (`BudgetsSummary`), including expenses filed under Income. So it can differ
  from the sum of the comparisons' spent column, which excludes Income.
- The store's update and delete do not report an unknown id; they change
  nothing. `ReplaceByIdSpec` and `RemoveAbsentId` state this.
- The budget form's schema accepts an Income budget (`DefaultsAndIncome`);
  only the select hides Income.

## Left out

- Floating point: amounts are exact minor units, so `toFixed(2)` rounding and
  binary-fraction error are not modelled. Percentages and `Math.round` are
  computed exactly.
- The trend label's text (`toFixed(1)` of the percentage change): `PercentChange`
  keeps the two totals the label is computed from.
- Display strings: `formatCurrency`, `formatDate`, the day labels of the bar
  chart, and every piece of JSX, styling and charting markup.
- The time of day: dates are calendar days, and `isSameDay` is date equality.
- `generateId` (randomness and the clock): ids are parameters, and fresh ids
  are a precondition of adding.
- The schemas' `z.coerce.number()` reading of the amount text, including
  `NaN`: the form values hold the amount already read as an integer.
- The error `useFinance` raises outside its provider: the store is always
  passed explicitly.
- The display-only components `RecentTransactions`, `StatisticCard`,
  `TransactionsTable`, `BudgetComparisonChart`, `MainLayout` and
  `SideNavigation`.
- React state scheduling and memoisation: each handler's state change is
  applied at once.
- The order of the filters: the dashboard totals test the month and the sign
  in one filter, while the categories page filters by month first and by sign
  second. Both are the same conjunction, so the model uses one predicate,
  `Spending.Counts`.
- A monthly-spending series appears among the types (`MonthlySpending`), but no
  page computes it, so it is not modelled.
