/** The categories page: this month's expenses per category as a share of the
    month's total, one entry per category with expenses, largest first, and
    the fixed description of each category. */
module CategoriesPage {
  import opened Types
  import opened Spending
  import Seqs
  import MockData

  /** One category's line on the page. */
  datatype CategoryStat = CategoryStat(name: Category, color: string, amount: int, percentage: int)

  function Amount(s: CategoryStat): int {
    s.amount
  }

  function StatName(s: CategoryStat): Category {
    s.name
  }

  /** `categories.map(...)`: one stat per table row, in table order. */
  function TableStats(rec: seq<CategorySpending>, total: int): (stats: seq<CategoryStat>)
    ensures |stats| == |MockData.Categories|
    ensures forall i :: 0 <= i < |stats| ==>
      stats[i].name == MockData.Categories[i].name && stats[i].color == MockData.Categories[i].color
  {
    seq(|MockData.Categories|, i requires 0 <= i < |MockData.Categories| =>
      var row := MockData.Categories[i];
      var amount := Lookup(rec, row.name);
      CategoryStat(row.name, row.color, amount, Percent(amount, total)))
  }

  /** `filter(cat => cat.amount > 0)` */
  function WithExpenses(stats: seq<CategoryStat>): (r: seq<CategoryStat>)
    ensures forall s :: s in r <==> s in stats && s.amount > 0
  {
    if stats == [] then []
    else if stats[0].amount > 0 then [stats[0]] + WithExpenses(stats[1..])
    else WithExpenses(stats[1..])
  }

  /** The page's list, built from a spending record: the total is the sum of
      the record's values, and the sort puts the largest amount first. */
  function Breakdown(rec: seq<CategorySpending>): seq<CategoryStat> {
    Seqs.SortDesc(WithExpenses(TableStats(rec, RecordSum(rec))), Amount)
  }

  /** `categoriesData`: the spending loop over this month's expenses, then the
      breakdown. */
  method CategoriesData(ts: seq<Transaction>, now: Date) returns (r: seq<CategoryStat>)
    ensures r == Breakdown(SpendingRecord(ts, Month(now.year, now.month)))
    ensures forall s :: s in r ==>
      s.amount == CategorySum(ts, Month(now.year, now.month), s.name) > 0
      && s.percentage == Percent(s.amount, ExpenseSum(ts, Month(now.year, now.month)))
  {
    var rec := AccumulateSpending(ts, Month(now.year, now.month));
    r := Breakdown(rec);
    BreakdownEntries(ts, Month(now.year, now.month));
  }

  /** Where a table row's stat lands. */
  lemma StatInTable(rec: seq<CategorySpending>, total: int, s: CategoryStat)
    requires s in TableStats(rec, total)
    ensures s.amount == Lookup(rec, s.name)
    ensures s.percentage == Percent(s.amount, total)
    ensures s.color == MockData.GetCategoryColor(s.name)
  {
    var k :| 0 <= k < |TableStats(rec, total)| && TableStats(rec, total)[k] == s;
    MockData.CategoryColorListed(k);
  }

  /** Each entry is a category with expenses this window: its amount is the
      window's expenses in that category, its percentage the rounded share of
      all the window's expenses, its colour the table's; and a category has
      an entry exactly when it has expenses. */
  lemma BreakdownEntries(ts: seq<Transaction>, w: Window)
    ensures forall s :: s in Breakdown(SpendingRecord(ts, w)) ==>
      s.amount == CategorySum(ts, w, s.name) > 0
      && s.percentage == Percent(s.amount, ExpenseSum(ts, w))
      && s.color == MockData.GetCategoryColor(s.name)
    ensures forall c :: (exists s :: s in Breakdown(SpendingRecord(ts, w)) && s.name == c)
                        <==> CategorySum(ts, w, c) > 0
  {
    forall s | s in Breakdown(SpendingRecord(ts, w))
      ensures s.amount == CategorySum(ts, w, s.name) > 0
      ensures s.percentage == Percent(s.amount, ExpenseSum(ts, w))
      ensures s.color == MockData.GetCategoryColor(s.name)
    {
      BreakdownEntry(ts, w, s);
    }
    forall c | CategorySum(ts, w, c) > 0
      ensures exists s :: s in Breakdown(SpendingRecord(ts, w)) && s.name == c
    {
      BreakdownListed(ts, w, c);
    }
  }

  /** One entry of the breakdown. */
  lemma BreakdownEntry(ts: seq<Transaction>, w: Window, s: CategoryStat)
    requires s in Breakdown(SpendingRecord(ts, w))
    ensures s.amount == CategorySum(ts, w, s.name) > 0
    ensures s.percentage == Percent(s.amount, ExpenseSum(ts, w))
    ensures s.color == MockData.GetCategoryColor(s.name)
  {
    var rec := SpendingRecord(ts, w);
    var pos := WithExpenses(TableStats(rec, RecordSum(rec)));
    assert s in multiset(Breakdown(rec));
    assert s in multiset(pos);
    StatInTable(rec, RecordSum(rec), s);
  }

  /** A category with expenses has an entry. */
  lemma BreakdownListed(ts: seq<Transaction>, w: Window, c: Category)
    requires CategorySum(ts, w, c) > 0
    ensures exists s :: s in Breakdown(SpendingRecord(ts, w)) && s.name == c
  {
    var rec := SpendingRecord(ts, w);
    var stats := TableStats(rec, RecordSum(rec));
    MockData.CategoriesTable();
    CategoryUnionClosed(c);
    assert c in MockData.Names(MockData.Categories);
    var k :| 0 <= k < |MockData.Categories| && MockData.Categories[k].name == c;
    var s := stats[k];
    assert s.amount == Lookup(rec, c);
    assert s in WithExpenses(stats);
    assert s in multiset(Breakdown(rec));
  }

  lemma {:induction false} WithExpensesDistinct(stats: seq<CategoryStat>)
    requires Seqs.DistinctBy(stats, StatName)
    ensures Seqs.DistinctBy(WithExpenses(stats), StatName)
  {
    if stats != [] {
      Seqs.DistinctTail(stats, StatName);
      WithExpensesDistinct(stats[1..]);
      if stats[0].amount > 0 {
        Seqs.DistinctCons(stats[0], WithExpenses(stats[1..]), StatName);
      }
    }
  }

  /** Keeping the entries with expenses keeps, for a positive amount, all the
      entries with that amount in their order. */
  lemma {:induction false} WithExpensesTies(stats: seq<CategoryStat>, v: int)
    requires v > 0
    ensures Seqs.WithKey(WithExpenses(stats), Amount, v) == Seqs.WithKey(stats, Amount, v)
  {
    if stats != [] {
      WithExpensesTies(stats[1..], v);
      if stats[0].amount > 0 {
        assert ([stats[0]] + WithExpenses(stats[1..]))[1..] == WithExpenses(stats[1..]);
      }
    }
  }

  /** The list runs from the largest amount down, names no category twice,
      and lists categories with equal amounts in table order. */
  lemma BreakdownOrder(rec: seq<CategorySpending>, v: int)
    requires v > 0
    ensures Seqs.NonIncreasing(Breakdown(rec), Amount)
    ensures Seqs.DistinctBy(Breakdown(rec), StatName)
    ensures Seqs.WithKey(Breakdown(rec), Amount, v) ==
            Seqs.WithKey(TableStats(rec, RecordSum(rec)), Amount, v)
  {
    var stats := TableStats(rec, RecordSum(rec));
    MockData.CategoriesTable();
    WithExpensesDistinct(stats);
    Seqs.SortDescDistinct(WithExpenses(stats), Amount, StatName);
    Seqs.SortDescStable(WithExpenses(stats), Amount, v);
    WithExpensesTies(stats, v);
  }

  /** `getCategoryDescription`: every category has its own fixed text. The
      switch's empty-string default is unreachable for the closed union. */
  function Description(c: Category): (d: string)
    ensures d != ""
  {
    match c
    case Food => "Groceries, restaurants, take-out and delivery"
    case Transport => "Public transportation, fuel, parking, car maintenance"
    case Entertainment => "Movies, concerts, subscriptions, hobbies"
    case Bills => "Utilities, phone bills, internet, insurance"
    case Housing => "Rent, mortgage, property taxes, repairs"
    case Shopping => "Clothing, electronics, home goods"
    case Health => "Medical expenses, prescriptions, fitness"
    case Income => "Salary, freelance work, investments"
    case Others => "Miscellaneous expenses and uncategorized items"
  }
}
