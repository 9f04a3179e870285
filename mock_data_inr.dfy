/** The rupee variant of the category table, colour lookup and seed records,
    used by the pages under `frontend/`. Amounts are in paise. */
module MockDataInr {
  import opened Types
  import opened Calendar
  import MockData

  const Categories: seq<MockData.CategoryEntry> := [
    MockData.CategoryEntry(Food, "#8B5CF6"),
    MockData.CategoryEntry(Transport, "#10B981"),
    MockData.CategoryEntry(Entertainment, "#F59E0B"),
    MockData.CategoryEntry(Bills, "#EF4444"),
    MockData.CategoryEntry(Housing, "#6366F1"),
    MockData.CategoryEntry(Shopping, "#EC4899"),
    MockData.CategoryEntry(Health, "#14B8A6"),
    MockData.CategoryEntry(Income, "#22C55E"),
    MockData.CategoryEntry(Others, "#9CA3AF")
  ]

  /** The colour this variant shows for a category. */
  function GetCategoryColor(c: Category): string {
    MockData.ColorIn(Categories, c)
  }

  /** The rupee table has the same nine rows, names and colours as the dollar
      one, so both variants colour every category alike. */
  lemma SameTableAsDollarVariant(c: Category)
    ensures Categories == MockData.Categories
    ensures |Categories| == 9
    ensures forall i, j :: 0 <= i < j < |Categories| ==> Categories[i].name != Categories[j].name
    ensures GetCategoryColor(c) == MockData.GetCategoryColor(c)
  {
    MockData.CategoriesTable();
  }

  /** The seed transactions, dated one to seven days before `today`. */
  function InitialTransactions(ids: seq<string>, today: Date): (ts: seq<Transaction>)
    requires |ids| == 8 && ValidDate(today)
    ensures |ts| == 8
    ensures forall i :: 0 <= i < 8 ==> ts[i].id == ids[i]
  {
    [
      Transaction(ids[0], -850000, SubDays(today, 1), "Grocery Shopping at DMart", Food),
      Transaction(ids[1], -300000, SubDays(today, 2), "Metro Card Recharge", Transport),
      Transaction(ids[2], -450000, SubDays(today, 3), "PVR Movies with Family", Entertainment),
      Transaction(ids[3], -750000, SubDays(today, 4), "Electricity Bill", Bills),
      Transaction(ids[4], -4500000, SubDays(today, 5), "Monthly Rent", Housing),
      Transaction(ids[5], 25000000, SubDays(today, 5), "Monthly Salary", Income),
      Transaction(ids[6], -1500000, SubDays(today, 6), "Clothes Shopping at Mall", Shopping),
      Transaction(ids[7], -350000, SubDays(today, 7), "Doctor Consultation", Health)
    ]
  }

  /** Every seed amount is nonzero, only the Income-category one is positive,
      and every seed date is a real date before today. */
  lemma SeedTransactions(ids: seq<string>, today: Date)
    requires |ids| == 8 && ValidDate(today)
    ensures forall t :: t in InitialTransactions(ids, today) ==>
      t.amount != 0
      && (t.amount > 0 <==> t.category == Income)
      && ValidDate(t.date) && TimeKey(t.date) < TimeKey(today)
  {
    var ts := InitialTransactions(ids, today);
    forall i | 0 <= i < 8
      ensures ts[i].amount != 0 && (ts[i].amount > 0 <==> ts[i].category == Income)
      ensures ValidDate(ts[i].date) && TimeKey(ts[i].date) < TimeKey(today)
    {
      var k: nat := if i <= 5 then i + 1 - (if i == 5 then 1 else 0) else i;
      assert ts[i].date == SubDays(today, k);
    }
  }

  const InitialBudgets: seq<CategoryBudget> := [
    CategoryBudget(Food, 2500000),
    CategoryBudget(Transport, 800000),
    CategoryBudget(Entertainment, 1500000),
    CategoryBudget(Bills, 2000000),
    CategoryBudget(Housing, 5000000),
    CategoryBudget(Shopping, 2000000),
    CategoryBudget(Health, 1000000),
    CategoryBudget(Others, 1500000)
  ]

  /** The seed budgets cover every category except Income exactly once, each
      with a positive amount. */
  lemma SeedBudgets(c: Category)
    ensures c != Income <==> exists i :: 0 <= i < |InitialBudgets| && InitialBudgets[i].category == c
    ensures forall i, j :: 0 <= i < j < |InitialBudgets| ==>
      InitialBudgets[i].category != InitialBudgets[j].category
    ensures forall b :: b in InitialBudgets ==> b.amount > 0
  {
    if c != Income {
      var i := match c
        case Food => 0 case Transport => 1 case Entertainment => 2 case Bills => 3
        case Housing => 4 case Shopping => 5 case Health => 6 case _ => 7;
      assert InitialBudgets[i].category == c;
    }
  }
}
