/** The category table, the colour lookup and the seed records of the
    application (the US-dollar variant). Amounts are in cents. */
module MockData {
  import opened Types
  import opened Calendar

  /** One row of the category table: a name and its display colour. */
  datatype CategoryEntry = CategoryEntry(name: Category, color: string)

  /** The colour used when the table gives none. */
  const DefaultColor: string := "#9CA3AF"

  const Categories: seq<CategoryEntry> := [
    CategoryEntry(Food, "#8B5CF6"),
    CategoryEntry(Transport, "#10B981"),
    CategoryEntry(Entertainment, "#F59E0B"),
    CategoryEntry(Bills, "#EF4444"),
    CategoryEntry(Housing, "#6366F1"),
    CategoryEntry(Shopping, "#EC4899"),
    CategoryEntry(Health, "#14B8A6"),
    CategoryEntry(Income, "#22C55E"),
    CategoryEntry(Others, "#9CA3AF")
  ]

  /** The names of a table's rows, in order. */
  function Names(table: seq<CategoryEntry>): (names: seq<Category>)
    ensures |names| == |table|
    ensures forall i :: 0 <= i < |table| ==> names[i] == table[i].name
  {
    seq(|table|, i requires 0 <= i < |table| => table[i].name)
  }

  /** The table lookup `find(row => row.name === c)?.color || DefaultColor`:
      the colour of the first row named `c`, unless there is no such row or
      its colour is the empty string. */
  function ColorIn(table: seq<CategoryEntry>, c: Category): (color: string)
    ensures (forall i :: 0 <= i < |table| ==> table[i].name != c) ==> color == DefaultColor
    ensures forall i :: 0 <= i < |table| && table[i].name == c
                          && (forall k :: 0 <= k < i ==> table[k].name != c) ==>
              color == (if table[i].color != "" then table[i].color else DefaultColor)
  {
    if table == [] then DefaultColor
    else if table[0].name == c then
      (if table[0].color != "" then table[0].color else DefaultColor)
    else
      var rest := ColorIn(table[1..], c);
      assert forall i :: 1 <= i < |table| ==> table[1..][i - 1] == table[i];
      rest
  }

  /** The colour the application shows for a category. */
  function GetCategoryColor(c: Category): string {
    ColorIn(Categories, c)
  }

  /** The table has one row per category, with distinct names, in the order
      the category union lists them. */
  lemma CategoriesTable()
    ensures |Categories| == 9
    ensures Names(Categories) == AllCategories
    ensures forall i, j :: 0 <= i < j < |Categories| ==> Categories[i].name != Categories[j].name
  {
    assert Names(Categories) == AllCategories;
  }

  /** Each category is shown in the colour of its row. */
  lemma CategoryColorListed(i: nat)
    requires i < |Categories|
    ensures GetCategoryColor(Categories[i].name) == Categories[i].color
  {
    CategoriesTable();
    assert Categories[i].color != "" by {
      assert |Categories[i].color| == 7;
    }
  }

  /** The seed transactions, dated one to seven days before `today`; the
      eight ids stand for the freshly generated ones. */
  function InitialTransactions(ids: seq<string>, today: Date): (ts: seq<Transaction>)
    requires |ids| == 8 && ValidDate(today)
    ensures |ts| == 8
    ensures forall i :: 0 <= i < 8 ==> ts[i].id == ids[i]
  {
    [
      Transaction(ids[0], -4599, SubDays(today, 1), "Grocery Shopping", Food),
      Transaction(ids[1], -1250, SubDays(today, 2), "Bus Pass", Transport),
      Transaction(ids[2], -2500, SubDays(today, 3), "Movie Tickets", Entertainment),
      Transaction(ids[3], -8550, SubDays(today, 4), "Electric Bill", Bills),
      Transaction(ids[4], -95000, SubDays(today, 5), "Monthly Rent", Housing),
      Transaction(ids[5], 175000, SubDays(today, 5), "Salary", Income),
      Transaction(ids[6], -3499, SubDays(today, 6), "T-shirt", Shopping),
      Transaction(ids[7], -6500, SubDays(today, 7), "Doctor Visit", Health)
    ]
  }

  /** Every seed amount is nonzero, only the Income-category one is positive,
      and every seed date is a real date before today. */
  lemma SeedTransactions(ids: seq<string>, today: Date)
    requires |ids| == 8 && ValidDate(today)
    ensures forall t :: t in InitialTransactions(ids, today) ==>
      t.amount != 0
      && (t.amount > 0 <==> t.category == Income)
      && ValidDate(t.date) && TimeKey(t.date) < TimeKey(today)
  {
    var ts := InitialTransactions(ids, today);
    forall i | 0 <= i < 8
      ensures ts[i].amount != 0 && (ts[i].amount > 0 <==> ts[i].category == Income)
      ensures ValidDate(ts[i].date) && TimeKey(ts[i].date) < TimeKey(today)
    {
      var k: nat := if i <= 5 then i + 1 - (if i == 5 then 1 else 0) else i;
      assert ts[i].date == SubDays(today, k);
    }
  }

  const InitialBudgets: seq<CategoryBudget> := [
    CategoryBudget(Food, 30000),
    CategoryBudget(Transport, 15000),
    CategoryBudget(Entertainment, 20000),
    CategoryBudget(Bills, 35000),
    CategoryBudget(Housing, 120000),
    CategoryBudget(Shopping, 15000),
    CategoryBudget(Health, 10000),
    CategoryBudget(Others, 10000)
  ]

  /** The seed budgets cover every category except Income exactly once, each
      with a positive amount. */
  lemma SeedBudgets(c: Category)
    ensures c != Income <==> exists i :: 0 <= i < |InitialBudgets| && InitialBudgets[i].category == c
    ensures forall i, j :: 0 <= i < j < |InitialBudgets| ==>
      InitialBudgets[i].category != InitialBudgets[j].category
    ensures forall b :: b in InitialBudgets ==> b.amount > 0
  {
    if c != Income {
      var i := match c
        case Food => 0 case Transport => 1 case Entertainment => 2 case Bills => 3
        case Housing => 4 case Shopping => 5 case Health => 6 case _ => 7;
      assert InitialBudgets[i].category == c;
    }
  }
}
