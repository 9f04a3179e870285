/** The budget form (rupee variant): its schema, its default values and the
    categories it offers. The amount field uses the same character filter as
    the transaction form, `TransactionForm.KeepAmountChars`. */
module BudgetForm {
  import opened Wrappers
  import opened Types
  import MockData
  import MockDataInr
  import TransactionForm
  import Seqs

  /** The form's values once the amount has been read as a number (in minor units). */
  datatype BudgetValues = BudgetValues(category: string, amount: int)

  datatype BudgetError = CategoryNotListed | NotPositive

  /** The schema's category enum: the names of this variant's table rows. */
  predicate InCategoryEnum(s: string) {
    exists i :: 0 <= i < |MockDataInr.Categories| && CategoryName(MockDataInr.Categories[i].name) == s
  }

  /** `budgetFormSchema`: the budget, or every rule that failed. */
  function Validate(v: BudgetValues): (r: Result<CategoryBudget, seq<BudgetError>>)
    ensures r.Success? <==> ParseCategory(v.category).Some? && v.amount > 0
    ensures r.Success? ==> r.value == CategoryBudget(ParseCategory(v.category).value, v.amount)
    ensures r.Failure? ==>
      && (CategoryNotListed in r.error <==> ParseCategory(v.category).None?)
      && (NotPositive in r.error <==> v.amount <= 0)
  {
    MockDataInr.SameTableAsDollarVariant(Food);
    assert InCategoryEnum(v.category) == TransactionForm.InCategoryEnum(v.category);
    TransactionForm.CategoryEnumIsUnion(v.category);
    var errs := (if !InCategoryEnum(v.category) then [CategoryNotListed] else [])
      + (if v.amount <= 0 then [NotPositive] else []);
    if errs == [] then Success(CategoryBudget(ParseCategory(v.category).value, v.amount))
    else Failure(errs)
  }

  /** The form opens on Food with amount 0. */
  const Defaults: BudgetValues := BudgetValues("Food", 0)

  /** Submitting the untouched form fails on the amount alone; the schema
      itself accepts an Income budget even though the list does not offer it. */
  lemma DefaultsAndIncome(amount: int)
    requires amount > 0
    ensures Validate(Defaults) == Failure([NotPositive])
    ensures Validate(BudgetValues("Income", amount)) == Success(CategoryBudget(Income, amount))
  {
    assert CategoryName(MockDataInr.Categories[0].name) == "Food";
    assert InCategoryEnum("Food");
    assert CategoryName(MockDataInr.Categories[7].name) == "Income";
    assert InCategoryEnum("Income");
    assert Defaults.amount <= 0;
    var errs: seq<BudgetError> := [] + [NotPositive];
    assert errs == [NotPositive];
    assert Validate(Defaults).Failure?;
    assert Validate(Defaults).error == errs;
  }

  /** `categories.filter(c => c.name !== 'Income')` */
  function SelectableCategories(table: seq<MockData.CategoryEntry>): seq<MockData.CategoryEntry> {
    Seqs.Filter(table, (e: MockData.CategoryEntry) => e.name != Income)
  }

  /** The list offers every category except Income once each, in table order. */
  lemma SelectableSpec(c: Category)
    ensures MockData.Names(SelectableCategories(MockDataInr.Categories))
         == [Food, Transport, Entertainment, Bills, Housing, Shopping, Health, Others]
    ensures c in MockData.Names(SelectableCategories(MockDataInr.Categories)) <==> c != Income
  {
    var t := MockDataInr.Categories;
    var p := (e: MockData.CategoryEntry) => e.name != Income;
    assert t == t[..7] + [t[7]] + t[8..];
    Seqs.FilterAppend(t[..7] + [t[7]], t[8..], p);
    Seqs.FilterAppend(t[..7], [t[7]], p);
    assert Seqs.Filter([t[7]], p) == [];
    Seqs.FilterAll(t[..7], p);
    Seqs.FilterAll(t[8..], p);
  }
}
