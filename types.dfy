/** The records shared by every page and component of the finance tracker.
    Amounts are integers in minor currency units (cents or paise): negative for
    an expense, positive for income. */
module Types {
  import opened Wrappers

  /** The closed set of nine category names. */
  datatype Category =
    | Food
    | Transport
    | Entertainment
    | Bills
    | Housing
    | Shopping
    | Health
    | Income
    | Others

  /** The nine categories in the order the union lists them. */
  const AllCategories: seq<Category> :=
    [Food, Transport, Entertainment, Bills, Housing, Shopping, Health, Income, Others]

  /** The string a category is at run time. */
  function CategoryName(c: Category): string {
    match c
    case Food => "Food"
    case Transport => "Transport"
    case Entertainment => "Entertainment"
    case Bills => "Bills"
    case Housing => "Housing"
    case Shopping => "Shopping"
    case Health => "Health"
    case Income => "Income"
    case Others => "Others"
  }

  /** The category a run-time string names, if it names one. */
  function ParseCategory(s: string): (r: Option<Category>)
    ensures r.Some? ==> CategoryName(r.value) == s
  {
    if s == "Food" then Some(Food)
    else if s == "Transport" then Some(Transport)
    else if s == "Entertainment" then Some(Entertainment)
    else if s == "Bills" then Some(Bills)
    else if s == "Housing" then Some(Housing)
    else if s == "Shopping" then Some(Shopping)
    else if s == "Health" then Some(Health)
    else if s == "Income" then Some(Income)
    else if s == "Others" then Some(Others)
    else None
  }

  /** The union is closed: exactly nine distinct names, every category among
      them, and each name parses back to its category. */
  lemma CategoryUnionClosed(c: Category)
    ensures |AllCategories| == 9
    ensures c in AllCategories
    ensures forall i, j :: 0 <= i < j < |AllCategories| ==>
      CategoryName(AllCategories[i]) != CategoryName(AllCategories[j])
    ensures ParseCategory(CategoryName(c)) == Some(c)
  {
  }

  /** A calendar date: `month` is 0..11 as the platform's `getMonth` gives it,
      `day` is the day of the month from 1. The time of day is not modelled. */
  datatype Date = Date(year: int, month: int, day: int)

  /** A recorded money movement; the sign of `amount` says expense or income. */
  datatype Transaction = Transaction(
    id: string,
    amount: int,
    date: Date,
    description: string,
    category: Category)

  /** A transaction before the store has given it an id. */
  datatype TransactionInput = TransactionInput(
    amount: int,
    date: Date,
    description: string,
    category: Category)

  /** A monthly allocation for one category. */
  datatype CategoryBudget = CategoryBudget(category: Category, amount: int)

  /** One category's summed expenses. */
  datatype CategorySpending = CategorySpending(category: Category, amount: int)

  /** A budget set against what was spent in its category. */
  datatype BudgetComparison = BudgetComparison(
    category: Category,
    budgeted: int,
    spent: int,
    percentage: int)

  /** The transaction with its id taken off. */
  function WithoutId(t: Transaction): TransactionInput {
    TransactionInput(t.amount, t.date, t.description, t.category)
  }

  /** The record built from an input and an id: every input field kept, the id added. */
  function WithId(input: TransactionInput, id: string): (t: Transaction)
    ensures t.id == id && WithoutId(t) == input
  {
    Transaction(id, input.amount, input.date, input.description, input.category)
  }

  /** Adding an id and taking it off are inverse. */
  lemma WithIdRoundTrip(t: Transaction)
    ensures WithId(WithoutId(t), t.id) == t
  {
  }
}
