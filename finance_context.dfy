/** The application's store: the transaction list and the budget list, and the
    four operations that replace them. Each operation builds its new list with
    a spread, `map` or `filter`; those list functions are defined here and the
    store's methods assign their results. */
module FinanceContext {
  import opened Types
  import opened Calendar
  import MockData

  /** Every transaction has its own id. */
  ghost predicate UniqueIds(ts: seq<Transaction>) {
    forall i, j :: 0 <= i < j < |ts| ==> ts[i].id != ts[j].id
  }

  /** Every budget is for its own category. */
  ghost predicate UniqueCategories(budgets: seq<CategoryBudget>) {
    forall i, j :: 0 <= i < j < |budgets| ==> budgets[i].category != budgets[j].category
  }

  predicate HasId(ts: seq<Transaction>, id: string) {
    exists i :: 0 <= i < |ts| && ts[i].id == id
  }

  /** The ids, in list order. */
  function Ids(ts: seq<Transaction>): (ids: seq<string>)
    ensures |ids| == |ts| && forall i :: 0 <= i < |ts| ==> ids[i] == ts[i].id
  {
    seq(|ts|, i requires 0 <= i < |ts| => ts[i].id)
  }

  // ---- updateTransaction ----

  /** `ts.map(t => t.id === u.id ? u : t)` */
  function ReplaceById(ts: seq<Transaction>, u: Transaction): (r: seq<Transaction>)
    ensures |r| == |ts|
    ensures forall i :: 0 <= i < |ts| ==> r[i] == (if ts[i].id == u.id then u else ts[i])
  {
    seq(|ts|, i requires 0 <= i < |ts| => if ts[i].id == u.id then u else ts[i])
  }

  /** Updating keeps every id where it was, so the ids stay unique; an id the
      list does not hold leaves the list as it was; the updated record is in
      the list exactly when its id was; updating twice is updating once. */
  lemma ReplaceByIdSpec(ts: seq<Transaction>, u: Transaction)
    ensures Ids(ReplaceById(ts, u)) == Ids(ts)
    ensures UniqueIds(ts) ==> UniqueIds(ReplaceById(ts, u))
    ensures !HasId(ts, u.id) ==> ReplaceById(ts, u) == ts
    ensures u in ReplaceById(ts, u) <==> HasId(ts, u.id)
    ensures ReplaceById(ReplaceById(ts, u), u) == ReplaceById(ts, u)
  {
    var r := ReplaceById(ts, u);
    if u in r {
      var i :| 0 <= i < |r| && r[i] == u;
      assert ts[i].id == u.id;
    }
  }

  // ---- deleteTransaction ----

  /** `ts.filter(t => t.id !== id)` */
  function RemoveById(ts: seq<Transaction>, id: string): (r: seq<Transaction>)
    ensures |r| <= |ts|
    ensures forall t :: t in r <==> t in ts && t.id != id
    ensures !HasId(r, id)
  {
    if ts == [] then []
    else if ts[0].id != id then [ts[0]] + RemoveById(ts[1..], id)
    else RemoveById(ts[1..], id)
  }

  /** Deleting works element by element, so it keeps the order of what it
      keeps: deleting from a concatenation is concatenating the deletions. */
  lemma {:induction false} RemoveByIdAppend(a: seq<Transaction>, b: seq<Transaction>, id: string)
    ensures RemoveById(a + b, id) == RemoveById(a, id) + RemoveById(b, id)
  {
    if a != [] {
      RemoveByIdAppend(a[1..], b, id);
      assert (a + b)[1..] == a[1..] + b;
    } else {
      assert a + b == b;
    }
  }

  /** Deleting an id the list does not hold leaves the list as it was. */
  lemma {:induction false} RemoveAbsentId(ts: seq<Transaction>, id: string)
    requires !HasId(ts, id)
    ensures RemoveById(ts, id) == ts
  {
    if ts != [] {
      var tail := ts[1..];
      assert !HasId(tail, id) by {
        forall i | 0 <= i < |tail| ensures tail[i].id != id {
          assert tail[i] == ts[i + 1];
        }
      }
      RemoveAbsentId(tail, id);
      assert ts[0].id != id;
      assert ts == [ts[0]] + tail;
    }
  }

  lemma UniqueTail(ts: seq<Transaction>)
    requires UniqueIds(ts) && ts != []
    ensures UniqueIds(ts[1..])
    ensures forall t :: t in ts[1..] ==> t.id != ts[0].id
  {
    var tail := ts[1..];
    forall i, j | 0 <= i < j < |tail| ensures tail[i].id != tail[j].id {
      assert tail[i] == ts[i + 1] && tail[j] == ts[j + 1];
    }
    forall t | t in tail ensures t.id != ts[0].id {
      var k :| 0 <= k < |tail| && tail[k] == t;
      assert ts[k + 1] == t;
    }
  }

  lemma UniqueCons(x: Transaction, rest: seq<Transaction>)
    requires UniqueIds(rest)
    requires forall t :: t in rest ==> t.id != x.id
    ensures UniqueIds([x] + rest)
  {
    var r := [x] + rest;
    forall i, j | 0 <= i < j < |r| ensures r[i].id != r[j].id {
      assert r[j] == rest[j - 1];
      if i > 0 {
        assert r[i] == rest[i - 1];
      }
    }
  }

  /** Deleting keeps the ids unique. */
  lemma {:induction false} RemoveByIdUnique(ts: seq<Transaction>, id: string)
    requires UniqueIds(ts)
    ensures UniqueIds(RemoveById(ts, id))
  {
    if ts != [] {
      UniqueTail(ts);
      RemoveByIdUnique(ts[1..], id);
      if ts[0].id != id {
        UniqueCons(ts[0], RemoveById(ts[1..], id));
      }
    }
  }

  /** Adding a record under a fresh id and then deleting that id gives back
      the list as it was. */
  lemma AddThenDelete(ts: seq<Transaction>, input: TransactionInput, id: string)
    requires !HasId(ts, id)
    ensures RemoveById([WithId(input, id)] + ts, id) == ts
  {
    assert ([WithId(input, id)] + ts)[1..] == ts;
    RemoveAbsentId(ts, id);
  }

  // ---- updateBudget ----

  /** `budgets.map(b => b.category === c ? { ...b, amount } : b)` */
  function SetBudget(budgets: seq<CategoryBudget>, c: Category, amount: int): (r: seq<CategoryBudget>)
    ensures |r| == |budgets|
    ensures forall i :: 0 <= i < |budgets| ==>
      r[i] == (if budgets[i].category == c then CategoryBudget(c, amount) else budgets[i])
  {
    seq(|budgets|, i requires 0 <= i < |budgets| =>
      if budgets[i].category == c then budgets[i].(amount := amount) else budgets[i])
  }

  /** The amount budgeted for a category: that of its first entry. */
  function BudgetFor(budgets: seq<CategoryBudget>, c: Category): Wrappers.Option<int> {
    if budgets == [] then Wrappers.None
    else if budgets[0].category == c then Wrappers.Some(budgets[0].amount)
    else BudgetFor(budgets[1..], c)
  }

  /** Setting a budget keeps every entry's category, so it never adds or drops
      a category; afterwards the category's budget is the new amount, every
      other category's is unchanged, and a category without an entry leaves
      the list as it was. */
  lemma {:induction false} SetBudgetSpec(budgets: seq<CategoryBudget>, c: Category, amount: int, d: Category)
    ensures forall i :: 0 <= i < |budgets| ==> SetBudget(budgets, c, amount)[i].category == budgets[i].category
    ensures BudgetFor(SetBudget(budgets, c, amount), d) ==
      if d == c && BudgetFor(budgets, c).Some? then Wrappers.Some(amount) else BudgetFor(budgets, d)
    ensures (forall b :: b in budgets ==> b.category != c) ==> SetBudget(budgets, c, amount) == budgets
  {
    if budgets != [] {
      SetBudgetSpec(budgets[1..], c, amount, d);
      assert SetBudget(budgets, c, amount)[1..] == SetBudget(budgets[1..], c, amount);
    }
  }

  /** The store behind every page. */
  class FinanceStore {
    var transactions: seq<Transaction>
    var budgets: seq<CategoryBudget>

    /** Ids are unique and each category has at most one budget. */
    ghost predicate Valid()
      reads this
    {
      UniqueIds(transactions) && UniqueCategories(budgets)
    }

    /** The store starts from the seed data; `ids` stand for the generated ids. */
    constructor (ids: seq<string>, today: Date)
      requires |ids| == 8 && ValidDate(today)
      requires forall i, j :: 0 <= i < j < 8 ==> ids[i] != ids[j]
      ensures transactions == MockData.InitialTransactions(ids, today)
      ensures budgets == MockData.InitialBudgets
      ensures Valid()
    {
      transactions := MockData.InitialTransactions(ids, today);
      budgets := MockData.InitialBudgets;
      MockData.SeedBudgets(Food);
    }

    /** `addTransaction`: the input, given the fresh id, goes in front of the
        list; the budgets are untouched. */
    method AddTransaction(input: TransactionInput, id: string)
      requires !HasId(transactions, id)
      modifies this
      ensures transactions == [WithId(input, id)] + old(transactions)
      ensures budgets == old(budgets)
      ensures old(Valid()) ==> Valid()
    {
      transactions := [WithId(input, id)] + transactions;
      forall i | 1 <= i < |transactions| ensures transactions[i] == old(transactions)[i - 1] {}
    }

    /** `updateTransaction`: every record with the given record's id is
        replaced by it, all others stay; the budgets are untouched. */
    method UpdateTransaction(u: Transaction)
      modifies this
      ensures transactions == ReplaceById(old(transactions), u)
      ensures budgets == old(budgets)
      ensures old(Valid()) ==> Valid()
    {
      ReplaceByIdSpec(transactions, u);
      transactions := ReplaceById(transactions, u);
    }

    /** `deleteTransaction`: every record with the id is dropped, the others
        keep their order; an unknown id changes nothing; the budgets are untouched. */
    method DeleteTransaction(id: string)
      modifies this
      ensures transactions == RemoveById(old(transactions), id)
      ensures !HasId(transactions, id)
      ensures budgets == old(budgets)
      ensures old(Valid()) ==> Valid()
    {
      if UniqueIds(transactions) {
        RemoveByIdUnique(transactions, id);
      }
      transactions := RemoveById(transactions, id);
    }

    /** `updateBudget`: the entries for the category take the new amount; the
        transactions are untouched. */
    method UpdateBudget(c: Category, amount: int)
      modifies this
      ensures budgets == SetBudget(old(budgets), c, amount)
      ensures transactions == old(transactions)
      ensures old(Valid()) ==> Valid()
    {
      budgets := SetBudget(budgets, c, amount);
    }
  }
}
