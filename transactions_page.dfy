/** The transactions page: the dialog state, the dispatch of a submitted form
    to the store's add or update, deletion, and the four sort orders of the
    displayed copy of the list. */
module TransactionsPage {
  import opened Wrappers
  import opened Types
  import opened Calendar
  import Seqs
  import FinanceContext

  function DateKey(t: Transaction): int {
    TimeKey(t.date)
  }

  function AmountKey(t: Transaction): int {
    t.amount
  }

  /** The number the comparator orders by, largest first: "date-asc" and
      "amount-asc" negate it; an unknown option orders as "date-desc". */
  function SortKey(option: string, t: Transaction): int {
    if option == "date-desc" then DateKey(t)
    else if option == "date-asc" then -DateKey(t)
    else if option == "amount-desc" then AmountKey(t)
    else if option == "amount-asc" then -AmountKey(t)
    else DateKey(t)
  }

  /** `[...transactions].sort(comparator)` (a stable sort). */
  function SortTransactions(ts: seq<Transaction>, option: string): seq<Transaction> {
    Seqs.SortDesc(ts, t => SortKey(option, t))
  }

  /** The options other than the four named ones. */
  predicate Unknown(option: string) {
    option !in {"date-desc", "date-asc", "amount-desc", "amount-asc"}
  }

  /** Every order is a rearrangement of the list; each option sorts by its
      key in its direction; an unknown option sorts as "date-desc". */
  lemma SortTransactionsSpec(ts: seq<Transaction>, option: string)
    ensures multiset(SortTransactions(ts, option)) == multiset(ts)
    ensures |SortTransactions(ts, option)| == |ts|
    ensures option == "date-desc" || Unknown(option) ==> Seqs.NonIncreasing(SortTransactions(ts, option), DateKey)
    ensures option == "date-asc" ==> Seqs.NonDecreasing(SortTransactions(ts, option), DateKey)
    ensures option == "amount-desc" ==> Seqs.NonIncreasing(SortTransactions(ts, option), AmountKey)
    ensures option == "amount-asc" ==> Seqs.NonDecreasing(SortTransactions(ts, option), AmountKey)
    ensures Unknown(option) ==> SortTransactions(ts, option) == SortTransactions(ts, "date-desc")
  {
    var key := t => SortKey(option, t);
    var r := SortTransactions(ts, option);
    if option == "date-asc" {
      Seqs.NegatedKeyAscending(r, DateKey, key);
    } else if option == "amount-asc" {
      Seqs.NegatedKeyAscending(r, AmountKey, key);
    }
    if Unknown(option) {
      SameKeySameSort(ts, key, t => SortKey("date-desc", t));
    }
  }

  /** Two keys that agree everywhere sort alike. */
  lemma {:induction false} SameKeySameSort(ts: seq<Transaction>, k1: Transaction -> int, k2: Transaction -> int)
    requires forall t :: k1(t) == k2(t)
    ensures Seqs.SortDesc(ts, k1) == Seqs.SortDesc(ts, k2)
  {
    if ts != [] {
      SameKeySameSort(ts[1..], k1, k2);
      SameKeyInsert(ts[0], Seqs.SortDesc(ts[1..], k1), k1, k2);
    }
  }

  lemma {:induction false} SameKeyInsert(x: Transaction, ys: seq<Transaction>, k1: Transaction -> int, k2: Transaction -> int)
    requires forall t :: k1(t) == k2(t)
    requires Seqs.NonIncreasing(ys, k1)
    ensures Seqs.NonIncreasing(ys, k2)
    ensures Seqs.Insert(x, ys, k1) == Seqs.Insert(x, ys, k2)
  {
    if ys != [] && k1(ys[0]) > k1(x) {
      SameKeyInsert(x, ys[1..], k1, k2);
    }
  }

  /** Transactions that tie under an option's key keep their list order. */
  lemma SortTransactionsStable(ts: seq<Transaction>, option: string, v: int)
    ensures Seqs.WithKey(SortTransactions(ts, option), t => SortKey(option, t), v)
         == Seqs.WithKey(ts, t => SortKey(option, t), v)
  {
    Seqs.SortDescStable(ts, t => SortKey(option, t), v);
  }

  /** The page's state and the store it works on. */
  class Page {
    const store: FinanceContext.FinanceStore
    var isDialogOpen: bool
    var selected: Option<Transaction>
    var sortOption: string

    /** The dialog starts closed with nothing selected, sorted newest first. */
    constructor (store: FinanceContext.FinanceStore)
      ensures this.store == store
      ensures !isDialogOpen && selected == None && sortOption == "date-desc"
    {
      this.store := store;
      isDialogOpen := false;
      selected := None;
      sortOption := "date-desc";
    }

    /** `handleOpenForm`: remember the transaction to edit (or none) and open
        the dialog. */
    method OpenForm(t: Option<Transaction>)
      modifies this
      ensures isDialogOpen && selected == t && sortOption == old(sortOption)
    {
      selected := t;
      isDialogOpen := true;
    }

    /** `handleSubmitForm`: with a selection, the store updates the record
        with the selection's id to the submitted fields; without one, it adds
        them under the fresh id. Either way the dialog closes and the
        selection is cleared. */
    method SubmitForm(data: TransactionInput, freshId: string)
      requires selected.None? ==> !FinanceContext.HasId(store.transactions, freshId)
      modifies this, store
      ensures old(selected).Some? ==>
        store.transactions == FinanceContext.ReplaceById(old(store.transactions), WithId(data, old(selected).value.id))
      ensures old(selected).None? ==>
        store.transactions == [WithId(data, freshId)] + old(store.transactions)
      ensures store.budgets == old(store.budgets)
      ensures old(store.Valid()) ==> store.Valid()
      ensures !isDialogOpen && selected == None && sortOption == old(sortOption)
    {
      if selected.Some? {
        store.UpdateTransaction(WithId(data, selected.value.id));
      } else {
        store.AddTransaction(data, freshId);
      }
      isDialogOpen := false;
      selected := None;
    }

    /** `handleDeleteTransaction`: hand the id to the store. */
    method DeleteTransaction(id: string)
      modifies store
      ensures store.transactions == FinanceContext.RemoveById(old(store.transactions), id)
      ensures store.budgets == old(store.budgets)
      ensures old(store.Valid()) ==> store.Valid()
    {
      store.DeleteTransaction(id);
    }

    /** `sortedTransactions`: a sorted copy; the store's list keeps its order. */
    function SortedTransactions(): seq<Transaction>
      reads this, store
    {
      SortTransactions(store.transactions, sortOption)
    }
  }
}
