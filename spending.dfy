/** The per-category spending record that the dashboard, the budgets page, the
    categories page and the category chart each build with a `forEach` loop over
    the expenses of a time window, and the budget comparisons made from it.

    The platform's `Record<Category, number>` keeps its keys in insertion
    order; it is modelled as a list of `CategorySpending` entries with
    distinct categories, in the order the keys were first written. */
module Spending {
  import opened Types
  import Seqs

  /** The dates a computation looks at: one calendar month, or all time. */
  datatype Window = Month(year: int, month: int) | AllTime

  predicate InWindow(d: Date, w: Window) {
    match w
    case Month(y, m) => d.month == m && d.year == y
    case AllTime => true
  }

  /** The transactions a spending record counts: expenses inside the window. */
  predicate Counts(t: Transaction, w: Window) {
    t.amount < 0 && InWindow(t.date, w)
  }

  function Abs(x: int): (r: nat)
    ensures r == x || r == -x
  {
    if x < 0 then -x else x
  }

  /** Reference sum: |amount| over the counted transactions of category `c`. */
  function CategorySum(ts: seq<Transaction>, w: Window, c: Category): nat {
    if ts == [] then 0
    else
      var t := ts[|ts| - 1];
      CategorySum(ts[..|ts| - 1], w, c) + (if Counts(t, w) && t.category == c then Abs(t.amount) else 0)
  }

  /** Reference sum: |amount| over all counted transactions. */
  function ExpenseSum(ts: seq<Transaction>, w: Window): nat {
    if ts == [] then 0
    else
      var t := ts[|ts| - 1];
      ExpenseSum(ts[..|ts| - 1], w) + (if Counts(t, w) then Abs(t.amount) else 0)
  }

  /** Position of the first counted transaction of category `c`, or `|ts|`
      when there is none. */
  function FirstIndex(ts: seq<Transaction>, w: Window, c: Category): (k: nat)
    ensures k <= |ts|
    ensures k < |ts| ==> Counts(ts[k], w) && ts[k].category == c
    ensures forall i :: 0 <= i < k ==> !(Counts(ts[i], w) && ts[i].category == c)
  {
    if ts == [] then 0
    else if Counts(ts[0], w) && ts[0].category == c then 0
    else
      var k := FirstIndex(ts[1..], w, c);
      assert forall i :: 1 <= i < |ts| ==> ts[1..][i - 1] == ts[i];
      1 + k
  }

  // ---- the record ----

  /** The record's keys, in insertion order. */
  function Keys(rec: seq<CategorySpending>): (ks: seq<Category>)
    ensures |ks| == |rec|
    ensures forall i :: 0 <= i < |rec| ==> ks[i] == rec[i].category
  {
    if rec == [] then [] else [rec[0].category] + Keys(rec[1..])
  }

  predicate HasKey(rec: seq<CategorySpending>, c: Category) {
    c in Keys(rec)
  }

  ghost predicate DistinctKeys(rec: seq<CategorySpending>) {
    forall i, j :: 0 <= i < j < |rec| ==> rec[i].category != rec[j].category
  }

  ghost predicate AllPositive(rec: seq<CategorySpending>) {
    forall i :: 0 <= i < |rec| ==> rec[i].amount > 0
  }

  /** `record[c] || 0`: the value stored under `c`, or 0 when there is none. */
  function Lookup(rec: seq<CategorySpending>, c: Category): int {
    if rec == [] then 0
    else if rec[0].category == c then rec[0].amount
    else Lookup(rec[1..], c)
  }

  /** `Object.values(record).reduce((a, v) => a + v, 0)` */
  function RecordSum(rec: seq<CategorySpending>): int {
    if rec == [] then 0 else rec[0].amount + RecordSum(rec[1..])
  }

  /** One step of the loop: `record[c] += x` when the key exists, otherwise
      `record[c] = x`, which writes a new key last. */
  function Bump(rec: seq<CategorySpending>, c: Category, x: int): seq<CategorySpending> {
    if rec == [] then
      [CategorySpending(c, x)]
    else if rec[0].category == c then
      [rec[0].(amount := rec[0].amount + x)] + rec[1..]
    else
      [rec[0]] + Bump(rec[1..], c, x)
  }

  /** A step keeps the keys, or appends `c` when it is new. */
  lemma {:induction false} BumpKeys(rec: seq<CategorySpending>, c: Category, x: int)
    ensures Keys(Bump(rec, c, x)) == if HasKey(rec, c) then Keys(rec) else Keys(rec) + [c]
  {
    if rec != [] && rec[0].category != c {
      BumpKeys(rec[1..], c, x);
      assert Keys(rec) == [rec[0].category] + Keys(rec[1..]);
    }
  }

  /** A step adds `x` under `c` and changes no other value. */
  lemma {:induction false} BumpLookup(rec: seq<CategorySpending>, c: Category, x: int, d: Category)
    ensures Lookup(Bump(rec, c, x), d) == Lookup(rec, d) + (if d == c then x else 0)
  {
    if rec != [] && rec[0].category != c {
      BumpLookup(rec[1..], c, x, d);
    }
  }

  /** A step adds `x` to the sum of the values. */
  lemma {:induction false} BumpSum(rec: seq<CategorySpending>, c: Category, x: int)
    ensures RecordSum(Bump(rec, c, x)) == RecordSum(rec) + x
  {
    if rec != [] && rec[0].category != c {
      BumpSum(rec[1..], c, x);
    }
  }

  /** A step keeps the keys distinct and, when `x` is positive, the values positive. */
  lemma {:induction false} BumpInvariant(rec: seq<CategorySpending>, c: Category, x: int)
    requires DistinctKeys(rec) && AllPositive(rec) && x > 0
    ensures DistinctKeys(Bump(rec, c, x)) && AllPositive(Bump(rec, c, x))
  {
    var r := Bump(rec, c, x);
    BumpKeys(rec, c, x);
    var ks, kr := Keys(rec), Keys(r);
    forall i, j | 0 <= i < j < |r| ensures r[i].category != r[j].category {
      assert r[i].category == kr[i] && r[j].category == kr[j];
      if !HasKey(rec, c) && j == |rec| {
        assert kr[i] == ks[i];
      } else {
        assert kr[i] == ks[i] && kr[j] == ks[j];
        assert rec[i].category == ks[i] && rec[j].category == ks[j];
      }
    }
    BumpPositive(rec, c, x);
  }

  lemma {:induction false} BumpPositive(rec: seq<CategorySpending>, c: Category, x: int)
    requires AllPositive(rec) && x > 0
    ensures AllPositive(Bump(rec, c, x))
  {
    if rec != [] && rec[0].category != c {
      assert AllPositive(rec[1..]) by {
        forall i | 0 <= i < |rec[1..]| ensures rec[1..][i].amount > 0 {
          assert rec[1..][i] == rec[i + 1];
        }
      }
      BumpPositive(rec[1..], c, x);
      var rest := Bump(rec[1..], c, x);
      forall i | 0 <= i < |[rec[0]] + rest| ensures ([rec[0]] + rest)[i].amount > 0 {
        if i > 0 { assert ([rec[0]] + rest)[i] == rest[i - 1]; }
      }
    }
  }

  /** The record after the loop has visited every transaction, in order. */
  function SpendingRecord(ts: seq<Transaction>, w: Window): (r: seq<CategorySpending>)
    ensures DistinctKeys(r) && AllPositive(r)
    ensures forall c :: Lookup(r, c) == CategorySum(ts, w, c)
    ensures forall c :: HasKey(r, c) <==> CategorySum(ts, w, c) > 0
    ensures RecordSum(r) == ExpenseSum(ts, w)
  {
    if ts == [] then []
    else
      var p := SpendingRecord(ts[..|ts| - 1], w);
      var t := ts[|ts| - 1];
      if Counts(t, w) then
        BumpInvariant(p, t.category, Abs(t.amount));
        BumpSum(p, t.category, Abs(t.amount));
        BumpKeys(p, t.category, Abs(t.amount));
        forall c ensures Lookup(Bump(p, t.category, Abs(t.amount)), c) == CategorySum(ts, w, c) {
          BumpLookup(p, t.category, Abs(t.amount), c);
        }
        Bump(p, t.category, Abs(t.amount))
      else
        p
  }

  /** The `forEach` loop that fills the record: every counted transaction adds
      its |amount| under its category. */
  method AccumulateSpending(ts: seq<Transaction>, w: Window) returns (rec: seq<CategorySpending>)
    ensures rec == SpendingRecord(ts, w)
    ensures DistinctKeys(rec) && AllPositive(rec)
    ensures forall c :: Lookup(rec, c) == CategorySum(ts, w, c)
  {
    rec := [];
    for i := 0 to |ts|
      invariant rec == SpendingRecord(ts[..i], w)
    {
      var t := ts[i];
      if t.amount < 0 && InWindow(t.date, w) {
        rec := Bump(rec, t.category, Abs(t.amount));
      }
      assert ts[..i + 1][..i] == ts[..i];
    }
    assert ts[..|ts|] == ts;
  }

  /** A category has spending exactly when some counted transaction is filed
      under it. */
  lemma {:induction false} CategorySumPositive(ts: seq<Transaction>, w: Window, c: Category)
    ensures CategorySum(ts, w, c) > 0 <==> FirstIndex(ts, w, c) < |ts|
  {
    if ts != [] {
      var p := ts[..|ts| - 1];
      CategorySumPositive(p, w, c);
      FirstIndexAppend(p, ts[|ts| - 1], w, c);
      assert p + [ts[|ts| - 1]] == ts;
    }
  }

  /** Adding a transaction at the end moves no earlier first appearance. */
  lemma {:induction false} FirstIndexAppend(ts: seq<Transaction>, t: Transaction, w: Window, c: Category)
    ensures FirstIndex(ts + [t], w, c) ==
      if FirstIndex(ts, w, c) < |ts| then FirstIndex(ts, w, c)
      else if Counts(t, w) && t.category == c then |ts|
      else |ts| + 1
  {
    if ts != [] {
      assert (ts + [t])[0] == ts[0];
      assert (ts + [t])[1..] == ts[1..] + [t];
      FirstIndexAppend(ts[1..], t, w, c);
    }
  }

  /** Every key has a counted transaction, and keys come in the order of
      their first counted transaction. */
  ghost predicate FirstAppearanceOrder(ks: seq<Category>, ts: seq<Transaction>, w: Window) {
    && (forall i :: 0 <= i < |ks| ==> FirstIndex(ts, w, ks[i]) < |ts|)
    && (forall i, j :: 0 <= i < j < |ks| ==> FirstIndex(ts, w, ks[i]) < FirstIndex(ts, w, ks[j]))
  }

  /** The record lists its categories in the order of their first counted
      transaction (the platform's key order). */
  lemma {:induction false} RecordInFirstAppearanceOrder(ts: seq<Transaction>, w: Window)
    ensures FirstAppearanceOrder(Keys(SpendingRecord(ts, w)), ts, w)
  {
    if ts != [] {
      var p := ts[..|ts| - 1];
      var t := ts[|ts| - 1];
      assert p + [t] == ts;
      RecordInFirstAppearanceOrder(p, w);
      var kp := Keys(SpendingRecord(p, w));
      OrderAfterAppend(kp, p, t, w);
      if Counts(t, w) {
        BumpKeys(SpendingRecord(p, w), t.category, Abs(t.amount));
        if !HasKey(SpendingRecord(p, w), t.category) {
          CategorySumPositive(p, w, t.category);
          FirstIndexAppend(p, t, w, t.category);
          OrderWithNewKey(kp, ts, w, t.category, |p|);
        }
      }
    }
  }

  /** Appending a transaction moves no key's first appearance. */
  lemma {:induction false} OrderAfterAppend(ks: seq<Category>, p: seq<Transaction>, t: Transaction, w: Window)
    requires FirstAppearanceOrder(ks, p, w)
    ensures FirstAppearanceOrder(ks, p + [t], w)
    ensures forall i :: 0 <= i < |ks| ==> FirstIndex(p + [t], w, ks[i]) < |p|
  {
    forall i | 0 <= i < |ks| ensures FirstIndex(p + [t], w, ks[i]) == FirstIndex(p, w, ks[i]) {
      FirstIndexAppend(p, t, w, ks[i]);
    }
  }

  /** A key whose first appearance comes after every other key's may go last. */
  lemma OrderWithNewKey(ks: seq<Category>, ts: seq<Transaction>, w: Window, c: Category, n: nat)
    requires FirstAppearanceOrder(ks, ts, w)
    requires forall i :: 0 <= i < |ks| ==> FirstIndex(ts, w, ks[i]) < n
    requires FirstIndex(ts, w, c) == n < |ts|
    ensures FirstAppearanceOrder(ks + [c], ts, w)
  {
    IncreasingWithLast(ks, x => FirstIndex(ts, w, x), c, |ts|);
  }

  lemma IncreasingWithLast(ks: seq<Category>, f: Category -> int, c: Category, bound: int)
    requires forall i :: 0 <= i < |ks| ==> f(ks[i]) < f(c)
    requires forall i, j :: 0 <= i < j < |ks| ==> f(ks[i]) < f(ks[j])
    requires f(c) < bound
    ensures forall i :: 0 <= i < |ks + [c]| ==> f((ks + [c])[i]) < bound
    ensures forall i, j :: 0 <= i < j < |ks + [c]| ==> f((ks + [c])[i]) < f((ks + [c])[j])
  {
    var r := ks + [c];
    forall i | 0 <= i < |r| ensures r[i] == (if i < |ks| then ks[i] else c) {
    }
  }

  /** An expense sum is zero exactly when the window holds no expense. */
  lemma {:induction false} ExpenseSumZero(ts: seq<Transaction>, w: Window)
    ensures ExpenseSum(ts, w) == 0 <==> forall i :: 0 <= i < |ts| ==> !Counts(ts[i], w)
  {
    if ts != [] {
      var p := ts[..|ts| - 1];
      ExpenseSumZero(p, w);
      assert forall i :: 0 <= i < |p| ==> p[i] == ts[i];
    }
  }

  // ---- percentages and budget comparisons ----

  /** `whole > 0 ? Math.round((part / whole) * 100) : 0`, the half-up rounding
      of 100 * part / whole written on integers. */
  function Percent(part: int, whole: int): (p: int)
    ensures whole > 0 ==> 2 * whole * p - whole <= 200 * part < 2 * whole * p + whole
    ensures whole <= 0 ==> p == 0
    ensures part >= 0 ==> p >= 0
  {
    if whole > 0 then (200 * part + whole) / (2 * whole) else 0
  }

  /** One budget against the record: spent is the record's value or 0. */
  function CompareOne(b: CategoryBudget, rec: seq<CategorySpending>): BudgetComparison {
    var spent := Lookup(rec, b.category);
    BudgetComparison(b.category, b.amount, spent, Percent(spent, b.amount))
  }

  /** The number of budgets that are not for Income. */
  function NonIncomeCount(budgets: seq<CategoryBudget>): nat {
    if budgets == [] then 0
    else (if budgets[0].category != Income then 1 else 0) + NonIncomeCount(budgets[1..])
  }

  /** `budgets.filter(b => b.category !== 'Income').map(...)`, before sorting. */
  function CompareEach(budgets: seq<CategoryBudget>, rec: seq<CategorySpending>): (r: seq<BudgetComparison>)
    ensures |r| == NonIncomeCount(budgets)
    ensures forall e :: e in r ==> exists b :: b in budgets && b.category != Income && e == CompareOne(b, rec)
    ensures forall b :: b in budgets && b.category != Income ==> CompareOne(b, rec) in r
  {
    if budgets == [] then []
    else
      var rest := CompareEach(budgets[1..], rec);
      assert forall b :: b in budgets[1..] ==> b in budgets;
      assert forall b :: b in budgets ==> b == budgets[0] || b in budgets[1..];
      if budgets[0].category != Income then [CompareOne(budgets[0], rec)] + rest else rest
  }

  function PercentageKey(e: BudgetComparison): int {
    e.percentage
  }

  /** The comparisons, highest percentage first (a stable sort). */
  function Comparisons(budgets: seq<CategoryBudget>, rec: seq<CategorySpending>): seq<BudgetComparison> {
    Seqs.SortDesc(CompareEach(budgets, rec), PercentageKey)
  }

  /** One comparison per non-Income budget and nothing else; each one's spent
      is the record's value or 0 and its percentage the rounded share of the
      budget; the list runs from the highest percentage down. */
  lemma ComparisonsSpec(budgets: seq<CategoryBudget>, rec: seq<CategorySpending>)
    ensures |Comparisons(budgets, rec)| == NonIncomeCount(budgets)
    ensures Seqs.NonIncreasing(Comparisons(budgets, rec), PercentageKey)
    ensures forall e :: e in Comparisons(budgets, rec) ==>
      e.category != Income
      && CategoryBudget(e.category, e.budgeted) in budgets
      && e.spent == Lookup(rec, e.category)
      && e.percentage == Percent(e.spent, e.budgeted)
    ensures forall b :: b in budgets && b.category != Income ==> CompareOne(b, rec) in Comparisons(budgets, rec)
  {
    var each := CompareEach(budgets, rec);
    var r := Comparisons(budgets, rec);
    assert multiset(r) == multiset(each);
    forall e | e in r ensures e in each {
      assert e in multiset(r);
    }
    forall e | e in each ensures e in r {
      assert e in multiset(each);
    }
  }
}
