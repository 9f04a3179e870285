/** The dashboard's pie chart: all-time expenses per category, one slice per
    category in the order the categories first appear among the expenses,
    coloured from the category table. */
module CategoryChart {
  import opened Types
  import opened Spending
  import MockData

  /** One slice of the pie. Amounts are whole minor units, so rounding them
      to two decimals of the major unit changes nothing. */
  datatype Slice = Slice(name: Category, value: int, color: string)

  function ToSlice(e: CategorySpending): Slice {
    Slice(e.category, e.amount, MockData.GetCategoryColor(e.category))
  }

  /** `Object.entries(record).map(...).filter(item => item.value > 0)` */
  function Slices(rec: seq<CategorySpending>): (r: seq<Slice>)
    ensures |r| <= |rec|
    ensures forall s :: s in r ==> s.value > 0
  {
    if rec == [] then []
    else
      var rest := Slices(rec[1..]);
      if rec[0].amount > 0 then [ToSlice(rec[0])] + rest else rest
  }

  /** Every record value is positive, so the filter drops nothing. */
  lemma {:induction false} SlicesKeepAll(rec: seq<CategorySpending>)
    requires AllPositive(rec)
    ensures Slices(rec) == seq(|rec|, i requires 0 <= i < |rec| => ToSlice(rec[i]))
  {
    if rec != [] {
      assert AllPositive(rec[1..]) by {
        forall i | 0 <= i < |rec[1..]| ensures rec[1..][i].amount > 0 {
          assert rec[1..][i] == rec[i + 1];
        }
      }
      SlicesKeepAll(rec[1..]);
    }
  }

  /** `chartData`: the spending loop over every expense, whatever its date,
      then one slice per record entry. */
  method ChartData(ts: seq<Transaction>) returns (r: seq<Slice>)
    ensures r == Slices(SpendingRecord(ts, AllTime))
  {
    var rec := AccumulateSpending(ts, AllTime);
    r := Slices(rec);
  }

  /** The names of the slices, in order. */
  function SliceNames(r: seq<Slice>): (ns: seq<Category>)
    ensures |ns| == |r| && forall i :: 0 <= i < |r| ==> ns[i] == r[i].name
  {
    seq(|r|, i requires 0 <= i < |r| => r[i].name)
  }

  /** Each slice is one category's total of all expenses ever, in that
      category's table colour; the slices follow the order in which the
      categories first appear among the expenses; a category has a slice
      exactly when it has an expense. */
  lemma ChartDataSpec(ts: seq<Transaction>, c: Category)
    ensures forall s :: s in Slices(SpendingRecord(ts, AllTime)) ==>
      s.value == CategorySum(ts, AllTime, s.name) > 0 && s.color == MockData.GetCategoryColor(s.name)
    ensures FirstAppearanceOrder(SliceNames(Slices(SpendingRecord(ts, AllTime))), ts, AllTime)
    ensures c in SliceNames(Slices(SpendingRecord(ts, AllTime))) <==> CategorySum(ts, AllTime, c) > 0
  {
    var rec := SpendingRecord(ts, AllTime);
    SlicesKeepAll(rec);
    RecordInFirstAppearanceOrder(ts, AllTime);
    var r := Slices(rec);
    assert SliceNames(r) == Keys(rec);
    forall s | s in r ensures s.value == CategorySum(ts, AllTime, s.name) {
      var i :| 0 <= i < |r| && r[i] == s;
      LookupAt(rec, i);
    }
  }

  /** In a record with distinct keys, the entry at position `i` is what the
      lookup of its key finds. */
  lemma {:induction false} LookupAt(rec: seq<CategorySpending>, i: nat)
    requires DistinctKeys(rec) && i < |rec|
    ensures Lookup(rec, rec[i].category) == rec[i].amount
  {
    if i > 0 {
      assert DistinctKeys(rec[1..]) by {
        forall a, b | 0 <= a < b < |rec[1..]| ensures rec[1..][a].category != rec[1..][b].category {
          assert rec[1..][a] == rec[a + 1] && rec[1..][b] == rec[b + 1];
        }
      }
      LookupAt(rec[1..], i - 1);
      assert rec[1..][i - 1] == rec[i];
    }
  }

  /** The chart card: a placeholder when there are no slices. */
  datatype View = NoExpenseData | Pie(slices: seq<Slice>)

  function Render(r: seq<Slice>): View {
    if r == [] then NoExpenseData else Pie(r)
  }

  /** The placeholder shows exactly when the list holds no expense at all. */
  lemma PlaceholderExactlyWithoutExpenses(ts: seq<Transaction>)
    ensures Render(Slices(SpendingRecord(ts, AllTime))) == NoExpenseData
            <==> forall i :: 0 <= i < |ts| ==> ts[i].amount >= 0
  {
    var rec := SpendingRecord(ts, AllTime);
    SlicesKeepAll(rec);
    ExpenseSumZero(ts, AllTime);
    if rec != [] {
      RecordSumPositive(rec);
    }
  }

  lemma {:induction false} RecordSumPositive(rec: seq<CategorySpending>)
    requires AllPositive(rec) && rec != []
    ensures RecordSum(rec) > 0
  {
    if |rec| > 1 {
      assert AllPositive(rec[1..]) by {
        forall i | 0 <= i < |rec[1..]| ensures rec[1..][i].amount > 0 {
          assert rec[1..][i] == rec[i + 1];
        }
      }
      RecordSumPositive(rec[1..]);
    }
  }
}
