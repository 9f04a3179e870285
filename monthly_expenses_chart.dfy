/** The dashboard's bar chart: one bucket per day of the current month, each
    holding the sum of that day's expenses. The buckets live in an array
    whose entries the loop over the transactions increments in place. */
module MonthlyExpensesChart {
  import opened Types
  import opened Calendar
  import opened Spending

  /** One day's bucket. The day's display label is left out; the date stands for it. */
  datatype DayBucket = DayBucket(day: Date, expenses: int)

  /** Reference sum: |amount| over the expenses dated `d`. */
  function DaySum(ts: seq<Transaction>, d: Date): nat {
    if ts == [] then 0
    else
      var t := ts[|ts| - 1];
      DaySum(ts[..|ts| - 1], d) + (if t.amount < 0 && t.date == d then Abs(t.amount) else 0)
  }

  /** The `i`-th day (from 0) of a month. */
  function DayOf(year: int, month: int, i: int): Date {
    Date(year, month, i + 1)
  }

  /** `findIndex(item => isSameDay(item.day, d))`: the first bucket for the
      day `d`, or -1 when there is none. */
  method FindDay(buckets: array<DayBucket>, d: Date) returns (index: int)
    ensures -1 <= index < buckets.Length
    ensures 0 <= index ==> buckets[index].day == d
    ensures 0 <= index ==> forall k :: 0 <= k < index ==> buckets[k].day != d
    ensures index == -1 ==> forall k :: 0 <= k < buckets.Length ==> buckets[k].day != d
  {
    var k := 0;
    while k < buckets.Length
      invariant 0 <= k <= buckets.Length
      invariant forall l :: 0 <= l < k ==> buckets[l].day != d
    {
      if buckets[k].day == d {
        return k;
      }
      k := k + 1;
    }
    return -1;
  }

  /** `chartData`: the month's days, each starting at 0; every expense adds
      |amount| to the bucket of its own day, if the month has that day.
      The result is the buckets in day order: day `i + 1` holds the sum of
      that day's expenses. */
  method DailyExpenses(ts: seq<Transaction>, now: Date) returns (chart: seq<DayBucket>)
    requires 0 <= now.month < 12
    ensures |chart| == DaysInMonth(now.year, now.month)
    ensures forall i :: 0 <= i < |chart| ==>
      chart[i] == DayBucket(DayOf(now.year, now.month, i), DaySum(ts, DayOf(now.year, now.month, i)))
  {
    var y, m := now.year, now.month;
    var n := DaysInMonth(y, m);
    var buckets := new DayBucket[n](i => DayBucket(DayOf(y, m, i), 0));
    for j := 0 to |ts|
      invariant forall i :: 0 <= i < n ==> buckets[i] == DayBucket(DayOf(y, m, i), DaySum(ts[..j], DayOf(y, m, i)))
    {
      var t := ts[j];
      assert ts[..j + 1][..j] == ts[..j];
      if t.amount < 0 {
        var index := FindDay(buckets, t.date);
        if index != -1 {
          buckets[index] := buckets[index].(expenses := buckets[index].expenses + Abs(t.amount));
        }
      }
    }
    assert ts[..|ts|] == ts;
    chart := buckets[..];
  }

  // ---- the buckets add up to the month's expenses ----

  /** The sum of the first `n` days' sums. */
  function DaysTotal(ts: seq<Transaction>, year: int, month: int, n: nat): nat {
    if n == 0 then 0 else DaysTotal(ts, year, month, n - 1) + DaySum(ts, DayOf(year, month, n - 1))
  }

  /** The sum of a chart's bucket values. */
  function ChartTotal(chart: seq<DayBucket>): int {
    if chart == [] then 0 else ChartTotal(chart[..|chart| - 1]) + chart[|chart| - 1].expenses
  }

  lemma {:induction false} DaysTotalStep(ts: seq<Transaction>, t: Transaction, year: int, month: int, n: nat)
    ensures DaysTotal(ts + [t], year, month, n) == DaysTotal(ts, year, month, n)
      + (if t.amount < 0 && t.date.year == year && t.date.month == month && 1 <= t.date.day <= n
         then Abs(t.amount) else 0)
  {
    assert (ts + [t])[..|ts|] == ts;
    if n > 0 {
      DaysTotalStep(ts, t, year, month, n - 1);
    }
  }

  /** When every date is a real date, the days of a month add up to the
      month's expenses: no expense of the month is missed and none is counted
      twice. */
  lemma {:induction false} DaysAddUpToMonth(ts: seq<Transaction>, year: int, month: int)
    requires 0 <= month < 12
    requires forall i :: 0 <= i < |ts| ==> ValidDate(ts[i].date)
    ensures DaysTotal(ts, year, month, DaysInMonth(year, month)) == ExpenseSum(ts, Month(year, month))
  {
    if ts != [] {
      var p := ts[..|ts| - 1];
      var t := ts[|ts| - 1];
      assert p + [t] == ts;
      assert forall i :: 0 <= i < |p| ==> p[i] == ts[i];
      DaysAddUpToMonth(p, year, month);
      DaysTotalStep(p, t, year, month, DaysInMonth(year, month));
      assert ValidDate(t.date);
      var n := DaysInMonth(year, month);
      assert Counts(t, Month(year, month)) <==>
        t.amount < 0 && t.date.year == year && t.date.month == month && 1 <= t.date.day <= n;
    } else {
      DaysTotalEmpty(year, month, DaysInMonth(year, month));
    }
  }

  lemma {:induction false} DaysTotalEmpty(year: int, month: int, n: nat)
    ensures DaysTotal([], year, month, n) == 0
  {
    if n > 0 {
      DaysTotalEmpty(year, month, n - 1);
    }
  }

  lemma {:induction false} ChartTotalIsDaysTotal(chart: seq<DayBucket>, ts: seq<Transaction>, year: int, month: int)
    requires forall i :: 0 <= i < |chart| ==> chart[i].expenses == DaySum(ts, DayOf(year, month, i))
    ensures ChartTotal(chart) == DaysTotal(ts, year, month, |chart|)
  {
    if chart != [] {
      ChartTotalIsDaysTotal(chart[..|chart| - 1], ts, year, month);
    }
  }

  /** The chart's values sum to the dashboard's monthly expense total, provided
      every transaction carries a real date. */
  lemma ChartSumsToMonthlyExpenses(ts: seq<Transaction>, now: Date, chart: seq<DayBucket>)
    requires 0 <= now.month < 12
    requires forall i :: 0 <= i < |ts| ==> ValidDate(ts[i].date)
    requires |chart| == DaysInMonth(now.year, now.month)
    requires forall i :: 0 <= i < |chart| ==>
      chart[i] == DayBucket(DayOf(now.year, now.month, i), DaySum(ts, DayOf(now.year, now.month, i)))
    ensures ChartTotal(chart) == ExpenseSum(ts, Month(now.year, now.month))
  {
    ChartTotalIsDaysTotal(chart, ts, now.year, now.month);
    DaysAddUpToMonth(ts, now.year, now.month);
  }
}
