/** The calendar arithmetic the application takes from its date library:
    month lengths, "n days ago", and the order of instants. */
module Calendar {
  import opened Types

  predicate IsLeapYear(year: int) {
    year % 4 == 0 && (year % 100 != 0 || year % 400 == 0)
  }

  /** Length of a month (0-based month) in the Gregorian calendar. */
  function DaysInMonth(year: int, month: int): (n: int)
    requires 0 <= month < 12
    ensures 28 <= n <= 31
    ensures n == 29 <==> month == 1 && IsLeapYear(year)
  {
    if month == 1 then (if IsLeapYear(year) then 29 else 28)
    else if month == 3 || month == 5 || month == 8 || month == 10 then 30
    else 31
  }

  /** A date that names a real calendar day. */
  predicate ValidDate(d: Date) {
    0 <= d.month < 12 && 1 <= d.day <= DaysInMonth(d.year, d.month)
  }

  /** A number that orders dates as the platform's `getTime` does (days of a
      month never exceed 31, so a slot of 31 per month keeps the order). */
  function TimeKey(d: Date): int {
    (d.year * 12 + d.month) * 31 + (d.day - 1)
  }

  /** On real dates, the key order is the calendar order. */
  lemma TimeKeyOrder(a: Date, b: Date)
    requires ValidDate(a) && ValidDate(b)
    ensures TimeKey(a) < TimeKey(b) <==>
      a.year < b.year
      || (a.year == b.year && a.month < b.month)
      || (a.year == b.year && a.month == b.month && a.day < b.day)
    ensures TimeKey(a) == TimeKey(b) <==> a == b
  {
    var ma, mb := a.year * 12 + a.month, b.year * 12 + b.month;
    assert TimeKey(a) == ma * 31 + a.day - 1 && TimeKey(b) == mb * 31 + b.day - 1;
    if ma < mb {
      assert (mb - ma) * 31 >= 31;
    } else if mb < ma {
      assert (ma - mb) * 31 >= 31;
    }
    assert ma == mb <==> a.year == b.year && a.month == b.month;
  }

  /** The day before a date. */
  function PrevDay(d: Date): (r: Date)
    requires ValidDate(d)
    ensures ValidDate(r)
    ensures TimeKey(r) < TimeKey(d)
  {
    if d.day > 1 then Date(d.year, d.month, d.day - 1)
    else if d.month > 0 then Date(d.year, d.month - 1, DaysInMonth(d.year, d.month - 1))
    else Date(d.year - 1, 11, 31)
  }

  /** The date `k` days before `d` (the library's `subDays`). */
  function SubDays(d: Date, k: nat): (r: Date)
    requires ValidDate(d)
    ensures ValidDate(r)
    ensures k > 0 ==> TimeKey(r) < TimeKey(d)
    decreases k
  {
    if k == 0 then d else SubDays(PrevDay(d), k - 1)
  }
}
