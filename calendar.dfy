/**
 * Calendar dates of the Gregorian calendar, as stored in the DATE columns
 * (`workDate`), and the month windows the monthly total is taken over.
 */
module Calendar {

  datatype Date = Date(year: int, month: int, day: int)

  predicate IsLeapYear(y: int)
  {
    y % 4 == 0 && (y % 100 != 0 || y % 400 == 0)
  }

  function DaysInMonth(y: int, m: int): (n: int)
    requires 1 <= m <= 12
    ensures 28 <= n <= 31
    ensures n == 29 <==> m == 2 && IsLeapYear(y)
    ensures n == 28 <==> m == 2 && !IsLeapYear(y)
    ensures n == 30 <==> m in {4, 6, 9, 11}
  {
    if m == 2 then (if IsLeapYear(y) then 29 else 28)
    else if m == 4 || m == 6 || m == 9 || m == 11 then 30
    else 31
  }

  predicate ValidDate(d: Date)
  {
    1 <= d.month <= 12 && 1 <= d.day <= DaysInMonth(d.year, d.month)
  }

  /** Chronological order: year, then month, then day. */
  predicate DateLt(a: Date, b: Date)
  {
    a.year < b.year
    || (a.year == b.year && (a.month < b.month || (a.month == b.month && a.day < b.day)))
  }

  predicate DateLe(a: Date, b: Date)
  {
    a == b || DateLt(a, b)
  }

  /** `new DateTimeImmutable(sprintf('%d-%02d-01', $year, $month))`. */
  function FirstDayOfMonth(y: int, m: int): (d: Date)
    requires 1 <= m <= 12
    ensures ValidDate(d) && d.year == y && d.month == m
    ensures forall e :: ValidDate(e) && e.year == y && e.month == m ==> DateLe(d, e)
  {
    Date(y, m, 1)
  }

  /** `$startDate->modify('last day of this month')`. */
  function LastDayOfMonth(y: int, m: int): (d: Date)
    requires 1 <= m <= 12
    ensures ValidDate(d) && d.year == y && d.month == m
    ensures forall e :: ValidDate(e) && e.year == y && e.month == m ==> DateLe(e, d)
  {
    Date(y, m, DaysInMonth(y, m))
  }

  /** `workDate >= :startDate AND workDate <= :endDate` for the month's first and last day. */
  predicate InMonthWindow(d: Date, y: int, m: int)
    requires 1 <= m <= 12
  {
    DateLe(FirstDayOfMonth(y, m), d) && DateLe(d, LastDayOfMonth(y, m))
  }

  /** On real dates, the inclusive window from the first to the last day is exactly the calendar month. */
  lemma MonthWindowIsMonth(d: Date, y: int, m: int)
    requires 1 <= m <= 12 && ValidDate(d)
    ensures InMonthWindow(d, y, m) <==> d.year == y && d.month == m
  {
  }
}
