/** Proleptic Gregorian dates and their ordinals. */
module Dates {

  datatype Date = Date(year: int, month: int, day: int)

  predicate IsLeap(year: int) {
    year % 4 == 0 && (year % 100 != 0 || year % 400 == 0)
  }

  function DaysInMonth(year: int, month: int): int {
    if month == 2 then (if IsLeap(year) then 29 else 28)
    else if month == 4 || month == 6 || month == 9 || month == 11 then 30
    else 31
  }

  /** The dates that the `date` constructor accepts. */
  predicate IsDate(d: Date) {
    1 <= d.year <= 9999 && 1 <= d.month <= 12 && 1 <= d.day <= DaysInMonth(d.year, d.month)
  }

  type RealDate = d: Date | IsDate(d) witness Date(1, 1, 1)

  predicate Before(d: RealDate, e: RealDate) {
    d.year < e.year || (d.year == e.year && (d.month < e.month || (d.month == e.month && d.day < e.day)))
  }

  function DaysBeforeYear(year: int): int {
    (year - 1) * 365 + (year - 1) / 4 - (year - 1) / 100 + (year - 1) / 400
  }

  function DaysBeforeMonth(year: int, month: int): int
    requires 1 <= month <= 13
    decreases month
  {
    if month == 1 then 0 else DaysBeforeMonth(year, month - 1) + DaysInMonth(year, month - 1)
  }

  /** The day's number, 1 for 1 January of year 1. */
  function Ordinal(d: RealDate): int {
    DaysBeforeYear(d.year) + DaysBeforeMonth(d.year, d.month) + d.day
  }

  const MIN_ORDINAL := 1
  const MAX_ORDINAL := 3652059

  lemma Carry4(n: int)
    ensures n / 4 == (n - 1) / 4 + if n % 4 == 0 then 1 else 0
  {
  }

  lemma Carry100(n: int)
    ensures n / 100 == (n - 1) / 100 + if n % 100 == 0 then 1 else 0
    ensures n % 100 == 0 ==> n % 4 == 0
  {
  }

  lemma Carry400(n: int)
    ensures n / 400 == (n - 1) / 400 + if n % 400 == 0 then 1 else 0
    ensures n % 400 == 0 ==> n % 100 == 0
  {
  }

  lemma MonthsOfYear(year: int)
    ensures DaysBeforeMonth(year, 13) == if IsLeap(year) then 366 else 365
  {
    assert DaysBeforeMonth(year, 3) == 31 + DaysInMonth(year, 2);
    assert DaysBeforeMonth(year, 5) == DaysBeforeMonth(year, 3) + 61;
    assert DaysBeforeMonth(year, 7) == DaysBeforeMonth(year, 5) + 61;
    assert DaysBeforeMonth(year, 9) == DaysBeforeMonth(year, 7) + 62;
    assert DaysBeforeMonth(year, 11) == DaysBeforeMonth(year, 9) + 61;
  }

  lemma YearLength(year: int)
    requires year >= 1
    ensures DaysBeforeYear(year + 1) == DaysBeforeYear(year) + DaysBeforeMonth(year, 13)
  {
    MonthsOfYear(year);
    Carry4(year);
    Carry100(year);
    Carry400(year);
  }

  lemma {:induction false} MonthsGrow(year: int, m: int, n: int)
    requires 1 <= m < n <= 13
    ensures DaysBeforeMonth(year, m) + DaysInMonth(year, m) <= DaysBeforeMonth(year, n)
    decreases n
  {
    if m < n - 1 { MonthsGrow(year, m, n - 1); }
  }

  lemma {:induction false} YearsGrow(y: int, z: int)
    requires 1 <= y < z
    ensures DaysBeforeYear(y) + DaysBeforeMonth(y, 13) <= DaysBeforeYear(z)
    decreases z
  {
    YearLength(z - 1);
    if y < z - 1 {
      YearsGrow(y, z - 1);
      MonthsGrow(z - 1, 1, 13);
    }
  }

  lemma OrdinalGrows(d: RealDate, e: RealDate)
    requires Before(d, e)
    ensures Ordinal(d) < Ordinal(e)
  {
    if d.year < e.year {
      YearsGrow(d.year, e.year);
      MonthsGrow(d.year, d.month, 13);
      if e.month > 1 { MonthsGrow(e.year, 1, e.month); }
    } else if d.month < e.month {
      MonthsGrow(d.year, d.month, e.month);
    }
  }

  /** Comparing dates is comparing ordinals, and different dates have different ordinals. */
  lemma OrdinalOrder(d: RealDate, e: RealDate)
    ensures Before(d, e) <==> Ordinal(d) < Ordinal(e)
    ensures d == e <==> Ordinal(d) == Ordinal(e)
  {
    if Before(d, e) { OrdinalGrows(d, e); }
    else if Before(e, d) { OrdinalGrows(e, d); }
    else { assert d == e; }
  }

  /** The day after has the next number. */
  lemma OrdinalCounts(d: RealDate, next: RealDate)
    requires || next == Date(d.year, d.month, d.day + 1)
             || (next == Date(d.year, d.month + 1, 1) && d.day == DaysInMonth(d.year, d.month))
             || (next == Date(d.year + 1, 1, 1) && d.month == 12 && d.day == 31)
    ensures Ordinal(next) == Ordinal(d) + 1
  {
    if next.year > d.year {
      YearLength(d.year);
      assert DaysBeforeMonth(d.year, 13) == DaysBeforeMonth(d.year, 12) + 31;
      assert DaysBeforeMonth(next.year, 1) == 0;
      hide DaysBeforeYear, DaysBeforeMonth;
    } else if next.month > d.month {
      assert DaysBeforeMonth(d.year, d.month + 1) == DaysBeforeMonth(d.year, d.month) + DaysInMonth(d.year, d.month);
      hide DaysBeforeYear, DaysBeforeMonth;
    }
  }

  /** The days are numbered from 1 to 3652059. */
  lemma FirstAndLast(first: RealDate, last: RealDate)
    requires first == Date(1, 1, 1) && last == Date(9999, 12, 31)
    ensures Ordinal(first) == 1 && Ordinal(last) == 3652059
  {
    MonthsOfYear(9999);
    assert DaysBeforeMonth(9999, 13) == DaysBeforeMonth(9999, 12) + 31;
    assert DaysBeforeYear(9999) == 3651694;
    hide DaysBeforeYear, DaysBeforeMonth;
    assert Ordinal(last) == 3651694 + DaysBeforeMonth(9999, 12) + 31;
  }

  /** The days of the months. */
  lemma DaysOfMonths(year: int, month: int, day: int)
    ensures IsDate(Date(year, month, day)) <==>
            1 <= year <= 9999 && 1 <= month <= 12 && 1 <= day <= 31
            && (month in {4, 6, 9, 11} ==> day <= 30)
            && (month == 2 ==> day <= 28 || (day == 29 && year % 4 == 0 && (year % 100 != 0 || year % 400 == 0)))
  {
    var leap := year % 4 == 0 && (year % 100 != 0 || year % 400 == 0);
    assert IsLeap(year) == leap;
    hide IsLeap;
  }
}
