/** Expense dates: the calendar month a claim is charged to and the day count behind the seven-day duplicate window. */
module Calendar {
  datatype Date = Date(year: int, month: int, day: int)

  predicate IsLeap(year: int) {
    year % 4 == 0 && (year % 100 != 0 || year % 400 == 0)
  }

  function DaysInMonth(year: int, month: int): int {
    if month == 2 then (if IsLeap(year) then 29 else 28)
    else if month == 4 || month == 6 || month == 9 || month == 11 then 30
    else 31
  }

  predicate ValidDate(d: Date) {
    1 <= d.year && 1 <= d.month <= 12 && 1 <= d.day <= DaysInMonth(d.year, d.month)
  }

  function DaysInYear(year: int): int {
    if IsLeap(year) then 366 else 365
  }

  function DaysBeforeYear(year: int): int {
    if year <= 1 then 0 else DaysBeforeYear(year - 1) + DaysInYear(year - 1)
  }

  function DaysBeforeMonth(year: int, month: int): int {
    if month <= 1 then 0 else DaysBeforeMonth(year, month - 1) + DaysInMonth(year, month - 1)
  }

  /** The proleptic Gregorian day count, as date arithmetic in the database counts days. */
  function DayNumber(d: Date): int {
    DaysBeforeYear(d.year) + DaysBeforeMonth(d.year, d.month) + d.day
  }

  function NextDay(d: Date): Date {
    if d.day < DaysInMonth(d.year, d.month) then Date(d.year, d.month, d.day + 1)
    else if d.month < 12 then Date(d.year, d.month + 1, 1)
    else Date(d.year + 1, 1, 1)
  }

  /** date_trunc('month', a) = date_trunc('month', b). */
  predicate SameMonth(a: Date, b: Date) {
    a.year == b.year && a.month == b.month
  }

  function MonthStart(d: Date): Date {
    Date(d.year, d.month, 1)
  }

  /** expense_date BETWEEN d - 7 days AND d + 7 days. */
  predicate WithinWeek(a: Date, b: Date) {
    -7 <= DayNumber(a) - DayNumber(b) <= 7
  }

  /** The leap-year rule in closed form: every fourth year, but of the centuries only every fourth. */
  lemma {:induction false} DaysBeforeYearClosed(year: int)
    requires year >= 1
    ensures DaysBeforeYear(year) == 365 * (year - 1) + (year - 1) / 4 - (year - 1) / 100 + (year - 1) / 400
  {
    if year > 1 {
      DaysBeforeYearClosed(year - 1);
      Leaps(year - 1);
    }
  }

  lemma Leaps(year: int)
    requires year >= 1
    ensures (if IsLeap(year) then 1 else 0)
         == (year / 4 - (year - 1) / 4) - (year / 100 - (year - 1) / 100) + (year / 400 - (year - 1) / 400)
  {
    Step(year, 4);
    Step(year, 100);
    Step(year, 400);
  }

  lemma Step(n: int, d: int)
    requires n >= 1 && (d == 4 || d == 100 || d == 400)
    ensures n / d - (n - 1) / d == if n % d == 0 then 1 else 0
  {
  }

  lemma MonthsMakeAYear(year: int)
    ensures DaysBeforeMonth(year, 12) + 31 == DaysInYear(year)
  {
    assert DaysBeforeMonth(year, 3) == DaysBeforeMonth(year, 2) + DaysInMonth(year, 2) == 31 + DaysInMonth(year, 2);
    assert DaysBeforeMonth(year, 5) == DaysBeforeMonth(year, 4) + 30 == DaysBeforeMonth(year, 3) + 61;
    assert DaysBeforeMonth(year, 7) == DaysBeforeMonth(year, 6) + 30 == DaysBeforeMonth(year, 5) + 61;
    assert DaysBeforeMonth(year, 9) == DaysBeforeMonth(year, 8) + 31 == DaysBeforeMonth(year, 7) + 62;
    assert DaysBeforeMonth(year, 11) == DaysBeforeMonth(year, 10) + 31 == DaysBeforeMonth(year, 9) + 61;
    assert DaysBeforeMonth(year, 12) == DaysBeforeMonth(year, 11) + 30;
  }

  /** Day numbers count days: the day after any valid date, across months and leap years, is one more. */
  lemma NextDayNumber(d: Date)
    requires ValidDate(d)
    ensures ValidDate(NextDay(d)) && DayNumber(NextDay(d)) == DayNumber(d) + 1
  {
    if d.day == DaysInMonth(d.year, d.month) && d.month == 12 {
      MonthsMakeAYear(d.year);
    }
  }
}
