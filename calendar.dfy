/** The proleptic Gregorian calendar of Python's `datetime.date`: validity, the day
    ordinal (`date.toordinal`), the weekday (`date.weekday`, Monday = 0) and
    `date + timedelta(days=n)`. */
module Calendar {

  datatype Date = Date(year: int, month: int, day: int)

  predicate IsLeap(y: int) {
    y % 4 == 0 && (y % 100 != 0 || y % 400 == 0)
  }

  function DaysInMonth(y: int, m: int): (n: int)
    requires 1 <= m <= 12
    ensures 28 <= n <= 31
    ensures n == 29 <==> m == 2 && IsLeap(y)
  {
    if m == 2 then (if IsLeap(y) then 29 else 28)
    else if m == 4 || m == 6 || m == 9 || m == 11 then 30
    else 31
  }

  /** A date `datetime.date` accepts (the upper year bound 9999 is not modelled). */
  predicate ValidDate(d: Date) {
    1 <= d.year && 1 <= d.month <= 12 && 1 <= d.day <= DaysInMonth(d.year, d.month)
  }

  /** Days in the years before `y`. */
  function DaysBeforeYear(y: int): int
    requires 1 <= y
  {
    var p := y - 1;
    365 * p + p / 4 - p / 100 + p / 400
  }

  /** Days in the months of year `y` before month `m`. */
  function DaysBeforeMonth(y: int, m: int): int
    requires 1 <= m <= 12
  {
    var common :=
      if m == 1 then 0 else if m == 2 then 31 else if m == 3 then 59
      else if m == 4 then 90 else if m == 5 then 120 else if m == 6 then 151
      else if m == 7 then 181 else if m == 8 then 212 else if m == 9 then 243
      else if m == 10 then 273 else if m == 11 then 304 else 334;
    if m > 2 && IsLeap(y) then common + 1 else common
  }

  /** `date.toordinal()`: 0001-01-01 is day 1. */
  function Ordinal(d: Date): int
    requires ValidDate(d)
  {
    DaysBeforeYear(d.year) + DaysBeforeMonth(d.year, d.month) + d.day
  }

  /** `date.weekday()`: Monday is 0, Friday is 4. */
  function Weekday(d: Date): (w: int)
    requires ValidDate(d)
    ensures 0 <= w < 7
  {
    (Ordinal(d) + 6) % 7
  }

  /** Every day moves the weekday on by one, Sunday wrapping to Monday: n days
      later it has moved on by n modulo 7. */
  lemma WeekdayAfter(d: Date, n: nat)
    requires ValidDate(d)
    ensures Weekday(AddDays(d, n)) == (Weekday(d) + n) % 7
  {
    ModSevenShift(Ordinal(d) + 6, n);
  }

  lemma ModSevenShift(o: int, n: nat)
    ensures (o + n) % 7 == (o % 7 + n) % 7
  {
    var q, w := o / 7, o % 7;
    var q2, w2 := (w + n) / 7, (w + n) % 7;
    assert o + n == 7 * (q + q2) + w2;
  }

  function FirstOfMonth(d: Date): (r: Date)
    requires ValidDate(d)
    ensures ValidDate(r) && r.year == d.year && r.month == d.month && r.day == 1
    ensures Ordinal(r) == Ordinal(d) - d.day + 1
  {
    Date(d.year, d.month, 1)
  }

  function FirstOfNextMonth(d: Date): (r: Date)
    requires ValidDate(d)
  {
    if d.month == 12 then Date(d.year + 1, 1, 1) else Date(d.year, d.month + 1, 1)
  }

  lemma LeapYearDays(y: int)
    requires 1 <= y
    ensures DaysBeforeYear(y + 1) == DaysBeforeYear(y) + (if IsLeap(y) then 366 else 365)
  {
    var p := y - 1;
    assert p / 4 + 1 == y / 4 || p / 4 == y / 4;
    assert y / 4 == p / 4 + 1 <==> y % 4 == 0;
    assert y / 100 == p / 100 + 1 <==> y % 100 == 0;
    assert y / 400 == p / 400 + 1 <==> y % 400 == 0;
    assert y / 100 == p / 100 + 1 || y / 100 == p / 100;
    assert y / 400 == p / 400 + 1 || y / 400 == p / 400;
    assert y % 400 == 0 ==> y % 100 == 0 && y % 4 == 0;
    assert y % 100 == 0 ==> y % 4 == 0;
  }

  /** The first day of the next month is `DaysInMonth` days after the first of this one. */
  lemma FirstOfNextMonthOrdinal(d: Date)
    requires ValidDate(d)
    ensures ValidDate(FirstOfNextMonth(d))
    ensures Ordinal(FirstOfNextMonth(d)) == Ordinal(FirstOfMonth(d)) + DaysInMonth(d.year, d.month)
  {
    if d.month == 12 {
      LeapYearDays(d.year);
    }
  }

  /** `d + timedelta(days=n)`, walking month by month. */
  function AddDays(d: Date, n: nat): (r: Date)
    requires ValidDate(d)
    ensures ValidDate(r)
    ensures Ordinal(r) == Ordinal(d) + n
    decreases n
  {
    var dim := DaysInMonth(d.year, d.month);
    if d.day + n <= dim then Date(d.year, d.month, d.day + n)
    else
      FirstOfNextMonthOrdinal(d);
      AddDays(FirstOfNextMonth(d), n - (dim - d.day + 1))
  }

  /** Adding days that stay inside the month only moves the day of the month. */
  lemma AddDaysWithinMonth(d: Date, n: nat)
    requires ValidDate(d) && d.day + n <= DaysInMonth(d.year, d.month)
    ensures AddDays(d, n) == Date(d.year, d.month, d.day + n)
  {
  }

  /** Two dates with the same ordinal are the same date. */
  lemma {:induction false} OrdinalInjective(a: Date, b: Date)
    requires ValidDate(a) && ValidDate(b) && Ordinal(a) == Ordinal(b)
    ensures a == b
  {
    if a.year != b.year {
      if a.year < b.year { YearsApart(a, b); } else { YearsApart(b, a); }
    } else if a.month != b.month {
      if a.month < b.month { MonthsApart(a, b); } else { MonthsApart(b, a); }
    }
  }

  lemma MonthsApart(a: Date, b: Date)
    requires ValidDate(a) && ValidDate(b) && a.year == b.year && a.month < b.month
    ensures Ordinal(a) < Ordinal(b)
  {
  }

  lemma {:induction false} YearsApart(a: Date, b: Date)
    requires ValidDate(a) && ValidDate(b) && a.year < b.year
    ensures Ordinal(a) < Ordinal(b)
  {
    LeapYearDays(a.year);
    DaysBeforeYearMonotone(a.year + 1, b.year);
    assert DaysBeforeMonth(a.year, a.month) + a.day <= 365 + (if IsLeap(a.year) then 1 else 0);
  }

  lemma {:induction false} DaysBeforeYearMonotone(x: int, y: int)
    requires 1 <= x <= y
    ensures DaysBeforeYear(x) <= DaysBeforeYear(y)
    decreases y - x
  {
    if x < y {
      LeapYearDays(x);
      DaysBeforeYearMonotone(x + 1, y);
    }
  }
}
