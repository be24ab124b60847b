/**
 * Proleptic Gregorian dates, their chronological order and the Julian Day
 * Number (JDN) the chart engine counts days with (app.py:263-267).
 *
 * A date is a (year, month, day) triple; `ValidDate` admits exactly the dates
 * Python's `datetime.date` can represent (years 1 to 9999).
 */
module Calendar {
  import opened Arith

  datatype Date = Date(year: int, month: int, day: int)

  const MinYear := 1
  const MaxYear := 9999

  /** Gregorian leap-year rule. */
  predicate IsLeap(y: int) {
    y % 4 == 0 && (y % 100 != 0 || y % 400 == 0)
  }

  function DaysInMonth(y: int, m: int): (n: int)
    requires 1 <= m <= 12
    ensures 28 <= n <= 31
    ensures n == 29 <==> m == 2 && IsLeap(y)
  {
    if m == 2 then (if IsLeap(y) then 29 else 28)
    else if m == 4 || m == 6 || m == 9 || m == 11 then 30
    else 31
  }

  function DaysInYear(y: int): int {
    if IsLeap(y) then 366 else 365
  }

  predicate ValidDate(d: Date) {
    && MinYear <= d.year <= MaxYear
    && 1 <= d.month <= 12
    && 1 <= d.day <= DaysInMonth(d.year, d.month)
  }

  /** Chronological order: `a < b` on Python dates. */
  predicate Before(a: Date, b: Date) {
    || a.year < b.year
    || (a.year == b.year && a.month < b.month)
    || (a.year == b.year && a.month == b.month && a.day < b.day)
  }

  /** `a >= b` on Python dates. */
  predicate OnOrAfter(a: Date, b: Date) {
    !Before(a, b)
  }

  /** The civil-to-JDN formula, with Python's floor division (app.py:263-267). */
  function Jdn(d: Date): int {
    var a := (14 - d.month) / 12;
    var y := d.year + 4800 - a;
    var m := d.month + 12 * a - 3;
    d.day + (153 * m + 2) / 5 + 365 * y + y / 4 - y / 100 + y / 400 - 32045
  }

  /** The calendar day after `d`. */
  function NextDay(d: Date): Date
    requires ValidDate(d)
  {
    if d.day < DaysInMonth(d.year, d.month) then Date(d.year, d.month, d.day + 1)
    else if d.month < 12 then Date(d.year, d.month + 1, 1)
    else Date(d.year + 1, 1, 1)
  }

  // ---------------------------------------------------------------------------
  // Reference definition: days counted one by one from 1 January of year 1
  // (Python's `date.toordinal`).
  // ---------------------------------------------------------------------------

  /** Days in the years 1 .. y-1. */
  function DaysBeforeYear(y: int): int
    requires y >= 1
    decreases y
  {
    if y == 1 then 0 else DaysBeforeYear(y - 1) + DaysInYear(y - 1)
  }

  /** Days in the months 1 .. m-1 of year y. */
  function DaysBeforeMonth(y: int, m: int): int
    requires 1 <= m <= 12
    decreases m
  {
    if m == 1 then 0 else DaysBeforeMonth(y, m - 1) + DaysInMonth(y, m - 1)
  }

  /** 1 for 0001-01-01, one more for every following day. */
  function Ordinal(d: Date): int
    requires ValidDate(d)
  {
    DaysBeforeYear(d.year) + DaysBeforeMonth(d.year, d.month) + d.day
  }

  const OrdinalToJdn := 1721425

  lemma JdnMonthStep(y: int, m: int)
    requires 1 <= m < 12
    ensures Jdn(Date(y, m + 1, 1)) == Jdn(Date(y, m, 1)) + DaysInMonth(y, m)
  {
    if m == 2 {
      JdnMarchStep(y);
    } else {
      JdnMonthStepSameYearBase(y, m);
    }
  }

  /**
   * March opens a new "JDN year" y + 4800 while February still counts in
   * y + 4799, so the step picks up the leap day of y.
   */
  lemma JdnMarchStep(y: int)
    ensures Jdn(Date(y, 3, 1)) == Jdn(Date(y, 2, 1)) + DaysInMonth(y, 2)
  {
    var z := y + 4800;
    assert Jdn(Date(y, 2, 1)) == 1 + 337 + 365 * (z - 1) + (z - 1) / 4 - (z - 1) / 100 + (z - 1) / 400 - 32045;
    assert Jdn(Date(y, 3, 1)) == 1 + 365 * z + z / 4 - z / 100 + z / 400 - 32045;
    LeapDaysStep(z);
    LeapShift(y);
  }

  /** 4800 is a whole number of 400-year cycles. */
  lemma LeapShift(y: int)
    ensures IsLeap(y + 4800) == IsLeap(y)
  {
    ModOfOffset4(y + 4800, y % 4, y / 4 + 1200);
    ModOfOffset100(y + 4800, y % 100, y / 100 + 48);
    ModOfOffset400(y + 4800, y % 400, y / 400 + 12);
  }

  /** Days of the JDN year z (which starts on 1 March) before its first day, shifted by the epoch. */
  function YearTerm(z: int): int {
    365 * z + z / 4 - z / 100 + z / 400 - 32045
  }

  /** The first of month m: March is month 0 of its JDN year, January and February months 10 and 11 of the previous one. */
  lemma JdnFirstOfMonth(y: int, m: int)
    requires 1 <= m <= 12
    ensures Jdn(Date(y, m, 1))
         == 1 + (153 * ((m + 9) % 12) + 2) / 5 + YearTerm(if m <= 2 then y + 4799 else y + 4800)
  {
    if m <= 2 {
      assert (14 - m) / 12 == 1 && (m + 9) % 12 == m + 9;
    } else {
      assert (14 - m) / 12 == 0 && (m + 9) % 12 == m - 3;
    }
  }

  /** Away from February both firsts of month use the same year term. */
  lemma JdnMonthStepSameYearBase(y: int, m: int)
    requires 1 <= m < 12 && m != 2
    ensures Jdn(Date(y, m + 1, 1)) == Jdn(Date(y, m, 1)) + DaysInMonth(y, m)
  {
    JdnFirstOfMonth(y, m);
    JdnFirstOfMonth(y, m + 1);
    MonthLengthFromMarch(m);
  }

  /** Consecutive values of the month term differ by the length of the month (February aside). */
  lemma MonthLengthFromMarch(m: int)
    requires 1 <= m < 12 && m != 2
    ensures (153 * ((m + 10) % 12) + 2) / 5 - (153 * ((m + 9) % 12) + 2) / 5 == DaysInMonth(0, m)
  {
    if m == 1 {
    } else if m == 3 {
    } else if m == 4 {
    } else if m == 5 {
    } else if m == 6 {
    } else if m == 7 {
    } else if m == 8 {
    } else if m == 9 {
    } else if m == 10 {
    } else {
    }
  }

  /** The leap-day count y/4 - y/100 + y/400 grows by one exactly at a leap year. */
  lemma LeapDaysStep(z: int)
    ensures (z / 4 - z / 100 + z / 400) - ((z - 1) / 4 - (z - 1) / 100 + (z - 1) / 400)
         == if IsLeap(z) then 1 else 0
  {
    QuotientStep4(z);
    QuotientStep100(z);
    QuotientStep400(z);
    if z % 400 == 0 {
      ModOfOffset100(z, 0, 4 * (z / 400));
    }
    if z % 100 == 0 {
      ModOfOffset4(z, 0, 25 * (z / 100));
    }
  }

  /** z / 4 goes up by one from z - 1 to z exactly when 4 divides z. */
  lemma QuotientStep4(z: int)
    ensures z / 4 - (z - 1) / 4 == if z % 4 == 0 then 1 else 0
  {
    var q, r := z / 4, z % 4;
    ModOfOffset4(z, r, q);
    if r == 0 {
      ModOfOffset4(z - 1, 3, q - 1);
    } else {
      ModOfOffset4(z - 1, r - 1, q);
    }
  }

  /** z / 100 goes up by one from z - 1 to z exactly when 100 divides z. */
  lemma QuotientStep100(z: int)
    ensures z / 100 - (z - 1) / 100 == if z % 100 == 0 then 1 else 0
  {
    var q, r := z / 100, z % 100;
    ModOfOffset100(z, r, q);
    if r == 0 {
      ModOfOffset100(z - 1, 99, q - 1);
    } else {
      ModOfOffset100(z - 1, r - 1, q);
    }
  }

  /** z / 400 goes up by one from z - 1 to z exactly when 400 divides z. */
  lemma QuotientStep400(z: int)
    ensures z / 400 - (z - 1) / 400 == if z % 400 == 0 then 1 else 0
  {
    var q, r := z / 400, z % 400;
    ModOfOffset400(z, r, q);
    if r == 0 {
      ModOfOffset400(z - 1, 399, q - 1);
    } else {
      ModOfOffset400(z - 1, r - 1, q);
    }
  }

  lemma JdnYearStep(y: int)
    ensures Jdn(Date(y + 1, 1, 1)) == Jdn(Date(y, 12, 1)) + 31
  {
  }

  /** The first of month m is DaysBeforeMonth(y, m) days after 1 January. */
  lemma {:induction false} JdnMonthStart(y: int, m: int)
    requires 1 <= m <= 12
    ensures Jdn(Date(y, m, 1)) == Jdn(Date(y, 1, 1)) + DaysBeforeMonth(y, m)
    decreases m
  {
    if m > 1 {
      JdnMonthStart(y, m - 1);
      JdnMonthStep(y, m - 1);
    }
  }

  lemma DaysBeforeDecember(y: int)
    ensures DaysBeforeMonth(y, 12) + 31 == DaysInYear(y)
  {
  }

  /** 1 January of year y falls DaysBeforeYear(y) days after 1 January of year 1. */
  lemma {:induction false} JdnYearStart(y: int)
    requires y >= 1
    ensures Jdn(Date(y, 1, 1)) == OrdinalToJdn + 1 + DaysBeforeYear(y)
    decreases y
  {
    if y > 1 {
      JdnYearStart(y - 1);
      JdnMonthStart(y - 1, 12);
      JdnYearStep(y - 1);
      DaysBeforeDecember(y - 1);
    }
  }

  /** The formula counts days: it is the day ordinal shifted by a constant. */
  lemma JdnIsOrdinal(d: Date)
    requires ValidDate(d)
    ensures Jdn(d) == Ordinal(d) + OrdinalToJdn
  {
    JdnYearStart(d.year);
    JdnMonthStart(d.year, d.month);
    JdnWithinMonth(d.year, d.month, d.day);
  }

  /** Within a month the formula counts days from the first. */
  lemma JdnWithinMonth(y: int, m: int, day: int)
    ensures Jdn(Date(y, m, day)) == Jdn(Date(y, m, 1)) + day - 1
  {
  }

  /** The day after a valid date has the next JDN. */
  lemma JdnNextDay(d: Date)
    requires ValidDate(d)
    ensures Jdn(NextDay(d)) == Jdn(d) + 1
  {
    var y, m := d.year, d.month;
    JdnWithinMonth(y, m, d.day);
    if d.day < DaysInMonth(y, m) {
      assert NextDay(d) == Date(y, m, d.day + 1);
      JdnWithinMonth(y, m, d.day + 1);
    } else if m < 12 {
      assert NextDay(d) == Date(y, m + 1, 1);
      JdnMonthStep(y, m);
    } else {
      assert NextDay(d) == Date(y + 1, 1, 1);
      JdnYearStep(y);
    }
  }

  lemma {:induction false} DaysBeforeMonthMonotone(y: int, m: int, m': int)
    requires 1 <= m < m' <= 12
    ensures DaysBeforeMonth(y, m) + DaysInMonth(y, m) <= DaysBeforeMonth(y, m')
    decreases m' - m
  {
    if m + 1 < m' {
      DaysBeforeMonthMonotone(y, m + 1, m');
    }
  }

  lemma {:induction false} DaysBeforeYearMonotone(y: int, y': int)
    requires 1 <= y < y'
    ensures DaysBeforeYear(y) + DaysInYear(y) <= DaysBeforeYear(y')
    decreases y' - y
  {
    if y + 1 < y' {
      DaysBeforeYearMonotone(y + 1, y');
    }
  }

  /** Every day of year y lies in (DaysBeforeYear(y), DaysBeforeYear(y) + DaysInYear(y)]. */
  lemma OrdinalWithinYear(d: Date)
    requires ValidDate(d)
    ensures DaysBeforeYear(d.year) < Ordinal(d) <= DaysBeforeYear(d.year) + DaysInYear(d.year)
  {
    if d.month < 12 {
      DaysBeforeMonthMonotone(d.year, d.month, 12);
    }
    DaysBeforeDecember(d.year);
  }

  lemma OrdinalIncreasing(a: Date, b: Date)
    requires ValidDate(a) && ValidDate(b) && Before(a, b)
    ensures Ordinal(a) < Ordinal(b)
  {
    if a.year < b.year {
      OrdinalWithinYear(a);
      OrdinalWithinYear(b);
      DaysBeforeYearMonotone(a.year, b.year);
    } else if a.month < b.month {
      DaysBeforeMonthMonotone(a.year, a.month, b.month);
    }
  }

  /** The JDN orders valid dates exactly as the calendar does. */
  lemma JdnOrderIsomorphic(a: Date, b: Date)
    requires ValidDate(a) && ValidDate(b)
    ensures Before(a, b) <==> Jdn(a) < Jdn(b)
    ensures a == b <==> Jdn(a) == Jdn(b)
  {
    JdnIsOrdinal(a);
    JdnIsOrdinal(b);
    if Before(a, b) {
      OrdinalIncreasing(a, b);
    } else if Before(b, a) {
      OrdinalIncreasing(b, a);
    }
  }

  /** NextDay yields a valid date (unless d is the last representable one) that is later. */
  lemma NextDayValid(d: Date)
    requires ValidDate(d) && d != Date(MaxYear, 12, 31)
    ensures ValidDate(NextDay(d)) && Before(d, NextDay(d))
  {
  }

  /**
   * For two valid dates with no valid date strictly between them, the JDN
   * goes up by exactly one.
   */
  lemma ConsecutiveDatesJdn(d: Date, e: Date)
    requires ValidDate(d) && ValidDate(e) && Before(d, e)
    requires forall x :: ValidDate(x) && Before(d, x) ==> !Before(x, e)
    ensures Jdn(e) == Jdn(d) + 1
  {
    var n := NextDay(d);
    assert d != Date(MaxYear, 12, 31);
    NextDayValid(d);
    assert !Before(n, e);
    JdnOrderIsomorphic(n, e);
    JdnOrderIsomorphic(e, n);
    JdnOrderIsomorphic(d, e);
    JdnNextDay(d);
  }
}
