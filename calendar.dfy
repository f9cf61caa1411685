/**
 * The slice of JavaScript's `Date` the application relies on: local calendar fields, the
 * time value (milliseconds since 1 January 1970) used by `<`, `>` and `-`, and the overflow
 * rules of `new Date(y, m, d, h)`, `setMonth` and `setDate` (ECMAScript MakeDay: a month
 * index of 12 is January of the next year, day 31 of a 30-day month is the 1st of the next
 * month; nothing is clamped). Time zones are not modelled: local time is the time value.
 */
module Calendar {

  const MsPerDay: int := 86400000
  const MsPerHour: int := 3600000
  /** Milliseconds from midnight to 12:00:00.000. */
  const Noon: int := 12 * MsPerHour
  /** Linear month index of January 1970, the origin of time values. */
  const EpochMonth: int := 12 * 1970

  predicate IsLeapYear(y: int)
  {
    y % 4 == 0 && (y % 100 != 0 || y % 400 == 0)
  }

  /** Gregorian length of month `m` (0 = January) of year `y`. */
  function DaysInMonth(y: int, m: int): (n: int)
    requires 0 <= m < 12
    ensures 28 <= n <= 31
    ensures n == 29 <==> m == 1 && IsLeapYear(y)
  {
    if m == 1 then (if IsLeapYear(y) then 29 else 28)
    else if m == 3 || m == 5 || m == 8 || m == 10 then 30
    else 31
  }

  /** Length of the month with linear index `L` (`12 * year + monthIndex`). */
  function DaysInMonthAt(L: int): (n: int)
    ensures 28 <= n <= 31
  {
    DaysInMonth(L / 12, L % 12)
  }

  /** Day number (days since 1 January 1970) of the first day of the month with linear index `L`. */
  function FirstDay(L: int): int
    decreases if L >= EpochMonth then L - EpochMonth else EpochMonth - L
  {
    if L == EpochMonth then 0
    else if L > EpochMonth then FirstDay(L - 1) + DaysInMonthAt(L - 1)
    else FirstDay(L + 1) - DaysInMonthAt(L)
  }

  lemma FirstDayNext(L: int)
    ensures FirstDay(L + 1) == FirstDay(L) + DaysInMonthAt(L)
  {
  }

  /** A later month starts no earlier than the end of an earlier one. */
  lemma {:induction false} FirstDayMonotone(L1: int, L2: int)
    requires L1 < L2
    ensures FirstDay(L1) + DaysInMonthAt(L1) <= FirstDay(L2)
    decreases L2 - L1
  {
    FirstDayNext(L1);
    if L1 + 1 < L2 {
      FirstDayMonotone(L1 + 1, L2);
      FirstDayNext(L1 + 1);
    }
  }

  /**
   * A local date and time: `month` is JavaScript's month index (0 = January), `msOfDay` the
   * milliseconds since local midnight (hours, minutes, seconds and milliseconds together).
   */
  datatype DateTime = DateTime(year: int, month: int, day: int, msOfDay: int)
  {
    /** The fields of a `Date` as its getters report them. */
    predicate Valid()
    {
      0 <= month < 12 && 1 <= day <= DaysInMonth(year, month) && 0 <= msOfDay < MsPerDay
    }

    function MonthIndex(): int
    {
      12 * year + month
    }
  }

  /** ECMAScript MakeDay: the day number of day `date` of month `month` of `year`, with overflow. */
  function MakeDay(year: int, month: int, date: int): int
  {
    FirstDay(12 * year + month) + date - 1
  }

  function DayNumber(d: DateTime): int
  {
    MakeDay(d.year, d.month, d.day)
  }

  /** The time value `d.getTime()`, which `<`, `>` and `-` on `Date` objects compare and subtract. */
  function TimeValue(d: DateTime): int
  {
    DayNumber(d) * MsPerDay + d.msOfDay
  }

  /**
   * Carries day `d` of month `L` into range, a month at a time, in either direction: the
   * result names the same day number with a day that exists in its month.
   */
  function Rollover(L: int, d: int): (r: (int, int))
    ensures 1 <= r.1 <= DaysInMonthAt(r.0)
    ensures FirstDay(r.0) + r.1 == FirstDay(L) + d
    decreases d < 1, if d < 1 then 1 - d else d
  {
    if d < 1 then
      FirstDayNext(L - 1);
      Rollover(L - 1, d + DaysInMonthAt(L - 1))
    else if d > DaysInMonthAt(L) then
      FirstDayNext(L);
      Rollover(L + 1, d - DaysInMonthAt(L))
    else
      (L, d)
  }

  /**
   * `new Date(year, month, date, ...)` at `msOfDay` milliseconds after midnight: the fields of
   * the date whose time value is MakeDay(year, month, date) days plus `msOfDay`.
   */
  function Normalize(year: int, month: int, date: int, msOfDay: int): (r: DateTime)
    requires 0 <= msOfDay < MsPerDay
    ensures r.Valid() && r.msOfDay == msOfDay
    ensures DayNumber(r) == MakeDay(year, month, date)
    ensures TimeValue(r) == MakeDay(year, month, date) * MsPerDay + msOfDay
  {
    var p := Rollover(12 * year + month, date);
    DateTime(p.0 / 12, p.0 % 12, p.1, msOfDay)
  }

  /** `d.setMonth(m)`: keeps the day of month and the time, and lets the day overflow. */
  function SetMonth(d: DateTime, m: int): (r: DateTime)
    requires d.Valid()
    ensures r.Valid() && r.msOfDay == d.msOfDay
    ensures DayNumber(r) == MakeDay(d.year, m, d.day)
  {
    Normalize(d.year, m, d.day, d.msOfDay)
  }

  /** `d.setDate(day)`: keeps year, month and time, and lets the day overflow. */
  function SetDate(d: DateTime, day: int): (r: DateTime)
    requires d.Valid()
    ensures r.Valid() && r.msOfDay == d.msOfDay
    ensures DayNumber(r) == MakeDay(d.year, d.month, day)
  {
    Normalize(d.year, d.month, day, d.msOfDay)
  }

  /** `d.setHours(h, 0, 0, 0)` for an hour that needs no carry. */
  function SetHours(d: DateTime, h: int): (r: DateTime)
    requires 0 <= h < 24
    ensures r.msOfDay == h * MsPerHour
    ensures r.year == d.year && r.month == d.month && r.day == d.day
    ensures d.Valid() ==> r.Valid() && DayNumber(r) == DayNumber(d)
  {
    d.(msOfDay := h * MsPerHour)
  }

  /** A date on an earlier day comes first, whatever the two times of day. */
  lemma EarlierDayFirst(a: DateTime, b: DateTime)
    requires 0 <= a.msOfDay < MsPerDay && 0 <= b.msOfDay
    requires DayNumber(a) < DayNumber(b)
    ensures TimeValue(a) < TimeValue(b)
  {
    var k := DayNumber(b) - DayNumber(a);
    assert DayNumber(b) * MsPerDay == DayNumber(a) * MsPerDay + k * MsPerDay;
  }

  /** Valid dates are fixed points of normalisation. */
  lemma NormalizeValid(d: DateTime)
    requires d.Valid()
    ensures Normalize(d.year, d.month, d.day, d.msOfDay) == d
  {
    assert (12 * d.year + d.month) / 12 == d.year;
    assert (12 * d.year + d.month) % 12 == d.month;
  }

  /** The day number of a valid date lies inside its own month. */
  lemma DayNumberInMonth(d: DateTime)
    requires d.Valid()
    ensures FirstDay(d.MonthIndex()) <= DayNumber(d) < FirstDay(d.MonthIndex() + 1)
  {
    var L := d.MonthIndex();
    assert L / 12 == d.year && L % 12 == d.month;
    FirstDayNext(L);
  }

  /** Distinct calendar days of valid dates have distinct day numbers. */
  lemma DayNumberInjective(a: DateTime, b: DateTime)
    requires a.Valid() && b.Valid()
    requires DayNumber(a) == DayNumber(b)
    ensures a.year == b.year && a.month == b.month && a.day == b.day
  {
    var La, Lb := a.MonthIndex(), b.MonthIndex();
    DayNumberInMonth(a);
    DayNumberInMonth(b);
    if La < Lb {
      FirstDayMonotone(La + 1, Lb + 1);
      FirstDayMonotone(La, Lb);
      FirstDayNext(La);
    } else if Lb < La {
      FirstDayMonotone(Lb, La);
      FirstDayNext(Lb);
    }
    assert La == Lb;
  }

  /** For valid dates the time value orders dates exactly as their calendar fields do. */
  predicate CalendarBefore(a: DateTime, b: DateTime)
  {
    a.year < b.year
    || (a.year == b.year && a.month < b.month)
    || (a.year == b.year && a.month == b.month && a.day < b.day)
    || (a.year == b.year && a.month == b.month && a.day == b.day && a.msOfDay < b.msOfDay)
  }

  /** `TimeValueOrder` for any two dates, stated for the valid ones. */
  lemma CalendarOrder(a: DateTime, b: DateTime)
    ensures a.Valid() && b.Valid() ==> (TimeValue(a) < TimeValue(b) <==> CalendarBefore(a, b))
  {
    if a.Valid() && b.Valid() {
      TimeValueOrder(a, b);
    }
  }

  lemma {:induction false} TimeValueOrder(a: DateTime, b: DateTime)
    requires a.Valid() && b.Valid()
    ensures TimeValue(a) < TimeValue(b) <==> CalendarBefore(a, b)
  {
    var La, Lb := a.MonthIndex(), b.MonthIndex();
    DayNumberInMonth(a);
    DayNumberInMonth(b);
    if La < Lb {
      FirstDayMonotone(La + 1, Lb + 1);
      FirstDayNext(La);
      if La + 1 < Lb + 1 { FirstDayMonotone(La, Lb); }
      assert DayNumber(a) < DayNumber(b);
    } else if Lb < La {
      FirstDayMonotone(Lb, La);
      FirstDayNext(Lb);
      assert DayNumber(b) < DayNumber(a);
    } else {
      assert a.year == b.year && a.month == b.month;
    }
  }

  // Overflow behaviour of `new Date(...)`, `setMonth` and `setDate`.

  /** A day that its month has is left where it is. */
  lemma RolloverInRange(L: int, d: int)
    requires 1 <= d <= DaysInMonthAt(L)
    ensures Rollover(L, d) == (L, d)
  {
  }

  /** A day past the end of its month that the next month has is carried once. */
  lemma RolloverOnce(L: int, d: int)
    requires DaysInMonthAt(L) < d && 1 <= d - DaysInMonthAt(L) <= DaysInMonthAt(L + 1)
    ensures Rollover(L, d) == (L + 1, d - DaysInMonthAt(L))
  {
    RolloverInRange(L + 1, d - DaysInMonthAt(L));
  }

  /** Month index 12 rolls over to January of the following year. */
  lemma MonthIndexTwelveIsNextJanuary(year: int, date: int, msOfDay: int)
    requires 1 <= date <= 31 && 0 <= msOfDay < MsPerDay
    ensures Normalize(year, 12, date, msOfDay) == DateTime(year + 1, 0, date, msOfDay)
  {
    var L := 12 * year + 12;
    assert L == 12 * (year + 1) + 0;
    assert L / 12 == year + 1 && L % 12 == 0;
    RolloverInRange(L, date);
  }

  /** Day 31 of April (30 days) is 1 May: the day is carried, not clamped. */
  lemma DayThirtyOneOfAprilIsFirstOfMay(year: int, msOfDay: int)
    requires 0 <= msOfDay < MsPerDay
    ensures Normalize(year, 3, 31, msOfDay) == DateTime(year, 4, 1, msOfDay)
  {
    var L := 12 * year + 3;
    assert L / 12 == year && L % 12 == 3;
    assert (L + 1) / 12 == year && (L + 1) % 12 == 4;
    RolloverOnce(L, 31);
  }

  /**
   * `setMonth(getMonth() + 1)` on 31 January lands in March: on the 3rd in a common year,
   * on the 2nd in a leap year. February is skipped.
   */
  lemma SetMonthOnThirtyFirstSkipsFebruary(year: int, msOfDay: int)
    requires 0 <= msOfDay < MsPerDay
    ensures !IsLeapYear(year) ==> SetMonth(DateTime(year, 0, 31, msOfDay), 1) == DateTime(year, 2, 3, msOfDay)
    ensures IsLeapYear(year) ==> SetMonth(DateTime(year, 0, 31, msOfDay), 1) == DateTime(year, 2, 2, msOfDay)
  {
    var L := 12 * year + 1;
    assert L / 12 == year && L % 12 == 1;
    assert (L + 1) / 12 == year && (L + 1) % 12 == 2;
    RolloverOnce(L, 31);
  }
}
