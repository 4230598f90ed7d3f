/** Calendar arithmetic of the clock: days counted from 2000-01-01 with the
    simple every-fourth-year leap rule, weekdays, and the day-of-month
    choice of the US daylight-saving rule. */
module Calendar {
  import opened PyOps

  /** Lengths of the months of a common year, January first. */
  const DaysInMonth: seq<int> := [31, 28, 31, 30, 31, 30, 31, 31, 30, 31, 30, 31]

  /** The fixed base offset of local time from UTC, in hours. */
  const TzHours: int := -5

  function Sum(s: seq<int>): int
  {
    if s == [] then 0 else Sum(s[..|s| - 1]) + s[|s| - 1]
  }

  /** `sum(days_in_month[:(month - 1)])`: days of the common year before the
      first of `month`. */
  function DaysBeforeMonth(month: int): int
    requires 1 <= month <= 12
  {
    Sum(DaysInMonth[..month - 1])
  }

  /** The cumulative table the prefix sums take. */
  lemma DaysBeforeMonthTable(month: int)
    requires 1 <= month <= 12
    ensures DaysBeforeMonth(month) == [0, 31, 59, 90, 120, 151, 181, 212, 243, 273, 304, 334][month - 1]
  {
    var t := [0, 31, 59, 90, 120, 151, 181, 212, 243, 273, 304, 334];
    var m := 1;
    while m < month
      invariant 1 <= m <= month
      invariant Sum(DaysInMonth[..m - 1]) == t[m - 1]
    {
      assert DaysInMonth[..m][..m - 1] == DaysInMonth[..m - 1];
      m := m + 1;
    }
  }

  /** Whole leap days between 2000-01-01 and January 1 of `year`, as the
      clock counts them: `max(0, year - 1997) // 4`. */
  function LeapDaysBefore(year: int): int
  {
    Max(0, year - 1997) / 4
  }

  /** `day_of_century`: the day number of a date, 2000-01-01 being day 0. */
  function DayOfCentury(year: int, month: int, day: int): int
    requires 1 <= month <= 12
  {
    365 * (year - 2000) + LeapDaysBefore(year) + DaysBeforeMonth(month)
    + (if year % 4 == 0 && month > 2 then 1 else 0) + day - 1
  }

  /** `day_of_week`: 0 is Sunday, anchored at 2000-01-01 being a Saturday. */
  function DayOfWeek(year: int, month: int, day: int): (w: int)
    requires 1 <= month <= 12
    ensures 0 <= w < 7
  {
    (6 + DayOfCentury(year, month, day)) % 7
  }

  /** `first_sunday`: the day of the month of its first Sunday. */
  function FirstSunday(year: int, month: int): int
    requires 1 <= month <= 12
  {
    1 + (7 - DayOfWeek(year, month, 1)) % 7
  }

  /** The number of days in a month of `year` under the four-year rule. */
  function MonthLength(year: int, month: int): int
    requires 1 <= month <= 12
  {
    DaysInMonth[month - 1] + (if year % 4 == 0 && month == 2 then 1 else 0)
  }

  lemma EpochIsDayZero()
    ensures DayOfCentury(2000, 1, 1) == 0
    ensures DayOfWeek(2000, 1, 1) == 6
  {
    DaysBeforeMonthTable(1);
  }

  /** 2023-01-01 was a Sunday, and the four-year rule yields that. */
  lemma NewYear2023IsSunday()
    ensures DayOfWeek(2023, 1, 1) == 0
  {
    DaysBeforeMonthTable(1);
  }

  /** Consecutive days of one month have consecutive weekdays. */
  lemma NextDayNextWeekday(year: int, month: int, day: int)
    requires 1 <= month <= 12
    ensures DayOfWeek(year, month, day + 1) == (DayOfWeek(year, month, day) + 1) % 7
  {
  }

  /** The day after the last day of a month is the first of the next one. */
  lemma MonthsAreContiguous(year: int, month: int)
    requires 1 <= month < 12
    ensures DayOfCentury(year, month + 1, 1) == DayOfCentury(year, month, MonthLength(year, month)) + 1
  {
    DaysBeforeMonthTable(month);
    DaysBeforeMonthTable(month + 1);
  }

  /** From 1997 on, December 31 is followed by January 1: the leap-day
      count advances exactly after the years divisible by four. */
  lemma YearsAreContiguous(year: int)
    requires year >= 1997
    ensures DayOfCentury(year + 1, 1, 1) == DayOfCentury(year, 12, 31) + 1
  {
    DaysBeforeMonthTable(1);
    DaysBeforeMonthTable(12);
    var k := year - 1997;
    assert LeapDaysBefore(year) == k / 4;
    assert LeapDaysBefore(year + 1) == (k + 1) / 4;
    assert year % 4 == (k + 1) % 4;
    if (k + 1) % 4 == 0 {
      assert (k + 1) / 4 == k / 4 + 1;
    } else {
      assert (k + 1) / 4 == k / 4;
    }
  }

  /** `first_sunday` is the smallest day of the month that is a Sunday. */
  lemma FirstSundayIsFirst(year: int, month: int)
    requires 1 <= month <= 12
    ensures 1 <= FirstSunday(year, month) <= 7
    ensures DayOfWeek(year, month, FirstSunday(year, month)) == 0
    ensures forall d :: 1 <= d < FirstSunday(year, month) ==> DayOfWeek(year, month, d) != 0
  {
    var base := 6 + DayOfCentury(year, month, 1);
    var w := base % 7;
    var fs := FirstSunday(year, month);
    assert fs == 1 + (7 - w) % 7;
    assert DayOfWeek(year, month, fs) == (base + fs - 1) % 7;
    assert base == (base / 7) * 7 + w;
    if w == 0 {
      assert fs == 1;
    } else {
      assert fs == 8 - w;
      assert base + fs - 1 == (base / 7 + 1) * 7;
    }
    forall d | 1 <= d < fs
      ensures DayOfWeek(year, month, d) != 0
    {
      assert DayOfWeek(year, month, d) == (base + d - 1) % 7;
      assert base + d - 1 == (base / 7) * 7 + (w + d - 1);
      assert 0 < w + d - 1 < 7;
    }
  }

  /** DST begins on the day `7 + first_sunday(year, 3)`. */
  function DstStartDay(year: int): int
  {
    7 + FirstSunday(year, 3)
  }

  /** DST ends on the day `first_sunday(year, 11)`. */
  function DstEndDay(year: int): int
  {
    FirstSunday(year, 11)
  }

  /** The start day is the second Sunday of March: a Sunday in 8..14, and in
      the first two weeks of March the only Sundays are it and the first. */
  lemma DstStartIsSecondSunday(year: int)
    ensures 8 <= DstStartDay(year) <= 14
    ensures DayOfWeek(year, 3, DstStartDay(year)) == 0
    ensures forall d :: 1 <= d <= 14 && DayOfWeek(year, 3, d) == 0 ==>
              d == FirstSunday(year, 3) || d == DstStartDay(year)
  {
    FirstSundayIsFirst(year, 3);
    var fs := FirstSunday(year, 3);
    NextWeekSameWeekday(year, 3, fs);
    forall d | 1 <= d <= 14 && DayOfWeek(year, 3, d) == 0
      ensures d == fs || d == fs + 7
    {
      if d > 7 {
        NextWeekSameWeekday(year, 3, d - 7);
      }
      if fs < d < fs + 7 {
        WeekdaysWithinAWeekDiffer(year, 3, fs, d);
      }
    }
  }

  /** The end day is the first Sunday of November. */
  lemma DstEndIsFirstSunday(year: int)
    ensures 1 <= DstEndDay(year) <= 7
    ensures DayOfWeek(year, 11, DstEndDay(year)) == 0
    ensures forall d :: 1 <= d < DstEndDay(year) ==> DayOfWeek(year, 11, d) != 0
  {
    FirstSundayIsFirst(year, 11);
  }

  lemma NextWeekSameWeekday(year: int, month: int, day: int)
    requires 1 <= month <= 12
    ensures DayOfWeek(year, month, day + 7) == DayOfWeek(year, month, day)
  {
    var n := 6 + DayOfCentury(year, month, day);
    assert n + 7 == (n / 7 + 1) * 7 + n % 7;
  }

  lemma WeekdaysWithinAWeekDiffer(year: int, month: int, d1: int, d2: int)
    requires 1 <= month <= 12
    requires d1 < d2 < d1 + 7
    ensures DayOfWeek(year, month, d1) != DayOfWeek(year, month, d2)
  {
  }

  /** `time.mktime` on a date at a whole hour, counted in seconds from
      2000-01-01 00:00 with the clock's own day count. */
  function CivilSeconds(year: int, month: int, day: int, hour: int): int
    requires 1 <= month <= 12
  {
    DayOfCentury(year, month, day) * 86400 + hour * 3600
  }

  /** `is_dst`: whether an instant lies from 2:00 on the second Sunday of
      March up to (not including) 2:00 on the first Sunday of November of
      `year`, the year `time.localtime` reports for the instant. */
  function IsDst(secsInUtc: int, year: int): bool
  {
    CivilSeconds(year, 3, DstStartDay(year), 2) <= secsInUtc < CivilSeconds(year, 11, DstEndDay(year), 2)
  }

  /** `my_localtime`: the seconds value handed to `time.localtime`, the base
      offset plus one hour while DST is in effect. */
  function LocalSeconds(secsInUtc: int, year: int): int
  {
    if IsDst(secsInUtc, year) then secsInUtc + 3600 * (TzHours + 1) else secsInUtc + 3600 * TzHours
  }

  /** No second of January is in daylight-saving time: local time is UTC
      minus five hours all month. */
  lemma JanuaryIsNotDst(year: int, secs: int)
    requires CivilSeconds(year, 1, 1, 0) <= secs < CivilSeconds(year, 2, 1, 0)
    ensures !IsDst(secs, year)
    ensures LocalSeconds(secs, year) == secs - 5 * 3600
  {
    DstStartIsSecondSunday(year);
    DaysBeforeMonthTable(2);
    DaysBeforeMonthTable(3);
  }

  /** Every second of July is in daylight-saving time: local time is UTC
      minus four hours all month. */
  lemma JulyIsDst(year: int, secs: int)
    requires CivilSeconds(year, 7, 1, 0) <= secs < CivilSeconds(year, 8, 1, 0)
    ensures IsDst(secs, year)
    ensures LocalSeconds(secs, year) == secs - 4 * 3600
  {
    DstStartIsSecondSunday(year);
    DstEndIsFirstSunday(year);
    DaysBeforeMonthTable(3);
    DaysBeforeMonthTable(7);
    DaysBeforeMonthTable(8);
    DaysBeforeMonthTable(11);
  }
}
