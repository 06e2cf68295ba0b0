/** WeekdayCalendar.cs: the Monday-to-Friday dates of a month, which are the
    dates a report is expected to cover. */
module WeekdayCalendar {
  import opened Wrappers
  import opened Cells

  predicate IsLeapYear(year: int) {
    year % 4 == 0 && (year % 100 != 0 || year % 400 == 0)
  }

  function DaysInMonth(year: int, month: int): int
    requires 1 <= month <= 12
  {
    if month == 2 then (if IsLeapYear(year) then 29 else 28)
    else if month == 4 || month == 6 || month == 9 || month == 11 then 30
    else 31
  }

  function DaysBeforeMonth(year: int, month: int): int
    requires 1 <= month <= 12
    decreases month
  {
    if month == 1 then 0 else DaysBeforeMonth(year, month - 1) + DaysInMonth(year, month - 1)
  }

  /** Days elapsed since 1 January of year 1, as `DateTime` counts them. */
  function DayNumber(d: Day): int
    requires 1 <= d.month <= 12
  {
    var y := d.year - 1;
    365 * y + y / 4 - y / 100 + y / 400 + DaysBeforeMonth(d.year, d.month) + d.dom - 1
  }

  /** `DayOfWeek` numbered as .NET does, 0 = Sunday .. 6 = Saturday; day 0
      (1 January of year 1) was a Monday. */
  function DayOfWeek(d: Day): int
    requires 1 <= d.month <= 12
  {
    (DayNumber(d) + 1) % 7
  }

  predicate IsWeekday(d: Day)
    requires 1 <= d.month <= 12
  {
    DayOfWeek(d) != 0 && DayOfWeek(d) != 6
  }

  /** The arguments for which `new DateTime(year, month, 1).AddMonths(1)` does
      not throw: years 1..9999, months 1..12, and not December 9999. */
  predicate ValidMonth(month: int, year: int) {
    1 <= year <= 9999 && 1 <= month <= 12 && !(year == 9999 && month == 12)
  }

  /** The weekdays among days 1..k of the month, at midnight, in day order. */
  function WeekdaysUpTo(year: int, month: int, k: int): seq<DateTime>
    requires 1 <= month <= 12
    decreases k
  {
    if k <= 0 then []
    else WeekdaysUpTo(year, month, k - 1)
         + (if IsWeekday(Day(year, month, k)) then [DateTime(Day(year, month, k), 0)] else [])
  }

  /** `GetWeekdaysInMonth`: every day 1..(days in the month) that is neither a
      Saturday nor a Sunday. */
  function GetWeekdaysInMonth(month: int, year: int): (r: Result<seq<DateTime>, Failure>)
    ensures r.Err? <==> !ValidMonth(month, year)
  {
    if !ValidMonth(month, year) then Err(ArgumentOutOfRange("month"))
    else Ok(WeekdaysUpTo(year, month, DaysInMonth(year, month)))
  }

  /** Everything in WeekdaysUpTo(k) is a midnight weekday of days 1..k of the
      month, in strictly ascending order, and every weekday of 1..k is there. */
  lemma {:induction false} WeekdaysUpToSpec(year: int, month: int, k: int)
    requires 1 <= month <= 12
    ensures forall i :: 0 <= i < |WeekdaysUpTo(year, month, k)| ==>
      var t := WeekdaysUpTo(year, month, k)[i];
      t.ticks == 0 && t.day.year == year && t.day.month == month && 1 <= t.day.dom <= k && IsWeekday(t.day)
    ensures forall i, j :: 0 <= i < j < |WeekdaysUpTo(year, month, k)| ==>
      WeekdaysUpTo(year, month, k)[i].day.dom < WeekdaysUpTo(year, month, k)[j].day.dom
    ensures forall d :: 1 <= d <= k && IsWeekday(Day(year, month, d)) ==>
      DateTime(Day(year, month, d), 0) in WeekdaysUpTo(year, month, k)
    decreases k
  {
    if k > 0 {
      WeekdaysUpToSpec(year, month, k - 1);
    }
  }

  /** The dates returned for a month all lie in that month and year, are at
      midnight, fall on Monday..Friday, are strictly ascending (so there are no
      duplicates), and include every Monday..Friday of the month. */
  lemma GetWeekdaysInMonthSpec(month: int, year: int)
    requires ValidMonth(month, year)
    ensures var r := GetWeekdaysInMonth(month, year).value;
      && (forall i :: 0 <= i < |r| ==>
            && r[i].day.year == year && r[i].day.month == month && r[i].ticks == 0
            && 1 <= r[i].day.dom <= DaysInMonth(year, month)
            && DayOfWeek(r[i].day) != 0 && DayOfWeek(r[i].day) != 6)
      && (forall i, j :: 0 <= i < j < |r| ==> r[i].day.dom < r[j].day.dom)
      && (forall i, j :: 0 <= i < j < |r| ==> r[i] != r[j])
      && (forall d :: 1 <= d <= DaysInMonth(year, month) && IsWeekday(Day(year, month, d)) ==>
            DateTime(Day(year, month, d), 0) in r)
  {
    WeekdaysUpToSpec(year, month, DaysInMonth(year, month));
  }

  /** February has 29 days exactly in leap years: 2024 and 2000 are leap years,
      1900 and 2023 are not. */
  lemma LeapYearDays()
    ensures forall y :: DaysInMonth(y, 2) == 29 <==> IsLeapYear(y)
    ensures DaysInMonth(2024, 2) == 29 && DaysInMonth(2000, 2) == 29
    ensures DaysInMonth(1900, 2) == 28 && DaysInMonth(2023, 2) == 28
    ensures DaysInMonth(2024, 4) == 30 && DaysInMonth(2024, 12) == 31
  {
  }

  /** 1 February 2024 is day 738916, a Thursday, so day d of the month is a
      Saturday or a Sunday exactly when (d + 3) % 7 is 6 or 0. */
  lemma February2024DayOfWeek(d: int)
    requires 1 <= d <= 29
    ensures DayOfWeek(Day(2024, 2, d)) == (d + 3) % 7
    ensures IsWeekday(Day(2024, 2, d)) <==> !IsFebruary2024Weekend(d)
    ensures d == 1 || d == 29 ==> DayOfWeek(Day(2024, 2, d)) == 4
  {
    assert DayNumber(Day(2024, 2, d)) == 738915 + d;
  }

  predicate IsFebruary2024Weekend(d: int) {
    (d + 3) % 7 == 6 || (d + 3) % 7 == 0
  }

  /** The days among 1..k that are Saturdays or Sundays of February 2024. */
  function February2024Weekends(k: int): nat
    decreases k
  {
    if k <= 0 then 0 else February2024Weekends(k - 1) + (if IsFebruary2024Weekend(k) then 1 else 0)
  }

  /** The Saturdays and Sundays among 1..k are the d with d % 7 == 3 plus the
      d with d % 7 == 4. */
  lemma {:induction false} February2024WeekendsCount(k: int)
    requires 0 <= k
    ensures February2024Weekends(k) == (k + 4) / 7 + (k + 3) / 7
    decreases k
  {
    if k > 0 {
      February2024WeekendsCount(k - 1);
      WeekendStep(k);
    }
  }

  /** Going from day k - 1 to day k adds one to the count of days d with
      d % 7 == 3 or d % 7 == 4 exactly when k is such a day. */
  lemma WeekendStep(k: int)
    requires 1 <= k
    ensures (k + 4) / 7 + (k + 3) / 7
      == (k + 3) / 7 + (k + 2) / 7 + (if IsFebruary2024Weekend(k) then 1 else 0)
  {
    var q, r := (k + 2) / 7, (k + 2) % 7;
    assert k + 2 == 7 * q + r;
    if r == 6 {
      assert k + 3 == 7 * (q + 1) && k + 4 == 7 * (q + 1) + 1;
    } else if r == 5 {
      assert k + 3 == 7 * q + 6 && k + 4 == 7 * (q + 1);
    } else {
      assert k + 3 == 7 * q + r + 1 && k + 4 == 7 * q + r + 2;
    }
  }

  /** Among days 1..k of February 2024 the weekdays are the days that are not
      Saturdays or Sundays. */
  lemma {:induction false} February2024Count(k: int)
    requires 0 <= k <= 29
    ensures |WeekdaysUpTo(2024, 2, k)| == k - February2024Weekends(k)
    decreases k
  {
    if k > 0 {
      February2024Count(k - 1);
      February2024DayOfWeek(k);
      var n := |WeekdaysUpTo(2024, 2, k - 1)|;
      assert |WeekdaysUpTo(2024, 2, k)| == n + (if IsWeekday(Day(2024, 2, k)) then 1 else 0);
    }
  }

  /** February 2024 has 21 weekdays, from Thursday 1 February to Thursday 29
      February. (The month and year are parameters fixed by the precondition
      so the verifier does not unfold the whole month literally.) */
  lemma February2024(month: int, year: int)
    requires month == 2 && year == 2024
    ensures GetWeekdaysInMonth(month, year).Ok?
    ensures |GetWeekdaysInMonth(month, year).value| == 21
    ensures GetWeekdaysInMonth(month, year).value[0] == DateTime(Day(year, month, 1), 0)
    ensures GetWeekdaysInMonth(month, year).value[20] == DateTime(Day(year, month, 29), 0)
    ensures DayOfWeek(Day(year, month, 1)) == 4 && DayOfWeek(Day(year, month, 29)) == 4
  {
    var last := DaysInMonth(year, month);
    assert last == 29;
    February2024Last(last);
    February2024First(1, last);
  }

  /** The last of the weekdays of February 2024 is Thursday 29, the 21st. */
  lemma February2024Last(last: int)
    requires last == 29
    ensures |WeekdaysUpTo(2024, 2, last)| == 21
    ensures WeekdaysUpTo(2024, 2, last)[20] == DateTime(Day(2024, 2, last), 0)
    ensures DayOfWeek(Day(2024, 2, last)) == 4
  {
    February2024Before(last - 1);
    February2024DayOfWeek(last);
    assert WeekdaysUpTo(2024, 2, last) == WeekdaysUpTo(2024, 2, last - 1) + [DateTime(Day(2024, 2, last), 0)];
  }

  /** Days 1..28 of February 2024 hold 20 weekdays. */
  lemma February2024Before(k: int)
    requires k == 28
    ensures |WeekdaysUpTo(2024, 2, k)| == 20
  {
    February2024WeekendsCount(k);
    assert February2024Weekends(k) == 8;
    February2024Count(k);
  }

  /** The first of the weekdays of February 2024 is Thursday 1. */
  lemma February2024First(first: int, last: int)
    requires first == 1 && last == 29
    ensures |WeekdaysUpTo(2024, 2, last)| > 0 ==> WeekdaysUpTo(2024, 2, last)[0] == DateTime(Day(2024, 2, first), 0)
    ensures DayOfWeek(Day(2024, 2, first)) == 4
  {
    February2024DayOfWeek(first);
    FirstWeekday(2024, 2, last);
  }

  /** When the 1st is a weekday it heads the weekdays of every longer scan. */
  lemma {:induction false} FirstWeekday(year: int, month: int, k: int)
    requires 1 <= month <= 12 && 1 <= k && IsWeekday(Day(year, month, 1))
    ensures |WeekdaysUpTo(year, month, k)| > 0 && WeekdaysUpTo(year, month, k)[0] == DateTime(Day(year, month, 1), 0)
    decreases k
  {
    if k == 1 {
      assert WeekdaysUpTo(year, month, 0) == [];
    } else {
      FirstWeekday(year, month, k - 1);
    }
  }

  /** Scanning more days only appends. */
  lemma {:induction false} PrefixGrows(year: int, month: int, j: int, k: int)
    requires 1 <= month <= 12 && j <= k
    ensures WeekdaysUpTo(year, month, j) <= WeekdaysUpTo(year, month, k)
    decreases k - j
  {
    if j < k {
      PrefixGrows(year, month, j, k - 1);
    }
  }
}
