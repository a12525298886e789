/** Watermark timestamps: UTC instants rendered as fixed-width text to the millisecond. The
    text sorts as the instants do (section 5.1 of RFC 3339), reads back, and can be stepped
    back by the overlap window. */
module Timestamps {

  // ---------- the civil calendar ----------

  predicate Leap(y: int) {
    y % 4 == 0 && (y % 100 != 0 || y % 400 == 0)
  }

  function DaysInMonth(y: int, m: int): int {
    if m == 2 then (if Leap(y) then 29 else 28)
    else if m == 4 || m == 6 || m == 9 || m == 11 then 30
    else 31
  }

  /** Days from 1 January of year 0 to 1 January of year y. */
  function DaysBeforeYear(y: int): int {
    365 * y + (y + 3) / 4 - (y + 99) / 100 + (y + 399) / 400
  }

  function DaysBeforeMonth(y: int, m: int): int
    requires 1 <= m <= 13
    decreases m
  {
    if m == 1 then 0 else DaysBeforeMonth(y, m - 1) + DaysInMonth(y, m - 1)
  }

  datatype Date = Date(year: int, month: int, day: int)

  predicate ValidDate(d: Date) {
    1 <= d.month <= 12 && 1 <= d.day <= DaysInMonth(d.year, d.month)
  }

  function Days(d: Date): int
    requires 1 <= d.month <= 12
  {
    DaysBeforeYear(d.year) + DaysBeforeMonth(d.year, d.month) + d.day - 1
  }

  function YearLength(y: int): int {
    if Leap(y) then 366 else 365
  }

  lemma FourthYears(y: int)
    ensures (y + 4) / 4 == (y + 3) / 4 + (if y % 4 == 0 then 1 else 0)
  {
    var q, r := y / 4, y % 4;
    assert y == 4 * q + r && 0 <= r < 4;
  }

  lemma Centuries(y: int)
    ensures (y + 100) / 100 == (y + 99) / 100 + (if y % 100 == 0 then 1 else 0)
  {
    var q, r := y / 100, y % 100;
    assert y == 100 * q + r && 0 <= r < 100;
  }

  lemma FourthCenturies(y: int)
    ensures (y + 400) / 400 == (y + 399) / 400 + (if y % 400 == 0 then 1 else 0)
  {
    var q, r := y / 400, y % 400;
    assert y == 400 * q + r && 0 <= r < 400;
  }

  lemma CenturiesAreFourths(y: int)
    ensures y % 400 == 0 ==> y % 100 == 0
    ensures y % 100 == 0 ==> y % 4 == 0
  {
  }

  lemma YearStep(y: int)
    ensures DaysBeforeYear(y + 1) == DaysBeforeYear(y) + YearLength(y)
  {
    FourthYears(y);
    Centuries(y);
    FourthCenturies(y);
    CenturiesAreFourths(y);
  }

  lemma {:induction false} YearsGrow(a: int, b: int)
    requires a <= b
    ensures DaysBeforeYear(b) >= DaysBeforeYear(a) + 365 * (b - a)
    decreases b - a
  {
    if a < b {
      YearStep(b - 1);
      YearsGrow(a, b - 1);
    }
  }

  lemma YearSum(y: int)
    ensures DaysBeforeMonth(y, 13) == YearLength(y)
  {
    assert DaysBeforeMonth(y, 2) == 31;
    assert DaysBeforeMonth(y, 3) == 31 + DaysInMonth(y, 2);
    assert DaysBeforeMonth(y, 4) == 62 + DaysInMonth(y, 2);
    assert DaysBeforeMonth(y, 5) == 92 + DaysInMonth(y, 2);
    assert DaysBeforeMonth(y, 6) == 123 + DaysInMonth(y, 2);
    assert DaysBeforeMonth(y, 7) == 153 + DaysInMonth(y, 2);
    assert DaysBeforeMonth(y, 8) == 184 + DaysInMonth(y, 2);
    assert DaysBeforeMonth(y, 9) == 215 + DaysInMonth(y, 2);
    assert DaysBeforeMonth(y, 10) == 245 + DaysInMonth(y, 2);
    assert DaysBeforeMonth(y, 11) == 276 + DaysInMonth(y, 2);
    assert DaysBeforeMonth(y, 12) == 306 + DaysInMonth(y, 2);
  }

  lemma {:induction false} MonthsGrow(y: int, a: int, b: int)
    requires 1 <= a <= b <= 13
    ensures DaysBeforeMonth(y, b) >= DaysBeforeMonth(y, a)
    ensures a < b ==> DaysBeforeMonth(y, b) >= DaysBeforeMonth(y, a) + DaysInMonth(y, a)
    decreases b - a
  {
    if a < b {
      MonthsGrow(y, a, b - 1);
    }
  }

  predicate DateLess(a: Date, b: Date) {
    a.year < b.year
    || (a.year == b.year && (a.month < b.month || (a.month == b.month && a.day < b.day)))
  }

  lemma DayOfYearBound(d: Date)
    requires ValidDate(d)
    ensures DaysBeforeYear(d.year) <= Days(d) < DaysBeforeYear(d.year + 1)
  {
    MonthsGrow(d.year, 1, d.month);
    MonthsGrow(d.year, d.month, 13);
    YearSum(d.year);
    YearStep(d.year);
  }

  /** The calendar counts days in order. */
  lemma DaysFollowDates(a: Date, b: Date)
    requires ValidDate(a) && ValidDate(b)
    ensures DateLess(a, b) ==> Days(a) < Days(b)
    ensures Days(a) < Days(b) ==> DateLess(a, b)
    ensures Days(a) == Days(b) ==> a == b
  {
    DatesInOrder(a, b);
    DatesInOrder(b, a);
    assert DateLess(a, b) || DateLess(b, a) || a == b;
  }

  lemma DatesInOrder(a: Date, b: Date)
    requires ValidDate(a) && ValidDate(b)
    ensures DateLess(a, b) ==> Days(a) < Days(b)
  {
    DayOfYearBound(a);
    DayOfYearBound(b);
    if a.year < b.year {
      YearsGrow(a.year + 1, b.year);
    } else if a.year == b.year && a.month < b.month {
      MonthsGrow(a.year, a.month, b.month);
    }
  }

  // ---------- from a day count back to a date ----------

  function YearFrom(y: int, n: int): (r: int)
    requires DaysBeforeYear(y) <= n
    ensures DaysBeforeYear(r) <= n < DaysBeforeYear(r + 1)
    decreases n - DaysBeforeYear(y)
  {
    YearStep(y);
    if n < DaysBeforeYear(y + 1) then y else YearFrom(y + 1, n)
  }

  function YearOf(n: int): (r: int)
    ensures DaysBeforeYear(r) <= n < DaysBeforeYear(r + 1)
  {
    var guess := if n >= 0 then 0 else n;
    assert DaysBeforeYear(0) == 0;
    assert n < 0 ==> DaysBeforeYear(n) <= n by {
      if n < 0 { YearsGrow(n, 0); }
    }
    YearFrom(guess, n)
  }

  function MonthFrom(y: int, m: int, n: int): (r: (int, int))
    requires 1 <= m <= 12 && DaysBeforeMonth(y, m) <= n < DaysBeforeMonth(y, 13)
    ensures 1 <= r.0 <= 12 && 1 <= r.1 <= DaysInMonth(y, r.0)
    ensures DaysBeforeMonth(y, r.0) + r.1 - 1 == n
    decreases 13 - m
  {
    if n < DaysBeforeMonth(y, m + 1) then (m, n - DaysBeforeMonth(y, m) + 1)
    else MonthFrom(y, m + 1, n)
  }

  function DateOf(n: int): (d: Date)
    ensures ValidDate(d) && Days(d) == n
  {
    var y := YearOf(n);
    YearStep(y);
    YearSum(y);
    var (m, day) := MonthFrom(y, 1, n - DaysBeforeYear(y));
    Date(y, m, day)
  }

  // ---------- the calendar is the civil one ----------

  /** Days from 1 January of year 0 in closed form: years that begin on 1 March, whose leap day
      comes last, and months of 153 days in every five. */
  function CivilDays(y: int, m: int, day: int): int {
    var shifted, k := if m <= 2 then y - 1 else y, if m <= 2 then m + 9 else m - 3;
    365 * shifted + shifted / 4 - shifted / 100 + shifted / 400 + (153 * k + 2) / 5 + day + 59
  }

  function NextFirst(y: int, m: int): (int, int) {
    if m == 12 then (y + 1, 1) else (y, m + 1)
  }

  /** The length of a month, from the closed form alone. */
  function CivilLength(y: int, m: int): int {
    CivilDays(NextFirst(y, m).0, NextFirst(y, m).1, 1) - CivilDays(y, m, 1)
  }

  lemma MonthStarts(y: int, m: int)
    requires 1 <= m <= 12
    ensures m > 2 ==> DaysBeforeMonth(y, m) == 59 + (if Leap(y) then 1 else 0) + (153 * (m - 3) + 2) / 5
    ensures m <= 2 ==> DaysBeforeMonth(y, m) == (153 * (m + 9) + 2) / 5 - 306
  {
    assert DaysBeforeMonth(y, 1) == 0 && DaysBeforeMonth(y, 2) == 31;
    if m > 2 { FromMarch(y, m); }
  }

  lemma {:induction false} FromMarch(y: int, m: int)
    requires 3 <= m <= 12
    ensures DaysBeforeMonth(y, m) == 59 + (if Leap(y) then 1 else 0) + (153 * (m - 3) + 2) / 5
  {
    if m == 3 {
      assert DaysBeforeMonth(y, 2) == 31;
    } else {
      FromMarch(y, m - 1);
    }
  }

  lemma YearStarts(y: int)
    ensures DaysBeforeYear(y) == 365 * y + y / 4 - y / 100 + y / 400 + (if Leap(y) then 0 else 1)
    ensures DaysBeforeYear(y) == 365 * y + (y - 1) / 4 - (y - 1) / 100 + (y - 1) / 400 + 1
  {
    ShiftedQuotients(y);
    CenturiesAreFourths(y);
  }

  lemma ShiftedQuotients(y: int)
    ensures (y + 3) / 4 == (y - 1) / 4 + 1 && (y + 99) / 100 == (y - 1) / 100 + 1
    ensures (y + 399) / 400 == (y - 1) / 400 + 1
    ensures (y + 3) / 4 == y / 4 + (if y % 4 == 0 then 0 else 1)
    ensures (y + 99) / 100 == y / 100 + (if y % 100 == 0 then 0 else 1)
    ensures (y + 399) / 400 == y / 400 + (if y % 400 == 0 then 0 else 1)
  {
  }

  /** The count of days, month by month, is the closed form. */
  lemma DaysAreCivil(d: Date)
    requires 1 <= d.month <= 12
    ensures Days(d) == CivilDays(d.year, d.month, d.day)
  {
    hide Leap, DaysBeforeMonth, DaysBeforeYear;
    MonthStarts(d.year, d.month);
    YearStarts(d.year);
  }

  lemma NextFirstDays(y: int, m: int)
    requires 1 <= m <= 12
    ensures var (y', m') := NextFirst(y, m);
            1 <= m' <= 12 && Days(Date(y', m', 1)) == Days(Date(y, m, 1)) + DaysInMonth(y, m)
  {
    hide Leap, DaysInMonth, DaysBeforeYear;
    YearSum(y);
    YearStep(y);
  }

  lemma LengthIsCivil(y: int, m: int)
    requires 1 <= m <= 12
    ensures DaysInMonth(y, m) == CivilLength(y, m)
  {
    hide CivilDays, Days, DaysInMonth, NextFirst;
    NextFirstDays(y, m);
    DaysAreCivil(Date(y, m, 1));
    DaysAreCivil(Date(NextFirst(y, m).0, NextFirst(y, m).1, 1));
  }

  /** Month by month the calendar has the lengths of the closed form, so the valid dates are
      the civil ones. */
  lemma ValidDateIff(d: Date)
    ensures ValidDate(d) <==> 1 <= d.month <= 12 && 1 <= d.day <= CivilLength(d.year, d.month)
  {
    hide CivilLength, DaysInMonth;
    if 1 <= d.month <= 12 { LengthIsCivil(d.year, d.month); }
  }

  /** The anchors: 400 years are 146097 days, and 1 January 1970 is day 719528. */
  lemma CivilAnchors(y: int, m: int, day: int)
    ensures CivilDays(y + 400, m, day) == CivilDays(y, m, day) + 146_097
    ensures CivilDays(1970, 1, 1) == 719_528 && CivilDays(0, 1, 1) == 0
  {
    var z := if m <= 2 then y - 1 else y;
    assert (z + 400) / 4 == z / 4 + 100 && (z + 400) / 100 == z / 100 + 4 && (z + 400) / 400 == z / 400 + 1;
  }

  /** The day before the first of a month is the civil last day of the month before. */
  lemma DayBeforeFirst(y: int, m: int)
    requires 1 <= m <= 12
    ensures var (y', m') := NextFirst(y, m);
            && ValidDate(Date(y', m', 1))
            && DateOf(Days(Date(y', m', 1)) - 1) == Date(y, m, CivilLength(y, m))
  {
    hide CivilLength, DateOf, DateLess, DaysBeforeYear, DaysBeforeMonth;
    NextFirstDays(y, m);
    LengthIsCivil(y, m);
    var last := Date(y, m, DaysInMonth(y, m));
    assert ValidDate(last);
    DaysFollowDates(DateOf(Days(last)), last);
  }

  // ---------- instants ----------

  const DAY_MS := 86_400_000

  datatype Stamp = Stamp(date: Date, hour: int, minute: int, second: int, milli: int)

  predicate ValidStamp(s: Stamp) {
    && ValidDate(s.date)
    && 0 <= s.hour < 24 && 0 <= s.minute < 60 && 0 <= s.second < 60 && 0 <= s.milli < 1000
  }

  function Clock(s: Stamp): int {
    ((s.hour * 60 + s.minute) * 60 + s.second) * 1000 + s.milli
  }

  /** Milliseconds since the start of year 0, UTC. */
  function Instant(s: Stamp): int
    requires ValidStamp(s)
  {
    Days(s.date) * DAY_MS + Clock(s)
  }

  function StampOf(t: int): (s: Stamp)
    ensures ValidStamp(s) && Instant(s) == t
  {
    var c := t % DAY_MS;
    var s := Stamp(DateOf(t / DAY_MS), c / 3_600_000, c / 60_000 % 60, c / 1000 % 60, c % 1000);
    ClockOf(c);
    assert t == t / DAY_MS * DAY_MS + c;
    s
  }

  lemma ClockOf(c: int)
    requires 0 <= c < DAY_MS
    ensures 0 <= c / 3_600_000 < 24
    ensures ((c / 3_600_000 * 60 + c / 60_000 % 60) * 60 + c / 1000 % 60) * 1000 + c % 1000 == c
  {
    var sec := c / 1000;
    var min := sec / 60;
    assert c / 60_000 == min;
    assert c / 3_600_000 == min / 60;
    assert sec == min * 60 + sec % 60;
    assert min == min / 60 * 60 + min % 60;
  }

  predicate ClockLess(a: Stamp, b: Stamp) {
    a.hour < b.hour || (a.hour == b.hour &&
      (a.minute < b.minute || (a.minute == b.minute &&
        (a.second < b.second || (a.second == b.second && a.milli < b.milli)))))
  }

  predicate StampLess(a: Stamp, b: Stamp) {
    DateLess(a.date, b.date) || (a.date == b.date && ClockLess(a, b))
  }

  lemma ClockBound(s: Stamp)
    requires ValidStamp(s)
    ensures 0 <= Clock(s) < DAY_MS
  {
  }

  lemma InstantsFollowStamps(a: Stamp, b: Stamp)
    requires ValidStamp(a) && ValidStamp(b)
    ensures Instant(a) < Instant(b) <==> StampLess(a, b)
    ensures Instant(a) == Instant(b) ==> a == b
  {
    DaysFollowDates(a.date, b.date);
    DaysFollowDates(b.date, a.date);
    ClockBound(a);
    ClockBound(b);
    assert Days(a.date) < Days(b.date) ==> Days(a.date) * DAY_MS + DAY_MS <= Days(b.date) * DAY_MS;
    assert Days(b.date) < Days(a.date) ==> Days(b.date) * DAY_MS + DAY_MS <= Days(a.date) * DAY_MS;
    assert ClockLess(a, b) <==> Clock(a) < Clock(b);
  }
}
