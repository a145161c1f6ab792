/** The proleptic Gregorian calendar as Python's `datetime.date` and
    `calendar` modules see it: day ordinals counted from 0001-01-01 = 1,
    weekdays with Monday = 0, moving by whole days, the ISO 8601 week number
    (ISO 8601:2004, section 3.2.2, the week calendar) and the month grid of
    `calendar.monthcalendar`. */
module Calendar {

  datatype YMD = YMD(year: nat, month: nat, day: nat)

  predicate IsLeap(y: int)
  {
    y % 4 == 0 && (y % 100 != 0 || y % 400 == 0)
  }

  function DaysInYear(y: int): int
  {
    if IsLeap(y) then 366 else 365
  }

  /** `calendar.monthrange(y, m)[1]`, the length of month `m` of year `y`. */
  function DaysInMonth(y: int, m: int): (n: int)
    requires 1 <= m <= 12
    ensures 28 <= n <= 31
  {
    if m == 2 then (if IsLeap(y) then 29 else 28)
    else if m == 4 || m == 6 || m == 9 || m == 11 then 30
    else 31
  }

  predicate IsValid(d: YMD)
  {
    1 <= d.year && 1 <= d.month <= 12 && 1 <= d.day <= DaysInMonth(d.year, d.month)
  }

  /** A `datetime.date`: a real day of the proleptic Gregorian calendar from
      year 1 on. */
  type Date = d: YMD | IsValid(d) witness YMD(1, 1, 1)

  /** The years and month numbers `datetime.date` accepts. */
  type Year = y: nat | y >= 1 witness 1
  type Month = m: nat | 1 <= m <= 12 witness 1

  /** Days in the years before year `y`: 365 for each of them plus one for
      each leap year among them (every fourth, less the centuries not
      divisible by 400). */
  function DaysBeforeYear(y: nat): (n: int)
    requires y >= 1
    ensures n >= 365 * (y - 1)
  {
    var p := y - 1;
    p * 365 + p / 4 - p / 100 + p / 400
  }

  /** Days in the year `y` before the first of month `m`. */
  function DaysBeforeMonth(y: int, m: int): int
    requires 1 <= m <= 12
  {
    [0, 31, 59, 90, 120, 151, 181, 212, 243, 273, 304, 334][m - 1]
      + (if m > 2 && IsLeap(y) then 1 else 0)
  }

  /** Thirty days hath September, April, June and November; February has
      29 in a leap year and 28 otherwise; the rest have 31. */
  lemma MonthLengths(y: int, m: int)
    requires 1 <= m <= 12
    ensures m == 2 ==> (DaysInMonth(y, m) == 29 <==> IsLeap(y))
    ensures m == 2 ==> (DaysInMonth(y, m) == 28 <==> !IsLeap(y))
    ensures m == 4 || m == 6 || m == 9 || m == 11 ==> DaysInMonth(y, m) == 30
    ensures DaysInMonth(y, m) == 31 <==> m in {1, 3, 5, 7, 8, 10, 12}
  {
  }

  /** `date.toordinal()`: 0001-01-01 has ordinal 1. */
  function Ordinal(d: Date): (n: int)
    ensures n >= 1
  {
    DaysBeforeYear(d.year) + DaysBeforeMonth(d.year, d.month) + d.day
  }

  lemma DaysBeforeMonthStep(y: int, m: int)
    requires 1 <= m <= 12
    ensures m < 12 ==> DaysBeforeMonth(y, m + 1) == DaysBeforeMonth(y, m) + DaysInMonth(y, m)
    ensures m == 12 ==> DaysBeforeMonth(y, m) + DaysInMonth(y, m) == DaysInYear(y)
  {
  }

  /** Counting the multiples of 4, 100 and 400 up to `p + 1` instead of
      `p` adds one for each of them that divides `p + 1`. */
  lemma MultiplesStep(p: nat)
    ensures (p + 1) / 4 == p / 4 + (if (p + 1) % 4 == 0 then 1 else 0)
    ensures (p + 1) / 100 == p / 100 + (if (p + 1) % 100 == 0 then 1 else 0)
    ensures (p + 1) / 400 == p / 400 + (if (p + 1) % 400 == 0 then 1 else 0)
  {
  }

  /** Every multiple of 400 is one of 100, and every multiple of 100 one
      of 4. */
  lemma CenturyMultiples(y: int)
    ensures y % 400 == 0 ==> y % 100 == 0
    ensures y % 100 == 0 ==> y % 4 == 0
  {
    if y % 400 == 0 {
      var q := y / 400;
      assert y == 100 * (4 * q);
    }
    if y % 100 == 0 {
      var q := y / 100;
      assert y == 4 * (25 * q);
    }
  }

  /** The count of years before `y + 1` adds the length of year `y`. */
  lemma DaysBeforeYearStep(y: nat)
    requires y >= 1
    ensures DaysBeforeYear(y + 1) == DaysBeforeYear(y) + DaysInYear(y)
  {
    MultiplesStep(y - 1);
    CenturyMultiples(y);
  }

  /** Month ends precede later months' starts. */
  lemma {:induction false} DaysBeforeMonthMonotone(y: int, m1: int, m2: int)
    requires 1 <= m1 <= 12 && 1 <= m2 <= 12
    ensures m1 < m2 ==> DaysBeforeMonth(y, m1) + DaysInMonth(y, m1) <= DaysBeforeMonth(y, m2)
    decreases m2
  {
    if m1 < m2 {
      DaysBeforeMonthStep(y, m2 - 1);
      DaysBeforeMonthMonotone(y, m1, m2 - 1);
    }
  }

  /** Later years start later. */
  lemma {:induction false} DaysBeforeYearMonotone(a: nat, b: nat)
    requires 1 <= a && 1 <= b
    ensures a <= b ==> DaysBeforeYear(a) <= DaysBeforeYear(b)
    decreases b
  {
    if a < b {
      DaysBeforeYearMonotone(a, b - 1);
      DaysBeforeYearStep(b - 1);
    }
  }

  /** A date's ordinal lies within its own year's block of ordinals. */
  lemma OrdinalWithinYear(d: Date)
    ensures DaysBeforeYear(d.year) < Ordinal(d) <= DaysBeforeYear(d.year + 1)
  {
    DaysBeforeMonthMonotone(d.year, d.month, 12);
    DaysBeforeMonthStep(d.year, 12);
    DaysBeforeYearStep(d.year);
  }

  /** The year of a date is the one whose block of ordinals holds it. */
  lemma YearOfOrdinal(d: Date, y: nat)
    requires y >= 1
    requires DaysBeforeYear(y) < Ordinal(d) <= DaysBeforeYear(y + 1)
    ensures d.year == y
  {
    OrdinalWithinYear(d);
    DaysBeforeYearMonotone(d.year + 1, y);
    DaysBeforeYearMonotone(y + 1, d.year);
  }

  /** Python compares dates by their position in time; in this model that
      is the ordinal. */
  predicate Before(a: Date, b: Date) { Ordinal(a) < Ordinal(b) }
  predicate NotAfter(a: Date, b: Date) { Ordinal(a) <= Ordinal(b) }

  /** A date is fixed by its ordinal. */
  lemma OrdinalInjective(a: Date, b: Date)
    requires Ordinal(a) == Ordinal(b)
    ensures a == b
  {
    OrdinalWithinYear(a);
    YearOfOrdinal(b, a.year);
    DaysBeforeMonthMonotone(a.year, a.month, b.month);
    DaysBeforeMonthMonotone(a.year, b.month, a.month);
  }

  /** A date lies between January 1 and December 31 of year `y` exactly
      when its year is `y`. */
  lemma WithinYearIff(d: Date, y: nat)
    requires y >= 1
    ensures NotAfter(YMD(y, 1, 1), d) && NotAfter(d, YMD(y, 12, 31)) <==> d.year == y
  {
    DaysBeforeMonthStep(y, 12);
    DaysBeforeYearStep(y);
    OrdinalWithinYear(d);
    if NotAfter(YMD(y, 1, 1), d) && NotAfter(d, YMD(y, 12, 31)) {
      YearOfOrdinal(d, y);
    }
  }

  /** The following day. */
  function Next(d: Date): (r: Date)
    ensures Ordinal(r) == Ordinal(d) + 1
  {
    DaysBeforeMonthStep(d.year, d.month);
    DaysBeforeYearStep(d.year);
    if d.day < DaysInMonth(d.year, d.month) then YMD(d.year, d.month, d.day + 1)
    else if d.month < 12 then YMD(d.year, d.month + 1, 1)
    else YMD(d.year + 1, 1, 1)
  }

  /** The preceding day; 0001-01-01 has none. */
  function Prev(d: Date): (r: Date)
    requires Ordinal(d) > 1
    ensures Ordinal(r) == Ordinal(d) - 1
  {
    if d.day > 1 then YMD(d.year, d.month, d.day - 1)
    else if d.month > 1 then
      DaysBeforeMonthStep(d.year, d.month - 1);
      YMD(d.year, d.month - 1, DaysInMonth(d.year, d.month - 1))
    else
      DaysBeforeYearStep(d.year - 1);
      DaysBeforeMonthStep(d.year - 1, 12);
      YMD(d.year - 1, 12, 31)
  }

  /** `d + timedelta(days=n)`. */
  function AddDays(d: Date, n: int): (r: Date)
    requires Ordinal(d) + n >= 1
    ensures Ordinal(r) == Ordinal(d) + n
    decreases if n >= 0 then n else -n
  {
    if n == 0 then d
    else if n > 0 then AddDays(Next(d), n - 1)
    else AddDays(Prev(d), n + 1)
  }

  /** Euclidean division by 7, with quotient and remainder unique. */
  lemma DivMod7(a: int, q: int, r: int)
    requires a == 7 * q + r && 0 <= r < 7
    ensures a / 7 == q && a % 7 == r
  {
  }

  /** `date.weekday()`: Monday is 0, Sunday is 6. */
  function Weekday(d: Date): (w: int)
    ensures 0 <= w <= 6
  {
    (Ordinal(d) + 6) % 7
  }

  /** The weekday is the ordinal's remainder, counted from a Monday. */
  lemma WeekdayOfOrdinal(d: Date)
    ensures Ordinal(d) + 6 == 7 * ((Ordinal(d) + 6) / 7) + Weekday(d)
    ensures Weekday(d) <= Ordinal(d) - 1
  {
  }

  /** Shifting a day count by `n` shifts its remainder modulo 7 by `n`. */
  lemma ShiftMod7(o: int, n: int)
    ensures (o + n + 6) % 7 == ((o + 6) % 7 + n) % 7
  {
    var q := (o + 6) / 7;
    var w := (o + 6) % 7;
    DivMod7(o + 6, q, w);
    var s := w + n;
    var q2 := s / 7;
    DivMod7(s, q2, s % 7);
    DivMod7(o + n + 6, q + q2, s % 7);
  }

  /** Moving by `n` days moves the weekday by `n` modulo 7. */
  lemma WeekdayAfter(d: Date, n: int)
    requires Ordinal(d) + n >= 1
    ensures Weekday(AddDays(d, n)) == (Weekday(d) + n) % 7
  {
    ShiftMod7(Ordinal(d), n);
  }

  /** The days of one month advance the weekday one by one from the 1st. */
  lemma WeekdayInMonth(y: nat, m: nat, v: nat)
    requires y >= 1 && 1 <= m <= 12 && 1 <= v <= DaysInMonth(y, m)
    ensures Weekday(YMD(y, m, v)) == (Weekday(YMD(y, m, 1)) + v - 1) % 7
  {
    assert Ordinal(YMD(y, m, v)) == Ordinal(YMD(y, m, 1)) + (v - 1);
    ShiftMod7(Ordinal(YMD(y, m, 1)), v - 1);
  }

  /** `date.fromordinal(o)`: the one date with ordinal `o`. */
  ghost function FromOrdinal(o: int): (d: Date)
    requires o >= 1
    ensures Ordinal(d) == o
  {
    assert Ordinal(AddDays(YMD(1, 1, 1), o - 1)) == o;
    var d: Date :| Ordinal(d) == o;
    d
  }

  /** The date `n` days after `d` is the one whose ordinal is `n` more. */
  lemma AddDaysIsFromOrdinal(d: Date, n: int)
    requires Ordinal(d) + n >= 1
    ensures AddDays(d, n) == FromOrdinal(Ordinal(d) + n)
  {
    OrdinalInjective(AddDays(d, n), FromOrdinal(Ordinal(d) + n));
  }

  /** The Monday on or before `d`. */
  ghost function MondayOnOrBefore(d: Date): (r: Date)
    ensures Weekday(r) == 0
    ensures Ordinal(r) == Ordinal(d) - Weekday(d) && Ordinal(d) - 6 <= Ordinal(r)
  {
    WeekdayOfOrdinal(d);
    var r := FromOrdinal(Ordinal(d) - Weekday(d));
    DivMod7(Ordinal(r) + 6, (Ordinal(d) + 6) / 7, 0);
    r
  }

  /** The loop `while d.weekday() != 0: d -= timedelta(days=1)`. */
  method WalkBackToMonday(d: Date) returns (r: Date)
    ensures r == MondayOnOrBefore(d)
  {
    r := d;
    WeekdayOfOrdinal(d);
    while Weekday(r) != 0
      invariant Ordinal(d) - Weekday(d) <= Ordinal(r) <= Ordinal(d)
      invariant Weekday(r) == Weekday(d) - (Ordinal(d) - Ordinal(r))
      decreases Weekday(r)
    {
      WeekdayAfter(r, -1);
      DivMod7(Weekday(r) - 1, 0, Weekday(r) - 1);
      r := AddDays(r, -1);
    }
    OrdinalInjective(r, MondayOnOrBefore(d));
  }

  /** The ordinal of the Monday that starts ISO week 1 of year `y` (Python's
      `_isoweek1monday`). */
  function IsoWeek1Monday(y: nat): int
    requires y >= 1
  {
    var firstDay := DaysBeforeYear(y) + 1;
    var firstWeekday := (firstDay + 6) % 7;
    var week1Monday := firstDay - firstWeekday;
    if firstWeekday > 3 then week1Monday + 7 else week1Monday
  }

  /** ISO 8601's week 1 is the Monday-started week that holds January 4
      (equivalently, the year's first Thursday). */
  lemma IsoWeek1MondayHoldsJanuary4(y: nat)
    requires y >= 1
    ensures (IsoWeek1Monday(y) + 6) % 7 == 0
    ensures Ordinal(YMD(y, 1, 4)) - 6 <= IsoWeek1Monday(y) <= Ordinal(YMD(y, 1, 4))
  {
    var firstDay := DaysBeforeYear(y) + 1;
    var firstWeekday := (firstDay + 6) % 7;
    var q := (firstDay + 6) / 7;
    DivMod7(firstDay + 6, q, firstWeekday);
    if firstWeekday > 3 {
      DivMod7(IsoWeek1Monday(y) + 6, q + 1, 0);
    } else {
      DivMod7(IsoWeek1Monday(y) + 6, q, 0);
    }
  }

  /** Consecutive ISO years are 52 or 53 weeks long. */
  lemma IsoYearLength(y: nat)
    requires y >= 1
    ensures IsoWeek1Monday(y + 1) - IsoWeek1Monday(y) == 364
         || IsoWeek1Monday(y + 1) - IsoWeek1Monday(y) == 371
  {
    IsoWeek1MondayHoldsJanuary4(y);
    IsoWeek1MondayHoldsJanuary4(y + 1);
    DaysBeforeYearStep(y);
    MondayGap(IsoWeek1Monday(y), IsoWeek1Monday(y + 1));
  }

  /** Two Mondays 359 to 372 days apart are 52 or 53 weeks apart. */
  lemma MondayGap(a: int, b: int)
    requires (a + 6) % 7 == 0 && (b + 6) % 7 == 0
    requires 359 <= b - a <= 372
    ensures b - a == 364 || b - a == 371
  {
    var qa, qb := (a + 6) / 7, (b + 6) / 7;
    assert a + 6 == 7 * qa && b + 6 == 7 * qb;
    assert b - a == 7 * (qb - qa);
  }

  /** `date.isocalendar()[1]`, Python's algorithm: the week number within
      the ISO year. A day before the year's week 1 belongs to the last week
      of the previous ISO year; a day on or after the next year's week 1
      Monday is in week 1. */
  function IsoWeekNumber(d: Date): int
  {
    var today := Ordinal(d);
    var week := (today - IsoWeek1Monday(d.year)) / 7;
    if week < 0 then
      (today - IsoWeek1Monday(d.year - 1)) / 7 + 1
    else if week >= 52 && today >= IsoWeek1Monday(d.year + 1) then 1
    else week + 1
  }

  /** Every date is in week 1 to 53 of its ISO year. */
  lemma IsoWeekRange(d: Date)
    ensures 1 <= IsoWeekNumber(d) <= 53
  {
    var today := Ordinal(d);
    OrdinalWithinYear(d);
    IsoWeek1MondayHoldsJanuary4(d.year);
    IsoYearLength(d.year);
    if d.year > 1 {
      IsoYearLength(d.year - 1);
      IsoWeek1MondayHoldsJanuary4(d.year - 1);
      DaysBeforeYearStep(d.year - 1);
    }
  }

  /** The ISO week number, with its range. */
  function IsoWeek(d: Date): (w: nat)
    ensures 1 <= w <= 53
  {
    IsoWeekRange(d);
    IsoWeekNumber(d)
  }

  /** The Monday `7k` days after the start of ISO week 1 of its own year
      `y` is in ISO week `k + 1`, for the first 52 weeks. */
  lemma IsoWeekAfterWeek1(d: Date, y: Year, k: int)
    requires d.year == y && 0 <= k < 52 && Ordinal(d) == IsoWeek1Monday(y) + 7 * k
    ensures IsoWeek(d) == k + 1
  {
    DivMod7(7 * k, k, 0);
  }

  /** The Monday that starts ISO week 1 of the next year `y` is in week 1;
      the Monday a week earlier is in week 52 or 53 of its own year. */
  lemma IsoWeekAtYearEnd(d: Date, y: Year)
    requires d.year + 1 == y
    ensures Ordinal(d) == IsoWeek1Monday(y) ==> IsoWeek(d) == 1
    ensures Ordinal(d) == IsoWeek1Monday(y) - 7 ==> IsoWeek(d) >= 52
  {
    IsoYearLength(d.year);
    var gap := IsoWeek1Monday(y) - IsoWeek1Monday(d.year);
    if gap == 364 {
      DivMod7(gap, 52, 0);
      DivMod7(gap - 7, 51, 0);
    } else {
      DivMod7(gap, 53, 0);
      DivMod7(gap - 7, 52, 0);
    }
  }

  /** ISO week 1 of `y` starts on the Monday on or before January 1 when
      that day is a Monday to Thursday, and a week later otherwise. */
  lemma IsoWeek1MondayFromJanuary1(y: Year)
    ensures var first := YMD(y, 1, 1);
            IsoWeek1Monday(y) == Ordinal(first) - Weekday(first) + (if Weekday(first) > 3 then 7 else 0)
  {
  }

  /** One cell of `calendar.monthcalendar`: position `k` in row-major order,
      `first` the weekday of the 1st, `n` the month's length; 0 outside the
      month. */
  function MonthCell(k: int, first: int, n: int): (v: nat)
    ensures v == 0 || (1 <= v <= n && v == k - first + 1)
  {
    if first <= k < first + n then k - first + 1 else 0
  }

  /** Row `w` of the month grid. */
  function MonthWeek(w: int, first: int, n: int): (row: seq<nat>)
    ensures |row| == 7
    ensures forall c :: 0 <= c < 7 ==> row[c] == MonthCell(7 * w + c, first, n)
  {
    seq<nat>(7, c requires 0 <= c < 7 => MonthCell(7 * w + c, first, n))
  }

  /** `calendar.monthcalendar(y, m)`: the month as Monday-first weeks of
      seven day numbers, 0 for the days of neighbouring months. Days are
      numbered consecutively in row-major order starting at the 1st's
      weekday; the grid is just long enough to hold the last day. */
  function MonthCalendar(y: nat, m: nat): (cal: seq<seq<nat>>)
    requires y >= 1 && 1 <= m <= 12
    ensures 4 <= |cal| <= 6
    ensures Weekday(YMD(y, m, 1)) + DaysInMonth(y, m) <= 7 * |cal|
    ensures 7 * |cal| < Weekday(YMD(y, m, 1)) + DaysInMonth(y, m) + 7
    ensures forall w :: 0 <= w < |cal| ==> |cal[w]| == 7
    ensures forall w, c :: 0 <= w < |cal| && 0 <= c < 7 ==>
              (cal[w][c] != 0 <==>
                 Weekday(YMD(y, m, 1)) <= 7 * w + c < Weekday(YMD(y, m, 1)) + DaysInMonth(y, m))
    ensures forall w, c :: 0 <= w < |cal| && 0 <= c < 7 && cal[w][c] != 0 ==>
              cal[w][c] == 7 * w + c - Weekday(YMD(y, m, 1)) + 1
  {
    var first := Weekday(YMD(y, m, 1));
    var n := DaysInMonth(y, m);
    var rows := (first + n + 6) / 7;
    seq(rows, w requires 0 <= w < rows => MonthWeek(w, first, n))
  }

  /** Every day of the month sits in `monthcalendar` at the row and column
      its offset from the 1st's weekday gives. */
  lemma MonthCalendarHoldsDay(y: nat, m: nat, v: nat)
    requires y >= 1 && 1 <= m <= 12 && 1 <= v <= DaysInMonth(y, m)
    ensures var k := Weekday(YMD(y, m, 1)) + v - 1;
            k / 7 < |MonthCalendar(y, m)| && MonthCalendar(y, m)[k / 7][k % 7] == v
  {
    var cal := MonthCalendar(y, m);
    var k := Weekday(YMD(y, m, 1)) + v - 1;
    DivMod7(k, k / 7, k % 7);
    assert 7 * (k / 7) < 7 * |cal|;
  }

  /** The column of every day in `monthcalendar` is its weekday. */
  lemma MonthCalendarColumnIsWeekday(y: nat, m: nat, w: nat, c: nat)
    requires y >= 1 && 1 <= m <= 12
    requires w < |MonthCalendar(y, m)| && c < 7
    requires MonthCalendar(y, m)[w][c] != 0
    ensures Weekday(YMD(y, m, MonthCalendar(y, m)[w][c])) == c
  {
    var v := MonthCalendar(y, m)[w][c];
    var first := Weekday(YMD(y, m, 1));
    WeekdayInMonth(y, m, v);
    DivMod7(first + v - 1, w, c);
  }
}
