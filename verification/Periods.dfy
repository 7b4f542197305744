/**
 Settlement windows: the half-open UTC month [periodStart, periodEnd), built with Date.UTC
 (section 21.4.3.4 of ECMA-262). Instants are milliseconds since the epoch.
 */
module Periods {
  import opened Prelude

  const MS_PER_DAY := 86_400_000
  const MAX_TIME := 8_640_000_000_000_000

  datatype Window = Window(start: int, end: int)

  /** Invalid is the thrown error; a bound is None where the Date is an Invalid Date. */
  datatype PeriodResult = InvalidMonth | Period(start: Option<int>, end: Option<int>)

  predicate Contains(w: Window, t: int) { w.start <= t < w.end }

  predicate Disjoint(a: Window, b: Window) { a.end <= b.start || b.end <= a.start }

  predicate Divides(n: int, y: int)
    requires n > 0
  {
    y % n == 0
  }

  predicate LeapYear(y: int) { Divides(4, y) && (!Divides(100, y) || Divides(400, y)) }

  /** How often `n` has divided a year since the year `from`. */
  function Since(y: int, from: int, n: int): int
    requires n > 0
  {
    (y - from) / n
  }

  function DayFromYear(y: int): int {
    365 * (y - 1970) + Since(y, 1969, 4) - Since(y, 1901, 100) + Since(y, 1601, 400)
  }

  function DaysBeforeMonth(m: int, leap: bool): int
    requires 0 <= m < 12
  {
    [0, 31, 59, 90, 120, 151, 181, 212, 243, 273, 304, 334][m] + if leap && m >= 2 then 1 else 0
  }

  /** The day number of the first of month `n`, counted in months: n = 12 * year + month. */
  function FirstDay(n: int): int {
    DayFromYear(n / 12) + DaysBeforeMonth(n % 12, LeapYear(n / 12))
  }

  /** MakeFullYear: the years 0 to 99 mean 1900 to 1999. */
  function FullYear(year: int): int { if 0 <= year <= 99 then 1900 + year else year }

  /** Date.UTC(year, month, 1), with the month counted from 0 and allowed to overflow into the next year. */
  function DateUtc(year: int, month: int): Option<int> {
    var t := FirstDay(12 * FullYear(year) + month) * MS_PER_DAY;
    if -MAX_TIME <= t <= MAX_TIME then Some(t) else None
  }

  function UtcPeriod(month: int, year: int): PeriodResult {
    if month < 1 || month > 12 then InvalidMonth
    else Period(DateUtc(year, month - 1), DateUtc(year, month))
  }

  /** The call gives a window: the month is valid and both bounds are valid dates. */
  predicate HasWindow(month: int, year: int) {
    var p := UtcPeriod(month, year);
    p.Period? && p.start.Some? && p.end.Some?
  }

  function WindowOf(month: int, year: int): Window
    requires HasWindow(month, year)
  {
    var p := UtcPeriod(month, year);
    Window(p.start.value, p.end.value)
  }

  function MonthIndex(month: int, year: int): int { 12 * FullYear(year) + month - 1 }

  lemma FourthYears(y: int)
    ensures Since(y + 1, 1969, 4) - Since(y, 1969, 4) == if Divides(4, y) then 1 else 0
  {
  }

  lemma HundredthYears(y: int)
    ensures Since(y + 1, 1901, 100) - Since(y, 1901, 100) == if Divides(100, y) then 1 else 0
  {
  }

  lemma FourHundredthYears(y: int)
    ensures Since(y + 1, 1601, 400) - Since(y, 1601, 400) == if Divides(400, y) then 1 else 0
  {
  }

  lemma FourHundredDivides(y: int)
    ensures Divides(400, y) ==> Divides(100, y)
    ensures Divides(100, y) ==> Divides(4, y)
  {
  }

  lemma YearLength(y: int)
    ensures DayFromYear(y + 1) - DayFromYear(y) == if LeapYear(y) then 366 else 365
  {
    hide Since, Divides;
    FourthYears(y);
    HundredthYears(y);
    FourHundredDivides(y);
    FourHundredthYears(y);
  }

  /** Every month, across year ends too, is 28 to 31 days long. */
  lemma MonthLength(n: int)
    ensures 28 <= FirstDay(n + 1) - FirstDay(n) <= 31
  {
    if n % 12 == 11 {
      YearLength(n / 12);
      assert (n + 1) / 12 == n / 12 + 1 && (n + 1) % 12 == 0;
    } else {
      assert (n + 1) / 12 == n / 12 && (n + 1) % 12 == n % 12 + 1;
    }
  }

  lemma {:induction false} MonthsAscend(a: int, b: int)
    requires a <= b
    ensures FirstDay(a) + 28 * (b - a) <= FirstDay(b) <= FirstDay(a) + 31 * (b - a)
    decreases b - a
  {
    if a < b {
      MonthLength(b - 1);
      MonthsAscend(a, b - 1);
    }
  }

  ghost predicate IsMonth(w: Window, n: int) {
    w.start == FirstDay(n) * MS_PER_DAY && w.end == FirstDay(n + 1) * MS_PER_DAY
  }

  lemma WindowIsMonth(month: int, year: int)
    requires HasWindow(month, year)
    ensures IsMonth(WindowOf(month, year), MonthIndex(month, year))
  {
    var n := MonthIndex(month, year);
    assert 12 * FullYear(year) + (month - 1) == n;
    assert 12 * FullYear(year) + month == n + 1;
  }

  lemma LaterMonth(v: Window, a: int, w: Window, b: int)
    requires IsMonth(v, a) && IsMonth(w, b) && a < b
    ensures v.end <= w.start && v.start < w.start
  {
    MonthsAscend(a + 1, b);
    MonthLength(a);
  }

  lemma MonthsEqualOrDisjoint(v: Window, a: int, w: Window, b: int)
    requires IsMonth(v, a) && IsMonth(w, b)
    ensures v == w || Disjoint(v, w)
    ensures v == w <==> a == b
  {
    if a < b {
      LaterMonth(v, a, w, b);
    } else if b < a {
      LaterMonth(w, b, v, a);
    }
  }

  /** Two windows are the same window or share no instant, and they are the same exactly for the same full month. */
  lemma EqualOrDisjoint(m1: int, y1: int, m2: int, y2: int)
    requires HasWindow(m1, y1) && HasWindow(m2, y2)
    ensures WindowOf(m1, y1) == WindowOf(m2, y2) || Disjoint(WindowOf(m1, y1), WindowOf(m2, y2))
    ensures WindowOf(m1, y1) == WindowOf(m2, y2) <==> FullYear(y1) == FullYear(y2) && m1 == m2
  {
    var v, w := WindowOf(m1, y1), WindowOf(m2, y2);
    WindowIsMonth(m1, y1);
    WindowIsMonth(m2, y2);
    MonthsEqualOrDisjoint(v, MonthIndex(m1, y1), w, MonthIndex(m2, y2));
    SameMonth(m1, y1, m2, y2);
  }

  lemma SameMonth(m1: int, y1: int, m2: int, y2: int)
    requires 1 <= m1 <= 12 && 1 <= m2 <= 12
    ensures MonthIndex(m1, y1) == MonthIndex(m2, y2) <==> FullYear(y1) == FullYear(y2) && m1 == m2
  {
  }

  function NextMonth(month: int, year: int): (int, int) {
    if month == 12 then (1, year + 1) else (month + 1, year)
  }

  lemma NextIndex(month: int, year: int)
    requires 1 <= month <= 12
    ensures var (m, y) := NextMonth(month, year);
            MonthIndex(m, y) == MonthIndex(month, year) + 1 <==> !(month == 12 && (year == -1 || year == 99))
  {
  }

  /** Consecutive months meet end to start, except where the next January crosses into or out of the years 0..99. */
  lemma MonthsMeet(month: int, year: int)
    requires HasWindow(month, year) && HasWindow(NextMonth(month, year).0, NextMonth(month, year).1)
    ensures WindowOf(month, year).end == WindowOf(NextMonth(month, year).0, NextMonth(month, year).1).start
            <==> !(month == 12 && (year == -1 || year == 99))
  {
    var (m, y) := NextMonth(month, year);
    WindowIsMonth(month, year);
    WindowIsMonth(m, y);
    NextIndex(month, year);
    EndMeetsStart(WindowOf(month, year), MonthIndex(month, year), WindowOf(m, y), MonthIndex(m, y));
  }

  lemma EndMeetsStart(v: Window, a: int, w: Window, b: int)
    requires IsMonth(v, a) && IsMonth(w, b)
    ensures v.end == w.start <==> b == a + 1
  {
    FirstDayInjective(a + 1, b);
  }

  lemma FirstDayInjective(a: int, b: int)
    ensures FirstDay(a) == FirstDay(b) <==> a == b
  {
    hide FirstDay;
    if a < b {
      MonthsAscend(a, b);
    } else if b < a {
      MonthsAscend(b, a);
    }
  }

  /** The month an instant falls into, found by walking forward from a month that starts no later. */
  lemma {:induction false} MonthHolding(n: int, day: int) returns (k: int)
    requires FirstDay(n) <= day
    ensures n <= k && FirstDay(k) <= day < FirstDay(k + 1)
    decreases day - FirstDay(n)
  {
    hide FirstDay;
    MonthLength(n);
    if day < FirstDay(n + 1) {
      k := n;
    } else {
      k := MonthHolding(n + 1, day);
    }
  }

  const YEAR_100 := FirstDay(1200) * MS_PER_DAY
  const LAST_MONTH := 12 * 275760 + 8
  const LAST_END := FirstDay(LAST_MONTH) * MS_PER_DAY

  lemma DaysInRange(k: int)
    requires 1200 <= k < LAST_MONTH
    ensures -100_000_000 <= FirstDay(k) <= 100_000_000 && -100_000_000 <= FirstDay(k + 1) <= 100_000_000
  {
    hide FirstDay;
    MonthsAscend(1200, k);
    MonthsAscend(k + 1, LAST_MONTH);
    MonthLength(k);
    OuterMonths();
  }

  lemma DateOfMonth(y: int, m: int)
    requires y >= 100 && -100_000_000 <= FirstDay(12 * y + m) <= 100_000_000
    ensures DateUtc(y, m) == Some(FirstDay(12 * y + m) * MS_PER_DAY)
  {
    hide FirstDay;
    assert FullYear(y) == y;
  }

  lemma MonthOfYear(y: int, m: int)
    requires y >= 100 && 0 <= m < 12 && 12 * y + m < LAST_MONTH
    ensures HasWindow(m + 1, y) && IsMonth(WindowOf(m + 1, y), 12 * y + m)
  {
    hide FirstDay, DateUtc;
    DaysInRange(12 * y + m);
    DateOfMonth(y, m);
    assert 12 * y + (m + 1) == 12 * y + m + 1;
    DateOfMonth(y, m + 1);
  }

  /** A month from year 100 on that ends in time to be a Date is the window of its own month and year. */
  lemma MonthHasWindow(k: int)
    requires 1200 <= k < LAST_MONTH
    ensures HasWindow(k % 12 + 1, k / 12) && IsMonth(WindowOf(k % 12 + 1, k / 12), k)
  {
    hide HasWindow, WindowOf, IsMonth;
    MonthOfYear(k / 12, k % 12);
    assert 12 * (k / 12) + k % 12 == k;
  }

  lemma OuterMonths()
    ensures FirstDay(LAST_MONTH) <= 100_000_000 && FirstDay(1200) >= -100_000_000
  {
  }

  lemma InMonth(w: Window, k: int, t: int)
    requires IsMonth(w, k) && FirstDay(k) <= t / MS_PER_DAY < FirstDay(k + 1)
    ensures Contains(w, t)
  {
  }

  /** From year 100 up to the last month a Date can close, every instant lies in a window, and in only one. */
  lemma EveryInstantSettlesOnce(t: int) returns (month: int, year: int)
    requires YEAR_100 <= t < LAST_END
    ensures HasWindow(month, year) && year >= 100 && Contains(WindowOf(month, year), t)
    ensures forall m, y | HasWindow(m, y) && Contains(WindowOf(m, y), t) :: WindowOf(m, y) == WindowOf(month, year)
  {
    var k := MonthOfInstant(t);
    month, year := k % 12 + 1, k / 12;
    MonthHasWindow(k);
    InMonth(WindowOf(month, year), k, t);
    forall m, y | HasWindow(m, y) && Contains(WindowOf(m, y), t)
      ensures WindowOf(m, y) == WindowOf(month, year)
    {
      EqualOrDisjoint(m, y, month, year);
    }
  }

  lemma MonthOfInstant(t: int) returns (k: int)
    requires YEAR_100 <= t < LAST_END
    ensures 1200 <= k < LAST_MONTH && FirstDay(k) <= t / MS_PER_DAY < FirstDay(k + 1)
  {
    k := MonthHolding(1200, t / MS_PER_DAY);
    if k >= LAST_MONTH {
      MonthsAscend(LAST_MONTH, k);
    }
  }

  // ---------------------------------------------------------------- the calendar, named month by named month

  /** Thirty days have April, June, September and November. */
  function DaysIn(month: int, leap: bool): int {
    if month == 2 then (if leap then 29 else 28) else if month in {4, 6, 9, 11} then 30 else 31
  }

  /** Month `n`, counted from year 0, ends where the next one starts. */
  ghost predicate HasItsDays(firstDay: int -> int, n: int) {
    firstDay(n + 1) == firstDay(n) + DaysIn(n % 12 + 1, LeapYear(n / 12))
  }

  /** The first of January 1970 is day 0, and every month has its days. */
  ghost predicate IsCalendar(firstDay: int -> int) {
    firstDay(EPOCH_MONTH) == 0 && forall n {:trigger HasItsDays(firstDay, n)} :: HasItsDays(firstDay, n)
  }

  const EPOCH_MONTH := 12 * 1970

  lemma MonthHasItsDays(n: int)
    ensures FirstDay(n + 1) == FirstDay(n) + DaysIn(n % 12 + 1, LeapYear(n / 12))
  {
    hide LeapYear, DayFromYear;
    if n % 12 == 11 {
      YearLength(n / 12);
      assert (n + 1) / 12 == n / 12 + 1 && (n + 1) % 12 == 0;
    } else {
      assert (n + 1) / 12 == n / 12 && (n + 1) % 12 == n % 12 + 1;
    }
  }

  /** That fixes the first day of every month, before and after. */
  lemma CalendarIsFixed(firstDay: int -> int)
    ensures IsCalendar(firstDay) <==> forall n :: firstDay(n) == FirstDay(n)
  {
    hide FirstDay;
    EpochIsDayZero();
    if forall n :: firstDay(n) == FirstDay(n) {
      forall n ensures HasItsDays(firstDay, n) {
        MonthHasItsDays(n);
      }
    }
    if IsCalendar(firstDay) {
      forall n ensures firstDay(n) == FirstDay(n) {
        CalendarAgrees(firstDay, n);
      }
    }
  }

  lemma EpochIsDayZero()
    ensures FirstDay(EPOCH_MONTH) == 0
  {
  }

  lemma {:induction false} CalendarAgrees(firstDay: int -> int, n: int)
    requires IsCalendar(firstDay)
    ensures firstDay(n) == FirstDay(n)
    decreases if n >= EPOCH_MONTH then n - EPOCH_MONTH else EPOCH_MONTH - n
  {
    hide FirstDay, LeapYear, DaysIn;
    if n == EPOCH_MONTH {
      EpochIsDayZero();
    } else if n > EPOCH_MONTH {
      CalendarAgrees(firstDay, n - 1);
      MonthHasItsDays(n - 1);
      assert HasItsDays(firstDay, n - 1);
    } else {
      CalendarAgrees(firstDay, n + 1);
      MonthHasItsDays(n);
      assert HasItsDays(firstDay, n);
    }
  }

  /** A settlement window starts with its month, the epoch being the first of January 1970, and lasts as many days as it has. */
  lemma WindowIsItsMonth(month: int, year: int)
    requires HasWindow(month, year)
    ensures var w := WindowOf(month, year);
            && w.end == w.start + DaysIn(month, LeapYear(FullYear(year))) * MS_PER_DAY
            && (FullYear(year) == 1970 && month == 1 ==> w.start == 0)
  {
    var n := MonthIndex(month, year);
    WindowIsMonth(month, year);
    MonthHasItsDays(n);
    EpochIsDayZero();
    MonthNumbers(month, FullYear(year));
    hide FirstDay, LeapYear, DaysIn, UtcPeriod;
  }

  lemma MonthNumbers(month: int, year: int)
    requires 1 <= month <= 12
    ensures (12 * year + month - 1) / 12 == year && (12 * year + month - 1) % 12 + 1 == month
  {
  }
}
