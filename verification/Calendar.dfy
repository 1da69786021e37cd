/** Budget period windows (`_period_window`, backend/app/llm/budget.py): calendar
    days, months and quarters in UTC, as intervals of one linear timeline. */
module Calendar {
  import opened Basics

  const DAY: Micros := 86_400_000_000

  /** A moment as the source reads it off the clock: a proleptic Gregorian date
      and the time since its midnight. */
  datatype Moment = Moment(year: int, month: int, day: int, time: Micros) {
    predicate Valid() {
      1 <= year && 1 <= month <= 12 && 1 <= day <= DaysInMonth(year, month) && 0 <= time < DAY
    }
  }

  predicate Leap(y: int) { y % 4 == 0 && (y % 100 != 0 || y % 400 == 0) }

  function DaysInMonth(y: int, m: int): int {
    if m == 2 then (if Leap(y) then 29 else 28)
    else if m == 4 || m == 6 || m == 9 || m == 11 then 30
    else 31
  }

  /** Days of the year before the first of the month; month 13 is the whole year. */
  function DaysBeforeMonth(y: int, m: int): int
    requires 1 <= m <= 13
  {
    if m == 1 then 0 else DaysBeforeMonth(y, m - 1) + DaysInMonth(y, m - 1)
  }

  /** Days before the first of January of year `y >= 1`. */
  function DaysBeforeYear(y: int): int {
    365 * (y - 1) + (y - 1) / 4 - (y - 1) / 100 + (y - 1) / 400
  }

  /** Days from the start of year one to a date. */
  function DayNumber(y: int, m: int, d: int): int
    requires 1 <= m <= 12
  {
    DaysBeforeYear(y) + DaysBeforeMonth(y, m) + d - 1
  }

  /** The midnight that starts a day. */
  function Midnight(day: int): Micros { day * 86_400_000_000 }

  function Instant(t: Moment): Micros
    requires t.Valid()
  {
    Midnight(DayNumber(t.year, t.month, t.day)) + t.time
  }

  datatype Period = Daily | Monthly | Quarterly | Custom(start: Micros, end: Micros)

  /** Half open: `start <= created_at < end`. */
  datatype Window = Window(start: Micros, end: Micros) {
    predicate Contains(at: Micros) { start <= at < end }
  }

  /** The midnight that starts the first of a month. */
  function MonthStart(y: int, m: int): Micros
    requires 1 <= m <= 12
  {
    Midnight(DayNumber(y, m, 1))
  }

  function QuarterMonth(m: int): int { (m - 1) / 3 * 3 + 1 }

  function PeriodWindow(p: Period, now: Moment): Window
    requires now.Valid()
  {
    match p
    case Custom(start, end) => Window(start, end)
    case Daily =>
      var start := Midnight(DayNumber(now.year, now.month, now.day));
      Window(start, start + DAY)
    case Quarterly =>
      var first := QuarterMonth(now.month);
      var last := first + 3;
      Window(MonthStart(now.year, first),
             if last > 12 then MonthStart(now.year + 1, last - 12) else MonthStart(now.year, last))
    case Monthly =>
      Window(MonthStart(now.year, now.month),
             if now.month == 12 then MonthStart(now.year + 1, 1) else MonthStart(now.year, now.month + 1))
  }

  // ---- Months are laid end to end ----------------------------------------------------

  lemma MonthsOfYear(y: int)
    ensures var leap := if Leap(y) then 1 else 0;
            && DaysBeforeMonth(y, 4) == 90 + leap
            && DaysBeforeMonth(y, 7) == 181 + leap
            && DaysBeforeMonth(y, 10) == 273 + leap
            && DaysBeforeMonth(y, 13) == 365 + leap
  {
    assert DaysBeforeMonth(y, 1) == 0;
    assert DaysBeforeMonth(y, 2) == 31;
    assert DaysBeforeMonth(y, 3) == 31 + DaysInMonth(y, 2);
    assert DaysBeforeMonth(y, 4) == DaysBeforeMonth(y, 3) + 31;
    assert DaysBeforeMonth(y, 5) == DaysBeforeMonth(y, 4) + 30;
    assert DaysBeforeMonth(y, 6) == DaysBeforeMonth(y, 5) + 31;
    assert DaysBeforeMonth(y, 7) == DaysBeforeMonth(y, 6) + 30;
    assert DaysBeforeMonth(y, 8) == DaysBeforeMonth(y, 7) + 31;
    assert DaysBeforeMonth(y, 9) == DaysBeforeMonth(y, 8) + 31;
    assert DaysBeforeMonth(y, 10) == DaysBeforeMonth(y, 9) + 30;
    assert DaysBeforeMonth(y, 11) == DaysBeforeMonth(y, 10) + 31;
    assert DaysBeforeMonth(y, 12) == DaysBeforeMonth(y, 11) + 30;
    assert DaysBeforeMonth(y, 13) == DaysBeforeMonth(y, 12) + 31;
  }

  /** A year is as long as the day count between its first and the next. */
  lemma YearLength(y: int)
    ensures DaysBeforeYear(y + 1) == DaysBeforeYear(y) + DaysBeforeMonth(y, 13)
  {
    MonthsOfYear(y);
    LeapDays(y);
  }

  lemma LeapDays(y: int)
    ensures DaysBeforeYear(y + 1) == DaysBeforeYear(y) + 365 + (if Leap(y) then 1 else 0)
  {
    Multiples(y);
    assert y / 4 == (y - 1) / 4 + (if y % 4 == 0 then 1 else 0);
    assert y / 100 == (y - 1) / 100 + (if y % 100 == 0 then 1 else 0);
    assert y / 400 == (y - 1) / 400 + (if y % 400 == 0 then 1 else 0);
  }

  lemma Multiples(y: int)
    ensures y % 400 == 0 ==> y % 100 == 0
    ensures y % 100 == 0 ==> y % 4 == 0
  {}

  /** Months counted from year zero: the month of `t` is number 12 * year + month - 1. */
  function MonthNumber(t: Moment): int { 12 * t.year + t.month - 1 }

  /** The day on which month number `n` starts. */
  function FirstDay(n: int): int { DayNumber(n / 12, n % 12 + 1, 1) }

  lemma NextMonth(n: int)
    ensures FirstDay(n + 1) == FirstDay(n) + DaysInMonth(n / 12, n % 12 + 1)
  {
    var y, m := n / 12, n % 12 + 1;
    if m == 12 {
      assert (n + 1) / 12 == y + 1 && (n + 1) % 12 == 0;
      YearLength(y);
    } else {
      assert (n + 1) / 12 == y && (n + 1) % 12 == m;
    }
  }

  lemma {:induction false} FirstDaysGrow(n: int, k: int)
    requires n <= k
    ensures FirstDay(n) <= FirstDay(k)
    decreases k - n
  {
    hide DayNumber;
    if n < k {
      FirstDaysGrow(n, k - 1);
      NextMonth(k - 1);
    }
  }

  function Day(t: Moment): int
    requires t.Valid()
  {
    DayNumber(t.year, t.month, t.day)
  }

  /** A day lies in its month. */
  lemma DayInMonth(t: Moment)
    requires t.Valid()
    ensures var n := MonthNumber(t);
            && n / 12 == t.year && n % 12 == t.month - 1
            && FirstDay(n) <= Day(t) < FirstDay(n + 1)
  {
    var n := MonthNumber(t);
    assert n / 12 == t.year && n % 12 == t.month - 1;
    NextMonth(n);
  }

  lemma MonthWindow(t: Moment)
    requires t.Valid()
    ensures var n := MonthNumber(t);
            PeriodWindow(Monthly, t) == Window(Midnight(FirstDay(n)), Midnight(FirstDay(n + 1)))
  {
    hide DaysBeforeYear, DaysBeforeMonth;
    var n := MonthNumber(t);
    if t.month == 12 {
      assert (n + 1) / 12 == t.year + 1 && (n + 1) % 12 == 0;
    } else {
      assert (n + 1) / 12 == t.year && (n + 1) % 12 == t.month;
    }
  }

  /** Where the month numbers of a quarter's two ends fall in the calendar. */
  lemma QuarterEnds(y: int, m: int)
    requires 1 <= m <= 12
    ensures var q, first := (12 * y + m - 1) / 3, QuarterMonth(m);
            && 3 * q == 12 * y + first - 1
            && (3 * q) / 12 == y && (3 * q) % 12 == first - 1
            && (first + 3 > 12 ==> (3 * q + 3) / 12 == y + 1 && (3 * q + 3) % 12 == 0)
            && (first + 3 <= 12 ==> (3 * q + 3) / 12 == y && (3 * q + 3) % 12 == first + 2)
  {
    var k := (m - 1) / 3;
    assert (12 * y + m - 1) / 3 == 4 * y + k;
    MonthOfYear(y, 3 * k);
    if k < 3 { MonthOfYear(y, 3 * k + 3); } else { MonthOfYear(y + 1, 0); }
  }

  lemma MonthOfYear(y: int, r: int)
    requires 0 <= r < 12
    ensures (12 * y + r) / 12 == y && (12 * y + r) % 12 == r
  {}

  lemma QuarterWindow(t: Moment)
    requires t.Valid()
    ensures var q := MonthNumber(t) / 3;
            PeriodWindow(Quarterly, t) == Window(Midnight(FirstDay(3 * q)), Midnight(FirstDay(3 * q + 3)))
  {
    hide DayNumber, Midnight, QuarterMonth;
    QuarterEnds(t.year, t.month);
  }

  /** A period window as whole days, first day to first day after. */
  function WindowDays(p: Period, t: Moment): (int, int)
    requires t.Valid()
  {
    match p
    case Monthly => (FirstDay(MonthNumber(t)), FirstDay(MonthNumber(t) + 1))
    case Quarterly => (FirstDay(MonthNumber(t) / 3 * 3), FirstDay(MonthNumber(t) / 3 * 3 + 3))
    case _ => (Day(t), Day(t) + 1)
  }

  lemma WindowIsWholeDays(p: Period, t: Moment)
    requires t.Valid() && !p.Custom?
    ensures PeriodWindow(p, t) == Window(Midnight(WindowDays(p, t).0), Midnight(WindowDays(p, t).1))
    ensures WindowDays(p, t).0 <= Day(t) < WindowDays(p, t).1
  {
    hide DayNumber, DaysBeforeYear, DaysBeforeMonth;
    DayInMonth(t);
    match p {
      case Daily =>
      case Monthly => MonthWindow(t);
      case Quarterly =>
        QuarterWindow(t);
        var n, q := MonthNumber(t), MonthNumber(t) / 3;
        FirstDaysGrow(3 * q, n);
        FirstDaysGrow(n + 1, 3 * q + 3);
    }
  }

  lemma EarlierDay(now: Moment, later: Moment)
    requires now.Valid() && later.Valid() && Instant(now) <= Instant(later)
    ensures Day(now) <= Day(later)
  {}

  lemma {:induction false} EarlierMonth(now: Moment, later: Moment)
    requires now.Valid() && later.Valid() && Day(now) <= Day(later)
    ensures MonthNumber(now) <= MonthNumber(later)
  {
    hide DaysBeforeYear, DaysBeforeMonth;
    DayInMonth(now);
    DayInMonth(later);
    if MonthNumber(later) < MonthNumber(now) {
      FirstDaysGrow(MonthNumber(later) + 1, MonthNumber(now));
    }
  }

  // ---- The theorems ------------------------------------------------------------------

  /** Every calendar window contains the moment it was computed for. */
  lemma WindowContainsNow(p: Period, now: Moment)
    requires now.Valid() && !p.Custom?
    ensures PeriodWindow(p, now).Contains(Instant(now))
  {
    hide DaysBeforeYear, DaysBeforeMonth;
    WindowIsWholeDays(p, now);
  }

  /** Days lie inside months and months inside quarters. */
  lemma WindowsNest(now: Moment)
    requires now.Valid()
    ensures var d, m, q := PeriodWindow(Daily, now), PeriodWindow(Monthly, now), PeriodWindow(Quarterly, now);
            q.start <= m.start <= d.start < d.end <= m.end <= q.end
  {
    hide DayNumber, DaysBeforeYear, DaysBeforeMonth;
    WindowIsWholeDays(Monthly, now);
    WindowIsWholeDays(Quarterly, now);
    var n := MonthNumber(now);
    FirstDaysGrow(n / 3 * 3, n);
    FirstDaysGrow(n + 1, n / 3 * 3 + 3);
  }

  /** The windows of two moments are the same or do not overlap, the earlier
      moment having the earlier window. */
  lemma WindowsTile(p: Period, now: Moment, later: Moment)
    requires now.Valid() && later.Valid() && !p.Custom? && Instant(now) <= Instant(later)
    ensures var a, b := PeriodWindow(p, now), PeriodWindow(p, later);
            a == b || a.end <= b.start
  {
    hide DayNumber, DaysBeforeYear, DaysBeforeMonth;
    WindowIsWholeDays(p, now);
    WindowIsWholeDays(p, later);
    EarlierDay(now, later);
    EarlierMonth(now, later);
    var m, n := MonthNumber(now), MonthNumber(later);
    if p.Monthly? && m < n { FirstDaysGrow(m + 1, n); }
    if p.Quarterly? && m / 3 < n / 3 { FirstDaysGrow(m / 3 * 3 + 3, n / 3 * 3); }
  }

  function FirstOf(year: int, month: int): Moment { Moment(year, month, 1, 0) }

  /** The moment at which the window of a moment is over. */
  function Over(p: Period, now: Moment): Moment
    requires now.Valid() && !p.Custom?
  {
    var next := if now.month == 12 then FirstOf(now.year + 1, 1) else FirstOf(now.year, now.month + 1);
    match p
    case Monthly => next
    case Quarterly =>
      var last := QuarterMonth(now.month) + 3;
      if last > 12 then FirstOf(now.year + 1, last - 12) else FirstOf(now.year, last)
    case _ => if now.day < DaysInMonth(now.year, now.month) then Moment(now.year, now.month, now.day + 1, 0) else next
  }

  lemma OverIsTheEnd(p: Period, now: Moment)
    requires now.Valid() && !p.Custom?
    ensures Over(p, now).Valid() && Instant(Over(p, now)) == PeriodWindow(p, now).end
  {
    hide DaysBeforeYear;
    if p.Daily? && now.day == DaysInMonth(now.year, now.month) {
      var n := MonthNumber(now);
      NextMonth(n);
      DayInMonth(now);
      assert Day(now) + 1 == FirstDay(n + 1);
      if now.month == 12 {
        assert (n + 1) / 12 == now.year + 1 && (n + 1) % 12 == 0;
      } else {
        assert (n + 1) / 12 == now.year && (n + 1) % 12 == now.month;
      }
    }
  }

  /** No gap: there is a moment at which a window ends, and its window starts there. */
  lemma NextWindowStartsAtEnd(p: Period, now: Moment)
    requires now.Valid() && !p.Custom?
    ensures var next := Over(p, now);
            && next.Valid() && Instant(next) == PeriodWindow(p, now).end
            && PeriodWindow(p, next).start == PeriodWindow(p, now).end
  {
    hide DaysBeforeYear, DaysBeforeMonth, Over;
    var next := Over(p, now);
    OverIsTheEnd(p, now);
    WindowContainsNow(p, now);
    WindowContainsNow(p, next);
    WindowsTile(p, now, next);
  }

  // ---- Windows by the calendar ----------------------------------------------------------

  function Quarter(month: int): int { if month <= 3 then 1 else if month <= 6 then 2 else if month <= 9 then 3 else 4 }

  lemma QuarterNumber(t: Moment)
    requires t.Valid()
    ensures MonthNumber(t) / 3 == 4 * t.year + Quarter(t.month) - 1
  {
    var k := (t.month - 1) / 3;
    assert Quarter(t.month) == k + 1;
    assert (12 * t.year + t.month - 1) / 3 == 4 * t.year + k;
  }

  lemma {:induction false} SameQuarter(a: Moment, b: Moment)
    requires a.Valid() && b.Valid()
    ensures
      MonthNumber(a) / 3 == MonthNumber(b) / 3
      <==>
      a.year == b.year && Quarter(a.month) == Quarter(b.month)
  {
    hide MonthNumber;
    QuarterNumber(a);
    QuarterNumber(b);
  }

  lemma {:induction false} FirstDaysDiffer(n: int, k: int)
    requires FirstDay(n) == FirstDay(k)
    ensures n == k
  {
    hide FirstDay;
    if n < k { FirstDaysGrow(n + 1, k); NextMonth(n); }
    if k < n { FirstDaysGrow(k + 1, n); NextMonth(k); }
  }

  lemma CustomWindow(t: Moment)
    requires t.Valid()
    ensures forall start, end :: PeriodWindow(Custom(start, end), t) == Window(start, end)
  {}

  /** Two moments share a window exactly when they are of the same calendar day, month
      or quarter; the window of a custom period is the period. */
  lemma {:induction false} SameWindowIff(p: Period, a: Moment, b: Moment)
    requires a.Valid() && b.Valid() && !p.Custom?
    ensures
      PeriodWindow(p, a) == PeriodWindow(p, b)
      <==>
      && a.year == b.year
      && (p.Monthly? ==> a.month == b.month)
      && (p.Quarterly? ==> Quarter(a.month) == Quarter(b.month))
      && (p.Daily? ==> a.month == b.month && a.day == b.day)
    ensures forall start, end :: PeriodWindow(Custom(start, end), a) == Window(start, end)
  {
    hide DayNumber, FirstDay, Quarter, PeriodWindow;
    CustomWindow(a);
    WindowIsWholeDays(p, a);
    WindowIsWholeDays(p, b);
    SameQuarter(a, b);
    DayInMonth(a);
    DayInMonth(b);
    if WindowDays(p, a).0 == WindowDays(p, b).0 {
      if p.Daily? {
        EarlierMonth(a, b);
        EarlierMonth(b, a);
        SameMonthDays(a, b);
      }
      if p.Monthly? { FirstDaysDiffer(MonthNumber(a), MonthNumber(b)); }
      if p.Quarterly? { FirstDaysDiffer(MonthNumber(a) / 3 * 3, MonthNumber(b) / 3 * 3); }
    }
  }

  lemma SameMonthDays(a: Moment, b: Moment)
    requires a.Valid() && b.Valid() && a.year == b.year && a.month == b.month
    ensures Day(a) - Day(b) == a.day - b.day
  {}

  /** Days follow each other as the Gregorian calendar has them, from the first of
      January of year one. */
  lemma {:induction false} DaysFollow(t: Moment)
    requires t.Valid()
    ensures Day(Moment(1, 1, 1, 0)) == 0
    ensures var leap := t.year % 400 == 0 || (t.year % 4 == 0 && t.year % 100 != 0);
            var last :=
              if t.month in {4, 6, 9, 11} then 30 else if t.month != 2 then 31 else if leap then 29 else 28;
            var next :=
              if t.day < last then t.(day := t.day + 1)
              else if t.month < 12 then t.(month := t.month + 1, day := 1)
              else t.(year := t.year + 1, month := 1, day := 1);
            next.Valid() && Day(next) == Day(t) + 1 && Instant(next) == Instant(t) + 24 * 60 * 60 * 1_000_000
  {
    hide DayNumber, DaysInMonth;
    FirstDayOfAll();
    MonthLengths(t.year, t.month);
    OverIsTheEnd(Daily, t);
  }

  lemma FirstDayOfAll()
    ensures DayNumber(1, 1, 1) == 0 && Moment(1, 1, 1, 0).Valid()
  {}

  lemma MonthLengths(y: int, m: int)
    ensures DaysInMonth(y, m) ==
            if m in {4, 6, 9, 11} then 30
            else if m != 2 then 31
            else if y % 400 == 0 || (y % 4 == 0 && y % 100 != 0) then 29
            else 28
  {
    Multiples(y);
  }
}
