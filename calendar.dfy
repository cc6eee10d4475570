/**
 * The working-day calendar: a date is a day ordinal as Python's `date.toordinal()` gives it
 * (0001-01-01 is day 1). Saturdays, Sundays and six fixed (month, day) holidays are not
 * working days; the count of working days runs from today (included) up to the due date
 * (excluded).
 */
module Calendar {

  /** A Gregorian date, as its day ordinal. */
  type Date = int

  /** 9999-12-31, the last date Python's `date` can hold. */
  const LastDate: Date := 3652059

  /** Python's `date.weekday()`: Monday is 0, Sunday is 6. */
  function Weekday(d: Date): (r: int)
    ensures 0 <= r < 7
  {
    (d + 6) % 7
  }

  /** The proleptic Gregorian (year, month, day) of an ordinal (days-to-civil conversion). */
  function Civil(d: Date): (int, int, int) {
    var z := d + 305;  // days since 0000-03-01
    var era := z / 146097;
    var doe := z - era * 146097;
    var yoe := (doe - doe / 1460 + doe / 36524 - doe / 146096) / 365;
    var doy := doe - (365 * yoe + yoe / 4 - yoe / 100);
    var mp := (5 * doy + 2) / 153;
    var day := doy - (153 * mp + 2) / 5 + 1;
    var month := if mp < 10 then mp + 3 else mp - 9;
    var year := yoe + era * 400 + (if month <= 2 then 1 else 0);
    (year, month, day)
  }

  /** The ordinal of a (year, month, day): the inverse of `Civil` on valid dates. */
  function Ordinal(year: int, month: int, day: int): Date {
    var y := if month <= 2 then year - 1 else year;
    var era := y / 400;
    var yoe := y - era * 400;
    var mp := if month > 2 then month - 3 else month + 9;
    var doy := (153 * mp + 2) / 5 + day - 1;
    var doe := yoe * 365 + yoe / 4 - yoe / 100 + doy;
    era * 146097 + doe - 305
  }

  function MonthDay(d: Date): (int, int) {
    var (_, month, day) := Civil(d);
    (month, day)
  }

  /** The fixed national holidays, as (month, day). */
  const FixedHolidays: set<(int, int)> := {(1, 1), (1, 26), (5, 1), (8, 15), (10, 2), (12, 25)}

  predicate IsNonWorkingDay(d: Date) {
    Weekday(d) >= 5 || MonthDay(d) in FixedHolidays
  }

  predicate IsWorkingDay(d: Date) {
    !IsNonWorkingDay(d)
  }

  /** The number of days d with lo <= d < hi that satisfy `p`, counted from the top. */
  function CountDays(p: Date -> bool, lo: Date, hi: Date): nat
    decreases hi - lo
  {
    if hi <= lo then 0 else CountDays(p, lo, hi - 1) + (if p(hi - 1) then 1 else 0)
  }

  /** The number of working days d with today <= d < due. */
  function WorkingDayCount(today: Date, due: Date): nat {
    CountDays(IsWorkingDay, today, due)
  }

  /** The value `_working_days_until` returns: -1 for an overdue date, else the count. */
  function WorkingDays(due: Date, today: Date): int {
    if due < today then -1 else WorkingDayCount(today, due)
  }

  /** The source's loop: walk a cursor from today up to (not including) the due date. */
  method WorkingDaysUntil(due: Date, today: Date) returns (days: int)
    ensures days == WorkingDays(due, today)
    ensures days == -1 <==> due < today
  {
    if due < today {
      return -1;
    }
    days := 0;
    var cursor := today;
    while cursor < due
      invariant today <= cursor <= due
      invariant days == WorkingDayCount(today, cursor)
    {
      assert WorkingDayCount(today, cursor + 1)
          == WorkingDayCount(today, cursor) + (if IsWorkingDay(cursor) then 1 else 0);
      if !IsNonWorkingDay(cursor) {
        days := days + 1;
      }
      cursor := cursor + 1;
    }
  }

  /** The days of [lo, hi) that satisfy `p`. */
  function DaysWhere(p: Date -> bool, lo: Date, hi: Date): set<Date> {
    set d | lo <= d < hi && p(d)
  }

  /** The count is the size of the set of days it counts. */
  lemma {:induction false} CountDaysIsSetSize(p: Date -> bool, lo: Date, hi: Date)
    ensures CountDays(p, lo, hi) == |DaysWhere(p, lo, hi)|
    decreases hi - lo
  {
    if hi <= lo {
      assert DaysWhere(p, lo, hi) == {};
    } else {
      CountDaysIsSetSize(p, lo, hi - 1);
      if p(hi - 1) {
        assert DaysWhere(p, lo, hi) == DaysWhere(p, lo, hi - 1) + {hi - 1};
      } else {
        assert DaysWhere(p, lo, hi) == DaysWhere(p, lo, hi - 1);
      }
    }
  }

  /** The count never exceeds the number of days in the window. */
  lemma {:induction false} CountDaysBounded(p: Date -> bool, lo: Date, hi: Date)
    requires lo <= hi
    ensures CountDays(p, lo, hi) <= hi - lo
    decreases hi - lo
  {
    if hi > lo {
      CountDaysBounded(p, lo, hi - 1);
    }
  }

  /** One day that fails `p` inside the window takes the count below the window's length. */
  lemma {:induction false} SkippedDayLowersCount(p: Date -> bool, lo: Date, hi: Date, h: Date)
    requires lo <= h < hi && !p(h)
    ensures CountDays(p, lo, hi) <= hi - lo - 1
    decreases hi - lo
  {
    if h == hi - 1 {
      CountDaysBounded(p, lo, hi - 1);
    } else {
      SkippedDayLowersCount(p, lo, hi - 1, h);
    }
  }

  /** Widening the window at the top never lowers the count. */
  lemma {:induction false} CountDaysMonotone(p: Date -> bool, lo: Date, hi1: Date, hi2: Date)
    requires hi1 <= hi2
    ensures CountDays(p, lo, hi1) <= CountDays(p, lo, hi2)
    decreases hi2 - hi1
  {
    if hi1 < hi2 && lo < hi2 {
      CountDaysMonotone(p, lo, hi1, hi2 - 1);
    }
  }

  /** The working days of the window [today, due), as a set. */
  function WorkingDaySet(today: Date, due: Date): set<Date> {
    set d | today <= d < due && !IsNonWorkingDay(d)
  }

  /** The count is exactly the number of working days in the window. */
  lemma WorkingDayCountIsSetSize(today: Date, due: Date)
    ensures WorkingDayCount(today, due) == |WorkingDaySet(today, due)|
  {
    CountDaysIsSetSize(IsWorkingDay, today, due);
    assert DaysWhere(IsWorkingDay, today, due) == WorkingDaySet(today, due);
  }

  /** The count is never more than the number of calendar days in the window, and 0 when due is today. */
  lemma WorkingDayCountBounded(today: Date, due: Date)
    requires today <= due
    ensures 0 <= WorkingDayCount(today, due) <= due - today
    ensures due == today ==> WorkingDayCount(today, due) == 0
  {
    CountDaysBounded(IsWorkingDay, today, due);
  }

  /** One non-working day inside the window takes the count below the number of calendar days. */
  lemma NonWorkingDayLowersCount(today: Date, due: Date, h: Date)
    requires today <= h < due && IsNonWorkingDay(h)
    ensures WorkingDayCount(today, due) <= due - today - 1
  {
    SkippedDayLowersCount(IsWorkingDay, today, due, h);
  }

  /** A later due date never has fewer working days before it. */
  lemma WorkingDayCountMonotone(today: Date, due1: Date, due2: Date)
    requires due1 <= due2
    ensures WorkingDayCount(today, due1) <= WorkingDayCount(today, due2)
  {
    CountDaysMonotone(IsWorkingDay, today, due1, due2);
  }

  /** Only an overdue date gives -1; any other result is a count within the window's length. */
  lemma WorkingDaysRange(due: Date, today: Date)
    ensures WorkingDays(due, today) == -1 <==> due < today
    ensures due >= today ==> 0 <= WorkingDays(due, today) <= due - today
  {
    if due >= today {
      WorkingDayCountBounded(today, due);
    }
  }

  /** Counting over a window split at `mid` adds the counts of its two halves. */
  lemma {:induction false} CountDaysSplit(p: Date -> bool, lo: Date, mid: Date, hi: Date)
    requires lo <= mid <= hi
    ensures CountDays(p, lo, hi) == CountDays(p, lo, mid) + CountDays(p, mid, hi)
    decreases hi - mid
  {
    if mid < hi {
      CountDaysSplit(p, lo, mid, hi - 1);
    }
  }

  /** Two days that fail `p` inside the window take the count two below the window's length. */
  lemma {:induction false} TwoSkippedDaysLowerCount(p: Date -> bool, lo: Date, hi: Date, h1: Date, h2: Date)
    requires lo <= h1 < h2 < hi && !p(h1) && !p(h2)
    ensures CountDays(p, lo, hi) <= hi - lo - 2
    decreases hi - lo
  {
    if h2 == hi - 1 {
      SkippedDayLowersCount(p, lo, hi - 1, h1);
    } else {
      TwoSkippedDaysLowerCount(p, lo, hi - 1, h1, h2);
    }
  }

  /** Moving `k` days on moves the weekday `k` places round the week. */
  lemma WeekdayAfter(d: Date, k: int)
    requires 0 <= k && Weekday(d) + k < 7
    ensures Weekday(d + k) == Weekday(d) + k
  {
  }

  /** Six days after a Sunday is a Saturday. */
  lemma SaturdayAfterSunday(d: Date)
    requires Weekday(d) == 6
    ensures Weekday(d + 6) == 5
  {
  }

  /** Any seven consecutive days hold a Saturday and a Sunday, so a predicate false on weekends holds on at most five. */
  lemma WeekHoldsAtMostFive(p: Date -> bool, lo: Date)
    requires forall d :: Weekday(d) >= 5 ==> !p(d)
    ensures CountDays(p, lo, lo + 7) <= 5
  {
    var w := Weekday(lo);
    if w == 6 {
      SaturdayAfterSunday(lo);
      TwoSkippedDaysLowerCount(p, lo, lo + 7, lo, lo + 6);
    } else {
      WeekdayAfter(lo, 5 - w);
      WeekdayAfter(lo, 6 - w);
      TwoSkippedDaysLowerCount(p, lo, lo + 7, lo + 5 - w, lo + 6 - w);
    }
  }

  /** Any seven consecutive days hold a Saturday and a Sunday, so at most five working days. */
  lemma WeekHoldsAtMostFiveWorkingDays(today: Date)
    ensures WorkingDayCount(today, today + 7) <= 5
  {
    WeekHoldsAtMostFive(IsWorkingDay, today);
  }

  /** Over `weeks` whole weeks, a predicate false on weekends holds on at most five days per week. */
  lemma {:induction false} WeeksHoldAtMostFive(p: Date -> bool, lo: Date, weeks: nat)
    requires forall d :: Weekday(d) >= 5 ==> !p(d)
    ensures CountDays(p, lo, lo + 7 * weeks) <= 5 * weeks
  {
    if weeks > 0 {
      var mid := lo + 7 * (weeks - 1);
      assert mid + 7 == lo + 7 * weeks && 5 * (weeks - 1) + 5 == 5 * weeks;
      WeeksHoldAtMostFive(p, lo, weeks - 1);
      WeekHoldsAtMostFive(p, mid);
      CountDaysSplit(p, lo, mid, mid + 7);
    }
  }

  /** A window of `weeks` whole weeks holds at most five working days per week. */
  lemma WeeksHoldAtMostFiveWorkingDaysEach(today: Date, weeks: nat)
    ensures WorkingDayCount(today, today + 7 * weeks) <= 5 * weeks
  {
    WeeksHoldAtMostFive(IsWorkingDay, today, weeks);
  }

  /** A day whose (month, day) is known is a working day exactly when it is a weekday and not a holiday. */
  lemma DayKind(d: Date, year: int, month: int, day: int)
    requires Civil(d) == (year, month, day)
    ensures IsNonWorkingDay(d) <==> Weekday(d) >= 5 || (month, day) in FixedHolidays
  {
  }

  // The calendar facts the scenario below needs, one per date so that each stays cheap to check.
  // Each lemma states the quotients the conversion takes on the way, so the solver only adds.
  lemma ScenarioOrdinals()
    ensures Ordinal(2025, 10, 1) == 739525 && Ordinal(2025, 10, 3) == 739527
    ensures Ordinal(2025, 11, 5) == 739560 && Ordinal(2025, 11, 7) == 739562
  {
    assert 2025 / 400 == 5 && 25 / 4 == 6 && 25 / 100 == 0;
    assert 1073 / 5 == 214 && 1226 / 5 == 245;
  }
  lemma Wed20251001() ensures Civil(739525) == (2025, 10, 1) && Weekday(739525) == 2 {
    assert 739830 / 146097 == 5;
    assert 9345 / 1460 == 6 && 9345 / 36524 == 0 && 9345 / 146096 == 0;
    assert 9339 / 365 == 25 && 25 / 4 == 6 && 25 / 100 == 0;
    assert 1072 / 153 == 7 && 1073 / 5 == 214;
  }
  lemma Thu20251002() ensures Civil(739526) == (2025, 10, 2) && Weekday(739526) == 3 {
    assert 739831 / 146097 == 5;
    assert 9346 / 1460 == 6 && 9346 / 36524 == 0 && 9346 / 146096 == 0;
    assert 9340 / 365 == 25 && 25 / 4 == 6 && 25 / 100 == 0;
    assert 1077 / 153 == 7 && 1073 / 5 == 214;
  }
  lemma Wed20251105() ensures Civil(739560) == (2025, 11, 5) && Weekday(739560) == 2 {
    assert 739865 / 146097 == 5;
    assert 9380 / 1460 == 6 && 9380 / 36524 == 0 && 9380 / 146096 == 0;
    assert 9374 / 365 == 25 && 25 / 4 == 6 && 25 / 100 == 0;
    assert 1247 / 153 == 8 && 1226 / 5 == 245;
  }
  lemma Thu20251106() ensures Civil(739561) == (2025, 11, 6) && Weekday(739561) == 3 {
    assert 739866 / 146097 == 5;
    assert 9381 / 1460 == 6 && 9381 / 36524 == 0 && 9381 / 146096 == 0;
    assert 9375 / 365 == 25 && 25 / 4 == 6 && 25 / 100 == 0;
    assert 1252 / 153 == 8 && 1226 / 5 == 245;
  }

  /**
   * 2025-10-01 to 2025-10-03 spans the 2 October holiday and holds one working day; 2025-11-05
   * to 2025-11-07 (Wednesday to Friday) holds two.
   */
  lemma HolidayScenario()
    ensures WorkingDays(Ordinal(2025, 10, 3), Ordinal(2025, 10, 1)) == 1
    ensures WorkingDays(Ordinal(2025, 11, 7), Ordinal(2025, 11, 5)) == 2
  {
    ScenarioOrdinals();
    ScenarioCounts();
  }

  lemma ScenarioCounts()
    ensures WorkingDays(739527, 739525) == 1 && WorkingDays(739562, 739560) == 2
  {
    Wed20251001();
    Thu20251002();
    Wed20251105();
    Thu20251106();
    DayKind(739525, 2025, 10, 1);
    DayKind(739526, 2025, 10, 2);
    DayKind(739560, 2025, 11, 5);
    DayKind(739561, 2025, 11, 6);
    assert IsWorkingDay(739525) && !IsWorkingDay(739526);
    assert IsWorkingDay(739560) && IsWorkingDay(739561);
    assert CountDays(IsWorkingDay, 739525, 739527) == CountDays(IsWorkingDay, 739525, 739526) + 0;
    assert CountDays(IsWorkingDay, 739560, 739562) == CountDays(IsWorkingDay, 739560, 739561) + 1;
  }
}
