/**
 * The four signals a task is scored on, each a real number in [0, 1]: urgency from the
 * working days left, importance from the 1..10 scale, quick win from the estimated hours
 * (through log1p), and blocker from the number of tasks waiting on it.
 */
module Signals {
  import opened Wrappers
  import opened Calendar

  /** The constant k of the urgency curve 1 / (1 + wd / k). */
  const UrgencyScale: real := 5.0

  /** Urgency for a known number of working days left; -1 (overdue) is the maximum. */
  function UrgencyOfWorkingDays(wd: int): (u: real)
    ensures 0.0 < u <= 1.0
    ensures wd <= 0 ==> u == 1.0
  {
    if wd < 0 then 1.0 else 1.0 / (1.0 + (wd as real) / UrgencyScale)
  }

  /** `_urgency`: 0.25 for a missing due date, 1.0 when overdue or due today, else decaying. */
  function Urgency(due: Option<Date>, today: Date): (u: real)
    ensures 0.0 < u <= 1.0
    ensures due.None? ==> u == 0.25
    ensures due.Some? && due.value <= today ==> u == 1.0
  {
    match due
    case None => 0.25
    case Some(d) => UrgencyOfWorkingDays(WorkingDays(d, today))
  }

  /** More working days left never means more urgency. */
  lemma UrgencyOfWorkingDaysNonIncreasing(a: int, b: int)
    requires 0 <= a <= b
    ensures UrgencyOfWorkingDays(b) <= UrgencyOfWorkingDays(a)
    ensures a < b ==> UrgencyOfWorkingDays(b) < UrgencyOfWorkingDays(a)
  {
    var x, y := 1.0 + (a as real) / UrgencyScale, 1.0 + (b as real) / UrgencyScale;
    assert 1.0 <= x <= y;
    assert 1.0 / y <= 1.0 / x by {
      assert (1.0 / y) * x <= (1.0 / y) * y;
    }
    if a < b {
      assert x < y;
      assert 1.0 / y < 1.0 / x by {
        assert (1.0 / y) * x < (1.0 / y) * y;
      }
    }
  }

  /** With today fixed, a task due later is never more urgent than one due earlier. */
  lemma UrgencyNonIncreasingInDueDate(today: Date, d1: Date, d2: Date)
    requires d1 <= d2
    ensures Urgency(Some(d2), today) <= Urgency(Some(d1), today)
  {
    if today <= d1 {
      WorkingDayCountMonotone(today, d1, d2);
      UrgencyOfWorkingDaysNonIncreasing(WorkingDays(d1, today), WorkingDays(d2, today));
    }
  }

  /**
   * A holiday inside the window raises urgency: due two days after a Wednesday that precedes
   * the 2 October holiday is more urgent than due two days after an ordinary Wednesday.
   */
  lemma HolidayRaisesUrgency()
    ensures Urgency(Some(Ordinal(2025, 10, 3)), Ordinal(2025, 10, 1))
          > Urgency(Some(Ordinal(2025, 11, 7)), Ordinal(2025, 11, 5))
  {
    HolidayScenario();
    UrgencyOfWorkingDaysNonIncreasing(1, 2);
  }

  /** `_importance`: the 1..10 scale mapped linearly onto [0, 1], a missing value read as 5. */
  function Importance(imp: Option<int>): (r: real)
    ensures imp.None? ==> r == 4.0 / 9.0
    ensures imp.Some? && 1 <= imp.value <= 10 ==> 0.0 <= r <= 1.0
    ensures imp.Some? ==> (imp.value == 1 <==> r == 0.0) && (imp.value == 10 <==> r == 1.0)
  {
    var v := imp.GetOr(5);
    ((v - 1) as real) / 9.0
  }

  /** A higher importance value always gives a strictly higher signal. */
  lemma ImportanceStrictlyIncreasing(a: int, b: int)
    requires a < b
    ensures Importance(Some(a)) < Importance(Some(b))
  {
  }

  /** The hours assumed for a task without an estimate. */
  const DefaultHours: real := 4.0

  function Clamp01(x: real): (r: real)
    ensures 0.0 <= r <= 1.0
    ensures 0.0 <= x <= 1.0 ==> r == x
  {
    if x < 0.0 then 0.0 else if x > 1.0 then 1.0 else x
  }

  /**
   * `_quickwin`: 1 - log1p(hours) / log1p(maxHours), clamped to [0, 1]. The logarithm is the
   * caller's `log1p`; a missing estimate counts as 4 hours, and a non-positive maximum gives 0.6.
   */
  function QuickWin(hours: Option<real>, maxHours: real, log1p: real -> real): (q: real)
    requires maxHours > 0.0 ==> log1p(maxHours) != 0.0
    ensures 0.0 <= q <= 1.0
    ensures maxHours <= 0.0 ==> q == 0.6
  {
    var h := hours.GetOr(DefaultHours);
    if maxHours <= 0.0 then 0.6
    else Clamp01(1.0 - log1p(h) / log1p(maxHours))
  }

  /** A missing estimate scores exactly as an estimate of four hours. */
  lemma QuickWinDefaultsToFourHours(maxHours: real, log1p: real -> real)
    requires maxHours > 0.0 ==> log1p(maxHours) != 0.0
    ensures QuickWin(None, maxHours, log1p) == QuickWin(Some(4.0), maxHours, log1p)
  {
  }

  /** With an increasing logarithm, more hours never make a quicker win. */
  lemma QuickWinNonIncreasing(h1: real, h2: real, maxHours: real, log1p: real -> real)
    requires maxHours > 0.0 && log1p(maxHours) > 0.0
    requires h1 <= h2 && log1p(h1) <= log1p(h2)
    ensures QuickWin(Some(h2), maxHours, log1p) <= QuickWin(Some(h1), maxHours, log1p)
  {
    var m := log1p(maxHours);
    assert log1p(h1) / m <= log1p(h2) / m by {
      assert log1p(h2) / m - log1p(h1) / m == (log1p(h2) - log1p(h1)) / m;
    }
  }

  /** The number of downstream tasks at which the blocker signal saturates. */
  const BlockerCap: int := 8

  /** `_blocker_score`: count / cap, clamped to [0, 1]. */
  function BlockerScore(count: int, cap: int): (b: real)
    requires cap != 0
    ensures 0.0 <= b <= 1.0
  {
    Clamp01((count as real) / (cap as real))
  }

  /** The blocker signal is 0 for no dependents, grows with the count, and saturates at the cap. */
  lemma BlockerScoreMonotone(c1: int, c2: int)
    requires 0 <= c1 <= c2
    ensures BlockerScore(c1, BlockerCap) <= BlockerScore(c2, BlockerCap)
    ensures c2 <= BlockerCap && c1 < c2 ==> BlockerScore(c1, BlockerCap) < BlockerScore(c2, BlockerCap)
    ensures BlockerScore(0, BlockerCap) == 0.0
    ensures c1 >= BlockerCap ==> BlockerScore(c1, BlockerCap) == 1.0
  {
  }
}
