/**
 * Calendar dates as day numbers. A `YYYY-MM-DD` string denotes midnight UTC of
 * that day; dividing that instant by one day gives the number of days since
 * 1970-01-01, which is how every date of the dashboard is represented here.
 */
module Dates {

  predicate IsLeapYear(y: int) {
    (y % 4 == 0 && y % 100 != 0) || y % 400 == 0
  }

  function DaysInMonth(y: int, m: int): (n: int)
    requires 1 <= m <= 12
    ensures 28 <= n <= 31
  {
    if m == 2 then (if IsLeapYear(y) then 29 else 28)
    else if m == 4 || m == 6 || m == 9 || m == 11 then 30
    else 31
  }

  predicate ValidDate(y: int, m: int, d: int) {
    1 <= m <= 12 && 1 <= d <= DaysInMonth(y, m)
  }

  /**
   * Days from 0000-03-01 to March 1 of year `p`, counting years from March so
   * that a leap day is the last day of its year.
   */
  function DaysBeforeYear(p: int): int {
    var era := p / 400;
    var yoe := p - era * 400;
    era * 146097 + yoe * 365 + yoe / 4 - yoe / 100
  }

  /** Days from 1970-01-01 to the given day of the proleptic Gregorian calendar. */
  function CivilDay(y: int, m: int, d: int): int
    requires 1 <= m <= 12
  {
    var p := if m <= 2 then y - 1 else y;
    var mp := (m + 9) % 12;
    DaysBeforeYear(p) + (153 * mp + 2) / 5 + d - 1 - 719468
  }

  /** The calendar day after the given one. */
  function NextDate(y: int, m: int, d: int): (r: (int, int, int))
    requires ValidDate(y, m, d)
    ensures ValidDate(r.0, r.1, r.2)
  {
    if d < DaysInMonth(y, m) then (y, m, d + 1)
    else if m < 12 then (y, m + 1, 1)
    else (y + 1, 1, 1)
  }

  /** Day numbers count calendar days one by one, starting from 1970-01-01. */
  lemma CivilDayCountsDays(y: int, m: int, d: int)
    requires ValidDate(y, m, d)
    ensures CivilDay(1970, 1, 1) == 0
    ensures var (y2, m2, d2) := NextDate(y, m, d); CivilDay(y2, m2, d2) == CivilDay(y, m, d) + 1
  {
    if d < DaysInMonth(y, m) {
    } else if m == 2 {
      MarchFirstFollowsFebruary(y);
    } else {
      MonthEndNotFebruary(y, m);
    }
  }

  lemma MonthEndNotFebruary(y: int, m: int)
    requires 1 <= m <= 12 && m != 2
    ensures var (y2, m2, d2) := NextDate(y, m, DaysInMonth(y, m));
      CivilDay(y2, m2, d2) == CivilDay(y, m, DaysInMonth(y, m)) + 1
  {
    if m == 12 {
      assert CivilDay(y + 1, 1, 1) == DaysBeforeYear(y) + 306 - 719468;
    } else if m == 1 {
      assert CivilDay(y, 2, 1) == DaysBeforeYear(y - 1) + 337 - 719468;
    } else {
      assert CivilDay(y, m, 1) == DaysBeforeYear(y) + (153 * (m - 3) + 2) / 5 - 719468;
    }
  }

  lemma MarchFirstFollowsFebruary(y: int)
    ensures CivilDay(y, 3, 1) == CivilDay(y, 2, DaysInMonth(y, 2)) + 1
  {
    YearLength(y - 1);
  }

  /** A year counted from March has 366 days when the February it ends with has a leap day. */
  lemma YearLength(p: int)
    ensures DaysBeforeYear(p + 1) == DaysBeforeYear(p) + (if IsLeapYear(p + 1) then 366 else 365)
  {
    var era, r := p / 400, p % 400;
    assert p == era * 400 + r && 0 <= r < 400;
    if r == 399 {
      EraBoundary(era);
      assert p + 1 == era * 400 + 400;
    } else {
      WithinEra(era, r);
      assert p + 1 == era * 400 + r + 1;
    }
  }

  lemma EraBoundary(era: int)
    ensures DaysBeforeYear(era * 400 + 400) == DaysBeforeYear(era * 400 + 399) + 366
  {
    var q := era * 400 + 400;
    assert q == (era + 1) * 400;
    assert q / 400 == era + 1;
    assert (q - 1) / 400 == era;
  }

  lemma WithinEra(era: int, r: int)
    requires 0 <= r < 399
    ensures DaysBeforeYear(era * 400 + r + 1)
         == DaysBeforeYear(era * 400 + r) + (if IsLeapYear(era * 400 + r + 1) then 366 else 365)
  {
    EraOf(era, r);
    EraOf(era, r + 1);
    ResidueOf(era, r + 1);
    StepWithinEra(r);
  }

  lemma EraOf(era: int, r: int)
    requires 0 <= r < 400
    ensures (era * 400 + r) / 400 == era
  {
  }

  lemma ResidueOf(era: int, r: int)
    requires 0 < r < 400
    ensures IsLeapYear(era * 400 + r) <==> r % 4 == 0 && r % 100 != 0
  {
    ResidueMod4(era, r);
    ResidueMod100(era, r);
    ResidueMod400(era, r);
  }

  lemma ResidueMod4(era: int, r: int)
    ensures (era * 400 + r) % 4 == r % 4
  {
    var q := era * 100;
    assert era * 400 + r == q * 4 + r;
  }

  lemma ResidueMod100(era: int, r: int)
    ensures (era * 400 + r) % 100 == r % 100
  {
    var q := era * 4;
    assert era * 400 + r == q * 100 + r;
  }

  lemma ResidueMod400(era: int, r: int)
    ensures (era * 400 + r) % 400 == r % 400
  {
  }

  lemma StepWithinEra(r: int)
    requires 0 <= r < 399
    ensures (r + 1) * 365 + (r + 1) / 4 - (r + 1) / 100
         == r * 365 + r / 4 - r / 100 + (if (r + 1) % 4 == 0 && (r + 1) % 100 != 0 then 366 else 365)
  {
  }

  /** The fixed "today" of the relative date ranges: 2025-04-24. */
  const Anchor: int := 20202

  lemma AnchorIsApril24()
    ensures Anchor == CivilDay(2025, 4, 24)
    ensures Anchor - 7 == CivilDay(2025, 4, 17)
    ensures Anchor - 30 == CivilDay(2025, 3, 25)
  {
  }
}
