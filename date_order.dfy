/** The field-by-field comparison `validate_date` relies on is chronological
    order: it agrees with comparing proleptic Gregorian day numbers, the
    numbering `datetime.toordinal()` uses (day 1 is 0001-01-01). */
module DateOrder {
  import opened Dates

  function DaysInYear(y: int): int {
    if IsLeapYear(y) then 366 else 365
  }

  /** Days in the years 1 .. y-1. */
  function DaysBeforeYear(y: int): int {
    var p := y - 1;
    365 * p + p / 4 - p / 100 + p / 400
  }

  /** Days in the months 1 .. m-1 of a common year, indexed by m. */
  const DaysBeforeMonthCommon: seq<int> := [0, 0, 31, 59, 90, 120, 151, 181, 212, 243, 273, 304, 334, 365]

  /** Days in the months 1 .. m-1 of year y. */
  function DaysBeforeMonth(y: int, m: int): int
    requires 1 <= m <= 13
  {
    DaysBeforeMonthCommon[m] + (if m > 2 && IsLeapYear(y) then 1 else 0)
  }

  function Ordinal(d: Date): int
    requires IsValidDate(d)
  {
    DaysBeforeYear(d.year) + DaysBeforeMonth(d.year, d.month) + d.day
  }

  /** Stepping the dividend by one steps the quotient exactly when it
      reaches a multiple of the divisor. */
  lemma QuotientStep(p: int, k: int)
    requires k > 0
    ensures (p + 1) / k == p / k + (if (p + 1) % k == 0 then 1 else 0)
  {
    var q, r := p / k, p % k;
    assert p == k * q + r && 0 <= r < k;
    if r == k - 1 {
      assert p + 1 == k * (q + 1);
      DivisionUnique(p + 1, k, q + 1, 0);
    } else {
      assert p + 1 == k * q + (r + 1);
      DivisionUnique(p + 1, k, q, r + 1);
    }
  }

  lemma DivisionUnique(n: int, k: int, q: int, r: int)
    requires k > 0 && 0 <= r < k && n == k * q + r
    ensures n / k == q
  {
    var q', r' := n / k, n % k;
    assert n == k * q' + r' && 0 <= r' < k;
    assert k * (q - q') == r' - r;
    MulAwayFromZero(k, q - q');
  }

  lemma MulAwayFromZero(k: int, x: int)
    requires k > 0
    ensures x >= 1 ==> k * x >= k
    ensures x <= -1 ==> k * x <= -k
  {
  }

  lemma NextYear(y: int)
    ensures DaysBeforeYear(y + 1) == DaysBeforeYear(y) + DaysInYear(y)
  {
    var p := y - 1;
    QuotientStep(p, 4);
    QuotientStep(p, 100);
    QuotientStep(p, 400);
  }

  lemma {:induction false} YearsAscend(y1: int, y2: int)
    requires y1 < y2
    ensures DaysBeforeYear(y1) + DaysInYear(y1) <= DaysBeforeYear(y2)
    decreases y2 - y1
  {
    NextYear(y1);
    if y1 + 1 < y2 {
      YearsAscend(y1 + 1, y2);
    }
  }

  /** The table agrees with the month lengths, month by month and in total. */
  lemma NextMonth(y: int, m: int)
    requires 1 <= m <= 12
    ensures DaysBeforeMonth(y, m + 1) == DaysBeforeMonth(y, m) + DaysInMonth(y, m)
    ensures DaysBeforeMonth(y, 13) == DaysInYear(y)
  {
  }

  lemma {:induction false} MonthsAscend(y: int, m1: int, m2: int)
    requires 1 <= m1 < m2 <= 13
    ensures DaysBeforeMonth(y, m1) + DaysInMonth(y, m1) <= DaysBeforeMonth(y, m2)
    decreases m2 - m1
  {
    NextMonth(y, m1);
    if m1 + 1 < m2 {
      MonthsAscend(y, m1 + 1, m2);
    }
  }

  /** A date's day number lies inside its year's block of day numbers. */
  lemma OrdinalInYear(d: Date)
    requires IsValidDate(d)
    ensures DaysBeforeYear(d.year) < Ordinal(d) <= DaysBeforeYear(d.year) + DaysInYear(d.year)
  {
    MonthsAscend(d.year, d.month, 13);
  }

  /** Comparing two dates field by field is comparing their day numbers. */
  lemma NotAfterIsChronological(a: Date, b: Date)
    requires IsValidDate(a) && IsValidDate(b)
    ensures NotAfter(a, b) <==> Ordinal(a) <= Ordinal(b)
  {
    OrdinalInYear(a);
    OrdinalInYear(b);
    if a.year < b.year {
      YearsAscend(a.year, b.year);
    } else if b.year < a.year {
      YearsAscend(b.year, a.year);
    } else if a.month < b.month {
      MonthsAscend(a.year, a.month, b.month);
    } else if b.month < a.month {
      MonthsAscend(a.year, b.month, a.month);
    }
  }

  /** Hence distinct valid dates have distinct day numbers. */
  lemma OrdinalInjective(a: Date, b: Date)
    requires IsValidDate(a) && IsValidDate(b)
    requires Ordinal(a) == Ordinal(b)
    ensures a == b
  {
    NotAfterIsChronological(a, b);
    NotAfterIsChronological(b, a);
  }
}
