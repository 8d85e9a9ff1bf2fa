/**
 * Proleptic Gregorian calendar dates as Python's `datetime.date` handles them:
 * years 1 to 9999, the Gregorian leap-year rule extended backwards, and the
 * day number ("ordinal") of `date.toordinal()`, where 0001-01-01 is day 1.
 *
 * Subtracting a whole-day `timedelta` from a `datetime` never changes its
 * time of day, so the date part is all the resolvers need.
 */
module Calendar {

  datatype Date = Date(year: int, month: int, day: int)

  /** Python's `datetime.MINYEAR` and `datetime.MAXYEAR`. */
  const MinYear := 1
  const MaxYear := 9999

  predicate IsLeapYear(y: int) {
    y % 4 == 0 && (y % 100 != 0 || y % 400 == 0)
  }

  function DaysInYear(y: int): (n: int) {
    if IsLeapYear(y) then 366 else 365
  }

  function DaysInMonth(y: int, m: int): (n: int)
    requires 1 <= m <= 12
    ensures 28 <= n <= 31
    ensures n == 29 <==> m == 2 && IsLeapYear(y)
  {
    if m == 2 then (if IsLeapYear(y) then 29 else 28)
    else if m == 4 || m == 6 || m == 9 || m == 11 then 30
    else 31
  }

  /** The dates a Python `date` object can hold. */
  predicate Valid(d: Date) {
    && MinYear <= d.year <= MaxYear
    && 1 <= d.month <= 12
    && 1 <= d.day <= DaysInMonth(d.year, d.month)
  }

  /** Number of days in the years before `y` (closed form, as Python computes it). */
  function DaysBeforeYear(y: int): (n: int)
    requires y >= 1
  {
    var k := y - 1;
    k * 365 + k / 4 - k / 100 + k / 400
  }

  /** Number of days in the months of year `y` before month `m`. */
  function DaysBeforeMonth(y: int, m: int): (n: int)
    requires 1 <= m <= 12
  {
    var cumulative := [0, 31, 59, 90, 120, 151, 181, 212, 243, 273, 304, 334];
    cumulative[m - 1] + (if m > 2 && IsLeapYear(y) then 1 else 0)
  }

  /** The day number of `d`, with 0001-01-01 as day 1 (`date.toordinal()`). */
  function Ordinal(d: Date): (n: int)
    requires Valid(d)
  {
    DaysBeforeYear(d.year) + DaysBeforeMonth(d.year, d.month) + d.day
  }

  /** Strict chronological order on dates: by year, then month, then day. */
  predicate Before(a: Date, b: Date) {
    || a.year < b.year
    || (a.year == b.year && a.month < b.month)
    || (a.year == b.year && a.month == b.month && a.day < b.day)
  }

  /** Each year adds its own length to the day count, so the closed form agrees with counting year by year. */
  lemma DaysBeforeNextYear(y: int)
    requires y >= 1
    ensures DaysBeforeYear(y + 1) == DaysBeforeYear(y) + DaysInYear(y)
  {
    var k := y - 1;
    assert y / 4 == k / 4 + (if y % 4 == 0 then 1 else 0);
    assert y / 100 == k / 100 + (if y % 100 == 0 then 1 else 0);
    assert y / 400 == k / 400 + (if y % 400 == 0 then 1 else 0);
  }

  lemma {:induction false} DaysBeforeYearGrows(y1: int, y2: int)
    requires 1 <= y1 <= y2
    ensures DaysBeforeYear(y1) + 365 * (y2 - y1) <= DaysBeforeYear(y2)
    decreases y2 - y1
  {
    if y1 < y2 {
      DaysBeforeNextYear(y1);
      DaysBeforeYearGrows(y1 + 1, y2);
    }
  }

  /** A valid date's day number lies within its own year. */
  lemma OrdinalWithinYear(d: Date)
    requires Valid(d)
    ensures DaysBeforeYear(d.year) < Ordinal(d) <= DaysBeforeYear(d.year + 1)
  {
    DaysBeforeNextYear(d.year);
  }

  /** Day numbers follow chronological order, in both directions. */
  lemma OrdinalOrder(a: Date, b: Date)
    requires Valid(a) && Valid(b)
    ensures Before(a, b) <==> Ordinal(a) < Ordinal(b)
    ensures a == b <==> Ordinal(a) == Ordinal(b)
  {
    if Before(a, b) {
      OrdinalFollowsOrder(a, b);
    } else if Before(b, a) {
      OrdinalFollowsOrder(b, a);
    }
  }

  lemma OrdinalFollowsOrder(a: Date, b: Date)
    requires Valid(a) && Valid(b) && Before(a, b)
    ensures Ordinal(a) < Ordinal(b)
  {
    if a.year < b.year {
      OrdinalWithinYear(a);
      OrdinalWithinYear(b);
      DaysBeforeYearGrows(a.year + 1, b.year);
    }
  }

  /** Day numbers identify valid dates: a date is determined by its ordinal. */
  lemma OrdinalInjective(a: Date, b: Date)
    requires Valid(a) && Valid(b) && Ordinal(a) == Ordinal(b)
    ensures a == b
  {
    OrdinalOrder(a, b);
  }

  /** The day before `d`: one day number earlier, across month and year ends. */
  function PrevDay(d: Date): (p: Date)
    requires Valid(d) && Ordinal(d) > 1
    ensures Valid(p) && Ordinal(p) + 1 == Ordinal(d)
  {
    if d.day > 1 then
      Date(d.year, d.month, d.day - 1)
    else if d.month > 1 then
      Date(d.year, d.month - 1, DaysInMonth(d.year, d.month - 1))
    else
      DaysBeforeNextYear(d.year - 1);
      Date(d.year - 1, 12, 31)
  }

  /**
   * `d - timedelta(days=n)` on the date part: the valid date exactly `n` day
   * numbers before `d`. Python raises OverflowError below 0001-01-01, which
   * the precondition rules out.
   */
  function SubDays(d: Date, n: nat): (r: Date)
    requires Valid(d) && Ordinal(d) > n
    ensures Valid(r) && Ordinal(r) + n == Ordinal(d)
    decreases n
  {
    if n == 0 then d else SubDays(PrevDay(d), n - 1)
  }

  /** Subtraction lands on the one date with the right day number, as `date.fromordinal` would. */
  lemma SubDaysUnique(d: Date, n: nat, e: Date)
    requires Valid(d) && Ordinal(d) > n
    requires Valid(e) && Ordinal(e) + n == Ordinal(d)
    ensures SubDays(d, n) == e
  {
    OrdinalInjective(SubDays(d, n), e);
  }

}
