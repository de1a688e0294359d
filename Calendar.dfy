/**
  Calendar dates and the whole-year age used by the pricing engine.

  The age of a borrower is `Period.between(birth, today).getYears()` of
  java.time. That call counts the months between the two dates
  (as proleptic month numbers) and moves that count one month toward zero
  when the days of month disagree with it: one month less when the count is
  positive and the end day of month has not reached the start day, one month
  more when the count is negative (a birth date after today) and the end day
  of month is past the start day. It then divides by twelve truncating
  toward zero. `WholeYearsBetween` follows that computation.
 */
module Calendar {

  type Month = m: int | 1 <= m <= 12 witness 1
  type DayOfMonth = d: int | 1 <= d <= 31 witness 1

  datatype Date = Date(year: int, month: Month, day: DayOfMonth)

  /** Lexicographic order on (year, month, day): `a` is on or before `b`. */
  predicate OnOrBefore(a: Date, b: Date)
  {
    a.year < b.year
    || (a.year == b.year && a.month < b.month)
    || (a.year == b.year && a.month == b.month && a.day <= b.day)
  }

  /** Number of months since year 0, January (java.time's proleptic month). */
  function ProlepticMonth(d: Date): int
  {
    d.year * 12 + d.month - 1
  }

  /** Java's `/` on integers for a positive divisor: the quotient is truncated toward zero. */
  function JavaQuotient(a: int, b: int): (q: int)
    requires b > 0
    ensures a >= 0 ==> q * b <= a < q * b + b
    ensures a < 0 ==> q * b - b < a <= q * b
  {
    if a >= 0 then a / b else -((-a) / b)
  }

  /** `a` falls earlier in its year than `b` does in its own: an earlier month, or the same month and an earlier day. */
  predicate EarlierInYear(a: Date, b: Date)
  {
    a.month < b.month || (a.month == b.month && a.day < b.day)
  }

  /** `Period.between(start, end).getYears()`. */
  function WholeYearsBetween(start: Date, end: Date): int
  {
    var totalMonths := ProlepticMonth(end) - ProlepticMonth(start);
    var days := end.day - start.day;
    var months :=
      if totalMonths > 0 && days < 0 then totalMonths - 1
      else if totalMonths < 0 && days > 0 then totalMonths + 1
      else totalMonths;
    JavaQuotient(months, 12)
  }

  /**
    The age seen from the calendar: going forward, the difference of the
    years, one less while the end is earlier in its year than the start;
    going backward, the (negative) difference of the years, one more while
    the start is earlier in its year than the end.
   */
  lemma YearsFromCalendar(start: Date, end: Date)
    ensures OnOrBefore(start, end) ==> WholeYearsBetween(start, end) == end.year - start.year - (if EarlierInYear(end, start) then 1 else 0)
    ensures !OnOrBefore(start, end) ==> WholeYearsBetween(start, end) == end.year - start.year + (if EarlierInYear(start, end) then 1 else 0)
  {
  }

  /** The `k`-th anniversary of `birth` (same month and day, `k` years later) has come by `today`. */
  predicate AnniversaryReached(birth: Date, k: int, today: Date)
  {
    OnOrBefore(Date(birth.year + k, birth.month, birth.day), today)
  }

  /**
    For every k >= 1, the whole-year age is at least k exactly when the k-th
    anniversary of the birth date has been reached. Together with the case
    k = 1 this characterises the age completely.
   */
  lemma AtLeastYearsIff(birth: Date, today: Date, k: int)
    requires k >= 1
    ensures k <= WholeYearsBetween(birth, today) <==> AnniversaryReached(birth, k, today)
  {
    var totalMonths := ProlepticMonth(today) - ProlepticMonth(birth);
    var days := today.day - birth.day;
    var months :=
      if totalMonths > 0 && days < 0 then totalMonths - 1
      else if totalMonths < 0 && days > 0 then totalMonths + 1
      else totalMonths;
    var anniversary := Date(birth.year + k, birth.month, birth.day);
    assert ProlepticMonth(anniversary) == ProlepticMonth(birth) + 12 * k;
    assert WholeYearsBetween(birth, today) == JavaQuotient(months, 12);
    if k <= JavaQuotient(months, 12) {
      assert months >= 12 * k;
      assert totalMonths > 12 * k || (totalMonths == 12 * k && days >= 0);
    } else {
      assert months < 12 * k;
      assert totalMonths < 12 * k || (totalMonths == 12 * k && days < 0);
    }
  }

  /** The birth-date check of `SimulacaoService.simular` accepts exactly the borrowers with a first birthday behind them. */
  lemma AgePositiveIff(birth: Date, today: Date)
    ensures WholeYearsBetween(birth, today) > 0 <==> AnniversaryReached(birth, 1, today)
  {
    AtLeastYearsIff(birth, today, 1);
  }

  /** A birth date after today gives an age of at most zero. */
  lemma FutureBirthDateHasNoAge(birth: Date, today: Date)
    requires !OnOrBefore(birth, today)
    ensures WholeYearsBetween(birth, today) <= 0
  {
    AtLeastYearsIff(birth, today, 1);
  }
}
