/** The calendar against the closed form of the proleptic Gregorian day count. */
module DayNumbers {
  import opened Calendar

  /** A leap day every fourth year, but for the centuries that are no multiple of four. */
  predicate HasLeapDay(y: int) { y % 400 == 0 || (y % 4 == 0 && y % 100 != 0) }

  /** The days of the year before a month, by the usual formula. */
  function BeforeMonth(leap: bool, m: int): int {
    (367 * m - 362) / 12 - (if m <= 2 then 0 else if leap then 1 else 2)
  }

  /** The number of a day; 1 January of year 1 is day 1. */
  function DayNumber(y: int, m: int, d: int): int {
    365 * (y - 1) + (y - 1) / 4 - (y - 1) / 100 + (y - 1) / 400 + BeforeMonth(HasLeapDay(y), m) + d
  }

  function NumberOf(d: Date): int { DayNumber(d.y, d.m, d.d) }

  /** The number of the first day of the month after the given one. */
  function NextFirst(y: int, m: int): int {
    if m < 12 then DayNumber(y, m + 1, 1) else DayNumber(y + 1, 1, 1)
  }

  lemma LeapDays(y: int)
    ensures IsLeap(y) <==> HasLeapDay(y)
  {
    CenturiesAreFourfold(y);
  }

  lemma {:induction false} DaysOfYearBefore(y: int, leap: bool, m: int)
    requires 1 <= m <= 12 && (leap <==> IsLeap(y))
    ensures DaysBeforeMonth(y, m) == BeforeMonth(leap, m)
  {
    if m > 1 { DaysOfYearBefore(y, leap, m - 1); }
  }

  lemma DaysBeforeMonthIs(y: int, m: int)
    requires 1 <= m <= 12
    ensures DaysBeforeYear(y) + DaysBeforeMonth(y, m) == DayNumber(y, m, 0)
  {
    LeapDays(y);
    DaysOfYearBefore(y, HasLeapDay(y), m);
  }

  lemma OrdinalIsDayNumber(d: Date)
    ensures Ordinal(d) == NumberOf(d)
  {
    DaysBeforeMonthIs(d.y, d.m);
  }

  /** The months have the lengths of the day count: a valid day is one before the next month begins. */
  lemma ValidDatesAreNumbered(r: RawDate)
    ensures ValidDate(r) <==>
            1 <= r.y && 1 <= r.m <= 12 && 1 <= r.d && DayNumber(r.y, r.m, r.d) < NextFirst(r.y, r.m)
  {
    if 1 <= r.m <= 12 {
      DaysBeforeMonthIs(r.y, r.m);
      if r.m < 12 {
        DaysBeforeMonthIs(r.y, r.m + 1);
      } else {
        DaysBeforeMonthIs(r.y + 1, 1);
        YearHasItsDays(r.y);
        LeapCount(r.y);
      }
    }
  }

  /** Dates are ordered as their numbers. */
  lemma DatesAreOrdered(a: Date, b: Date)
    ensures Lt(a, b) <==> NumberOf(a) < NumberOf(b)
    ensures Le(a, b) <==> NumberOf(a) <= NumberOf(b)
  {
    OrdinalIsDayNumber(a);
    OrdinalIsDayNumber(b);
    if Lt(a, b) { OrdinalIsMonotone(a, b); }
    if Lt(b, a) { OrdinalIsMonotone(b, a); }
    if !Lt(a, b) && !Lt(b, a) { KeyIsInjective(a, b); }
  }

  lemma NextDayIsNumbered(d: Date)
    ensures NumberOf(NextDay(d)) == NumberOf(d) + 1
  {
    OrdinalIsDayNumber(d);
    OrdinalIsDayNumber(NextDay(d));
    NextDayCounts(d);
  }

  lemma PrevDayIsNumbered(d: Date)
    requires Lt(RawDate(1, 1, 1), d)
    ensures NumberOf(PrevDay(d)) == NumberOf(d) - 1
  {
    PrevThenNext(d);
    NextDayIsNumbered(PrevDay(d));
  }

  /** So many months later: on the same day of the month, or on the last day of a shorter month. */
  predicate IsMonthsLater(a: Date, months: int, b: Date) {
    && 12 * b.y + b.m == 12 * a.y + a.m + months
    && (b.d == a.d || (b.d < a.d && NumberOf(b) + 1 == NextFirst(b.y, b.m)))
  }

  lemma LastDayIsNumbered(d: Date)
    ensures NumberOf(d) + 1 == NextFirst(d.y, d.m) <==> d.d == MonthLength(d.y, d.m)
  {
    var last := RawDate(d.y, d.m, MonthLength(d.y, d.m));
    ValidDatesAreNumbered(last);
    ValidDatesAreNumbered(RawDate(d.y, d.m, last.d + 1));
  }

  /** The addition of months, against the day count. */
  lemma AddMonthsIsNumbered(value: Date, months: nat, r: Date)
    ensures r == AddMonths(value, months) <==> IsMonthsLater(value, months, r)
  {
    AddMonthsClamps(value, months, r);
    MonthIndexDetermines(r);
    LastDayIsNumbered(r);
  }
}
