/** Dates of the proleptic Gregorian calendar and the month arithmetic used for billing. */
module Calendar {
  import opened Numbers

  datatype RawDate = RawDate(y: int, m: int, d: int)

  predicate IsLeap(y: int) {
    y % 4 == 0 && (y % 100 != 0 || y % 400 == 0)
  }

  function MonthLength(y: int, m: int): (n: int)
    requires 1 <= m <= 12
    ensures 28 <= n <= 31
  {
    if m == 2 then (if IsLeap(y) then 29 else 28)
    else if m == 4 || m == 6 || m == 9 || m == 11 then 30
    else 31
  }

  predicate ValidDate(r: RawDate) {
    1 <= r.y && 1 <= r.m <= 12 && 1 <= r.d <= MonthLength(r.y, r.m)
  }

  type Date = r: RawDate | ValidDate(r) witness RawDate(1, 1, 1)

  /** Months since year 0; the month part of a date as one number. */
  function MonthIndex(d: Date): int { 12 * d.y + d.m - 1 }

  /** The length of the month with the given index. */
  function LengthOf(index: int): (n: int)
    ensures 28 <= n <= 31
  {
    MonthLength(index / 12, index % 12 + 1)
  }

  /** Orders dates like the tuple (year, month, day): no month has more than 31 days. */
  function Key(d: Date): int { 32 * MonthIndex(d) + d.d }

  predicate Lt(a: Date, b: Date) { Key(a) < Key(b) }

  predicate Le(a: Date, b: Date) { Key(a) <= Key(b) }

  lemma KeyIsInjective(a: Date, b: Date)
    requires Key(a) == Key(b)
    ensures a == b
  {
  }

  function AddMonths(value: Date, months: nat): (r: Date)
    ensures MonthIndex(r) == MonthIndex(value) + months
  {
    var index := value.m - 1 + months;
    var year := value.y + index / 12;
    var month := index % 12 + 1;
    RawDate(year, month, Min(value.d, MonthLength(year, month)))
  }

  /** `value - timedelta(days=1)`; the first day of year 1 has no predecessor. */
  function PrevDay(value: Date): Date
    requires Lt(RawDate(1, 1, 1), value)
  {
    if value.d > 1 then RawDate(value.y, value.m, value.d - 1)
    else if value.m > 1 then RawDate(value.y, value.m - 1, MonthLength(value.y, value.m - 1))
    else RawDate(value.y - 1, 12, 31)
  }

  function NextDay(value: Date): (r: Date)
    ensures Lt(value, r)
  {
    if value.d < MonthLength(value.y, value.m) then RawDate(value.y, value.m, value.d + 1)
    else if value.m < 12 then RawDate(value.y, value.m + 1, 1)
    else RawDate(value.y + 1, 1, 1)
  }

  // ----- the ends of a set of dates

  lemma {:induction false} Least(dates: set<Date>) returns (m: Date)
    requires dates != {}
    ensures m in dates && forall d | d in dates :: Le(m, d)
  {
    m :| m in dates;
    if dates != {m} {
      var n := Least(dates - {m});
      forall d | d in dates ensures d == m || d in dates - {m} {
      }
      if Lt(n, m) { m := n; }
    }
  }

  lemma {:induction false} Greatest(dates: set<Date>) returns (m: Date)
    requires dates != {}
    ensures m in dates && forall d | d in dates :: Le(d, m)
  {
    m :| m in dates;
    if dates != {m} {
      var n := Greatest(dates - {m});
      forall d | d in dates ensures d == m || d in dates - {m} {
      }
      if Lt(m, n) { m := n; }
    }
  }

  // ----- the day count behind the calendar

  /** Days before January 1 of the given year, as in `date.toordinal`. */
  function DaysBeforeYear(y: int): int {
    (y - 1) * 365 + (y - 1) / 4 - (y - 1) / 100 + (y - 1) / 400
  }

  function DaysBeforeMonth(y: int, m: int): int
    requires 1 <= m <= 12
  {
    if m == 1 then 0 else DaysBeforeMonth(y, m - 1) + MonthLength(y, m - 1)
  }

  function Ordinal(d: Date): int {
    DaysBeforeYear(d.y) + DaysBeforeMonth(d.y, d.m) + d.d
  }

  lemma YearHasItsDays(y: int)
    ensures DaysBeforeMonth(y, 12) + 31 == if IsLeap(y) then 366 else 365
  {
    assert DaysBeforeMonth(y, 2) == 31;
    assert DaysBeforeMonth(y, 3) == 31 + MonthLength(y, 2);
    assert DaysBeforeMonth(y, 5) == 92 + MonthLength(y, 2);
    assert DaysBeforeMonth(y, 7) == 153 + MonthLength(y, 2);
    assert DaysBeforeMonth(y, 9) == 215 + MonthLength(y, 2);
    assert DaysBeforeMonth(y, 11) == 276 + MonthLength(y, 2);
  }

  lemma QuotientSteps(y: int)
    ensures y / 4 == (y - 1) / 4 + if y % 4 == 0 then 1 else 0
    ensures y / 100 == (y - 1) / 100 + if y % 100 == 0 then 1 else 0
    ensures y / 400 == (y - 1) / 400 + if y % 400 == 0 then 1 else 0
  {
  }

  lemma LeapCount(y: int)
    ensures DaysBeforeYear(y + 1) == DaysBeforeYear(y) + if IsLeap(y) then 366 else 365
  {
    QuotientSteps(y);
    CenturiesAreFourfold(y);
  }

  lemma FourHundredths(y: int, q: int)
    requires y == 400 * q
    ensures y % 100 == 0
  {
  }

  lemma Hundredths(y: int, q: int)
    requires y == 100 * q
    ensures y % 4 == 0
  {
  }

  lemma CenturiesAreFourfold(y: int)
    ensures y % 400 == 0 ==> y % 100 == 0
    ensures y % 100 == 0 ==> y % 4 == 0
  {
    if y % 400 == 0 { FourHundredths(y, y / 400); }
    if y % 100 == 0 { Hundredths(y, y / 100); }
  }

  /** One calendar day is one unit of the day count, across month ends, leap days and new years. */
  lemma NextDayCounts(d: Date)
    ensures Ordinal(NextDay(d)) == Ordinal(d) + 1
  {
    if d.d == MonthLength(d.y, d.m) && d.m == 12 {
      YearHasItsDays(d.y);
      LeapCount(d.y);
    }
  }

  /** The day count has the same order as the calendar. */
  lemma {:induction false} OrdinalIsMonotone(a: Date, b: Date)
    requires Lt(a, b)
    ensures Ordinal(a) < Ordinal(b)
    decreases Key(b) - Key(a)
  {
    var n := NextDay(a);
    NextDayCounts(a);
    NextIsLeast(a, b);
    if n == b {
    } else {
      OrdinalIsMonotone(n, b);
    }
  }

  /** No date lies strictly between a date and its next day. */
  lemma NextIsLeast(a: Date, b: Date)
    requires Lt(a, b)
    ensures NextDay(a) == b || Lt(NextDay(a), b)
  {
    if !Lt(NextDay(a), b) {
      assert Key(b) <= Key(NextDay(a));
      if a.d < MonthLength(a.y, a.m) {
        KeyIsInjective(NextDay(a), b);
      } else {
        assert MonthIndex(b) == MonthIndex(a) + 1;
        assert b.d == 1;
      }
    }
  }

  lemma PrevThenNext(d: Date)
    requires Lt(RawDate(1, 1, 1), d)
    ensures NextDay(PrevDay(d)) == d && Lt(PrevDay(d), d)
  {
  }

  // ----- month arithmetic

  /** Adding months keeps the order of dates, month-end clamping included. */
  lemma AddMonthsIsMonotone(a: Date, b: Date, m: nat)
    requires Le(a, b)
    ensures Le(AddMonths(a, m), AddMonths(b, m))
  {
    AddMonthsDay(a, m);
    AddMonthsDay(b, m);
    KeysCompare(AddMonths(a, m), AddMonths(b, m));
  }

  /**
   * What the addition means: the result is in the month so many months later, on the same day of
   * the month, or on the last one when that month is too short.
   */
  lemma AddMonthsClamps(value: Date, months: nat, r: Date)
    ensures r == AddMonths(value, months)
       <==> && MonthIndex(r) == MonthIndex(value) + months && r.d <= value.d
            && (r.d == value.d || r.d == LengthOf(MonthIndex(r)))
  {
    AddMonthsDay(value, months);
    MonthIndexDetermines(r);
    if MonthIndex(r) == MonthIndex(value) + months { SameMonthSameDay(r, AddMonths(value, months)); }
  }

  lemma KeysCompare(a: Date, b: Date)
    ensures Le(a, b) <==> MonthIndex(a) < MonthIndex(b) || (MonthIndex(a) == MonthIndex(b) && a.d <= b.d)
  {
  }

  lemma AddMonthsIncreases(a: Date, m: nat)
    requires m >= 1
    ensures Lt(a, AddMonths(a, m))
  {
  }

  /** The n-th due date: months are added to the previous due date, not to the first. */
  function Chain(start: Date, months: nat, n: nat): Date {
    if n == 0 then start else AddMonths(Chain(start, months, n - 1), months)
  }

  /** The shortest of the months the chain has passed through, capped by the first day. */
  function ShortestPassed(start: Date, months: nat, n: nat): int {
    if n == 0 then start.d
    else Min(ShortestPassed(start, months, n - 1), LengthOf(MonthIndex(start) + n * months))
  }

  lemma {:induction false} ChainMonth(start: Date, months: nat, n: nat)
    ensures MonthIndex(Chain(start, months, n)) == MonthIndex(start) + n * months
  {
    if n == 0 {
    } else {
      ChainMonth(start, months, n - 1);
      Distribute(n, months);
    }
  }

  lemma LastAddition(start: Date, months: nat, n: nat)
    requires n > 0
    ensures Chain(start, months, n).d
         == Min(Chain(start, months, n - 1).d, LengthOf(MonthIndex(start) + n * months))
  {
    AddMonthsDay(Chain(start, months, n - 1), months);
    ChainMonth(start, months, n - 1);
    Distribute(n, months);
  }

  lemma {:induction false} ChainDay(start: Date, months: nat, n: nat)
    ensures Chain(start, months, n).d == ShortestPassed(start, months, n)
  {
    if n == 0 {
    } else {
      ChainDay(start, months, n - 1);
      LastAddition(start, months, n);
    }
  }

  lemma {:induction false} ShortestPassedBounds(start: Date, months: nat, n: nat)
    ensures Min(start.d, 28) <= ShortestPassed(start, months, n) <= start.d
  {
    if n == 0 {
    } else {
      ShortestPassedBounds(start, months, n - 1);
    }
  }

  /**
   * Where the n-th due date is: exactly n intervals after the first, on the smallest day that
   * clamping produced on the way.  The day never drops below 28 unless it started there.
   */
  lemma ChainPosition(start: Date, months: nat, n: nat)
    ensures MonthIndex(Chain(start, months, n)) == MonthIndex(start) + n * months
    ensures Chain(start, months, n).d == ShortestPassed(start, months, n)
    ensures Min(start.d, 28) <= Chain(start, months, n).d <= start.d
  {
    ChainMonth(start, months, n);
    ChainDay(start, months, n);
    ShortestPassedBounds(start, months, n);
  }

  lemma AddMonthsDay(d: Date, months: nat)
    ensures AddMonths(d, months).d == Min(d.d, LengthOf(MonthIndex(d) + months))
  {
    MonthIndexDetermines(AddMonths(d, months));
  }

  lemma MonthIndexDetermines(d: Date)
    ensures MonthIndex(d) / 12 == d.y && MonthIndex(d) % 12 + 1 == d.m
    ensures LengthOf(MonthIndex(d)) == MonthLength(d.y, d.m)
  {
  }

  /**
   * The chain agrees with adding all the months at once exactly when no month on the way was
   * shorter than what the last month allows.
   */
  lemma ChainEqualsDirectSum(start: Date, months: nat, n: nat)
    ensures n * months >= 0
    ensures Chain(start, months, n) == AddMonths(start, n * months)
       <==> ShortestPassed(start, months, n) == Min(start.d, LengthOf(MonthIndex(start) + n * months))
  {
    ChainPosition(start, months, n);
    AddMonthsDay(start, n * months);
    SameMonthSameDay(Chain(start, months, n), AddMonths(start, n * months));
  }

  lemma SameMonthSameDay(a: Date, b: Date)
    requires MonthIndex(a) == MonthIndex(b)
    ensures a == b <==> a.d == b.d
  {
  }

  /** The drift is real: monthly from 31 January reaches 28 March, not 31 March. */
  lemma ChainDrifts()
    ensures Chain(RawDate(2026, 1, 31), 1, 2) == RawDate(2026, 3, 28)
    ensures AddMonths(RawDate(2026, 1, 31), 2) == RawDate(2026, 3, 31)
  {
    assert Chain(RawDate(2026, 1, 31), 1, 0) == RawDate(2026, 1, 31);
    assert Chain(RawDate(2026, 1, 31), 1, 1) == RawDate(2026, 2, 28);
  }

  /** Due dates are strictly increasing along the chain. */
  lemma {:induction false} ChainIsIncreasing(start: Date, months: nat, i: nat, j: nat)
    requires months >= 1 && i < j
    ensures Lt(Chain(start, months, i), Chain(start, months, j))
    decreases j
  {
    var previous := Chain(start, months, j - 1);
    AddMonthsIncreases(previous, months);
    assert Lt(previous, Chain(start, months, j));
    if i == j - 1 {
    } else {
      ChainIsIncreasing(start, months, i, j - 1);
    }
  }
}
