/** The proleptic Gregorian calendar as Python's `datetime` module counts it:
    dates are numbered by their ordinal, 0001-01-01 being day 1, and only
    the years 1 to 9999 are representable. */
module Calendar {

  const MinYear := 1
  const MaxYear := 9999
  /** Ordinal of 9999-12-31, the last representable day. */
  const MaxOrdinal := 3652059

  predicate IsLeap(year: int) {
    year % 4 == 0 && (year % 100 != 0 || year % 400 == 0)
  }

  function DaysInYear(year: int): int {
    if IsLeap(year) then 366 else 365
  }

  function DaysInMonth(year: int, month: int): int
    requires 1 <= month <= 12
  {
    if month == 2 then (if IsLeap(year) then 29 else 28)
    else if month == 4 || month == 6 || month == 9 || month == 11 then 30
    else 31
  }

  /** Days in all years before `year`, i.e. from 0001-01-01 to the first day of `year`. */
  function DaysBeforeYear(year: int): int {
    var y := year - 1;
    y * 365 + y / 4 - y / 100 + y / 400
  }

  /** Days in the months of `year` before `month`. */
  function DaysBeforeMonth(year: int, month: int): int
    requires 1 <= month <= 12
  {
    var common :=
      match month
      case 1 => 0   case 2 => 31  case 3 => 59   case 4 => 90
      case 5 => 120 case 6 => 151 case 7 => 181  case 8 => 212
      case 9 => 243 case 10 => 273 case 11 => 304 case _ => 334;
    common + (if month > 2 && IsLeap(year) then 1 else 0)
  }

  datatype Date = Date(year: int, month: int, day: int)

  /** Month and day name a real day; the year is not bounded. */
  predicate WellFormed(d: Date) {
    1 <= d.month <= 12 && 1 <= d.day <= DaysInMonth(d.year, d.month)
  }

  /** A date Python's `date` type can represent. */
  predicate InRange(d: Date) {
    WellFormed(d) && MinYear <= d.year <= MaxYear
  }

  /** Python's `date.toordinal`. */
  function Ordinal(d: Date): int
    requires WellFormed(d)
  {
    DaysBeforeYear(d.year) + DaysBeforeMonth(d.year, d.month) + d.day
  }

  lemma YearStep(year: int)
    ensures DaysBeforeYear(year + 1) == DaysBeforeYear(year) + DaysInYear(year)
  {
    var y := year - 1;
    assert (y + 1) / 4 - y / 4 == (if year % 4 == 0 then 1 else 0);
    assert (y + 1) / 100 - y / 100 == (if year % 100 == 0 then 1 else 0);
    assert (y + 1) / 400 - y / 400 == (if year % 400 == 0 then 1 else 0);
    if year % 400 == 0 {
      assert year % 100 == 0 && year % 4 == 0;
    } else if year % 100 == 0 {
      assert year % 4 == 0;
    }
  }

  lemma {:induction false} DaysBeforeYearMonotone(a: int, b: int)
    requires a <= b
    ensures DaysBeforeYear(a) <= DaysBeforeYear(b)
    decreases b - a
  {
    if a < b {
      YearStep(b - 1);
      DaysBeforeYearMonotone(a, b - 1);
    }
  }

  /** A date's ordinal lies within the ordinals of its own year. */
  lemma OrdinalWithinYear(d: Date)
    requires WellFormed(d)
    ensures DaysBeforeYear(d.year) < Ordinal(d) <= DaysBeforeYear(d.year + 1)
  {
    YearStep(d.year);
  }

  /** The representable years are exactly the ordinals 1 to `MaxOrdinal`. */
  lemma InRangeIffOrdinal(d: Date)
    requires WellFormed(d)
    ensures InRange(d) <==> 1 <= Ordinal(d) <= MaxOrdinal
  {
    OrdinalWithinYear(d);
    if d.year < MinYear {
      DaysBeforeYearMonotone(d.year + 1, 1);
    } else if d.year > MaxYear {
      DaysBeforeYearMonotone(MaxYear + 1, d.year);
    } else {
      DaysBeforeYearMonotone(1, d.year);
      DaysBeforeYearMonotone(d.year + 1, MaxYear + 1);
    }
  }

  function NextDay(d: Date): (r: Date)
    requires WellFormed(d)
    ensures WellFormed(r) && Ordinal(r) == Ordinal(d) + 1
  {
    if d.day < DaysInMonth(d.year, d.month) then
      Date(d.year, d.month, d.day + 1)
    else if d.month < 12 then
      Date(d.year, d.month + 1, 1)
    else
      YearStep(d.year);
      Date(d.year + 1, 1, 1)
  }

  function PrevDay(d: Date): (r: Date)
    requires WellFormed(d)
    ensures WellFormed(r) && Ordinal(r) == Ordinal(d) - 1
  {
    if d.day > 1 then
      Date(d.year, d.month, d.day - 1)
    else if d.month > 1 then
      Date(d.year, d.month - 1, DaysInMonth(d.year, d.month - 1))
    else
      YearStep(d.year - 1);
      Date(d.year - 1, 12, 31)
  }

  /** The date `n` days after `d` (before it when `n` is negative), one day at a time. */
  function AddDays(d: Date, n: int): (r: Date)
    requires WellFormed(d)
    ensures WellFormed(r) && Ordinal(r) == Ordinal(d) + n
    decreases if n < 0 then -n else n
  {
    if n == 0 then d
    else if n > 0 then AddDays(NextDay(d), n - 1)
    else AddDays(PrevDay(d), n + 1)
  }

  /** Distinct dates have distinct ordinals. */
  lemma OrdinalInjective(d1: Date, d2: Date)
    requires WellFormed(d1) && WellFormed(d2)
    requires Ordinal(d1) == Ordinal(d2)
    ensures d1 == d2
  {
    OrdinalWithinYear(d1);
    OrdinalWithinYear(d2);
    if d1.year < d2.year {
      DaysBeforeYearMonotone(d1.year + 1, d2.year);
    } else if d2.year < d1.year {
      DaysBeforeYearMonotone(d2.year + 1, d1.year);
    }
    assert d1.year == d2.year;
  }
}
