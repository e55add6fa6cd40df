/** Naive wall-clock datetimes and the three time helpers both scripts define:
    `datetime_0am`, `epoch_millis` and `nearest` (with `today`/`tomorrow`).
    A datetime is a calendar date plus the microseconds elapsed since that
    day's midnight, which is Python's own resolution. */
module Clock {
  import opened Wrappers
  import opened Calendar

  const UsPerMs := 1000
  const UsPerMinute := 60_000_000
  const UsPerHour := 3_600_000_000
  const UsPerDay := 86_400_000_000
  const MsPerDay := 86_400_000

  /** The JST zone's fixed offset from UTC, +9 hours. */
  const JstOffset := 9 * UsPerHour
  /** Ordinal of 1970-01-01, the Unix epoch. */
  const EpochOrdinal := 719163

  datatype DateTime = DateTime(date: Date, time: int)

  predicate Valid(dt: DateTime) {
    InRange(dt.date) && 0 <= dt.time < UsPerDay
  }

  /** Microseconds from 0001-01-01 00:00 (ordinal 1) to `dt`, a measure
      independent of how the date is written. */
  function Stamp(dt: DateTime): int
    requires WellFormed(dt.date)
  {
    (Ordinal(dt.date) - 1) * UsPerDay + dt.time
  }

  /** Microseconds of the first and one past the last representable instant. */
  const MinStamp := 0
  const EndStamp := MaxOrdinal * UsPerDay

  function Hour(dt: DateTime): int {
    dt.time / UsPerHour
  }

  predicate WholeMillis(us: int) {
    us % UsPerMs == 0
  }

  /** A timezone offset Python's `timezone` accepts: strictly within one day. */
  predicate ValidOffset(offset: int) {
    -UsPerDay < offset < UsPerDay
  }

  /** Python's `int(x)` on the quotient `a / b`: division truncating toward zero. */
  function TruncDiv(a: int, b: int): (q: int)
    requires b > 0
    ensures 0 <= a ==> q * b <= a < q * b + b
    ensures a < 0 ==> q * b - b < a <= q * b
  {
    if a >= 0 then a / b else -((-a) / b)
  }

  /** `datetime_0am`: the same calendar day at 00:00. */
  function Midnight(dt: DateTime): (r: DateTime)
    requires Valid(dt)
    ensures Valid(r)
    ensures r.date == dt.date && r.time == 0
    ensures Stamp(r) <= Stamp(dt) < Stamp(r) + UsPerDay
  {
    DateTime(dt.date, 0)
  }

  lemma MidnightIdempotent(dt: DateTime)
    requires Valid(dt)
    ensures Midnight(Midnight(dt)) == Midnight(dt)
  {
  }

  /** Two datetimes with the same stamp are the same datetime. */
  lemma StampInjective(a: DateTime, b: DateTime)
    requires Valid(a) && Valid(b)
    requires Stamp(a) == Stamp(b)
    ensures a == b
  {
    assert Ordinal(a.date) == Ordinal(b.date);
    OrdinalInjective(a.date, b.date);
  }

  /** `datetime + timedelta(microseconds=delta)`: the carry into the day goes
      through floor division, and a result outside years 1..9999 raises
      OverflowError, modelled as `None`. */
  function Add(dt: DateTime, delta: int): (r: Option<DateTime>)
    requires Valid(dt)
    ensures r.Some? <==> MinStamp <= Stamp(dt) + delta < EndStamp
    ensures r.Some? ==> Valid(r.value) && Stamp(r.value) == Stamp(dt) + delta
  {
    var total := dt.time + delta;
    var days := total / UsPerDay;
    var date := AddDays(dt.date, days);
    InRangeIffOrdinal(date);
    if InRange(date) then Some(DateTime(date, total % UsPerDay)) else None
  }

  /** Adding two deltas in turn is adding their sum, whenever the first step succeeds. */
  lemma AddCompose(dt: DateTime, d1: int, d2: int)
    requires Valid(dt)
    requires Add(dt, d1).Some?
    ensures Add(Add(dt, d1).value, d2) == Add(dt, d1 + d2)
  {
    var mid := Add(dt, d1).value;
    var lhs, rhs := Add(mid, d2), Add(dt, d1 + d2);
    assert lhs.Some? == rhs.Some?;
    if lhs.Some? {
      StampInjective(lhs.value, rhs.value);
    }
  }

  /** Microseconds since the Unix epoch of the instant the wall clock `dt`
      shows in a zone `offset` ahead of UTC. */
  function EpochMicros(dt: DateTime, offset: int): int
    requires WellFormed(dt.date)
  {
    Stamp(dt) - (EpochOrdinal - 1) * UsPerDay - offset
  }

  /** `epoch_millis(dt, tz)`: `(dt - epoch - offset).total_seconds() * 1000`
      truncated by `int()`. */
  function EpochMillis(dt: DateTime, offset: int): (r: int)
    requires Valid(dt) && ValidOffset(offset)
    ensures WholeMillis(EpochMicros(dt, offset)) ==> r * UsPerMs == EpochMicros(dt, offset)
    ensures 0 <= EpochMicros(dt, offset) ==> r * UsPerMs <= EpochMicros(dt, offset) < r * UsPerMs + UsPerMs
    ensures EpochMicros(dt, offset) < 0 ==> r * UsPerMs - UsPerMs < EpochMicros(dt, offset) <= r * UsPerMs
  {
    TruncDiv(EpochMicros(dt, offset), UsPerMs)
  }

  /** The epoch itself, read as UTC, is 0. */
  lemma EpochIsZero()
    ensures EpochMillis(DateTime(Date(1970, 1, 1), 0), 0) == 0
  {
  }

  /** A JST wall clock is nine hours (32,400,000 ms) ahead of the same reading taken as UTC. */
  lemma JstIsNineHoursAhead(dt: DateTime)
    requires Valid(dt) && WholeMillis(dt.time)
    ensures EpochMillis(dt, JstOffset) == EpochMillis(dt, 0) - 32_400_000
  {
    var ms := (Ordinal(dt.date) - EpochOrdinal) * MsPerDay + dt.time / UsPerMs;
    assert EpochMicros(dt, 0) == ms * UsPerMs;
    assert EpochMicros(dt, JstOffset) == (ms - 32_400_000) * UsPerMs;
  }

  /** Moving a whole-millisecond wall clock by a whole-millisecond delta moves
      its epoch milliseconds by exactly that many milliseconds. */
  lemma EpochMillisShift(dt: DateTime, offset: int, delta: int)
    requires Valid(dt) && ValidOffset(offset)
    requires WholeMillis(EpochMicros(dt, offset)) && WholeMillis(delta)
    requires Add(dt, delta).Some?
    ensures EpochMillis(Add(dt, delta).value, offset) == EpochMillis(dt, offset) + delta / UsPerMs
  {
  }

  /** One day later is exactly 86,400,000 ms later. */
  lemma NextDayMillis(dt: DateTime, offset: int)
    requires Valid(dt) && ValidOffset(offset) && WholeMillis(EpochMicros(dt, offset))
    requires Add(dt, UsPerDay).Some?
    ensures EpochMillis(Add(dt, UsPerDay).value, offset) == EpochMillis(dt, offset) + MsPerDay
  {
    EpochMillisShift(dt, offset, UsPerDay);
  }

  /** 2024-01-10 08:30 JST is 1704843000000 ms after the epoch. */
  lemma PublishExample()
    ensures EpochMillis(DateTime(Date(2024, 1, 10), 8 * UsPerHour + 30 * UsPerMinute), JstOffset)
            == 1704843000000
  {
  }

  /** `today()`: the current JST wall clock, passed in. */
  function Today(now: DateTime): (r: DateTime)
    requires Valid(now)
    ensures Valid(r) && Stamp(r) == Stamp(now)
  {
    now
  }

  /** `tomorrow()`: the current JST wall clock plus one day. */
  function Tomorrow(now: DateTime): (r: Option<DateTime>)
    requires Valid(now)
    ensures r.Some? <==> Ordinal(now.date) < MaxOrdinal
    ensures r.Some? ==> Valid(r.value) && r.value.time == now.time
                        && Ordinal(r.value.date) == Ordinal(now.date) + 1
  {
    InRangeIffOrdinal(now.date);
    var r := Add(now, UsPerDay);
    var next := DateTime(NextDay(now.date), now.time);
    InRangeIffOrdinal(next.date);
    if r.Some? then StampInjective(r.value, next); r else r
  }

  /** `nearest()`: today before 09:00, tomorrow from 09:00 on. */
  function Nearest(now: DateTime): (r: Option<DateTime>)
    requires Valid(now)
    ensures r.Some? ==> Valid(r.value)
    ensures Hour(now) < 9 ==> r == Some(now)
    ensures Hour(now) >= 9 ==> (r.Some? <==> Ordinal(now.date) < MaxOrdinal)
    ensures Hour(now) >= 9 && r.Some? ==>
              Ordinal(r.value.date) == Ordinal(now.date) + 1 && r.value.time == now.time
  {
    if Hour(now) < 9 then Some(Today(now)) else Tomorrow(now)
  }
}
