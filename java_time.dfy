/**
 * The parts of `java.time` and `java.util.Date` the application relies on, with
 * the device time zone reduced to a fixed offset from UTC. A `LocalDate` is its
 * epoch-day number (days since 1970-01-01), as `LocalDate.toEpochDay` gives it.
 */
module JavaTime {

  /** Milliseconds in a day. */
  const DayMs: int := 86_400_000

  /** The range of a Java `long`, which bounds every `Date` millisecond value. */
  const LongMin: int := -0x8000_0000_0000_0000
  const LongMax: int := 0x7FFF_FFFF_FFFF_FFFF

  /** Whether `ms` fits a Java `long`. */
  predicate IsLong(ms: int) {
    LongMin <= ms <= LongMax
  }

  /** `ZoneId.systemDefault()`, as a fixed offset from UTC. */
  datatype Zone = Zone(offsetMs: int)

  /** A calendar date, as its epoch-day number. */
  type LocalDate = int

  /** `Instant.ofEpochMilli(ms).atZone(z).toLocalDate()`. */
  function DayOf(z: Zone, ms: int): LocalDate {
    (ms + z.offsetMs) / DayMs
  }

  /** `d.atStartOfDay(z).toInstant().toEpochMilli()`. */
  function StartOfDay(z: Zone, d: LocalDate): int {
    d * DayMs - z.offsetMs
  }

  /**
   * The instants of day `d` are exactly those from its start to one millisecond
   * before the next day's start: the local date of an instant is `d` iff it lies
   * in that window.
   */
  lemma DayWindow(z: Zone, d: LocalDate, ms: int)
    ensures StartOfDay(z, d) <= ms <= StartOfDay(z, d + 1) - 1 <==> DayOf(z, ms) == d
  {
    var x := ms + z.offsetMs;
    var q := x / DayMs;
    assert q * DayMs <= x < q * DayMs + DayMs;
    if d * DayMs <= x < d * DayMs + DayMs {
      assert (q - d) * DayMs < DayMs && (d - q) * DayMs < DayMs;
    }
  }

  /** The milliseconds from the start of day `a` to the last one of day `b` are those of the local days `a..b`. */
  lemma DaysWindow(z: Zone, a: LocalDate, b: LocalDate, ms: int)
    ensures StartOfDay(z, a) <= ms <= StartOfDay(z, b + 1) - 1 <==> a <= DayOf(z, ms) <= b
  {
    var q := DayOf(z, ms);
    DayWindow(z, q, ms);
  }

  lemma {:induction false} StartOfDayIsInDay(z: Zone, d: LocalDate)
    ensures DayOf(z, StartOfDay(z, d)) == d
  {
    DayWindow(z, d, StartOfDay(z, d));
  }

  /** `DayOfWeek.getValue()`: 1 for Monday up to 7 for Sunday (1970-01-01 was a Thursday). */
  function DayOfWeek(d: LocalDate): (w: int)
    ensures 1 <= w <= 7
  {
    (d + 3) % 7 + 1
  }

  type MonthOfYear = m: int | 1 <= m <= 12 witness 1

  /** `java.time.YearMonth`. */
  datatype YearMonth = YearMonth(year: int, month: MonthOfYear)

  /** The proleptic Gregorian leap-year rule. */
  predicate IsLeapYear(y: int) {
    y % 4 == 0 && (y % 100 != 0 || y % 400 == 0)
  }

  /** `YearMonth.lengthOfMonth()`. */
  function LengthOfMonth(ym: YearMonth): (n: int)
    ensures 28 <= n <= 31
    ensures n == 29 <==> ym.month == 2 && IsLeapYear(ym.year)
  {
    match ym.month
    case 2 => if IsLeapYear(ym.year) then 29 else 28
    case 4 | 6 | 9 | 11 => 30
    case _ => 31
  }

  /** The position of a month on the line of all months. */
  function MonthIndex(ym: YearMonth): int {
    ym.year * 12 + ym.month - 1
  }

  /** `YearMonth.plusMonths(1)`. */
  function PlusOneMonth(ym: YearMonth): (r: YearMonth)
    ensures MonthIndex(r) == MonthIndex(ym) + 1
  {
    if ym.month == 12 then YearMonth(ym.year + 1, 1) else YearMonth(ym.year, ym.month + 1)
  }

  /** `YearMonth.minusMonths(1)`. */
  function MinusOneMonth(ym: YearMonth): (r: YearMonth)
    ensures MonthIndex(r) == MonthIndex(ym) - 1
  {
    if ym.month == 1 then YearMonth(ym.year - 1, 12) else YearMonth(ym.year, ym.month - 1)
  }

  /** A month is determined by its index. */
  lemma MonthIndexInjective(a: YearMonth, b: YearMonth)
    requires MonthIndex(a) == MonthIndex(b)
    ensures a == b
  {
  }

  /**
   * `ym.atDay(day)`, as an epoch day: the civil-to-days conversion of the
   * proleptic Gregorian calendar, counting years from March so that the leap day
   * comes last (floor division throughout).
   */
  function AtDay(ym: YearMonth, day: int): LocalDate {
    MarchYearStart(MarchYear(ym)) + DaysBeforeMonth(ym.month) + day - 1 - 719468
  }

  /** The year, counted from March, that a month belongs to: January and February close the year before. */
  function MarchYear(ym: YearMonth): int {
    if ym.month <= 2 then ym.year - 1 else ym.year
  }

  /** The days from March 1 to the first of month `m` in a year counted from March. */
  function DaysBeforeMonth(m: MonthOfYear): int {
    (153 * ((m + 9) % 12) + 2) / 5
  }

  /** The days from 0000-03-01 to March 1 of year `y`, in 400-year eras of 146097 days. */
  function MarchYearStart(y: int): int {
    var era := y / 400;
    var yoe := y - era * 400;
    era * 146097 + yoe * 365 + yoe / 4 - yoe / 100
  }

  /** 1970-01-01 is epoch day 0. */
  lemma AtDayEpoch()
    ensures AtDay(YearMonth(1970, 1), 1) == 0
  {
  }

  /** The day after the last day of a month is the first day of the next month. */
  lemma AtDayNextMonth(ym: YearMonth)
    ensures AtDay(ym, LengthOfMonth(ym)) + 1 == AtDay(PlusOneMonth(ym), 1)
  {
    var next := PlusOneMonth(ym);
    if ym.month == 2 {
      assert MarchYear(ym) == ym.year - 1 && MarchYear(next) == ym.year;
      assert DaysBeforeMonth(2) == 337 && DaysBeforeMonth(3) == 0;
      MarchYearStep(ym.year - 1);
    } else {
      assert MarchYear(next) == MarchYear(ym);
      DaysBeforeMonthStep(ym.month);
    }
  }

  /** Outside February, the next month starts one month length later in the same March-based year. */
  lemma DaysBeforeMonthStep(m: MonthOfYear)
    requires m != 2
    ensures DaysBeforeMonth(if m == 12 then 1 else m + 1) - DaysBeforeMonth(m) == LengthOfMonth(YearMonth(0, m))
  {
  }

  /** The year from March 1 of `y` has 366 days exactly when the February at its end has a 29th. */
  lemma MarchYearStep(y: int)
    ensures MarchYearStart(y + 1) - MarchYearStart(y) == if IsLeapYear(y + 1) then 366 else 365
  {
    var e := y / 400;
    var r := y - e * 400;
    if r < 399 {
      StepWithinEra(y, e, r);
    } else {
      StepAtEraEnd(y, e);
    }
  }

  lemma StepWithinEra(y: int, e: int, r: int)
    requires y == e * 400 + r && 0 <= r < 399
    ensures MarchYearStart(y + 1) - MarchYearStart(y) == if IsLeapYear(y + 1) then 366 else 365
  {
    assert y / 400 == e;
    assert (y + 1) / 400 == e;
    YoeStep(r);
    LeapWithinEra(y + 1, e, r + 1);
  }

  lemma StepAtEraEnd(y: int, e: int)
    requires y == e * 400 + 399
    ensures MarchYearStart(y + 1) - MarchYearStart(y) == if IsLeapYear(y + 1) then 366 else 365
  {
    MarchYearStartAt(y, e, 399);
    MarchYearStartAt(y + 1, e + 1, 0);
    Mod4(y + 1, 100 * (e + 1), 0);
    Mod100(y + 1, 4 * (e + 1), 0);
    Mod400(y + 1, e + 1, 0);
  }

  lemma MarchYearStartAt(y: int, e: int, r: int)
    requires y == e * 400 + r && 0 <= r < 400
    ensures MarchYearStart(y) == e * 146097 + r * 365 + r / 4 - r / 100
  {
    assert y / 400 == e;
  }

  lemma LeapWithinEra(y: int, e: int, r: int)
    requires y == e * 400 + r && 0 < r < 400
    ensures IsLeapYear(y) <==> r % 4 == 0 && r % 100 != 0
  {
    Mod4(y, 100 * e, r);
    Mod100(y, 4 * e, r);
    Mod400(y, e, r);
  }

  lemma Mod4(y: int, q: int, r: int)
    requires y == 4 * q + r
    ensures y % 4 == r % 4
  {
  }

  lemma Mod100(y: int, q: int, r: int)
    requires y == 100 * q + r
    ensures y % 100 == r % 100
  {
  }

  lemma Mod400(y: int, q: int, r: int)
    requires y == 400 * q + r
    ensures y % 400 == r % 400
  {
  }

  lemma YoeStep(r: int)
    requires 0 <= r < 399
    ensures (r + 1) * 365 + (r + 1) / 4 - (r + 1) / 100 - (r * 365 + r / 4 - r / 100)
      == if (r + 1) % 4 == 0 && (r + 1) % 100 != 0 then 366 else 365
  {
  }

  /** The days of a month are consecutive epoch days. */
  lemma AtDayConsecutive(ym: YearMonth, day: int)
    ensures AtDay(ym, day) == AtDay(ym, 1) + (day - 1)
  {
  }
}
