/**
 * Instants and the calendar arithmetic the plan engine uses.
 *
 * An instant is the number of microseconds since 1970-01-01T00:00:00 in naive
 * UTC, the resolution of the `datetime.utcnow()` values the service compares.
 * `timedelta(days = n)` is a shift by `n` whole days, `timedelta.days` rounds
 * down, and the calendar date of an instant is computed with the proleptic
 * Gregorian calendar that `datetime` uses.
 */
module Calendar {

  type Instant = int

  const MicrosPerDay: int := 86_400_000_000

  datatype Date = Date(year: int, month: int, day: int)

  /** `t + timedelta(days = n)`: the instant exactly `n` whole days after `t`. */
  function AddDays(t: Instant, n: int): (r: Instant)
    ensures WholeDays(t, r) == n
  {
    DayNumberOf(n * MicrosPerDay, n);
    t + n * MicrosPerDay
  }

  /** `(later - earlier).days`: the whole days between two instants, rounded down. */
  function WholeDays(earlier: Instant, later: Instant): (n: int)
    ensures n * MicrosPerDay <= later - earlier < (n + 1) * MicrosPerDay
    ensures earlier <= later ==> n >= 0
  {
    (later - earlier) / MicrosPerDay
  }

  /**
   * The civil date of day `dayOfYear` (0 is March 1) of the March-based year
   * `year`; January and February belong to the following civil year.
   */
  function MarchDate(year: int, dayOfYear: int): (d: Date)
    requires 0 <= dayOfYear <= 365
    ensures 1 <= d.month <= 12 && 1 <= d.day <= 31
  {
    var marchMonth := (5 * dayOfYear + 2) / 153;
    var day := dayOfYear - (153 * marchMonth + 2) / 5 + 1;
    var month := if marchMonth < 10 then marchMonth + 3 else marchMonth - 9;
    Date(if month <= 2 then year + 1 else year, month, day)
  }

  /** The 400-year era (of 146097 days, starting on March 1) that day number `z` falls in. */
  function EraOf(z: int): int {
    (z + 719468) / 146097
  }

  /** The position of day number `z` within its era. */
  function DayOfEra(z: int): (doe: int)
    ensures 0 <= doe < 146097
    ensures z + 719468 == EraOf(z) * 146097 + doe
  {
    z + 719468 - EraOf(z) * 146097
  }

  /** The days of an era before its March-based year `yearOfEra`. */
  function DaysBeforeYear(yearOfEra: int): int {
    365 * yearOfEra + yearOfEra / 4 - yearOfEra / 100
  }

  /** The March-based year of the era that its day `doe` falls in, with that day's place in the year. */
  function YearOfEra(doe: int): (yoe: int)
    requires 0 <= doe < 146097
    ensures 0 <= yoe < 400 && 0 <= doe - DaysBeforeYear(yoe) <= 365
  {
    YearOfEraBounds(doe);
    (doe - doe / 1460 + doe / 36524 - doe / 146096) / 365
  }

  /** The civil date of day number `z` (day 0 is 1970-01-01), by eras of 400 years that start on March 1. */
  function CivilFromDays(z: int): (d: Date)
    ensures 1 <= d.month <= 12 && 1 <= d.day <= 31
  {
    var dayOfEra := DayOfEra(z);
    var yearOfEra := YearOfEra(dayOfEra);
    MarchDate(yearOfEra + EraOf(z) * 400, dayOfEra - DaysBeforeYear(yearOfEra))
  }

  /** The day number of a civil date, by the same eras. */
  function DaysFromCivil(d: Date): int {
    var year := if d.month <= 2 then d.year - 1 else d.year;
    var era := year / 400;
    var yearOfEra := year - era * 400;
    var marchMonth := if d.month > 2 then d.month - 3 else d.month + 9;
    var dayOfYear := (153 * marchMonth + 2) / 5 + d.day - 1;
    era * 146097 + DaysBeforeYear(yearOfEra) + dayOfYear - 719468
  }

  /**
   * A day of an era written as (century, 4-year cycle, year in cycle, day in
   * year) lands, under the year-of-era formula, in year 100 a + 4 b + e.
   */
  lemma YearOfEraOfParts(doe: int, a: int, b: int, e: int, f: int)
    requires 0 <= a <= 3 && 0 <= b <= 24 && 0 <= e <= 3 && 0 <= f <= 365 && (f == 365 ==> e == 3)
    requires 1461 * b + 365 * e + f < 36524
    requires doe == 36524 * a + 1461 * b + 365 * e + f
    ensures (doe - doe / 1460 + doe / 36524 - doe / 146096) / 365 == 100 * a + 4 * b + e
    ensures doe == DaysBeforeYear(100 * a + 4 * b + e) + f
  {
    var y := 100 * a + 4 * b + e;
    assert y / 4 == 25 * a + b;
    assert y / 100 == a;
    assert doe / 36524 == a && doe / 146096 == 0;
    var delta := doe / 1460 - (25 * a + b);
    assert 0 <= delta <= 1;
    assert delta == 1 ==> f > 0;
    assert f == 365 ==> delta == 1;
    assert doe - doe / 1460 + doe / 36524 - doe / 146096 == 365 * y + f - delta;
  }

  /** Day `doe` of an era lies in a year of the era, at a day of that year from 0 to 365. */
  lemma YearOfEraBounds(doe: int)
    requires 0 <= doe < 146097
    ensures var yoe := (doe - doe / 1460 + doe / 36524 - doe / 146096) / 365;
      0 <= yoe < 400 && 0 <= doe - DaysBeforeYear(yoe) <= 365
  {
    if doe == 146096 {
      assert (doe - doe / 1460 + doe / 36524 - doe / 146096) / 365 == 399;
    } else {
      var a := doe / 36524;
      var rem1 := doe - 36524 * a;
      var b := rem1 / 1461;
      var rem2 := rem1 - 1461 * b;
      var e := if rem2 / 365 > 3 then 3 else rem2 / 365;
      var f := rem2 - 365 * e;
      YearOfEraOfParts(doe, a, b, e, f);
    }
  }

  /** The day number of the civil date at day `dayOfYear` of year `yearOfEra` of an era. */
  lemma DaysFromMarchDate(era: int, yearOfEra: int, dayOfYear: int)
    requires 0 <= yearOfEra < 400 && 0 <= dayOfYear <= 365
    ensures DaysFromCivil(MarchDate(yearOfEra + era * 400, dayOfYear))
         == era * 146097 + DaysBeforeYear(yearOfEra) + dayOfYear - 719468
  {
    var marchMonth := (5 * dayOfYear + 2) / 153;
    assert 0 <= marchMonth < 12;
    var year := yearOfEra + era * 400;
    assert year / 400 == era;
  }

  /** Each day number is the day number of its own civil date, so distinct days have distinct dates. */
  lemma DaysFromCivilOfCivil(z: int)
    ensures DaysFromCivil(CivilFromDays(z)) == z
  {
    var yearOfEra := YearOfEra(DayOfEra(z));
    DaysFromMarchDate(EraOf(z), yearOfEra, DayOfEra(z) - DaysBeforeYear(yearOfEra));
  }

  /** The calendar date an instant falls on, as `strftime("%Y-%m-%d")` shows it. */
  function DateOf(t: Instant): (d: Date)
    ensures DaysFromCivil(d) == t / MicrosPerDay
  {
    DaysFromCivilOfCivil(t / MicrosPerDay);
    CivilFromDays(t / MicrosPerDay)
  }

  /** Whether two instants lie in the same (year, month). */
  predicate SameMonth(s: Instant, t: Instant) {
    DateOf(s).year == DateOf(t).year && DateOf(s).month == DateOf(t).month
  }

  /** Adding days in two steps is adding their sum. */
  lemma AddDaysTwice(t: Instant, a: int, b: int)
    ensures AddDays(AddDays(t, a), b) == AddDays(t, a + b)
  {
    assert (a + b) * MicrosPerDay == a * MicrosPerDay + b * MicrosPerDay;
  }

  /** An instant within day `z` falls on day number `z`. */
  lemma DayNumberOf(t: Instant, z: int)
    requires z * MicrosPerDay <= t < (z + 1) * MicrosPerDay
    ensures t / MicrosPerDay == z
  {
  }

  // The dates of the worked examples, each computed step by step.

  lemma Day19737IsJanuary15()
    ensures CivilFromDays(19737) == Date(2024, 1, 15)
  {
    assert EraOf(19737) == 5;
    assert YearOfEra(8720) == 23;
    assert (5 * 320 + 2) / 153 == 10;
  }

  lemma Day19754IsFebruary1()
    ensures CivilFromDays(19754) == Date(2024, 2, 1)
  {
    assert EraOf(19754) == 5;
    assert YearOfEra(8737) == 23;
    assert (5 * 337 + 2) / 153 == 11;
  }

  lemma Day19763IsFebruary10()
    ensures CivilFromDays(19763) == Date(2024, 2, 10)
  {
    assert EraOf(19763) == 5;
    assert YearOfEra(8746) == 23;
    assert (5 * 346 + 2) / 153 == 11;
  }

  lemma Day19773IsFebruary20()
    ensures CivilFromDays(19773) == Date(2024, 2, 20)
  {
    assert EraOf(19773) == 5;
    assert YearOfEra(8756) == 23;
    assert (5 * 356 + 2) / 153 == 11;
  }

  lemma Day19814IsApril1()
    ensures CivilFromDays(19814) == Date(2024, 4, 1)
  {
    assert EraOf(19814) == 5;
    assert YearOfEra(8797) == 24;
    assert (5 * 31 + 2) / 153 == 1;
  }

  lemma Day19823IsApril10()
    ensures CivilFromDays(19823) == Date(2024, 4, 10)
  {
    assert EraOf(19823) == 5;
    assert YearOfEra(8806) == 24;
    assert (5 * 40 + 2) / 153 == 1;
  }
}
