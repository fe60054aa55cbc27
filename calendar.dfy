/** The part of chrono's `NaiveDate`, `NaiveDateTime` and `Weekday` that the parser uses.
    A date is its day number (days since 1970-01-01 in the proleptic Gregorian
    calendar), so comparing and adding days are integer operations; a local date and
    time is a number of minutes since 1970-01-01 00:00. */
module Calendar {
  import opened Wrappers
  import opened Strings

  datatype Weekday = Mon | Tue | Wed | Thu | Fri | Sat | Sun

  /** `Weekday::num_days_from_monday`. */
  function NumDaysFromMonday(w: Weekday): (n: nat)
    ensures n < 7
  {
    match w
    case Mon => 0
    case Tue => 1
    case Wed => 2
    case Thu => 3
    case Fri => 4
    case Sat => 5
    case Sun => 6
  }

  function WeekdayFromMonday(n: nat): (w: Weekday)
    requires n < 7
    ensures NumDaysFromMonday(w) == n
  {
    [Mon, Tue, Wed, Thu, Fri, Sat, Sun][n]
  }

  /** chrono's representable years: `i32::MIN >> 13` ..= `i32::MAX >> 13`. */
  const MinYear: int := -0x4_0000
  const MaxYear: int := 0x3_FFFF

  predicate IsLeapYear(y: int) {
    y % 4 == 0 && (y % 100 != 0 || y % 400 == 0)
  }

  function DaysInMonth(y: int, m: int): (n: int)
    requires 1 <= m <= 12
    ensures 28 <= n <= 31
  {
    if m == 2 then (if IsLeapYear(y) then 29 else 28)
    else if m == 4 || m == 6 || m == 9 || m == 11 then 30
    else 31
  }

  /** The dates `NaiveDate::from_ymd_opt` accepts. */
  predicate ValidDate(y: int, m: int, d: int) {
    MinYear <= y <= MaxYear && 1 <= m <= 12 && 1 <= d <= DaysInMonth(y, m)
  }

  /** Days from 1970-01-01 to the date y-m-d. The year is counted from March so that
      the leap day is the last day of a counting year; Dafny's `/` on int rounds
      towards minus infinity for a positive divisor, which is what the formula needs
      for years before 0. */
  function DayNumber(y: int, m: int, d: int): int
    requires ValidDate(y, m, d)
  {
    var yr := if m <= 2 then y - 1 else y;
    var era := yr / 400;
    var yoe := yr - era * 400;
    var mp := if m > 2 then m - 3 else m + 9;
    var doy := (153 * mp + 2) / 5 + d - 1;
    var doe := yoe * 365 + yoe / 4 - yoe / 100 + doy;
    era * 146097 + doe - 719468
  }

  /** The calendar day after y-m-d. */
  function NextDate(y: int, m: int, d: int): (int, int, int)
    requires 1 <= m <= 12
  {
    if d < DaysInMonth(y, m) then (y, m, d + 1)
    else if m < 12 then (y, m + 1, 1)
    else (y + 1, 1, 1)
  }

  /** DayNumber counts days: 1970-01-01 is day 0 and each next calendar day has the
      next number. Together these determine DayNumber on every valid date. */
  lemma DayNumberEpoch()
    ensures ValidDate(1970, 1, 1) && DayNumber(1970, 1, 1) == 0
  {
  }

  lemma DayNumberNext(y: int, m: int, d: int)
    requires ValidDate(y, m, d) && (y, m, d) != (MaxYear, 12, 31)
    ensures var (y', m', d') := NextDate(y, m, d);
      ValidDate(y', m', d') && DayNumber(y', m', d') == DayNumber(y, m, d) + 1
  {
    if d < DaysInMonth(y, m) {
      WithinMonth(y, m, d);
    } else if m < 12 && m != 2 {
      MonthToMonth(y, m);
    } else if m == 2 {
      FebruaryToMarch(y);
    } else {
      YearToYear(y);
    }
  }

  lemma WithinMonth(y: int, m: int, d: int)
    requires ValidDate(y, m, d) && d < DaysInMonth(y, m)
    ensures ValidDate(y, m, d + 1) && DayNumber(y, m, d + 1) == DayNumber(y, m, d) + 1
  {
  }

  lemma MonthToMonth(y: int, m: int)
    requires MinYear <= y <= MaxYear && 1 <= m < 12 && m != 2
    ensures ValidDate(y, m + 1, 1) && DayNumber(y, m + 1, 1) == DayNumber(y, m, DaysInMonth(y, m)) + 1
  {
  }

  lemma YearToYear(y: int)
    requires MinYear <= y < MaxYear
    ensures ValidDate(y + 1, 1, 1) && DayNumber(y + 1, 1, 1) == DayNumber(y, 12, 31) + 1
  {
  }

  lemma FebruaryToMarch(y: int)
    requires MinYear <= y <= MaxYear
    ensures DayNumber(y, 3, 1) == DayNumber(y, 2, DaysInMonth(y, 2)) + 1
  {
    var era := (y - 1) / 400;
    var yoe := y - 1 - era * 400;
    if yoe == 399 {
      EraEndMarch(y, era);
    } else {
      InEraMarch(y, era, yoe);
    }
  }

  /** The first of March of a year divisible by 400 follows a February 29. */
  lemma EraEndMarch(y: int, era: int)
    requires MinYear <= y <= MaxYear && y == era * 400 + 400
    ensures DayNumber(y, 3, 1) == DayNumber(y, 2, DaysInMonth(y, 2)) + 1
  {
    ShiftBy4((era + 1) * 100, 0);
    ShiftBy100((era + 1) * 4, 0);
    assert y % 4 == 0 && y % 100 == 0 && y % 400 == 0;
    FebruaryEnd(y, era, 399, 29);
    MarchFirst(y, era + 1, 0);
  }

  /** Within an era the first of March follows the last day of February. */
  lemma InEraMarch(y: int, era: int, yoe: int)
    requires MinYear <= y <= MaxYear && era == (y - 1) / 400 && yoe == y - 1 - era * 400 && yoe != 399
    ensures DayNumber(y, 3, 1) == DayNumber(y, 2, DaysInMonth(y, 2)) + 1
  {
    var leap := DaysInMonth(y, 2);
    FebruaryEnd(y, era, yoe, leap);
    MarchFirst(y, era, yoe + 1);
    LeapInEra(y, era, yoe + 1);
  }

  /** The day number of the last day of February, written by era and year of era. */
  lemma FebruaryEnd(y: int, era: int, yoe: int, leap: int)
    requires MinYear <= y <= MaxYear && era == (y - 1) / 400 && yoe == y - 1 - era * 400
    requires leap == DaysInMonth(y, 2)
    ensures DayNumber(y, 2, leap) == era * 146097 + yoe * 365 + yoe / 4 - yoe / 100 + 336 + leap - 719468
  {
  }

  /** The day number of the first of March, written by era and year of era. */
  lemma MarchFirst(y: int, era: int, yoe: int)
    requires MinYear <= y <= MaxYear && era == y / 400 && yoe == y - era * 400
    ensures DayNumber(y, 3, 1) == era * 146097 + yoe * 365 + yoe / 4 - yoe / 100 - 719468
  {
  }

  /** Within one 400-year era the leap rule depends only on the year of the era. */
  lemma LeapInEra(y: int, era: int, yoe: int)
    requires y == era * 400 + yoe && 0 < yoe < 400
    ensures IsLeapYear(y) <==> yoe % 4 == 0 && yoe % 100 != 0
    ensures DaysInMonth(y, 2) == 28 + (yoe / 4 - (yoe - 1) / 4) - (yoe / 100 - (yoe - 1) / 100)
  {
    assert y == era * 100 * 4 + yoe == era * 4 * 100 + yoe;
    ShiftBy4(era * 100, yoe);
    ShiftBy100(era * 4, yoe);
  }

  /** Adding whole multiples of 4 leaves the remainder modulo 4 alone. */
  lemma ShiftBy4(q: int, r: int)
    ensures (q * 4 + r) % 4 == r % 4
  {
  }

  /** Adding whole multiples of 100 leaves the remainder modulo 100 alone. */
  lemma ShiftBy100(q: int, r: int)
    ensures (q * 100 + r) % 100 == r % 100
  {
  }

  /** `NaiveDate::weekday` of a day number (1970-01-01 was a Thursday). */
  function WeekdayOf(day: int): Weekday {
    WeekdayFromMonday((day + 3) % 7)
  }

  /** Moving n days forward moves the weekday n places round the week. */
  lemma WeekdayAfter(day: int, n: int)
    ensures NumDaysFromMonday(WeekdayOf(day + n)) == (NumDaysFromMonday(WeekdayOf(day)) + n) % 7
  {
  }

  // ---------------------------------------------------------------- date and time

  const MinutesPerDay: int := 1440

  /** `NaiveDate::and_time`: the local date and time as minutes since 1970-01-01 00:00. */
  function At(day: int, minuteOfDay: int): int {
    day * MinutesPerDay + minuteOfDay
  }

  /** A local date and time gives back its date and its time of day. */
  lemma AtInverse(day: int, minuteOfDay: int)
    requires 0 <= minuteOfDay < MinutesPerDay
    ensures At(day, minuteOfDay) / MinutesPerDay == day
    ensures At(day, minuteOfDay) % MinutesPerDay == minuteOfDay
  {
  }

  // ---------------------------------------------------------------- parsing

  /** `NaiveDate::parse_from_str(s, "%d/%m/%Y")`, stated without chrono's leniency:
      three non-empty groups of ASCII digits separated by '/', read as day, month and
      year, that name a valid date. */
  function ParseDmy(s: string): Option<int> {
    var parts := Split(s, "/");
    if |parts| == 3
       && parts[0] != [] && AllDigits(parts[0])
       && parts[1] != [] && AllDigits(parts[1])
       && parts[2] != [] && AllDigits(parts[2])
       && ValidDate(DecimalValue(parts[2]), DecimalValue(parts[1]), DecimalValue(parts[0]))
    then Some(DayNumber(DecimalValue(parts[2]), DecimalValue(parts[1]), DecimalValue(parts[0])))
    else None
  }

  /** Three digit groups joined by '/' are accepted exactly when they name a valid
      date, and then give that date's day number. */
  lemma ParseDmyGroups(ds: string, ms: string, ys: string)
    requires ds != [] && AllDigits(ds) && ms != [] && AllDigits(ms) && ys != [] && AllDigits(ys)
    ensures var (y, m, d) := (DecimalValue(ys), DecimalValue(ms), DecimalValue(ds));
      ParseDmy(ds + "/" + ms + "/" + ys) == if ValidDate(y, m, d) then Some(DayNumber(y, m, d)) else None
  {
    assert '/' !in ds && '/' !in ms && '/' !in ys;
    assert ds + "/" + ms + "/" + ys == ds + "/" + (ms + "/" + ys);
    SplitAt(ds, "/", ms + "/" + ys);
    SplitAt(ms, "/", ys);
    NotContainsChar(ys, "/", 0);
    SplitNone(ys, "/");
  }

  /** Writing a date of a non-negative year as day/month/year in decimal and parsing
      it gives back the date. */
  lemma ParseDmyRoundTrip(y: nat, m: nat, d: nat)
    requires ValidDate(y, m, d)
    ensures ParseDmy(Decimal(d) + "/" + Decimal(m) + "/" + Decimal(y)) == Some(DayNumber(y, m, d))
  {
    DecimalRoundTrip(d);
    DecimalRoundTrip(m);
    DecimalRoundTrip(y);
    ParseDmyGroups(Decimal(d), Decimal(m), Decimal(y));
  }

  /** A date written dd/mm/yyyy, as its three digit groups. */
  datatype DateText = DateText(d: string, m: string, y: string)

  function DateString(x: DateText): string {
    x.d + "/" + x.m + "/" + x.y
  }

  /** Three digit groups that name a valid date. */
  predicate IsDateText(x: DateText) {
    && Digits(x.d) && Digits(x.m) && Digits(x.y)
    && ValidDate(DecimalValue(x.y), DecimalValue(x.m), DecimalValue(x.d))
  }

  function DateOf(x: DateText): int
    requires IsDateText(x)
  {
    DayNumber(DecimalValue(x.y), DecimalValue(x.m), DecimalValue(x.d))
  }

  /** A date text holds only digits and `/`. */
  lemma NotInDate(x: DateText, c: char)
    requires Digits(x.d) && Digits(x.m) && Digits(x.y)
    requires !IsAsciiDigit(c) && c != '/'
    ensures c !in DateString(x)
  {
    NotInDigits(x.d, c);
    NotInDigits(x.m, c);
    NotInDigits(x.y, c);
  }
}
