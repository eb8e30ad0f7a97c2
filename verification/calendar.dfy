/** The proleptic Gregorian calendar arithmetic behind Date.prototype.toISOString
    (ECMA-262, section 21.4.1, "Time Values and Time Range"), restricted to the
    instants of the years 1970 through 9999, for which the year is written with
    four digits and no sign.

    Time values are milliseconds since 1970-01-01T00:00:00Z. The day number of
    the first day of a year is the sum of the lengths of the years since 1970;
    DayFromYearFormula proves it equal to ECMA-262's closed form DayFromYear.
    The year of an instant is found by scanning forward from 1970 and the scan
    is proved to meet ECMA-262's definition (the largest year that starts at or
    before the instant). */
module Calendar {
  import opened Numerals
  import opened Wrappers

  const MsPerSecond := 1000
  const MsPerMinute := 60000
  const MsPerHour := 3600000
  const MsPerDay := 86400000

  predicate IsLeapYear(y: int) {
    y % 4 == 0 && (y % 100 != 0 || y % 400 == 0)
  }

  function DaysInYear(y: int): int {
    if IsLeapYear(y) then 366 else 365
  }

  /** Day number of the first day of year y, from 1970 on. */
  function DayFromYear(y: int): int
    requires y >= 1970
    decreases y - 1970
  {
    if y == 1970 then 0 else DayFromYear(y - 1) + DaysInYear(y - 1)
  }

  /** The count of days agrees with ECMA-262's closed form DayFromYear(y) =
      365 * (y - 1970) + floor((y - 1969) / 4) - floor((y - 1901) / 100)
      + floor((y - 1601) / 400). */
  lemma {:induction false} DayFromYearFormula(y: int)
    requires y >= 1970
    ensures DayFromYear(y)
            == 365 * (y - 1970) + (y - 1969) / 4 - (y - 1901) / 100 + (y - 1601) / 400
    decreases y - 1970
  {
    if y > 1970 {
      var p := y - 1;
      DayFromYearFormula(p);
      FourYearStep(p);
      CenturyStep(p);
      FourCenturyStep(p);
      LeapDays(p);
    }
  }

  /** A year has one extra day for a multiple of 4, none for a multiple of
      100, and one again for a multiple of 400. */
  lemma LeapDays(y: int)
    ensures DaysInYear(y) == 365 + (if y % 4 == 0 then 1 else 0)
                                 - (if y % 100 == 0 then 1 else 0)
                                 + (if y % 400 == 0 then 1 else 0)
  {
    if y % 100 == 0 {
      assert y == (y / 100) * 100;
      assert y % 4 == 0;
    }
    if y % 400 == 0 {
      assert y == (y / 400) * 400;
      assert y % 100 == 0;
    }
  }

  /** The closed form's counts of multiples of 4, 100 and 400 each step by one
      exactly at a multiple. */
  lemma FourYearStep(p: int)
    ensures (p - 1968) / 4 == (p - 1969) / 4 + (if p % 4 == 0 then 1 else 0)
  {
  }

  lemma CenturyStep(p: int)
    ensures (p - 1900) / 100 == (p - 1901) / 100 + (if p % 100 == 0 then 1 else 0)
  {
  }

  lemma FourCenturyStep(p: int)
    ensures (p - 1600) / 400 == (p - 1601) / 400 + (if p % 400 == 0 then 1 else 0)
  {
  }

  /** DayFromYear is strictly increasing, by at least a common year per year. */
  lemma {:induction false} DayFromYearMonotone(a: int, b: int)
    requires 1970 <= a < b
    ensures DayFromYear(a) + 365 <= DayFromYear(b)
    decreases b - a
  {
    if a + 1 < b {
      DayFromYearMonotone(a, b - 1);
    }
  }

  /** At most one year contains a given day. */
  lemma YearUnique(y1: int, y2: int, d: int)
    requires 1970 <= y1 && 1970 <= y2
    requires DayFromYear(y1) <= d < DayFromYear(y1 + 1)
    requires DayFromYear(y2) <= d < DayFromYear(y2 + 1)
    ensures y1 == y2
  {
    if y1 + 1 < y2 { DayFromYearMonotone(y1 + 1, y2); }
    if y2 + 1 < y1 { DayFromYearMonotone(y2 + 1, y1); }
  }

  /** The year holding the day `days` days after the start of year y, and the
      day's 0-based index within that year. */
  function YearOfDay(days: nat, y: int): (r: (int, nat))
    requires y >= 1970
    ensures y <= r.0
    ensures DayFromYear(r.0) <= DayFromYear(y) + days < DayFromYear(r.0 + 1)
    ensures r.1 == DayFromYear(y) + days - DayFromYear(r.0) && r.1 < DaysInYear(r.0)
    decreases days
  {
    if days < DaysInYear(y) then (y, days) else YearOfDay(days - DaysInYear(y), y + 1)
  }

  /** The number of days in month m (1..12) of a common or a leap year. */
  function MonthLength(m: int, leap: bool): (r: int)
    ensures 28 <= r <= 31
  {
    if m == 2 then (if leap then 29 else 28)
    else if m == 4 || m == 6 || m == 9 || m == 11 then 30
    else 31
  }

  /** Days of a year before the first day of month m; m == 13 gives the length
      of the year. These are the bounds of ECMA-262 MonthFromTime. */
  function DaysBeforeMonth(m: int, leap: bool): (r: int)
    requires 1 <= m <= 13
    ensures 28 * (m - 1) <= r <= 31 * (m - 1)
  {
    if m == 1 then 0 else DaysBeforeMonth(m - 1, leap) + MonthLength(m - 1, leap)
  }

  /** The twelve months fill the year exactly. */
  lemma MonthsFillYear(y: int)
    ensures DaysBeforeMonth(13, IsLeapYear(y)) == DaysInYear(y)
  {
    if IsLeapYear(y) {
      assert DaysBeforeMonth(13, true) == 366;
    } else {
      assert DaysBeforeMonth(13, false) == 365;
    }
  }

  function DaysInMonth(y: int, m: int): (r: int)
    ensures 28 <= r <= 31
  {
    MonthLength(m, IsLeapYear(y))
  }

  lemma {:induction false} DaysBeforeMonthMonotone(a: int, b: int, leap: bool)
    requires 1 <= a < b <= 13
    ensures DaysBeforeMonth(a, leap) + 28 <= DaysBeforeMonth(b, leap)
    decreases b - a
  {
    if a + 1 < b {
      DaysBeforeMonthMonotone(a, b - 1, leap);
    }
  }

  /** The month (1..12) holding day d of a year, scanning from month m. */
  function MonthOfDay(d: int, leap: bool, m: int): (r: int)
    requires 1 <= m <= 12
    requires DaysBeforeMonth(m, leap) <= d < DaysBeforeMonth(13, leap)
    ensures m <= r <= 12
    ensures DaysBeforeMonth(r, leap) <= d < DaysBeforeMonth(r + 1, leap)
    decreases 12 - m
  {
    if d < DaysBeforeMonth(m + 1, leap) then m else MonthOfDay(d, leap, m + 1)
  }

  /** Two months holding the same day of a year are the same month. */
  lemma MonthUnique(a: int, b: int, d: int, leap: bool)
    requires 1 <= a <= 12 && 1 <= b <= 12
    requires DaysBeforeMonth(a, leap) <= d < DaysBeforeMonth(a + 1, leap)
    requires DaysBeforeMonth(b, leap) <= d < DaysBeforeMonth(b + 1, leap)
    ensures a == b
  {
    if a + 1 < b { DaysBeforeMonthMonotone(a + 1, b, leap); }
    if b + 1 < a { DaysBeforeMonthMonotone(b + 1, a, leap); }
  }

  /** The broken-down UTC fields of an instant. */
  datatype DateTime = DateTime(
    year: int, month: int, day: int,
    hour: int, minute: int, second: int, millisecond: int)

  /** A calendar date of the years 1970 through 9999. */
  predicate ValidDate(year: int, month: int, day: int) {
    && 1970 <= year <= 9999
    && 1 <= month <= 12
    && 1 <= day <= DaysInMonth(year, month)
  }

  /** A time of day, to the millisecond. */
  predicate ValidTime(hour: int, minute: int, second: int, millisecond: int) {
    && 0 <= hour < 24
    && 0 <= minute < 60
    && 0 <= second < 60
    && 0 <= millisecond < 1000
  }

  /** Fields naming an actual instant of the years 1970 through 9999. */
  predicate ValidDateTime(f: DateTime) {
    ValidDate(f.year, f.month, f.day) && ValidTime(f.hour, f.minute, f.second, f.millisecond)
  }

  /** ECMA-262 MakeDay: the day number of a date. */
  function DayNumber(year: int, month: int, day: int): int
    requires year >= 1970 && 1 <= month <= 12
  {
    DayFromYear(year) + DaysBeforeMonth(month, IsLeapYear(year)) + day - 1
  }

  /** ECMA-262 MakeTime: milliseconds into the day. */
  function TimeInDay(hour: int, minute: int, second: int, millisecond: int): int {
    hour * MsPerHour + minute * MsPerMinute + second * MsPerSecond + millisecond
  }

  /** ECMA-262 MakeDate(MakeDay(year, month, day), MakeTime(hour, minute, second, ms)):
      the time value the fields denote. */
  function TimeFromDateTime(f: DateTime): int
    requires f.year >= 1970 && 1 <= f.month <= 12
  {
    DayNumber(f.year, f.month, f.day) * MsPerDay
    + TimeInDay(f.hour, f.minute, f.second, f.millisecond)
  }

  /** First time value past the year 9999: 10000-01-01T00:00:00.000Z. */
  const MaxTime: int := 253402300800000

  lemma MaxTimeIsYear10000()
    ensures MaxTime == DayFromYear(10000) * MsPerDay
  {
    DayFromYearFormula(10000);
  }

  /** YearFromTime, MonthFromTime and DateFromTime of ECMA-262, on day numbers. */
  function DateOfDay(day: nat): (r: (int, int, int))
    ensures r.0 >= 1970 && 1 <= r.1 <= 12
  {
    var yd := YearOfDay(day, 1970);
    var leap := IsLeapYear(yd.0);
    MonthsFillYear(yd.0);
    var month := MonthOfDay(yd.1, leap, 1);
    (yd.0, month, yd.1 - DaysBeforeMonth(month, leap) + 1)
  }

  /** YearFromTime, MonthFromTime, DateFromTime, HourFromTime, MinFromTime,
      SecFromTime and msFromTime of ECMA-262 for a time value of years 1970..9999. */
  function DateTimeFromTime(t: int): (f: DateTime)
    requires 0 <= t < MaxTime
    ensures f.year >= 1970 && 1 <= f.month <= 12
  {
    var date := DateOfDay(t / MsPerDay);
    var timeInDay := t % MsPerDay;
    DateTime(date.0, date.1, date.2,
             timeInDay / MsPerHour, timeInDay / MsPerMinute % 60,
             timeInDay / MsPerSecond % 60, timeInDay % MsPerSecond)
  }

  /** Every day number before the year 10000 names a valid date that has
      that day number. */
  lemma DateOfDayInverse(day: nat)
    requires day < DayFromYear(10000)
    ensures var r := DateOfDay(day);
      ValidDate(r.0, r.1, r.2) && DayNumber(r.0, r.1, r.2) == day
  {
    var yd := YearOfDay(day, 1970);
    if yd.0 >= 10000 {
      if yd.0 > 10000 { DayFromYearMonotone(10000, yd.0); }
      assert false;
    }
  }

  /** The year scan finds the year of a day of a year from 1970 on. */
  lemma YearOfDayFinds(n: int, year: int, dayInYear: int)
    requires 1970 <= year && 0 <= dayInYear < DaysInYear(year)
    requires n == DayFromYear(year) + dayInYear
    ensures n >= 0
    ensures YearOfDay(n, 1970) == (year, dayInYear)
  {
    if year > 1970 { DayFromYearMonotone(1970, year); }
    var yd := YearOfDay(n, 1970);
    YearUnique(yd.0, year, n);
  }

  /** A day of a month lies before the end of the year. */
  lemma DayOfMonthInYear(leap: bool, month: int, day: int)
    requires 1 <= month <= 12 && 1 <= day <= MonthLength(month, leap)
    ensures DaysBeforeMonth(month, leap) + day - 1 < DaysBeforeMonth(13, leap)
  {
    if month < 12 { DaysBeforeMonthMonotone(month + 1, 13, leap); }
  }

  /** A valid date lies before the year 10000. */
  lemma DayNumberRange(year: int, month: int, day: int)
    requires ValidDate(year, month, day)
    ensures 0 <= DayNumber(year, month, day) < DayFromYear(10000)
  {
    var leap := IsLeapYear(year);
    DayOfMonthInYear(leap, month, day);
    MonthsFillYear(year);
    if year > 1970 { DayFromYearMonotone(1970, year); }
    if year < 9999 { DayFromYearMonotone(year + 1, 10000); }
  }

  /** DateOfDay reads the year and the month off the scans. */
  lemma DateOfDayParts(n: nat, year: int, dayInYear: int, month: int)
    requires YearOfDay(n, 1970) == (year, dayInYear)
    requires 1 <= month <= 12
    requires DaysBeforeMonth(month, IsLeapYear(year)) <= dayInYear
             < DaysBeforeMonth(month + 1, IsLeapYear(year))
    ensures DateOfDay(n) == (year, month, dayInYear - DaysBeforeMonth(month, IsLeapYear(year)) + 1)
  {
    var leap := IsLeapYear(year);
    MonthsFillYear(year);
    MonthUnique(MonthOfDay(dayInYear, leap, 1), month, dayInYear, leap);
  }

  /** A valid date is recovered from its day number. */
  lemma DayNumberInverse(year: int, month: int, day: int)
    requires ValidDate(year, month, day)
    ensures DayNumber(year, month, day) >= 0
    ensures DateOfDay(DayNumber(year, month, day)) == (year, month, day)
  {
    var leap := IsLeapYear(year);
    DayOfMonthInYear(leap, month, day);
    MonthsFillYear(year);
    var dayInYear := DaysBeforeMonth(month, leap) + day - 1;
    var n := DayNumber(year, month, day);
    YearOfDayFinds(n, year, dayInYear);
    DateOfDayParts(n, year, dayInYear, month);
  }

  lemma TimeInDaySplit(r: int)
    requires 0 <= r < MsPerDay
    ensures TimeInDay(r / MsPerHour, r / MsPerMinute % 60, r / MsPerSecond % 60, r % MsPerSecond) == r
    ensures 0 <= r / MsPerHour < 24
  {
    var h, mn, s := r / MsPerHour, r / MsPerMinute, r / MsPerSecond;
    assert mn == h * 60 + mn % 60;
    assert s == mn * 60 + s % 60;
  }

  /** Every instant of the supported range breaks down into valid fields that
      denote that same instant. */
  lemma DateTimeFromTimeInverse(t: int)
    requires 0 <= t < MaxTime
    ensures ValidDateTime(DateTimeFromTime(t))
    ensures TimeFromDateTime(DateTimeFromTime(t)) == t
  {
    MaxTimeIsYear10000();
    DateOfDayInverse(t / MsPerDay);
    TimeInDaySplit(t % MsPerDay);
  }

  lemma TimeInDayFields(h: int, mi: int, s: int, ms: int)
    requires ValidTime(h, mi, s, ms)
    ensures var r := TimeInDay(h, mi, s, ms);
      && 0 <= r < MsPerDay
      && r / MsPerHour == h && r / MsPerMinute % 60 == mi
      && r / MsPerSecond % 60 == s && r % MsPerSecond == ms
  {
    var r := TimeInDay(h, mi, s, ms);
    assert r / MsPerSecond == h * 3600 + mi * 60 + s;
    assert r / MsPerMinute == h * 60 + mi;
  }

  /** Splitting a time value into a day number and a time within the day. */
  lemma DaySplit(day: int, timeInDay: int)
    requires 0 <= timeInDay < MsPerDay
    ensures (day * MsPerDay + timeInDay) / MsPerDay == day
    ensures (day * MsPerDay + timeInDay) % MsPerDay == timeInDay
  {
  }

  /** Valid fields are recovered from the instant they denote. */
  lemma TimeFromDateTimeInverse(f: DateTime)
    requires ValidDateTime(f)
    ensures 0 <= TimeFromDateTime(f) < MaxTime
    ensures DateTimeFromTime(TimeFromDateTime(f)) == f
  {
    var day := DayNumber(f.year, f.month, f.day);
    var timeInDay := TimeInDay(f.hour, f.minute, f.second, f.millisecond);
    DayNumberRange(f.year, f.month, f.day);
    DayNumberInverse(f.year, f.month, f.day);
    TimeInDayFields(f.hour, f.minute, f.second, f.millisecond);
    DaySplit(day, timeInDay);
    MaxTimeIsYear10000();
    var t := TimeFromDateTime(f);
    assert t / MsPerDay == day;
    assert t % MsPerDay == timeInDay;
  }

  /** YYYY-MM-DD, the date part of the Date Time String Format. */
  function DateString(year: int, month: int, day: int): (s: string)
    requires ValidDate(year, month, day)
    ensures |s| == 10
  {
    PaddedDigits(year, 4) + "-" + PaddedDigits(month, 2) + "-" + PaddedDigits(day, 2)
  }

  /** HH:mm:ss.sss, the time part of the Date Time String Format. */
  function TimeString(hour: int, minute: int, second: int, millisecond: int): (s: string)
    requires ValidTime(hour, minute, second, millisecond)
    ensures |s| == 12
  {
    PaddedDigits(hour, 2) + ":" + PaddedDigits(minute, 2) + ":" + PaddedDigits(second, 2)
    + "." + PaddedDigits(millisecond, 3)
  }

  /** The string of Date.prototype.toISOString: YYYY-MM-DDTHH:mm:ss.sssZ
      (ECMA-262, section 21.4.1.32, the Date Time String Format). */
  function IsoString(f: DateTime): (s: string)
    requires ValidDateTime(f)
    ensures |s| == 24
  {
    DateString(f.year, f.month, f.day) + "T"
    + TimeString(f.hour, f.minute, f.second, f.millisecond) + "Z"
  }

  /** new Date(t).toISOString() for a time value t of the years 1970..9999. */
  function ToIsoString(t: int): (s: string)
    requires 0 <= t < MaxTime
    ensures |s| == 24
  {
    DateTimeFromTimeInverse(t);
    IsoString(DateTimeFromTime(t))
  }

  /** The positions of the separators and digits in a string of the Date Time
      String Format. */
  predicate IsoShape(s: string) {
    && |s| == 24
    && s[4] == '-' && s[7] == '-' && s[10] == 'T' && s[13] == ':' && s[16] == ':'
    && s[19] == '.' && s[23] == 'Z'
    && AllDigits(s[0..4]) && AllDigits(s[5..7]) && AllDigits(s[8..10])
    && AllDigits(s[11..13]) && AllDigits(s[14..16]) && AllDigits(s[17..19])
    && AllDigits(s[20..23])
  }

  /** Reads the fields back out of a string of the Date Time String Format. */
  function ParseIsoString(s: string): (r: Option<DateTime>)
    ensures r.Some? <==> IsoShape(s)
  {
    if IsoShape(s) then
      Some(DateTime(ParseDigits(s[0..4]), ParseDigits(s[5..7]), ParseDigits(s[8..10]),
                    ParseDigits(s[11..13]), ParseDigits(s[14..16]), ParseDigits(s[17..19]),
                    ParseDigits(s[20..23])))
    else
      None
  }

  /** Where the parts of a date sit once joined with hyphens. */
  lemma DateJoin(y: string, m: string, d: string)
    requires |y| == 4 && |m| == 2 && |d| == 2
    ensures var s := y + "-" + m + "-" + d;
      && s[0..4] == y && s[4] == '-' && s[5..7] == m && s[7] == '-' && s[8..10] == d
  {
    var s := y + "-" + m + "-" + d;
    assert s[0..4] == y;
    assert s[5..7] == m;
    assert s[8..10] == d;
  }

  /** Where the parts of a time of day sit once joined with separators. */
  lemma TimeJoin(h: string, mi: string, se: string, ms: string)
    requires |h| == 2 && |mi| == 2 && |se| == 2 && |ms| == 3
    ensures var s := h + ":" + mi + ":" + se + "." + ms;
      && s[0..2] == h && s[2] == ':' && s[3..5] == mi && s[5] == ':'
      && s[6..8] == se && s[8] == '.' && s[9..12] == ms
  {
    var s := h + ":" + mi + ":" + se + "." + ms;
    assert s[0..2] == h;
    assert s[3..5] == mi;
    assert s[6..8] == se;
    assert s[9..12] == ms;
  }

  /** Where the parts of the date and the time sit in the joined string. */
  lemma IsoJoin(d: string, t: string)
    requires |d| == 10 && |t| == 12
    ensures var s := d + "T" + t + "Z";
      && s[0..4] == d[0..4] && s[4] == d[4] && s[5..7] == d[5..7] && s[7] == d[7]
      && s[8..10] == d[8..10] && s[10] == 'T'
      && s[11..13] == t[0..2] && s[13] == t[2] && s[14..16] == t[3..5] && s[16] == t[5]
      && s[17..19] == t[6..8] && s[19] == t[8] && s[20..23] == t[9..12] && s[23] == 'Z'
      && s[20..24] == t[9..12] + "Z"
  {
    var s := d + "T" + t + "Z";
    assert s[0..10] == d;
    assert s[11..23] == t;
    assert s[20..24] == t[9..12] + "Z";
  }

  lemma DateStringLayout(year: int, month: int, day: int)
    requires ValidDate(year, month, day)
    ensures var s := DateString(year, month, day);
      && s[0..4] == PaddedDigits(year, 4) && s[4] == '-'
      && s[5..7] == PaddedDigits(month, 2) && s[7] == '-'
      && s[8..10] == PaddedDigits(day, 2)
  {
    DateJoin(PaddedDigits(year, 4), PaddedDigits(month, 2), PaddedDigits(day, 2));
  }

  lemma TimeStringLayout(hour: int, minute: int, second: int, millisecond: int)
    requires ValidTime(hour, minute, second, millisecond)
    ensures var s := TimeString(hour, minute, second, millisecond);
      && s[0..2] == PaddedDigits(hour, 2) && s[2] == ':'
      && s[3..5] == PaddedDigits(minute, 2) && s[5] == ':'
      && s[6..8] == PaddedDigits(second, 2) && s[8] == '.'
      && s[9..12] == PaddedDigits(millisecond, 3)
  {
    TimeJoin(PaddedDigits(hour, 2), PaddedDigits(minute, 2), PaddedDigits(second, 2),
             PaddedDigits(millisecond, 3));
  }

  /** Where each field sits in the formatted string. */
  lemma IsoStringLayout(f: DateTime)
    requires ValidDateTime(f)
    ensures var s := IsoString(f);
      && s[0..4] == PaddedDigits(f.year, 4) && s[4] == '-'
      && s[5..7] == PaddedDigits(f.month, 2) && s[7] == '-'
      && s[8..10] == PaddedDigits(f.day, 2) && s[10] == 'T'
      && s[11..13] == PaddedDigits(f.hour, 2) && s[13] == ':'
      && s[14..16] == PaddedDigits(f.minute, 2) && s[16] == ':'
      && s[17..19] == PaddedDigits(f.second, 2) && s[19] == '.'
      && s[20..23] == PaddedDigits(f.millisecond, 3) && s[23] == 'Z'
  {
    DateStringLayout(f.year, f.month, f.day);
    TimeStringLayout(f.hour, f.minute, f.second, f.millisecond);
    IsoJoin(DateString(f.year, f.month, f.day),
            TimeString(f.hour, f.minute, f.second, f.millisecond));
  }

  /** Formatting then reading back gives the same fields. */
  lemma ParseIsoStringInverse(f: DateTime)
    requires ValidDateTime(f)
    ensures ParseIsoString(IsoString(f)) == Some(f)
  {
    IsoStringLayout(f);
  }

  /** The string toISOString produces for an instant has the Date Time String
      Format, and its fields denote exactly that instant. */
  lemma ToIsoStringRoundTrip(t: int)
    requires 0 <= t < MaxTime
    ensures IsoShape(ToIsoString(t))
    ensures ParseIsoString(ToIsoString(t)).Some?
    ensures ValidDateTime(ParseIsoString(ToIsoString(t)).value)
    ensures TimeFromDateTime(ParseIsoString(ToIsoString(t)).value) == t
  {
    DateTimeFromTimeInverse(t);
    ParseIsoStringInverse(DateTimeFromTime(t));
  }

  /** A whole number of seconds has no milliseconds left over. */
  lemma WholeSecondFields(seconds: int)
    requires 0 <= seconds * 1000 < MaxTime
    ensures DateTimeFromTime(seconds * 1000).millisecond == 0
  {
    var t := seconds * 1000;
    var r := seconds % 86400;
    assert t == (seconds / 86400) * MsPerDay + r * 1000;
    assert t % MsPerDay == r * 1000;
  }

  /** Fields without milliseconds are written with the millisecond field 000. */
  lemma IsoStringWholeSecond(f: DateTime)
    requires ValidDateTime(f) && f.millisecond == 0
    ensures IsoString(f)[20..24] == "000Z"
  {
    TimeStringLayout(f.hour, f.minute, f.second, f.millisecond);
    PaddedZeros();
    IsoJoin(DateString(f.year, f.month, f.day),
            TimeString(f.hour, f.minute, f.second, f.millisecond));
  }

  lemma PaddedZeros()
    ensures PaddedDigits(0, 3) == "000"
  {
    assert DigitChar(0) == '0';
    assert PaddedDigits(0, 0) == "";
    assert PaddedDigits(0, 1) == PaddedDigits(0, 0) + ['0'];
    assert PaddedDigits(0, 2) == PaddedDigits(0, 1) + ['0'];
  }

  /** A whole number of seconds is written with the millisecond field 000. */
  lemma WholeSecondIsoString(seconds: int)
    requires 0 <= seconds * 1000 < MaxTime
    ensures ToIsoString(seconds * 1000)[20..24] == "000Z"
  {
    WholeSecondFields(seconds);
    DateTimeFromTimeInverse(seconds * 1000);
    IsoStringWholeSecond(DateTimeFromTime(seconds * 1000));
  }

  /** The string written for a whole number of seconds after the epoch has
      the Date Time String Format, the millisecond field 000, and reads back
      as that instant. */
  lemma WholeSecondsRoundTrip(seconds: int)
    requires 0 <= seconds * 1000 < MaxTime
    ensures var s := ToIsoString(seconds * 1000);
      && IsoShape(s)
      && s[20..24] == "000Z"
      && ParseIsoString(s).Some?
      && ValidDateTime(ParseIsoString(s).value)
      && TimeFromDateTime(ParseIsoString(s).value) == seconds * 1000
  {
    ToIsoStringRoundTrip(seconds * 1000);
    WholeSecondIsoString(seconds);
  }

  /** One hour later, before the last hour of a day, is the next hour of the
      same day. */
  lemma NextHourSameDay(t: int)
    requires 0 <= t && t + MsPerHour < MaxTime
    requires DateTimeFromTime(t).hour < 23
    ensures DateTimeFromTime(t + MsPerHour)
            == DateTimeFromTime(t).(hour := DateTimeFromTime(t).hour + 1)
  {
    var f := DateTimeFromTime(t);
    DateTimeFromTimeInverse(t);
    NextHourFields(f);
    TimeFromDateTimeInverse(f.(hour := f.hour + 1));
  }

  /** Moving valid fields on by one hour within the day moves the instant
      they denote on by one hour. */
  lemma NextHourFields(f: DateTime)
    requires ValidDateTime(f) && f.hour < 23
    ensures ValidDateTime(f.(hour := f.hour + 1))
    ensures TimeFromDateTime(f.(hour := f.hour + 1)) == TimeFromDateTime(f) + MsPerHour
  {
  }

  /** 2024-01-01T00:00:00.000Z is 1704067200 seconds after the epoch. */
  lemma IsoStringExample()
    ensures ToIsoString(1704067200000) == "2024-01-01T00:00:00.000Z"
  {
    var f := DateTime(2024, 1, 1, 0, 0, 0, 0);
    DayFromYearFormula(2024);
    assert ValidDateTime(f);
    assert TimeFromDateTime(f) == 1704067200000;
    TimeFromDateTimeInverse(f);
    IsoStringOfExample();
  }

  lemma IsoStringOfExample()
    ensures IsoString(DateTime(2024, 1, 1, 0, 0, 0, 0)) == "2024-01-01T00:00:00.000Z"
  {
    PaddedDigitsExample();
    ConcatExample(PaddedDigits(2024, 4), PaddedDigits(1, 2), PaddedDigits(0, 2), PaddedDigits(0, 3));
  }

  lemma ConcatExample(y: string, one: string, zero: string, ms: string)
    requires y == "2024" && one == "01" && zero == "00" && ms == "000"
    ensures (y + "-" + one + "-" + one) + "T" + (zero + ":" + zero + ":" + zero + "." + ms) + "Z"
            == "2024-01-01T00:00:00.000Z"
  {
  }

  lemma PaddedDigitsExample()
    ensures PaddedDigits(2024, 4) == "2024"
    ensures PaddedDigits(1, 2) == "01"
    ensures PaddedDigits(0, 2) == "00"
    ensures PaddedDigits(0, 3) == "000"
  {
    assert DigitChar(0) == '0' && DigitChar(1) == '1' && DigitChar(2) == '2' && DigitChar(4) == '4';
    assert PaddedDigits(0, 0) == "";
    assert PaddedDigits(2, 1) == PaddedDigits(0, 0) + ['2'];
    assert PaddedDigits(20, 2) == PaddedDigits(2, 1) + ['0'];
    assert PaddedDigits(202, 3) == PaddedDigits(20, 2) + ['2'];
    assert PaddedDigits(2024, 4) == PaddedDigits(202, 3) + ['4'];
    assert PaddedDigits(0, 1) == PaddedDigits(0, 0) + ['0'];
    assert PaddedDigits(0, 2) == PaddedDigits(0, 1) + ['0'];
    assert PaddedDigits(0, 3) == PaddedDigits(0, 2) + ['0'];
    assert PaddedDigits(1, 1) == PaddedDigits(0, 0) + ['1'];
    assert PaddedDigits(1, 2) == PaddedDigits(0, 1) + ['1'];
  }
}
