/** Python's naive `datetime` and `timedelta`, reduced to whole seconds, and the
    `strftime`/`strptime` pair for the "%Y-%m-%d" format used by the CSV store.

    An Instant counts seconds from 0001-01-01 00:00:00 on the proleptic Gregorian
    calendar, so day number `t / SecondsPerDay + 1` is Python's `date.toordinal()`. */
module Calendar {
  import opened Outcomes
  import opened PyText

  const SecondsPerDay: int := 86400

  /** `date.max.toordinal()`: 9999-12-31 is day 3652059. */
  const MaxOrdinal: int := 3652059

  /** `timedelta.max.days`; `timedelta` refuses a larger magnitude. */
  const MaxDays: int := 999999999

  /** A `datetime` between year 1 and year 9999, in whole seconds. */
  type Instant = t: int | 0 <= t < MaxOrdinal * SecondsPerDay

  /** A `timedelta` in whole seconds; its `days` stays within +-999999999. */
  type Duration = d: int | -MaxDays * SecondsPerDay <= d < (MaxDays + 1) * SecondsPerDay

  /** `timedelta.days`: the whole days, rounded towards minus infinity. */
  function Days(d: Duration): (n: int)
    ensures -MaxDays <= n <= MaxDays
    ensures n * SecondsPerDay <= d < (n + 1) * SecondsPerDay
  {
    d / SecondsPerDay
  }

  /** `timedelta(days=n)`; None where Python raises OverflowError. */
  function FromDays(n: int): (r: Option<Duration>)
    ensures r.Some? <==> -MaxDays <= n <= MaxDays
    ensures r.Some? ==> Days(r.value) == n && r.value % SecondsPerDay == 0
  {
    if -MaxDays <= n <= MaxDays then Some(n * SecondsPerDay) else None
  }

  /** `t + d`; an error where Python raises OverflowError("date value out of range"). */
  function Add(t: Instant, d: Duration): (r: Result<Instant>)
    ensures r.Ok? <==> 0 <= t + d < MaxOrdinal * SecondsPerDay
    ensures r.Ok? ==> r.value == t + d
  {
    if 0 <= t + d < MaxOrdinal * SecondsPerDay then Ok(t + d) else Err("date value out of range")
  }

  /** Midnight of the day of `t`: what survives a trip through "%Y-%m-%d". */
  function StartOfDay(t: Instant): (r: Instant)
    ensures r <= t < r + SecondsPerDay && r % SecondsPerDay == 0
  {
    t - t % SecondsPerDay
  }

  // ------------------------------------------------------------ the calendar

  predicate IsLeap(y: int) {
    y % 4 == 0 && (y % 100 != 0 || y % 400 == 0)
  }

  function DaysInYear(y: int): int {
    if IsLeap(y) then 366 else 365
  }

  function DaysInMonth(y: int, m: int): int
    requires 1 <= m <= 12
  {
    if m == 2 then (if IsLeap(y) then 29 else 28)
    else if m == 4 || m == 6 || m == 9 || m == 11 then 30
    else 31
  }

  /** Days of year `y` before the first of month `m`; month 13 stands for the next year. */
  function DaysBeforeMonth(y: int, m: int): int
    requires 1 <= m <= 13
  {
    var common := [0, 31, 59, 90, 120, 151, 181, 212, 243, 273, 304, 334, 365][m - 1];
    if m > 2 && IsLeap(y) then common + 1 else common
  }

  /** Days before January 1st of year `y`, counted from 0001-01-01. */
  function DaysBeforeYear(y: int): int
    requires y >= 1
  {
    var p := y - 1;
    p * 365 + p / 4 - p / 100 + p / 400
  }

  lemma MonthTable(y: int, m: int)
    requires 1 <= m <= 12
    ensures DaysBeforeMonth(y, m + 1) == DaysBeforeMonth(y, m) + DaysInMonth(y, m)
    ensures DaysBeforeMonth(y, 13) == DaysInYear(y) && DaysBeforeMonth(y, 1) == 0
  {
  }

  lemma DaysBeforeYearStep(y: int)
    requires y >= 1
    ensures DaysBeforeYear(y + 1) == DaysBeforeYear(y) + DaysInYear(y)
  {
    var p := y - 1;
    DivStep4(p);
    DivStep100(p);
    DivStep400(p);
    Multiple400(y);
    Multiple100(y);
    assert (p + 1) * 365 == p * 365 + 365;
  }

  /** A multiple of 400 is one of 100. */
  lemma Multiple400(y: int)
    ensures y % 400 == 0 ==> y % 100 == 0
  {
    if y % 400 == 0 {
      var k := y / 400;
      assert y == 400 * k;
    }
  }

  /** A multiple of 100 is one of 4. */
  lemma Multiple100(y: int)
    ensures y % 100 == 0 ==> y % 4 == 0
  {
    if y % 100 == 0 {
      var k := y / 100;
      assert y == 100 * k;
    }
  }

  /** Counting one more year adds one multiple of 4 exactly when the new year is one. */
  lemma DivStep4(p: int)
    requires p >= 0
    ensures (p + 1) / 4 == p / 4 + (if (p + 1) % 4 == 0 then 1 else 0)
  {
  }

  lemma DivStep100(p: int)
    requires p >= 0
    ensures (p + 1) / 100 == p / 100 + (if (p + 1) % 100 == 0 then 1 else 0)
  {
  }

  lemma DivStep400(p: int)
    requires p >= 0
    ensures (p + 1) / 400 == p / 400 + (if (p + 1) % 400 == 0 then 1 else 0)
  {
  }

  lemma DaysBeforeYearMonotonic(y1: int, y2: int)
    requires 1 <= y1 <= y2
    ensures DaysBeforeYear(y1) <= DaysBeforeYear(y2)
  {
  }

  lemma DaysBeforeMonthMonotonic(y: int, m1: int, m2: int)
    requires 1 <= m1 <= m2 <= 13
    ensures DaysBeforeMonth(y, m1) <= DaysBeforeMonth(y, m2)
  {
  }

  /** A calendar date; `ValidDate` is what `datetime` accepts. */
  datatype Date = Date(year: int, month: int, day: int)

  predicate ValidDate(d: Date) {
    && 1 <= d.year <= 9999
    && 1 <= d.month <= 12
    && 1 <= d.day <= DaysInMonth(d.year, d.month)
  }

  /** `date.toordinal()`: 0001-01-01 is day 1. */
  function ToOrdinal(d: Date): (n: int)
    requires ValidDate(d)
    ensures DaysBeforeYear(d.year) < n <= DaysBeforeYear(d.year + 1)
    ensures 1 <= n <= MaxOrdinal
  {
    MonthTable(d.year, d.month);
    DaysBeforeMonthMonotonic(d.year, d.month + 1, 13);
    DaysBeforeYearStep(d.year);
    DaysBeforeYearMonotonic(d.year + 1, 10000);
    DaysBeforeYear(d.year) + DaysBeforeMonth(d.year, d.month) + d.day
  }

  /** The year holding ordinal day `n`, searched upwards from year `y`. */
  function YearOf(n: int, y: int): (r: int)
    requires 1 <= y && DaysBeforeYear(y) < n
    ensures y <= r && DaysBeforeYear(r) < n <= DaysBeforeYear(r + 1)
    decreases n - DaysBeforeYear(y)
  {
    DaysBeforeYearStep(y);
    if n <= DaysBeforeYear(y + 1) then y else YearOf(n, y + 1)
  }

  /** The month holding day `r` (0-based) of year `y`, searched upwards from month `m`. */
  function MonthOf(y: int, r: int, m: int): (res: int)
    requires 1 <= m <= 12 && DaysBeforeMonth(y, m) <= r < DaysInYear(y)
    ensures m <= res <= 12 && DaysBeforeMonth(y, res) <= r < DaysBeforeMonth(y, res + 1)
    decreases 12 - m
  {
    MonthTable(y, m);
    if r < DaysBeforeMonth(y, m + 1) then m else MonthOf(y, r, m + 1)
  }

  /** `date.fromordinal(n)`. The year search starts from an estimate that is never too late. */
  function FromOrdinal(n: int): (d: Date)
    requires 1 <= n <= MaxOrdinal
    ensures ValidDate(d) && ToOrdinal(d) == n
  {
    var estimate := (n - 1) / 366 + 1;
    var y := YearOf(n, estimate);
    DaysBeforeYearStep(y);
    YearBelow10000(n, y);
    var r := n - 1 - DaysBeforeYear(y);
    MonthTable(y, 1);
    var m := MonthOf(y, r, 1);
    MonthTable(y, m);
    Date(y, m, r - DaysBeforeMonth(y, m) + 1)
  }

  lemma YearBelow10000(n: int, y: int)
    requires 1 <= y && DaysBeforeYear(y) < n <= MaxOrdinal
    ensures y < 10000
  {
    if y >= 10000 {
      DaysBeforeYearMonotonic(10000, y);
    }
  }

  /** Two years whose day ranges hold the same day are the same year. */
  lemma YearUnique(n: int, y1: int, y2: int)
    requires 1 <= y1 && 1 <= y2
    requires DaysBeforeYear(y1) < n <= DaysBeforeYear(y1 + 1)
    requires DaysBeforeYear(y2) < n <= DaysBeforeYear(y2 + 1)
    ensures y1 == y2
  {
    if y1 < y2 {
      DaysBeforeYearMonotonic(y1 + 1, y2);
    } else if y2 < y1 {
      DaysBeforeYearMonotonic(y2 + 1, y1);
    }
  }

  lemma MonthUnique(y: int, r: int, m1: int, m2: int)
    requires 1 <= m1 <= 12 && 1 <= m2 <= 12
    requires DaysBeforeMonth(y, m1) <= r < DaysBeforeMonth(y, m1 + 1)
    requires DaysBeforeMonth(y, m2) <= r < DaysBeforeMonth(y, m2 + 1)
    ensures m1 == m2
  {
    if m1 < m2 {
      DaysBeforeMonthMonotonic(y, m1 + 1, m2);
    } else if m2 < m1 {
      DaysBeforeMonthMonotonic(y, m2 + 1, m1);
    }
  }

  /** `date.fromordinal(d.toordinal()) == d`. */
  lemma FromToOrdinal(d: Date)
    requires ValidDate(d)
    ensures FromOrdinal(ToOrdinal(d)) == d
  {
    var n := ToOrdinal(d);
    var e := FromOrdinal(n);
    DaysBeforeYearStep(e.year);
    MonthTable(e.year, e.month);
    DaysBeforeMonthMonotonic(e.year, e.month + 1, 13);
    YearUnique(n, d.year, e.year);
    MonthTable(d.year, d.month);
    MonthUnique(d.year, n - 1 - DaysBeforeYear(d.year), d.month, e.month);
  }

  /** The calendar date of an instant. */
  function DateOf(t: Instant): (d: Date)
    ensures ValidDate(d)
  {
    FromOrdinal(t / SecondsPerDay + 1)
  }

  /** Midnight of a date. */
  function Midnight(d: Date): (t: Instant)
    requires ValidDate(d)
    ensures t % SecondsPerDay == 0 && t / SecondsPerDay + 1 == ToOrdinal(d)
  {
    (ToOrdinal(d) - 1) * SecondsPerDay
  }

  // ----------------------------------------------------------- "%Y-%m-%d"

  function TwoDigits(n: int): (s: string)
    requires 0 <= n < 100
    ensures |s| == 2 && AllDigits(s)
  {
    [DigitChar(n / 10), DigitChar(n % 10)]
  }

  function FourDigits(n: int): (s: string)
    requires 0 <= n < 10000
    ensures |s| == 4 && AllDigits(s)
  {
    TwoDigits(n / 100) + TwoDigits(n % 100)
  }

  function TwoDigitsValue(s: string): (n: int)
    requires |s| == 2 && AllDigits(s)
    ensures 0 <= n < 100
  {
    DigitValue(s[0]) * 10 + DigitValue(s[1])
  }

  function FourDigitsValue(s: string): (n: int)
    requires |s| == 4 && AllDigits(s)
    ensures 0 <= n < 10000
  {
    TwoDigitsValue(s[..2]) * 100 + TwoDigitsValue(s[2..])
  }

  /** `t.strftime("%Y-%m-%d")`, the year written with four digits. */
  function FormatDate(t: Instant): (s: string)
    ensures |s| == 10 && s[4] == '-' && s[7] == '-'
    ensures forall i :: 0 <= i < |s| ==> s[i] != ',' && !IsSpace(s[i])
  {
    var d := DateOf(t);
    FourDigits(d.year) + "-" + TwoDigits(d.month) + "-" + TwoDigits(d.day)
  }

  /** `datetime.strptime(s, "%Y-%m-%d")`: None where Python raises ValueError, either
      because the text does not have the shape or because the date does not exist. */
  function ParseDate(s: string): (r: Option<Instant>)
    ensures r.Some? ==> r.value % SecondsPerDay == 0
  {
    if |s| == 10 && s[4] == '-' && s[7] == '-'
       && AllDigits(s[..4]) && AllDigits(s[5..7]) && AllDigits(s[8..]) then
      var d := Date(FourDigitsValue(s[..4]), TwoDigitsValue(s[5..7]), TwoDigitsValue(s[8..]));
      if ValidDate(d) then Some(Midnight(d)) else None
    else
      None
  }

  lemma TwoDigitsRoundTrip(n: int)
    requires 0 <= n < 100
    ensures TwoDigitsValue(TwoDigits(n)) == n
  {
    var s := TwoDigits(n);
    assert DigitValue(s[0]) == n / 10 && DigitValue(s[1]) == n % 10;
  }

  lemma FourDigitsRoundTrip(n: int)
    requires 0 <= n < 10000
    ensures FourDigitsValue(FourDigits(n)) == n
  {
    var s := FourDigits(n);
    assert s[..2] == TwoDigits(n / 100) && s[2..] == TwoDigits(n % 100);
    TwoDigitsRoundTrip(n / 100);
    TwoDigitsRoundTrip(n % 100);
  }

  lemma TwoDigitsText(s: string)
    requires |s| == 2 && AllDigits(s)
    ensures TwoDigits(TwoDigitsValue(s)) == s
  {
    var v := TwoDigitsValue(s);
    assert v / 10 == DigitValue(s[0]) && v % 10 == DigitValue(s[1]);
  }

  lemma FourDigitsText(s: string)
    requires |s| == 4 && AllDigits(s)
    ensures FourDigits(FourDigitsValue(s)) == s
  {
    var hi, lo := TwoDigitsValue(s[..2]), TwoDigitsValue(s[2..]);
    TwoDigitsText(s[..2]);
    TwoDigitsText(s[2..]);
    assert FourDigitsValue(s) / 100 == hi && FourDigitsValue(s) % 100 == lo;
    assert s == s[..2] + s[2..];
  }

  /** The text of a valid date parses back to its midnight. */
  lemma ParseDateText(d: Date)
    requires ValidDate(d)
    ensures ParseDate(FourDigits(d.year) + "-" + TwoDigits(d.month) + "-" + TwoDigits(d.day))
            == Some(Midnight(d))
  {
    var s := FourDigits(d.year) + "-" + TwoDigits(d.month) + "-" + TwoDigits(d.day);
    assert s[..4] == FourDigits(d.year);
    assert s[5..7] == TwoDigits(d.month);
    assert s[8..] == TwoDigits(d.day);
    FourDigitsRoundTrip(d.year);
    TwoDigitsRoundTrip(d.month);
    TwoDigitsRoundTrip(d.day);
  }

  lemma MidnightOfDate(t: Instant)
    ensures Midnight(DateOf(t)) == StartOfDay(t)
  {
    var k := t / SecondsPerDay;
    assert ToOrdinal(DateOf(t)) == k + 1;
    assert t == k * SecondsPerDay + t % SecondsPerDay;
  }

  /** Writing a date and reading it back keeps the day and loses the time of day. */
  lemma ParseFormatDate(t: Instant)
    ensures ParseDate(FormatDate(t)) == Some(StartOfDay(t))
  {
    ParseDateText(DateOf(t));
    MidnightOfDate(t);
  }

  /** Parsing then formatting gives back the same text. */
  lemma FormatParseDate(s: string)
    requires ParseDate(s).Some?
    ensures FormatDate(ParseDate(s).value) == s
  {
    var d := Date(FourDigitsValue(s[..4]), TwoDigitsValue(s[5..7]), TwoDigitsValue(s[8..]));
    assert ParseDate(s) == Some(Midnight(d));
    FormatMidnight(d);
    RewrittenText(s);
  }

  /** A valid date's midnight is written as that date's numbers. */
  lemma FormatMidnight(d: Date)
    requires ValidDate(d)
    ensures FormatDate(Midnight(d)) == FourDigits(d.year) + "-" + TwoDigits(d.month) + "-" + TwoDigits(d.day)
  {
    var n := ToOrdinal(d);
    DateOfOrdinal(n);
    FromToOrdinal(d);
    var t: Instant := (n - 1) * SecondsPerDay;
    assert Midnight(d) == t;
    FormatDateOf(t, d);
  }

  /** The midnight that begins day `n` belongs to day `n`. */
  lemma DateOfOrdinal(n: int)
    requires 1 <= n <= MaxOrdinal
    ensures 0 <= (n - 1) * SecondsPerDay < MaxOrdinal * SecondsPerDay
    ensures DateOf((n - 1) * SecondsPerDay) == FromOrdinal(n)
  {
    assert ((n - 1) * SecondsPerDay) / SecondsPerDay == n - 1;
  }

  /** The text of an instant is that of its calendar date. */
  lemma FormatDateOf(t: Instant, d: Date)
    requires DateOf(t) == d
    ensures FormatDate(t) == FourDigits(d.year) + "-" + TwoDigits(d.month) + "-" + TwoDigits(d.day)
  {
  }

  /** Text of the "%Y-%m-%d" shape is rebuilt from the numbers it holds. */
  lemma RewrittenText(s: string)
    requires |s| == 10 && s[4] == '-' && s[7] == '-'
    requires AllDigits(s[..4]) && AllDigits(s[5..7]) && AllDigits(s[8..])
    ensures FourDigits(FourDigitsValue(s[..4])) + "-" + TwoDigits(TwoDigitsValue(s[5..7])) + "-"
            + TwoDigits(TwoDigitsValue(s[8..])) == s
  {
    FourDigitsText(s[..4]);
    TwoDigitsText(s[5..7]);
    TwoDigitsText(s[8..]);
    assert s == s[..4] + "-" + s[5..7] + "-" + s[8..];
  }
}
