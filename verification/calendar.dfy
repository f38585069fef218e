/** Calendar dates as Python's `datetime.date` sees them: the proleptic
    Gregorian calendar on years 1..9999, day numbers as `date.toordinal()`
    (0001-01-01 is day 1), weekdays as `date.weekday()` (Monday is 0), and the
    `%Y%m%d` / `%Y-%m-%d` formats that the services format and parse. */
module Calendar {
  import opened Common

  datatype Date = Date(year: int, month: int, day: int)

  const MinYear: int := 1
  const MaxYear: int := 9999

  predicate IsLeapYear(y: int)
  {
    y % 4 == 0 && (y % 100 != 0 || y % 400 == 0)
  }

  function DaysInMonth(y: int, m: int): (r: int)
    requires 1 <= m <= 12
    ensures 28 <= r <= 31
  {
    if m == 2 then (if IsLeapYear(y) then 29 else 28)
    else if m == 4 || m == 6 || m == 9 || m == 11 then 30
    else 31
  }

  function DaysInYear(y: int): int
  {
    if IsLeapYear(y) then 366 else 365
  }

  predicate ValidDate(d: Date)
  {
    MinYear <= d.year <= MaxYear && 1 <= d.month <= 12 && 1 <= d.day <= DaysInMonth(d.year, d.month)
  }

  /** Days in the years before `y` (year 1 starts after day 0). */
  function DaysBeforeYear(y: int): int
  {
    var p := y - 1;
    365 * p + p / 4 - p / 100 + p / 400
  }

  /** Days in the months of year `y` before month `m`; month 13 stands for the whole year. */
  function DaysBeforeMonth(y: int, m: int): int
    requires 1 <= m <= 13
  {
    if m == 1 then 0 else DaysBeforeMonth(y, m - 1) + DaysInMonth(y, m - 1)
  }

  /** `date.toordinal()`. */
  function Ordinal(d: Date): int
    requires ValidDate(d)
  {
    DaysBeforeYear(d.year) + DaysBeforeMonth(d.year, d.month) + d.day
  }

  /** Day number of 9999-12-31, the last date Python can represent. */
  const MaxOrdinal: int := DaysBeforeYear(MaxYear + 1)

  /** `date.weekday()` of a day number: Monday is 0 and Sunday is 6. */
  function Weekday(n: int): (w: int)
    ensures 0 <= w < 7
  {
    (n + 6) % 7
  }

  // ---------------------------------------------------------------------
  // Lengths of years and months
  // ---------------------------------------------------------------------

  lemma DivStep(p: int)
    ensures (p + 1) / 4 == p / 4 + (if (p + 1) % 4 == 0 then 1 else 0)
    ensures (p + 1) / 100 == p / 100 + (if (p + 1) % 100 == 0 then 1 else 0)
    ensures (p + 1) / 400 == p / 400 + (if (p + 1) % 400 == 0 then 1 else 0)
  {
  }

  lemma LeapDivisors(y: int)
    ensures y % 100 == 0 ==> y % 4 == 0
    ensures y % 400 == 0 ==> y % 100 == 0
  {
    if y % 100 == 0 {
      assert y == 4 * (25 * (y / 100));
    }
    if y % 400 == 0 {
      assert y == 100 * (4 * (y / 400));
    }
  }

  lemma YearLength(y: int)
    ensures DaysBeforeYear(y + 1) == DaysBeforeYear(y) + DaysInYear(y)
  {
    DivStep(y - 1);
    LeapDivisors(y);
  }

  /** Days before each month in a common year; a leap year adds one from March on. */
  function CommonDaysBefore(m: int): int
    requires 1 <= m <= 13
  {
    [0, 31, 59, 90, 120, 151, 181, 212, 243, 273, 304, 334, 365][m - 1]
  }

  lemma {:induction false} DaysBeforeMonthTable(y: int, m: int)
    requires 1 <= m <= 13
    ensures DaysBeforeMonth(y, m) == CommonDaysBefore(m) + (if m > 2 && IsLeapYear(y) then 1 else 0)
  {
    if m > 1 {
      DaysBeforeMonthTable(y, m - 1);
    }
  }

  lemma MonthsFillYear(y: int)
    ensures DaysBeforeMonth(y, 13) == DaysInYear(y)
  {
    DaysBeforeMonthTable(y, 13);
  }

  lemma {:induction false} DaysBeforeMonthMonotone(y: int, m1: int, m2: int)
    requires 1 <= m1 <= m2 <= 13
    ensures DaysBeforeMonth(y, m1) + 28 * (m2 - m1) <= DaysBeforeMonth(y, m2)
    decreases m2
  {
    if m1 < m2 {
      DaysBeforeMonthMonotone(y, m1, m2 - 1);
    }
  }

  lemma {:induction false} DaysBeforeYearMonotone(a: int, b: int)
    requires a <= b
    ensures DaysBeforeYear(a) + 365 * (b - a) <= DaysBeforeYear(b)
    decreases b - a
  {
    if a < b {
      DaysBeforeYearMonotone(a, b - 1);
      YearLength(b - 1);
    }
  }

  /** A date's day number lies inside its year and inside its month. */
  lemma OrdinalBounds(d: Date)
    requires ValidDate(d)
    ensures DaysBeforeYear(d.year) < Ordinal(d) <= DaysBeforeYear(d.year + 1)
    ensures DaysBeforeMonth(d.year, d.month) < Ordinal(d) - DaysBeforeYear(d.year) <= DaysBeforeMonth(d.year, d.month + 1)
  {
    YearLength(d.year);
    MonthsFillYear(d.year);
    assert DaysBeforeMonth(d.year, d.month + 1) == DaysBeforeMonth(d.year, d.month) + DaysInMonth(d.year, d.month);
    DaysBeforeMonthMonotone(d.year, d.month + 1, 13);
    DaysBeforeMonthMonotone(d.year, 1, d.month);
  }

  lemma OrdinalRange(d: Date)
    requires ValidDate(d)
    ensures 1 <= Ordinal(d) <= MaxOrdinal
  {
    OrdinalBounds(d);
    DaysBeforeYearMonotone(MinYear, d.year);
    DaysBeforeYearMonotone(d.year + 1, MaxYear + 1);
  }

  /** Different dates have different day numbers. */
  lemma OrdinalInjective(d1: Date, d2: Date)
    requires ValidDate(d1) && ValidDate(d2) && Ordinal(d1) == Ordinal(d2)
    ensures d1 == d2
  {
    if Before(d1, d2) {
      OrdinalOrder(d1, d2);
      assert false;
    } else if Before(d2, d1) {
      OrdinalOrder(d2, d1);
      assert false;
    }
  }

  /** Calendar order: an earlier year, or the same year and an earlier month, or the same month and an earlier day. */
  predicate Before(d1: Date, d2: Date)
  {
    d1.year < d2.year
    || (d1.year == d2.year && d1.month < d2.month)
    || (d1.year == d2.year && d1.month == d2.month && d1.day < d2.day)
  }

  /** Later dates, in calendar order, have larger day numbers. */
  lemma OrdinalOrder(d1: Date, d2: Date)
    requires ValidDate(d1) && ValidDate(d2) && Before(d1, d2)
    ensures Ordinal(d1) < Ordinal(d2)
  {
    OrdinalBounds(d1);
    OrdinalBounds(d2);
    if d1.year < d2.year {
      DaysBeforeYearMonotone(d1.year + 1, d2.year);
    } else if d1.month < d2.month {
      DaysBeforeMonthMonotone(d1.year, d1.month + 1, d2.month);
    }
  }

  // ---------------------------------------------------------------------
  // From a day number back to a date (`date.fromordinal`)
  // ---------------------------------------------------------------------

  function YearOf(n: int, y: int): (r: int)
    requires DaysBeforeYear(y) < n
    ensures y <= r && DaysBeforeYear(r) < n <= DaysBeforeYear(r + 1)
    decreases n - DaysBeforeYear(y)
  {
    YearLength(y);
    if n <= DaysBeforeYear(y + 1) then y else YearOf(n, y + 1)
  }

  function MonthOf(y: int, k: int, m: int): (r: int)
    requires 1 <= m <= 12 && DaysBeforeMonth(y, m) < k <= DaysBeforeMonth(y, 13)
    ensures m <= r <= 12 && DaysBeforeMonth(y, r) < k <= DaysBeforeMonth(y, r + 1)
    decreases 12 - m
  {
    if k <= DaysBeforeMonth(y, m + 1) then m else MonthOf(y, k, m + 1)
  }

  function FromOrdinal(n: int): (d: Date)
    requires 1 <= n <= MaxOrdinal
    ensures ValidDate(d) && Ordinal(d) == n
  {
    var y := YearOf(n, MinYear);
    if y > MaxYear then
      DaysBeforeYearMonotone(MaxYear + 1, y);
      assert false; Date(MaxYear, 12, 31)
    else
      var k := n - DaysBeforeYear(y);
      YearLength(y);
      MonthsFillYear(y);
      var m := MonthOf(y, k, 1);
      Date(y, m, k - DaysBeforeMonth(y, m))
  }

  lemma FromOrdinalOfOrdinal(d: Date)
    requires ValidDate(d)
    ensures 1 <= Ordinal(d) <= MaxOrdinal
    ensures FromOrdinal(Ordinal(d)) == d
  {
    OrdinalRange(d);
    OrdinalInjective(FromOrdinal(Ordinal(d)), d);
  }

  /** Python's `date + timedelta(days=k)`, defined while the result stays in range. */
  function AddDays(d: Date, k: int): (r: Date)
    requires ValidDate(d)
    requires 1 <= Ordinal(d) + k <= MaxOrdinal
    ensures ValidDate(r) && Ordinal(r) == Ordinal(d) + k
  {
    FromOrdinal(Ordinal(d) + k)
  }

  /** `d + timedelta(days=1)`; `None` is the OverflowError after 9999-12-31. */
  function NextDay(d: Date): (r: Option<Date>)
    requires ValidDate(d)
    ensures r.Some? ==> ValidDate(r.value)
    ensures r.None? <==> d == Date(MaxYear, 12, 31)
  {
    if d.day < DaysInMonth(d.year, d.month) then Some(Date(d.year, d.month, d.day + 1))
    else if d.month < 12 then Some(Date(d.year, d.month + 1, 1))
    else if d.year < MaxYear then Some(Date(d.year + 1, 1, 1))
    else None
  }

  /** `d - timedelta(days=1)`; `None` is the OverflowError before 0001-01-01. */
  function PrevDay(d: Date): (r: Option<Date>)
    requires ValidDate(d)
    ensures r.Some? ==> ValidDate(r.value)
    ensures r.None? <==> d == Date(MinYear, 1, 1)
  {
    if d.day > 1 then Some(Date(d.year, d.month, d.day - 1))
    else if d.month > 1 then Some(Date(d.year, d.month - 1, DaysInMonth(d.year, d.month - 1)))
    else if d.year > MinYear then Some(Date(d.year - 1, 12, 31))
    else None
  }

  /** The next day is one day number later; only the last representable day has none. */
  lemma NextDayOrdinal(d: Date)
    requires ValidDate(d)
    ensures NextDay(d).Some? ==> Ordinal(NextDay(d).value) == Ordinal(d) + 1
    ensures NextDay(d).None? <==> Ordinal(d) == MaxOrdinal
  {
    OrdinalRange(d);
    if NextDay(d).Some? {
      NextDayStep(d);
      OrdinalRange(NextDay(d).value);
    } else {
      YearLength(MaxYear);
      MonthsFillYear(MaxYear);
    }
  }

  lemma NextDayStep(d: Date)
    requires ValidDate(d) && NextDay(d).Some?
    ensures Ordinal(NextDay(d).value) == Ordinal(d) + 1
  {
    if d.day < DaysInMonth(d.year, d.month) {
    } else if d.month < 12 {
      MonthEnd(d.year, d.month);
      assert d == Date(d.year, d.month, DaysInMonth(d.year, d.month));
    } else {
      YearEnd(d.year);
      assert d == Date(d.year, 12, 31);
    }
  }

  /** The previous day is one day number earlier; only 0001-01-01 has none. */
  lemma PrevDayOrdinal(d: Date)
    requires ValidDate(d)
    ensures PrevDay(d).Some? ==> Ordinal(PrevDay(d).value) == Ordinal(d) - 1
    ensures PrevDay(d).None? <==> Ordinal(d) == 1
  {
    if PrevDay(d).Some? {
      PrevDayStep(d);
      OrdinalRange(PrevDay(d).value);
    }
  }

  lemma PrevDayStep(d: Date)
    requires ValidDate(d) && PrevDay(d).Some?
    ensures Ordinal(PrevDay(d).value) == Ordinal(d) - 1
  {
    if d.day > 1 {
    } else if d.month > 1 {
      MonthEnd(d.year, d.month - 1);
      assert d == Date(d.year, d.month - 1 + 1, 1);
    } else {
      NewYearStep(d);
    }
  }

  lemma NewYearStep(d: Date)
    requires ValidDate(d) && d.day == 1 && d.month == 1 && d.year > 1
    ensures Ordinal(PrevDay(d).value) == Ordinal(d) - 1
  {
    YearEnd(d.year - 1);
  }

  /** The last day of a month is the day before the next month's first. */
  lemma MonthEnd(y: int, m: int)
    requires MinYear <= y <= MaxYear && 1 <= m < 12
    ensures ValidDate(Date(y, m, DaysInMonth(y, m)))
    ensures Ordinal(Date(y, m, DaysInMonth(y, m))) + 1 == Ordinal(Date(y, m + 1, 1))
  {
    assert DaysBeforeMonth(y, m + 1) == DaysBeforeMonth(y, m) + DaysInMonth(y, m);
  }

  /** The last day of a year is the day before the next year's first. */
  lemma YearEnd(y: int)
    requires MinYear <= y < MaxYear
    ensures ValidDate(Date(y, 12, 31)) && Ordinal(Date(y, 12, 31)) + 1 == Ordinal(Date(y + 1, 1, 1))
    ensures 1 <= Ordinal(Date(y, 12, 31))
  {
    YearLength(y);
    MonthsFillYear(y);
    OrdinalRange(Date(y, 12, 31));
  }

  // ---------------------------------------------------------------------
  // `strftime("%Y%m%d")` and `strptime(..., "%Y%m%d")`, `"%Y-%m-%d"`
  // ---------------------------------------------------------------------

  /** The number written by two decimal digits. */
  function Pair(a: char, b: char): (n: int)
    requires IsDigit(a) && IsDigit(b)
    ensures 0 <= n <= 99
  {
    10 * DigitValue(a) + DigitValue(b)
  }

  /** A number below 100 written with two digits, zero-padded. */
  function Digits2(n: int): (s: string)
    requires 0 <= n <= 99
    ensures |s| == 2 && IsDigit(s[0]) && IsDigit(s[1])
    ensures Pair(s[0], s[1]) == n
  {
    [DigitChar(n / 10), DigitChar(n % 10)]
  }

  lemma Digits2OfPair(a: char, b: char)
    requires IsDigit(a) && IsDigit(b)
    ensures Digits2(Pair(a, b)) == [a, b]
  {
  }

  /** `strftime("%Y%m%d")`, the year padded to four digits. */
  function Yyyymmdd(d: Date): (s: string)
    requires ValidDate(d)
    ensures |s| == 8 && AllDigits(s)
  {
    Digits2(d.year / 100) + Digits2(d.year % 100) + Digits2(d.month) + Digits2(d.day)
  }

  /** What `%m` accepts in two characters followed by more input: 01..12. */
  function MonthField(a: char, b: char): (r: Option<int>)
    ensures r.Some? ==> 1 <= r.value <= 12
    ensures r.Some? && IsDigit(a) ==> IsDigit(b) && r.value == Pair(a, b)
  {
    if a == '0' && '1' <= b <= '9' then Some(DigitValue(b))
    else if a == '1' && '0' <= b <= '2' then Some(10 + DigitValue(b))
    else None
  }

  /** What `%d` accepts as the last two characters of the input: 01..31, or a space and 1..9. */
  function DayField(a: char, b: char): (r: Option<int>)
    ensures r.Some? ==> 1 <= r.value <= 31
    ensures r.Some? && IsDigit(a) ==> IsDigit(b) && r.value == Pair(a, b)
  {
    if a == '3' && '0' <= b <= '1' then Some(30 + DigitValue(b))
    else if ('1' <= a <= '2') && IsDigit(b) then Some(10 * DigitValue(a) + DigitValue(b))
    else if (a == '0' || a == ' ') && '1' <= b <= '9' then Some(DigitValue(b))
    else None
  }

  /** The date named by year, month and day fields, if the calendar has it. */
  function MakeDate(y: int, m: Option<int>, d: Option<int>): (r: Option<Date>)
    ensures r.Some? ==> ValidDate(r.value) && Some(r.value.month) == m && Some(r.value.day) == d
    ensures r.Some? ==> r.value.year == y
  {
    if m.Some? && d.Some? && 1 <= m.value <= 12 && ValidDate(Date(y, m.value, d.value))
    then Some(Date(y, m.value, d.value)) else None
  }

  /** `%Y` on four digits. */
  function YearField(s: string): (y: int)
    requires |s| >= 4 && IsDigit(s[0]) && IsDigit(s[1]) && IsDigit(s[2]) && IsDigit(s[3])
    ensures 0 <= y <= 9999
  {
    100 * Pair(s[0], s[1]) + Pair(s[2], s[3])
  }

  /** `datetime.strptime(s, "%Y%m%d")` on eight digits; `None` is the ValueError. */
  function ParseCompact(s: string): (r: Option<Date>)
    requires |s| == 8 && AllDigits(s)
    ensures r.Some? ==> ValidDate(r.value)
  {
    assert IsDigit(s[0]) && IsDigit(s[1]) && IsDigit(s[2]) && IsDigit(s[3]);
    MakeDate(YearField(s), MonthField(s[4], s[5]), DayField(s[6], s[7]))
  }

  /** `datetime.strptime(s, "%Y-%m-%d")` on ten characters with dashes at 4 and 7. */
  function ParseDashed(s: string): (r: Option<Date>)
    requires |s| == 10 && s[4] == '-' && s[7] == '-'
    ensures r.Some? ==> ValidDate(r.value)
  {
    if IsDigit(s[0]) && IsDigit(s[1]) && IsDigit(s[2]) && IsDigit(s[3]) then
      MakeDate(YearField(s), MonthField(s[5], s[6]), DayField(s[8], s[9]))
    else None
  }

  /** `date.fromisoformat(s)` for the extended form YYYY-MM-DD. */
  function ParseIso(s: string): (r: Option<Date>)
    ensures r.Some? ==> ValidDate(r.value)
    ensures r.Some? ==> |s| == 10 && s[4] == '-' && s[7] == '-'
  {
    if |s| == 10 && s[4] == '-' && s[7] == '-'
      && IsDigit(s[0]) && IsDigit(s[1]) && IsDigit(s[2]) && IsDigit(s[3])
      && IsDigit(s[5]) && IsDigit(s[6]) && IsDigit(s[8]) && IsDigit(s[9])
    then MakeDate(YearField(s), Some(Pair(s[5], s[6])), Some(Pair(s[8], s[9])))
    else None
  }

  /** Formatting a date and parsing it back gives the same date. */
  lemma ParseCompactOfFormat(d: Date)
    requires ValidDate(d)
    ensures ParseCompact(Yyyymmdd(d)) == Some(d)
  {
    var s := Yyyymmdd(d);
    var mm, dd := Digits2(d.month), Digits2(d.day);
    assert s[4] == mm[0] && s[5] == mm[1] && s[6] == dd[0] && s[7] == dd[1];
    MonthFieldOfDigits(d.month);
    DayFieldOfDigits(d.day);
    assert YearField(s) == d.year;
  }

  /** `%m` reads back a month written with two digits. */
  lemma MonthFieldOfDigits(m: int)
    requires 1 <= m <= 12
    ensures MonthField(Digits2(m)[0], Digits2(m)[1]) == Some(m)
  {
  }

  /** `%d` reads back a day written with two digits. */
  lemma DayFieldOfDigits(d: int)
    requires 1 <= d <= 31
    ensures DayField(Digits2(d)[0], Digits2(d)[1]) == Some(d)
  {
  }

  /** A compact date that parses is its own formatting: `%Y%m%d` has one spelling per date. */
  lemma FormatOfParseCompact(s: string)
    requires |s| == 8 && AllDigits(s) && ParseCompact(s).Some?
    ensures Yyyymmdd(ParseCompact(s).value) == s
  {
    var d := ParseCompact(s).value;
    assert IsDigit(s[0]) && IsDigit(s[1]) && IsDigit(s[2]) && IsDigit(s[3]);
    assert IsDigit(s[4]) && IsDigit(s[6]);
    var hi, lo := Pair(s[0], s[1]), Pair(s[2], s[3]);
    assert d.year == 100 * hi + lo;
    assert d.year / 100 == hi && d.year % 100 == lo;
    Digits2OfPair(s[0], s[1]);
    Digits2OfPair(s[2], s[3]);
    Digits2OfPair(s[4], s[5]);
    Digits2OfPair(s[6], s[7]);
    assert s == [s[0], s[1]] + [s[2], s[3]] + [s[4], s[5]] + [s[6], s[7]];
  }

  /** The dashed form names the same date as the compact form with the dashes removed. */
  lemma ParseDashedCompact(s: string)
    requires |s| == 10 && s[4] == '-' && s[7] == '-' && AllDigits(s[..4] + s[5..7] + s[8..])
    ensures ParseDashed(s) == ParseCompact(s[..4] + s[5..7] + s[8..])
  {
    var c := s[..4] + s[5..7] + s[8..];
    assert c[0] == s[0] && c[1] == s[1] && c[2] == s[2] && c[3] == s[3];
    assert c[4] == s[5] && c[5] == s[6] && c[6] == s[8] && c[7] == s[9];
  }
}
