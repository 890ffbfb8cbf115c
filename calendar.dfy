/**
 * The calendar arithmetic behind adding whole days to the current instant
 * and writing the result as year, month and day digits:
 * instants are Unix seconds, dates are Gregorian (year, month, day) in UTC,
 * and a day number counts days from 1970-01-01.
 */
module Calendar {
  import opened Decimal

  const SecondsPerDay: nat := 86400

  datatype Date = Date(year: int, month: int, day: int)

  predicate IsLeap(y: int) {
    y % 4 == 0 && (y % 100 != 0 || y % 400 == 0)
  }

  function YearLength(y: int): nat {
    if IsLeap(y) then 366 else 365
  }

  function MonthLength(y: int, m: int): (r: nat)
    requires 1 <= m <= 12
    ensures 28 <= r <= 31
  {
    if m == 2 then (if IsLeap(y) then 29 else 28)
    else if m == 4 || m == 6 || m == 9 || m == 11 then 30
    else 31
  }

  predicate ValidDate(d: Date) {
    1 <= d.month <= 12 && 1 <= d.day <= MonthLength(d.year, d.month)
  }

  /** Days from 1 January of year y to 1 January of month m of that year. */
  function DaysBeforeMonth(y: int, m: int): nat
    requires 1 <= m <= 13
  {
    if m == 1 then 0 else DaysBeforeMonth(y, m - 1) + MonthLength(y, m - 1)
  }

  /** Day number of 1 January of year y. */
  function DaysBeforeYear(y: int): int
    decreases if y < 1970 then 1970 - y else y - 1970
  {
    if y == 1970 then 0
    else if y > 1970 then DaysBeforeYear(y - 1) + YearLength(y - 1)
    else DaysBeforeYear(y + 1) - YearLength(y)
  }

  lemma MonthsFillYear(y: int)
    ensures DaysBeforeMonth(y, 13) == YearLength(y)
  {
    assert DaysBeforeMonth(y, 2) == 31;
    assert DaysBeforeMonth(y, 3) == 31 + MonthLength(y, 2);
    assert DaysBeforeMonth(y, 4) == DaysBeforeMonth(y, 3) + 31;
    assert DaysBeforeMonth(y, 5) == DaysBeforeMonth(y, 3) + 61;
    assert DaysBeforeMonth(y, 6) == DaysBeforeMonth(y, 3) + 92;
    assert DaysBeforeMonth(y, 7) == DaysBeforeMonth(y, 3) + 122;
    assert DaysBeforeMonth(y, 8) == DaysBeforeMonth(y, 3) + 153;
    assert DaysBeforeMonth(y, 9) == DaysBeforeMonth(y, 3) + 184;
    assert DaysBeforeMonth(y, 10) == DaysBeforeMonth(y, 3) + 214;
    assert DaysBeforeMonth(y, 11) == DaysBeforeMonth(y, 3) + 245;
    assert DaysBeforeMonth(y, 12) == DaysBeforeMonth(y, 3) + 275;
  }

  lemma DaysBeforeYearStep(y: int)
    ensures DaysBeforeYear(y + 1) == DaysBeforeYear(y) + YearLength(y)
  {
  }

  /**
   * The year holding day number `DaysBeforeYear(y) + n`, with the day's
   * offset inside that year.
   */
  function YearOf(y: int, n: int): (r: (int, int))
    ensures 0 <= r.1 < YearLength(r.0)
    ensures DaysBeforeYear(r.0) + r.1 == DaysBeforeYear(y) + n
    decreases if n < 0 then 1 else 0, if n < 0 then -n else n
  {
    if n < 0 then
      DaysBeforeYearStep(y - 1);
      YearOf(y - 1, n + YearLength(y - 1))
    else if n < YearLength(y) then (y, n)
    else
      DaysBeforeYearStep(y);
      YearOf(y + 1, n - YearLength(y))
  }

  /** The month, from m on, that holds day `offset` of year y. */
  function MonthOf(y: int, offset: int, m: int): (r: int)
    requires 1 <= m <= 12 && DaysBeforeMonth(y, m) <= offset < YearLength(y)
    ensures m <= r <= 12
    ensures DaysBeforeMonth(y, r) <= offset < DaysBeforeMonth(y, r + 1)
    decreases 12 - m
  {
    MonthsFillYear(y);
    if offset < DaysBeforeMonth(y, m + 1) then m else MonthOf(y, offset, m + 1)
  }

  /** The date of a day number. */
  function CivilFromDays(n: int): (d: Date)
    ensures ValidDate(d)
  {
    var (y, offset) := YearOf(1970, n);
    var m := MonthOf(y, offset, 1);
    assert DaysBeforeMonth(y, m + 1) == DaysBeforeMonth(y, m) + MonthLength(y, m);
    Date(y, m, offset - DaysBeforeMonth(y, m) + 1)
  }

  /** The day number of a date; the partner of `CivilFromDays`. */
  function DaysFromCivil(d: Date): int
    requires ValidDate(d)
  {
    DaysBeforeYear(d.year) + DaysBeforeMonth(d.year, d.month) + d.day - 1
  }

  /** The date of a day number leads back to that day number. */
  lemma CivilRoundTrip(n: int)
    ensures DaysFromCivil(CivilFromDays(n)) == n
  {
  }

  /** Distinct day numbers have distinct dates. */
  lemma CivilInjective(a: int, b: int)
    ensures CivilFromDays(a) == CivilFromDays(b) ==> a == b
  {
    CivilRoundTrip(a);
    CivilRoundTrip(b);
  }

  /** The day number an instant falls on. */
  function DayOf(unixSeconds: int): int {
    unixSeconds / SecondsPerDay
  }

  /** Carbon's `addDays`: the same time of day, `days` calendar days later. */
  function AddDays(unixSeconds: int, days: int): (r: int)
    ensures DayOf(r) == DayOf(unixSeconds) + days
    ensures r % SecondsPerDay == unixSeconds % SecondsPerDay
  {
    unixSeconds + days * SecondsPerDay
  }

  /** PHP's 'Y': at least four digits, with a minus sign before year 0. */
  function YearText(y: int): string {
    if y < 0 then "-" + ZeroPad(Dec(-y), 4) else ZeroPad(Dec(y), 4)
  }

  /** The `Ymd` format of a date: four-digit year, two-digit month, two-digit day. */
  function Ymd(d: Date): string
    requires ValidDate(d)
  {
    YearText(d.year) + ZeroPad(Dec(d.month), 2) + ZeroPad(Dec(d.day), 2)
  }

  lemma ThreeFields(a: string, b: string, c: string)
    requires |a| == 4 && |b| == 2 && |c| == 2
    requires AllDigits(a) && AllDigits(b) && AllDigits(c)
    ensures |a + b + c| == 8 && AllDigits(a + b + c)
    ensures (a + b + c)[..4] == a && (a + b + c)[4..6] == b && (a + b + c)[6..] == c
  {
  }

  /**
   * For years 0 to 9999 the text is exactly eight digits, and reading its
   * three fields back gives the year, the month and the day.
   */
  lemma YmdFields(d: Date)
    requires ValidDate(d) && 0 <= d.year <= 9999
    ensures |Ymd(d)| == 8 && AllDigits(Ymd(d))
    ensures Value(Ymd(d)[..4]) == d.year
    ensures Value(Ymd(d)[4..6]) == d.month
    ensures Value(Ymd(d)[6..]) == d.day
  {
    assert Pow10(2) == 100;
    assert Pow10(4) == 10000;
    var y, m, dd := ZeroPad(Dec(d.year), 4), ZeroPad(Dec(d.month), 2), ZeroPad(Dec(d.day), 2);
    PaddedDec(d.year, 4);
    PaddedDec(d.month, 2);
    PaddedDec(d.day, 2);
    assert YearText(d.year) == y;
    assert Ymd(d) == y + m + dd;
    ThreeFields(y, m, dd);
  }
}
