/**
 * Calendar arithmetic behind the report boundaries and month buckets: the
 * proleptic Gregorian calendar JavaScript's `Date` uses, the normalisation
 * `new Date(year, monthIndex, day)` performs, chronological order of local
 * timestamps, and the `YYYY-MM` month key.
 */
module Calendar {
  import opened Wrappers
  import opened Text
  import opened Ledger

  predicate IsLeapYear(y: int) {
    y % 4 == 0 && (y % 100 != 0 || y % 400 == 0)
  }

  function DaysInMonth(y: int, m: int): (d: int)
    requires 1 <= m <= 12
    ensures 28 <= d <= 31
  {
    if m == 2 then (if IsLeapYear(y) then 29 else 28)
    else if m == 4 || m == 6 || m == 9 || m == 11 then 30
    else 31
  }

  const MillisPerDay: int := 86_400_000

  /** A real local timestamp: a month 1..12, a day of that month, a time within the day. */
  predicate ValidTime(t: DateTime) {
    1 <= t.month <= 12 && 1 <= t.day <= DaysInMonth(t.year, t.month) && 0 <= t.millis < MillisPerDay
  }

  /** Chronological order of local timestamps, which is the order `<` on `Date` values compares. */
  predicate Before(a: DateTime, b: DateTime) {
    a.year < b.year
    || (a.year == b.year && (a.month < b.month
    || (a.month == b.month && (a.day < b.day
    || (a.day == b.day && a.millis < b.millis)))))
  }

  /** `a >= b` on dates. */
  predicate AtOrAfter(a: DateTime, b: DateTime) {
    !Before(a, b)
  }

  /** `a <= b` on dates. */
  predicate AtOrBefore(a: DateTime, b: DateTime) {
    !Before(b, a)
  }

  /** Months counted from year 0: consecutive calendar months have consecutive ordinals. */
  function MonthOrdinal(t: DateTime): int {
    12 * t.year + t.month - 1
  }

  /**
   * `new Date(year, monthIndex, day)` at 00:00 for a zero-based month index
   * that may lie outside 0..11 (it carries into the year) and a day of 1..28
   * or 0 (day 0 is the last day of the month before). JavaScript reads a
   * year of 0..99 as 1900 + year; the model takes the year as given, which
   * is what callers passing `getFullYear()` of a current date get.
   */
  function NewDate(year: int, monthIndex: int, day: int): (t: DateTime)
    requires 0 <= day <= 28
    ensures ValidTime(t) && t.millis == 0
  {
    var y, m := year + monthIndex / 12, monthIndex % 12 + 1;
    if day >= 1 then DateTime(y, m, day, 0)
    else if m == 1 then DateTime(y - 1, 12, DaysInMonth(y - 1, 12), 0)
    else DateTime(y, m - 1, DaysInMonth(y, m - 1), 0)
  }

  /** The month a `new Date(year, monthIndex, d)` call lands in, counted as for `MonthOrdinal`. */
  lemma NewDateMonth(year: int, monthIndex: int, day: int)
    requires 0 <= day <= 28
    ensures day >= 1 ==> MonthOrdinal(NewDate(year, monthIndex, day)) == 12 * year + monthIndex
    ensures day >= 1 ==> NewDate(year, monthIndex, day).day == day
    ensures day == 0 ==> MonthOrdinal(NewDate(year, monthIndex, day)) == 12 * year + monthIndex - 1
    ensures day == 0 ==> var t := NewDate(year, monthIndex, day); t.day == DaysInMonth(t.year, t.month)
  {
  }

  /** For real timestamps, comparing months is comparing month ordinals. */
  lemma MonthOrdinalOrder(a: DateTime, b: DateTime)
    requires 1 <= a.month <= 12 && 1 <= b.month <= 12
    ensures MonthOrdinal(a) < MonthOrdinal(b) <==> a.year < b.year || (a.year == b.year && a.month < b.month)
    ensures MonthOrdinal(a) == MonthOrdinal(b) <==> a.year == b.year && a.month == b.month
  {
  }

  // ---- The month key `${getFullYear()}-${String(getMonth() + 1).padStart(2, '0')}` ----

  /** The month key of a year and a month 1..12. */
  function MonthKey(year: int, month: int): string
    requires 1 <= month <= 12
  {
    IntString(year) + "-" + Pad2(month)
  }

  /** The key of the month a timestamp falls in. */
  function MonthKeyOf(t: DateTime): string
    requires 1 <= t.month <= 12
  {
    MonthKey(t.year, t.month)
  }

  datatype YearMonth = YearMonth(year: int, month: int)

  /** Reads a month key back into its year and month. */
  function ParseMonthKey(s: string): Option<YearMonth> {
    if |s| >= 4 && s[|s| - 3] == '-' && IsDigit(s[|s| - 2]) && IsDigit(s[|s| - 1]) then
      match ParseInt(s[..|s| - 3])
      case Some(y) => Some(YearMonth(y, 10 * DigitValue(s[|s| - 2]) + DigitValue(s[|s| - 1])))
      case None => None
    else None
  }

  lemma Pad2Value(m: nat)
    requires m < 100
    ensures forall i :: 0 <= i < 2 ==> IsDigit(Pad2(m)[i])
    ensures DigitsValue(Pad2(m)) == m
  {
    var p := Pad2(m);
    assert p[..1] == [p[0]];
    assert DigitsValue(p[..1]) == DigitValue(p[0]) by {
      assert p[..1][..0] == [];
    }
  }

  /** The key determines the year and the month, so distinct months have distinct keys. */
  lemma MonthKeyRoundTrip(year: int, month: int)
    requires 1 <= month <= 12
    ensures ParseMonthKey(MonthKey(year, month)) == Some(YearMonth(year, month))
  {
    var s := MonthKey(year, month);
    var y := IntString(year);
    var p := Pad2(month);
    assert s == y + ['-'] + p;
    assert s[..|s| - 3] == y;
    assert s[|s| - 2] == p[0] && s[|s| - 1] == p[1];
    IntStringRoundTrip(year);
  }

  lemma MonthKeyInjective(y1: int, m1: int, y2: int, m2: int)
    requires 1 <= m1 <= 12 && 1 <= m2 <= 12
    requires MonthKey(y1, m1) == MonthKey(y2, m2)
    ensures y1 == y2 && m1 == m2
  {
    MonthKeyRoundTrip(y1, m1);
    MonthKeyRoundTrip(y2, m2);
  }

  lemma DecimalFourDigits(n: nat)
    requires 1000 <= n <= 9999
    ensures |Decimal(n)| == 4
  {
    assert Decimal(n) == Decimal(n / 10) + [DigitChar(n % 10)];
    assert Decimal(n / 10) == Decimal(n / 100) + [DigitChar(n / 10 % 10)];
    assert Decimal(n / 100) == Decimal(n / 1000) + [DigitChar(n / 100 % 10)];
  }

  /**
   * For four-digit years the keys sort in calendar order: comparing two keys
   * character by character, as the ascending sort of the buckets does,
   * compares their months.
   */
  lemma MonthKeyChronological(y1: int, m1: int, y2: int, m2: int)
    requires 1000 <= y1 <= 9999 && 1000 <= y2 <= 9999
    requires 1 <= m1 <= 12 && 1 <= m2 <= 12
    ensures LexLess(MonthKey(y1, m1), MonthKey(y2, m2))
        <==> y1 < y2 || (y1 == y2 && m1 < m2)
  {
    var a, b := Decimal(y1), Decimal(y2);
    DecimalFourDigits(y1);
    DecimalFourDigits(y2);
    DecimalRoundTrip(y1);
    DecimalRoundTrip(y2);
    assert MonthKey(y1, m1) == a + ("-" + Pad2(m1));
    assert MonthKey(y2, m2) == b + ("-" + Pad2(m2));
    LexLessConcat(a, "-" + Pad2(m1), b, "-" + Pad2(m2));
    LexLessDigits(a, b);
    LexLessConcat("-", Pad2(m1), "-", Pad2(m2));
    Pad2Value(m1);
    Pad2Value(m2);
    LexLessDigits(Pad2(m1), Pad2(m2));
  }
}
