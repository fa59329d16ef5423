/** Calendar dates as Python's `datetime.date` has them: the proleptic
    Gregorian calendar from 0001-01-01 to 9999-12-31, the day ordinal that
    `toordinal()` gives and date arithmetic goes through, and the
    `YYYY-MM-DD` text form (the full-date of section 5.6 of RFC 3339). */
module Dates {
  import opened Wrappers

  datatype Date = Date(year: int, month: int, day: int) {
    /** The dates `datetime.date` accepts. */
    predicate Valid() {
      1 <= year <= 9999 && 1 <= month <= 12 && 1 <= day <= DaysInMonth(year, month)
    }
  }

  type ValidDate = d: Date | d.Valid() witness Date(1, 1, 1)

  predicate IsLeap(year: int) {
    year % 4 == 0 && (year % 100 != 0 || year % 400 == 0)
  }

  function DaysInMonth(year: int, month: int): int
    requires 1 <= month <= 12
  {
    if month == 2 then (if IsLeap(year) then 29 else 28)
    else if month == 4 || month == 6 || month == 9 || month == 11 then 30
    else 31
  }

  function DaysInYear(year: int): int {
    if IsLeap(year) then 366 else 365
  }

  /** Days of a common year before each month (index 1..12). */
  const DaysBeforeMonthTable: seq<int> := [0, 0, 31, 59, 90, 120, 151, 181, 212, 243, 273, 304, 334]

  function DaysBeforeMonth(year: int, month: int): int
    requires 1 <= month <= 12
  {
    DaysBeforeMonthTable[month] + (if month > 2 && IsLeap(year) then 1 else 0)
  }

  /** Days before January 1 of `year`, counting from 0001-01-01. */
  function DaysBeforeYear(year: int): int
    requires 1 <= year
  {
    var y := year - 1;
    y * 365 + y / 4 - y / 100 + y / 400
  }

  /** `date.toordinal()`: 0001-01-01 is day 1; each date falls in its own year's range. */
  function ToOrdinal(d: ValidDate): (n: int)
    ensures DaysBeforeYear(d.year) < n <= DaysBeforeYear(d.year) + DaysInYear(d.year)
    ensures n >= 1
  {
    MonthFits(d.year, d.month);
    DaysBeforeYearNonNegative(d.year);
    DaysBeforeYear(d.year) + DaysBeforeMonth(d.year, d.month) + d.day
  }

  /** Python's order on dates: by year, then month, then day. */
  predicate Before(a: Date, b: Date) {
    a.year < b.year || (a.year == b.year && (a.month < b.month || (a.month == b.month && a.day < b.day)))
  }

  lemma DaysBeforeYearNonNegative(year: int)
    requires 1 <= year
    ensures DaysBeforeYear(year) >= 0
  {
  }

  /** Consecutive months: a month starts where the previous one ends. */
  lemma MonthStep(year: int, month: int)
    requires 1 <= month < 12
    ensures DaysBeforeMonth(year, month + 1) == DaysBeforeMonth(year, month) + DaysInMonth(year, month)
  {
  }

  /** A month ends inside its year. */
  lemma {:induction false} MonthFits(year: int, month: int)
    requires 1 <= month <= 12
    ensures DaysBeforeMonth(year, month) + DaysInMonth(year, month) <= DaysInYear(year)
    decreases 12 - month
  {
    if month < 12 {
      MonthStep(year, month);
      MonthFits(year, month + 1);
    }
  }

  /** Later months start no earlier. */
  lemma {:induction false} MonthMonotone(year: int, m1: int, m2: int)
    requires 1 <= m1 <= m2 <= 12
    ensures DaysBeforeMonth(year, m1) <= DaysBeforeMonth(year, m2)
    decreases m2 - m1
  {
    if m1 < m2 {
      MonthStep(year, m1);
      MonthMonotone(year, m1 + 1, m2);
    }
  }

  /** Consecutive years: a year starts where the previous one ends. */
  lemma YearStep(year: int)
    requires 1 <= year
    ensures DaysBeforeYear(year + 1) == DaysBeforeYear(year) + DaysInYear(year)
  {
    assert DaysBeforeYear(year + 1) == year * 365 + year / 4 - year / 100 + year / 400;
    assert DaysBeforeYear(year) == (year - 1) * 365 + (year - 1) / 4 - (year - 1) / 100 + (year - 1) / 400;
    MultiplesStep(year, 4);
    MultiplesStep(year, 100);
    MultiplesStep(year, 400);
    DivisorChain(year);
  }

  /** A multiple of 400 is a multiple of 100, and a multiple of 100 one of 4. */
  lemma DivisorChain(y: int)
    ensures y % 400 == 0 ==> y % 100 == 0
    ensures y % 100 == 0 ==> y % 4 == 0
  {
    if y % 400 == 0 {
      DivModUnique(y, 100, (y / 400) * 4, 0);
    }
    if y % 100 == 0 {
      DivModUnique(y, 4, (y / 100) * 25, 0);
    }
  }

  /** Going from `y - 1` to `y` adds one multiple of `m` exactly when `m` divides `y`. */
  lemma MultiplesStep(y: int, m: int)
    requires 1 <= y && 1 <= m
    ensures y / m - (y - 1) / m == (if y % m == 0 then 1 else 0)
  {
    var q, r := (y - 1) / m, (y - 1) % m;
    if r == m - 1 {
      DivModUnique(y, m, q + 1, 0);
    } else {
      DivModUnique(y, m, q, r + 1);
    }
  }

  /** Quotient and remainder are the only ones: `a == q * m + r` with `0 <= r < m`. */
  lemma DivModUnique(a: int, m: int, q: int, r: int)
    requires 1 <= m && 0 <= r < m && a == q * m + r
    ensures a / m == q && a % m == r
  {
    var q', r' := a / m, a % m;
    assert (q' - q) * m == r - r';
    MultipleBound(q' - q, m);
  }

  /** A non-zero multiple of `m` is at least `m` away from 0. */
  lemma MultipleBound(k: int, m: int)
    requires 1 <= m
    ensures 1 <= k ==> m <= k * m
    ensures k <= -1 ==> k * m <= -m
  {
    if 1 <= k {
      assert k * m == (k - 1) * m + m;
    } else if k <= -1 {
      assert k * m == (k + 1) * m - m;
    }
  }

  /** Later years start no earlier. */
  lemma {:induction false} YearMonotone(y1: int, y2: int)
    requires 1 <= y1 <= y2
    ensures DaysBeforeYear(y1) <= DaysBeforeYear(y2)
    decreases y2 - y1
  {
    if y1 < y2 {
      YearStep(y1);
      YearMonotone(y1 + 1, y2);
    }
  }

  /** Comparing ordinals is comparing dates: the ordinal is strictly
      increasing in Python's date order. */
  lemma OrdinalOrder(a: ValidDate, b: ValidDate)
    ensures Before(a, b) <==> ToOrdinal(a) < ToOrdinal(b)
  {
    if Before(a, b) {
      OrdinalBefore(a, b);
    } else if a != b {
      OrdinalBefore(b, a);
    }
  }

  lemma OrdinalBefore(a: ValidDate, b: ValidDate)
    requires Before(a, b)
    ensures ToOrdinal(a) < ToOrdinal(b)
  {
    if a.year < b.year {
      YearStep(a.year);
      YearMonotone(a.year + 1, b.year);
    } else if a.month < b.month {
      MonthFits(a.year, a.month);
      MonthStep(a.year, a.month);
      MonthMonotone(a.year, a.month + 1, b.month);
    }
  }

  /** Two dates with the same ordinal are the same date. */
  lemma OrdinalInjective(a: ValidDate, b: ValidDate)
    ensures ToOrdinal(a) == ToOrdinal(b) <==> a == b
  {
    OrdinalOrder(a, b);
    OrdinalOrder(b, a);
  }

  // ---------------------------------------------------------------- text

  function Pow10(n: nat): nat {
    if n == 0 then 1 else 10 * Pow10(n - 1)
  }

  predicate IsDigit(c: char) {
    '0' <= c <= '9'
  }

  predicate AllDigits(s: string) {
    forall i | 0 <= i < |s| :: IsDigit(s[i])
  }

  /** `n` in decimal, zero-padded to `width` digits. */
  function Digits(n: nat, width: nat): (s: string)
    requires n < Pow10(width)
    ensures |s| == width && AllDigits(s)
  {
    if width == 0 then ""
    else Digits(n / 10, width - 1) + [('0' as int + n % 10) as char]
  }

  /** The value of a string of decimal digits. */
  function DigitsValue(s: string): (n: nat)
    requires AllDigits(s)
    ensures n < Pow10(|s|)
  {
    if s == [] then 0
    else DigitsValue(s[..|s| - 1]) * 10 + (s[|s| - 1] as int - '0' as int)
  }

  lemma {:induction false} DigitsValueOfDigits(n: nat, width: nat)
    requires n < Pow10(width)
    ensures DigitsValue(Digits(n, width)) == n
  {
    if width > 0 {
      var s := Digits(n, width);
      assert s[..|s| - 1] == Digits(n / 10, width - 1);
      DigitsValueOfDigits(n / 10, width - 1);
    }
  }

  lemma {:induction false} DigitsOfDigitsValue(s: string)
    requires AllDigits(s)
    ensures Digits(DigitsValue(s), |s|) == s
  {
    if s != [] {
      var init := s[..|s| - 1];
      assert AllDigits(init);
      var v, d := DigitsValue(init), s[|s| - 1] as int - '0' as int;
      DivModUnique(DigitsValue(s), 10, v, d);
      DigitsOfDigitsValue(init);
      assert init + [s[|s| - 1]] == s;
    }
  }

  /** `d.strftime("%Y-%m-%d")`. */
  function FormatDate(d: ValidDate): (s: string)
    ensures IsDateShape(s)
  {
    Digits(d.year, 4) + "-" + Digits(d.month, 2) + "-" + Digits(d.day, 2)
  }

  /** Ten characters: four digits, '-', two digits, '-', two digits. */
  predicate IsDateShape(s: string) {
    |s| == 10 && s[4] == '-' && s[7] == '-' &&
    AllDigits(s[..4]) && AllDigits(s[5..7]) && AllDigits(s[8..])
  }

  /** Reading a `YYYY-MM-DD` date; None for any other text or an impossible date. */
  function ParseDate(s: string): (r: Option<ValidDate>)
    ensures r.Some? ==> IsDateShape(s)
  {
    if IsDateShape(s) then
      var d := Date(DigitsValue(s[..4]), DigitsValue(s[5..7]), DigitsValue(s[8..]));
      if d.Valid() then Some(d) else None
    else None
  }

  /** Rendering then reading gives the date back. */
  lemma ParseFormatDate(d: ValidDate)
    ensures ParseDate(FormatDate(d)) == Some(d)
  {
    var s := FormatDate(d);
    assert s[..4] == Digits(d.year, 4);
    assert s[5..7] == Digits(d.month, 2);
    assert s[8..] == Digits(d.day, 2);
    DigitsValueOfDigits(d.year, 4);
    DigitsValueOfDigits(d.month, 2);
    DigitsValueOfDigits(d.day, 2);
  }

  /** Reading then rendering gives the text back: the text form is unique. */
  lemma FormatParseDate(s: string)
    requires ParseDate(s).Some?
    ensures FormatDate(ParseDate(s).value) == s
  {
    var d := ParseDate(s).value;
    assert d == Date(DigitsValue(s[..4]), DigitsValue(s[5..7]), DigitsValue(s[8..]));
    DigitsOfDigitsValue(s[..4]);
    DigitsOfDigitsValue(s[5..7]);
    DigitsOfDigitsValue(s[8..]);
    assert FormatDate(d) == s[..4] + "-" + s[5..7] + "-" + s[8..];
    assert s == s[..4] + "-" + s[5..7] + "-" + s[8..] by {
      assert s[4] == '-' && s[7] == '-';
      assert s == s[..4] + [s[4]] + s[5..7] + [s[7]] + s[8..];
    }
  }
}
