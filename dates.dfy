/** Calendar dates as Python's `datetime` sees them: proleptic Gregorian dates
    numbered by `date.toordinal()` (0001-01-01 is day 1), the `"%Y-%m-%d"` format of
    `strptime` and `strftime`, and wall-clock instants as whole seconds. */
module Dates {
  import opened Wrappers

  predicate IsLeap(y: int) {
    y % 4 == 0 && (y % 100 != 0 || y % 400 == 0)
  }

  function DaysInMonth(y: int, m: int): (n: int)
    requires 1 <= m <= 12
    ensures 28 <= n <= 31
  {
    if m == 2 then (if IsLeap(y) then 29 else 28)
    else if m == 4 || m == 6 || m == 9 || m == 11 then 30
    else 31
  }

  /** The number of days in the months of year y before month m. */
  function DaysBeforeMonth(y: int, m: int): int
    requires 1 <= m <= 12
  {
    [0, 31, 59, 90, 120, 151, 181, 212, 243, 273, 304, 334][m - 1] + (if m > 2 && IsLeap(y) then 1 else 0)
  }

  /** The number of days in the years before year y. */
  function DaysBeforeYear(y: int): int {
    var p := y - 1;
    p * 365 + p / 4 - p / 100 + p / 400
  }

  /** The dates `datetime.date` accepts. */
  predicate ValidDate(y: int, m: int, d: int) {
    1 <= y <= 9999 && 1 <= m <= 12 && 1 <= d <= DaysInMonth(y, m)
  }

  /** `date(y, m, d).toordinal()`. */
  function Ordinal(y: int, m: int, d: int): int
    requires ValidDate(y, m, d)
  {
    DaysBeforeYear(y) + DaysBeforeMonth(y, m) + d
  }

  /** Division by a positive k rounds down, so the quotient is the unique q with
      q * k <= n < (q + 1) * k. */
  lemma DivUnique(n: int, k: int, q: int)
    requires k > 0 && q * k <= n < q * k + k
    ensures n / k == q
  {
    var q', r := n / k, n % k;
    assert n == q' * k + r;
    if q' < q {
      assert (q - q') * k >= k by { MulAtLeast(q - q', k); }
    } else if q' > q {
      assert (q' - q) * k >= k by { MulAtLeast(q' - q, k); }
    }
  }

  lemma MulAtLeast(a: int, k: int)
    requires a >= 1 && k > 0
    ensures a * k >= k
  {
  }

  lemma DivStep(p: int, k: int)
    requires k > 0
    ensures (p + 1) / k == p / k + (if (p + 1) % k == 0 then 1 else 0)
  {
    var q, r := p / k, p % k;
    assert p == q * k + r;
    if r == k - 1 {
      assert (p + 1) % k == 0 by { DivUnique(p + 1, k, q + 1); }
      DivUnique(p + 1, k, q + 1);
    } else {
      DivUnique(p + 1, k, q);
      assert (p + 1) % k == r + 1;
    }
  }

  lemma DaysBeforeYearStep(y: int)
    ensures DaysBeforeYear(y + 1) == DaysBeforeYear(y) + (if IsLeap(y) then 366 else 365)
  {
    var p := y - 1;
    DivStep(p, 4);
    DivStep(p, 100);
    DivStep(p, 400);
  }

  lemma DaysBeforeMonthLast(y: int)
    ensures DaysBeforeMonth(y, 12) + DaysInMonth(y, 12) == if IsLeap(y) then 366 else 365
  {
  }

  /** Ordinals count days: the day after a date has the next ordinal. */
  lemma {:induction false} OrdinalNextDay(y: int, m: int, d: int)
    requires ValidDate(y, m, d)
    ensures d < DaysInMonth(y, m) ==> Ordinal(y, m, d + 1) == Ordinal(y, m, d) + 1
    ensures d == DaysInMonth(y, m) && m < 12 ==> Ordinal(y, m + 1, 1) == Ordinal(y, m, d) + 1
    ensures d == DaysInMonth(y, m) && m == 12 && y < 9999 ==> Ordinal(y + 1, 1, 1) == Ordinal(y, m, d) + 1
  {
    if d == DaysInMonth(y, m) && m == 12 && y < 9999 {
      DaysBeforeYearStep(y);
      DaysBeforeMonthLast(y);
    }
  }

  // ---------------------------------------------------------------------------
  // strptime(s, "%Y-%m-%d"): `%Y` is four digits, `%m` is one of 1[0-2], 0[1-9],
  // [1-9], `%d` one of 3[01], [12]\d, 0[1-9], [1-9], " "[1-9]; the whole string
  // must be consumed and the date must exist.

  predicate IsDigit(c: char) { '0' <= c <= '9' }

  function DigitValue(c: char): int { c as int - '0' as int }

  /** The `%m` field: the month it denotes, when the regular expression matches it whole. */
  function MonthField(f: string): (r: Option<int>)
    ensures r.Some? ==> 1 <= r.value <= 12
  {
    if |f| == 1 && '1' <= f[0] <= '9' then Some(DigitValue(f[0]))
    else if |f| == 2 && f[0] == '1' && '0' <= f[1] <= '2' then Some(10 + DigitValue(f[1]))
    else if |f| == 2 && f[0] == '0' && '1' <= f[1] <= '9' then Some(DigitValue(f[1]))
    else None
  }

  /** The `%d` field, under the same reading. */
  function DayField(f: string): (r: Option<int>)
    ensures r.Some? ==> 1 <= r.value <= 31
  {
    if |f| == 1 && '1' <= f[0] <= '9' then Some(DigitValue(f[0]))
    else if |f| == 2 && f[0] == '3' && '0' <= f[1] <= '1' then Some(30 + DigitValue(f[1]))
    else if |f| == 2 && '1' <= f[0] <= '2' && IsDigit(f[1]) then Some(10 * DigitValue(f[0]) + DigitValue(f[1]))
    else if |f| == 2 && f[0] == '0' && '1' <= f[1] <= '9' then Some(DigitValue(f[1]))
    else if |f| == 2 && f[0] == ' ' && '1' <= f[1] <= '9' then Some(DigitValue(f[1]))
    else None
  }

  /** `datetime.strptime(s, "%Y-%m-%d")` as a day ordinal, or None where it raises
      ValueError. */
  function ParseDate(s: string): (r: Option<int>)
  {
    if |s| < 8 || !(IsDigit(s[0]) && IsDigit(s[1]) && IsDigit(s[2]) && IsDigit(s[3])) || s[4] != '-' then None
    else
      var y := 1000 * DigitValue(s[0]) + 100 * DigitValue(s[1]) + 10 * DigitValue(s[2]) + DigitValue(s[3]);
      var p := if s[6] == '-' then 6 else 7;
      if s[p] != '-' then None
      else
        match (MonthField(s[5..p]), DayField(s[p + 1..]))
        case (Some(m), Some(d)) => if ValidDate(y, m, d) then Some(Ordinal(y, m, d)) else None
        case _ => None
  }

  function TwoDigits(n: int): string
    requires 0 <= n < 100
  {
    [(('0' as int) + n / 10) as char, (('0' as int) + n % 10) as char]
  }

  /** `strftime("%Y-%m-%d")` of a date: zero-padded year, month and day. */
  function FormatDate(y: int, m: int, d: int): (s: string)
    requires ValidDate(y, m, d)
    ensures |s| == 10 && s[4] == '-' && s[7] == '-'
  {
    TwoDigits(y / 100) + TwoDigits(y % 100) + "-" + TwoDigits(m) + "-" + TwoDigits(d)
  }

  /** Parsing what strftime wrote gives back the same date. */
  lemma FormatThenParse(y: int, m: int, d: int)
    requires ValidDate(y, m, d)
    ensures ParseDate(FormatDate(y, m, d)) == Some(Ordinal(y, m, d))
  {
    var s := FormatDate(y, m, d);
    assert s[0..4] == TwoDigits(y / 100) + TwoDigits(y % 100);
    assert DigitValue(s[0]) == y / 1000 && DigitValue(s[1]) == (y / 100) % 10;
    assert DigitValue(s[2]) == (y % 100) / 10 && DigitValue(s[3]) == y % 10;
    assert 1000 * (y / 1000) + 100 * ((y / 100) % 10) + 10 * ((y % 100) / 10) + y % 10 == y;
    assert s[5..7] == TwoDigits(m) && s[8..] == TwoDigits(d);
    assert MonthField(s[5..7]) == Some(m);
    assert DayField(s[8..]) == Some(d);
  }

  /** A wall-clock instant `y-mo-d h:mi:sec` in seconds; `strftime("%Y-%m-%d %H:%M:%S")`
      keeps whole seconds. */
  function Timestamp(y: int, mo: int, d: int, h: int, mi: int, sec: int): int
    requires ValidDate(y, mo, d)
  {
    Ordinal(y, mo, d) * 86400 + h * 3600 + mi * 60 + sec
  }
}
