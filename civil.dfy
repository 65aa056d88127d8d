/** Naive civil date-times as Python's `datetime` holds them (proleptic
    Gregorian calendar, years 1 to 9999, second resolution), the arithmetic
    the calendar tools do on them (`+ timedelta`, `end - start`), and the
    exact text formats they produce and read. */
module Civil {
  import opened Strings
  import opened Wrappers

  datatype Date = Date(year: int, month: int, day: int)

  datatype DateTime = DateTime(year: int, month: int, day: int, hour: int, minute: int, second: int)

  /** `t.date()` */
  function DateOf(t: DateTime): Date { Date(t.year, t.month, t.day) }

  predicate IsLeap(y: int) { y % 4 == 0 && (y % 100 != 0 || y % 400 == 0) }

  function YearLength(y: int): int { if IsLeap(y) then 366 else 365 }

  function DaysInMonth(y: int, m: int): int
    requires 1 <= m <= 12
  {
    if m == 2 then (if IsLeap(y) then 29 else 28)
    else if m == 4 || m == 6 || m == 9 || m == 11 then 30
    else 31
  }

  predicate ValidDate(d: Date)
  {
    1 <= d.year <= 9999 && 1 <= d.month <= 12 && 1 <= d.day <= DaysInMonth(d.year, d.month)
  }

  predicate Valid(t: DateTime)
  {
    ValidDate(DateOf(t)) && 0 <= t.hour < 24 && 0 <= t.minute < 60 && 0 <= t.second < 60
  }

  /** Days in the years before year `y`, counted as CPython's
      `_days_before_year` does. */
  function DaysBeforeYear(y: int): (n: nat)
    requires 1 <= y <= 10000
    ensures n >= 365 * (y - 1)
  {
    var p := y - 1;
    p * 365 + p / 4 - p / 100 + p / 400
  }

  /** Each year adds its own length to the count. */
  lemma YearStep(y: int)
    requires 1 <= y <= 9999
    ensures DaysBeforeYear(y + 1) == DaysBeforeYear(y) + YearLength(y)
  {
    var p := y - 1;
    assert (p + 1) / 4 - p / 4 == (if y % 4 == 0 then 1 else 0);
    assert (p + 1) / 100 - p / 100 == (if y % 100 == 0 then 1 else 0);
    assert (p + 1) / 400 - p / 400 == (if y % 400 == 0 then 1 else 0);
  }

  /** Days in the months of year `y` before month `m` (`m == 13` gives the whole year). */
  function DaysBeforeMonth(y: int, m: int): nat
    requires 1 <= m <= 13
  {
    [0, 31, 59, 90, 120, 151, 181, 212, 243, 273, 304, 334, 365][m - 1]
      + (if m > 2 && IsLeap(y) then 1 else 0)
  }

  lemma MonthStep(y: int, m: int)
    requires 1 <= m <= 12
    ensures DaysBeforeMonth(y, m + 1) == DaysBeforeMonth(y, m) + DaysInMonth(y, m)
    ensures DaysBeforeMonth(y, 13) == YearLength(y)
  {
  }

  lemma {:induction false} DaysBeforeYearMonotone(a: int, b: int)
    requires 1 <= a <= b <= 10000
    ensures DaysBeforeYear(a) + 365 * (b - a) <= DaysBeforeYear(b)
    decreases b - a
  {
    if a < b {
      DaysBeforeYearMonotone(a, b - 1);
      YearStep(b - 1);
    }
  }

  lemma {:induction false} DaysBeforeMonthMonotone(y: int, a: int, b: int)
    requires 1 <= a <= b <= 13
    ensures DaysBeforeMonth(y, a) + 28 * (b - a) <= DaysBeforeMonth(y, b)
    decreases b - a
  {
    if a < b {
      DaysBeforeMonthMonotone(y, a, b - 1);
      MonthStep(y, b - 1);
    }
  }

  /** The last ordinal Python can represent: 9999-12-31. */
  function MaxOrdinal(): nat { DaysBeforeYear(10000) }

  /** `d.toordinal()`: 0001-01-01 is day 1. */
  function Ordinal(d: Date): (n: int)
    requires ValidDate(d)
    ensures 1 <= n <= MaxOrdinal()
  {
    MonthStep(d.year, d.month);
    DaysBeforeMonthMonotone(d.year, d.month + 1, 13);
    DaysBeforeYearMonotone(d.year + 1, 10000);
    DaysBeforeYear(d.year) + DaysBeforeMonth(d.year, d.month) + d.day
  }

  /** The year holding day `n`, searched upwards from year `y`. */
  function YearOf(n: int, y: int): (r: int)
    requires 1 <= y <= 9999 && DaysBeforeYear(y) < n <= MaxOrdinal()
    ensures y <= r <= 9999 && DaysBeforeYear(r) < n <= DaysBeforeYear(r + 1)
    decreases 10000 - y
  {
    if n <= DaysBeforeYear(y + 1) then y else YearOf(n, y + 1)
  }

  /** The month holding day `r` of year `y`, searched upwards from month `m`. */
  function MonthOf(y: int, r: int, m: int): (k: int)
    requires 1 <= m <= 12 && DaysBeforeMonth(y, m) < r <= YearLength(y)
    ensures m <= k <= 12 && DaysBeforeMonth(y, k) < r <= DaysBeforeMonth(y, k + 1)
    decreases 12 - m
  {
    if r <= DaysBeforeMonth(y, m + 1) then m else MonthOf(y, r, m + 1)
  }

  /** `date.fromordinal(n)` */
  function FromOrdinal(n: int): (d: Date)
    requires 1 <= n <= MaxOrdinal()
    ensures ValidDate(d) && Ordinal(d) == n
  {
    var y := YearOf(n, 1);
    YearStep(y);
    var r := n - DaysBeforeYear(y);
    var m := MonthOf(y, r, 1);
    MonthStep(y, m);
    Date(y, m, r - DaysBeforeMonth(y, m))
  }

  /** Distinct valid dates have distinct ordinals. */
  lemma OrdinalInjective(a: Date, b: Date)
    requires ValidDate(a) && ValidDate(b) && Ordinal(a) == Ordinal(b)
    ensures a == b
  {
    if a.year < b.year {
      OrdinalYearOrder(a, b);
    } else if b.year < a.year {
      OrdinalYearOrder(b, a);
    } else if a.month < b.month {
      OrdinalMonthOrder(a, b);
    } else if b.month < a.month {
      OrdinalMonthOrder(b, a);
    }
  }

  lemma OrdinalYearOrder(a: Date, b: Date)
    requires ValidDate(a) && ValidDate(b) && a.year < b.year
    ensures Ordinal(a) < Ordinal(b)
  {
    MonthStep(a.year, a.month);
    DaysBeforeMonthMonotone(a.year, a.month + 1, 13);
    YearStep(a.year);
    DaysBeforeYearMonotone(a.year + 1, b.year);
    var dy := DaysBeforeYear(a.year);
    assert Ordinal(a) <= dy + YearLength(a.year) == DaysBeforeYear(a.year + 1);
    assert DaysBeforeYear(a.year + 1) <= DaysBeforeYear(b.year) < Ordinal(b);
  }

  lemma OrdinalMonthOrder(a: Date, b: Date)
    requires ValidDate(a) && ValidDate(b) && a.year == b.year && a.month < b.month
    ensures Ordinal(a) < Ordinal(b)
  {
    MonthStep(a.year, a.month);
    DaysBeforeMonthMonotone(a.year, a.month + 1, b.month);
  }

  /** Ordinals and dates are in one-to-one correspondence. */
  lemma OrdinalRoundTrip(d: Date)
    requires ValidDate(d)
    ensures FromOrdinal(Ordinal(d)) == d
  {
    OrdinalInjective(FromOrdinal(Ordinal(d)), d);
  }

  /** Seconds since 0001-01-01 00:00:00. */
  function Seconds(t: DateTime): (s: int)
    requires Valid(t)
    ensures 0 <= s < MaxSeconds()
  {
    (Ordinal(DateOf(t)) - 1) * 86400 + t.hour * 3600 + t.minute * 60 + t.second
  }

  function MaxSeconds(): nat { MaxOrdinal() * 86400 }

  /** The date-time `s` seconds after 0001-01-01 00:00:00. */
  function FromSeconds(s: int): (t: DateTime)
    requires 0 <= s < MaxSeconds()
    ensures Valid(t) && Seconds(t) == s
  {
    var days := s / 86400;
    var rem := s % 86400;
    SplitDay(s);
    var d := FromOrdinal(days + 1);
    DateTime(d.year, d.month, d.day, rem / 3600, rem % 3600 / 60, rem % 60)
  }

  lemma SplitDay(s: int)
    requires 0 <= s < MaxSeconds()
    ensures 0 <= s / 86400 < MaxOrdinal()
    ensures var rem := s % 86400;
      0 <= rem / 3600 < 24 && 0 <= rem % 3600 / 60 < 60 && 0 <= rem % 60 < 60
      && s == s / 86400 * 86400 + rem / 3600 * 3600 + rem % 3600 / 60 * 60 + rem % 60
  {
    var rem := s % 86400;
    assert s == s / 86400 * 86400 + rem;
    assert rem == rem / 3600 * 3600 + rem % 3600;
    assert rem % 3600 == rem % 3600 / 60 * 60 + rem % 60;
  }

  /** Distinct valid date-times are distinct instants. */
  lemma SecondsInjective(a: DateTime, b: DateTime)
    requires Valid(a) && Valid(b) && Seconds(a) == Seconds(b)
    ensures a == b
  {
    var ra := a.hour * 3600 + a.minute * 60 + a.second;
    var rb := b.hour * 3600 + b.minute * 60 + b.second;
    DivModUnique(Ordinal(DateOf(a)) - 1, ra, 86400);
    DivModUnique(Ordinal(DateOf(b)) - 1, rb, 86400);
    OrdinalInjective(DateOf(a), DateOf(b));
    DivModUnique(a.hour, a.minute * 60 + a.second, 3600);
    DivModUnique(b.hour, b.minute * 60 + b.second, 3600);
    DivModUnique(a.minute, a.second, 60);
    DivModUnique(b.minute, b.second, 60);
  }

  /** Quotient and remainder are determined by the dividend. */
  lemma DivModUnique(q: int, r: int, d: int)
    requires d > 0 && 0 <= r < d
    ensures (q * d + r) / d == q && (q * d + r) % d == r
  {
    var n := q * d + r;
    var k := n / d - q;
    assert n == n / d * d + n % d;
    assert k * d == n / d * d - q * d;
    SmallMultiple(k, d);
  }

  lemma SmallMultiple(k: int, d: int)
    requires d > 0 && -d < k * d < d
    ensures k == 0
  {
    if k > 0 {
      assert k * d == (k - 1) * d + d;
      NonNegativeProduct(k - 1, d);
    } else if k < 0 {
      assert -(k * d) == (-k - 1) * d + d;
      NonNegativeProduct(-k - 1, d);
    }
  }

  lemma NonNegativeProduct(a: int, b: int)
    requires a >= 0 && b >= 0
    ensures a * b >= 0
  {
  }

  /** `t + timedelta(seconds=delta)`; `None` where Python raises OverflowError. */
  function AddSeconds(t: DateTime, delta: int): (r: Option<DateTime>)
    requires Valid(t)
    ensures r.Some? <==> 0 <= Seconds(t) + delta < MaxSeconds()
    ensures r.Some? ==> Valid(r.value) && Seconds(r.value) == Seconds(t) + delta
  {
    var s := Seconds(t) + delta;
    if 0 <= s < MaxSeconds() then Some(FromSeconds(s)) else None
  }

  /** `b - a` in seconds. */
  function Difference(a: DateTime, b: DateTime): int
    requires Valid(a) && Valid(b)
  {
    Seconds(b) - Seconds(a)
  }

  /** `d + timedelta(days=1)`; `None` past 9999-12-31. */
  function NextDay(d: Date): (r: Option<Date>)
    requires ValidDate(d)
    ensures r.Some? <==> Ordinal(d) < MaxOrdinal()
    ensures r.Some? ==> ValidDate(r.value) && Ordinal(r.value) == Ordinal(d) + 1
  {
    if Ordinal(d) < MaxOrdinal() then Some(FromOrdinal(Ordinal(d) + 1)) else None
  }

  /** `int(x / 60)` on a whole number of seconds: division truncated toward zero. */
  function WholeMinutes(seconds: int): (m: int)
    ensures seconds >= 0 ==> 0 <= seconds - 60 * m < 60
    ensures seconds < 0 ==> -60 < seconds - 60 * m <= 0
  {
    if seconds >= 0 then seconds / 60 else -((-seconds) / 60)
  }
}
