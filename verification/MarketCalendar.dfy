/** The nominal exchange holidays of every year, over days numbered as in the proleptic Gregorian
    calendar: day 1 is 1 January of the year 1, a Monday. */
module MarketCalendar {
  type Year = y: int | y >= 1 witness 1

  predicate IsLeap(y: Year) {
    y % 4 == 0 && (y % 100 != 0 || y % 400 == 0)
  }

  function DaysBeforeYear(y: Year): int {
    365 * (y - 1) + (y - 1) / 4 - (y - 1) / 100 + (y - 1) / 400
  }

  function DaysBeforeMonth(y: Year, m: int): int
    requires 1 <= m <= 12
  {
    [0, 31, 59, 90, 120, 151, 181, 212, 243, 273, 304, 334][m - 1] + if m > 2 && IsLeap(y) then 1 else 0
  }

  function Date(y: Year, m: int, d: int): int
    requires 1 <= m <= 12 && 1 <= d <= 31
  {
    DaysBeforeYear(y) + DaysBeforeMonth(y, m) + d
  }

  /** Monday is 0. */
  function Weekday(day: int): int {
    (day + 6) % 7
  }

  predicate InYear(day: int, y: Year) {
    DaysBeforeYear(y) < day <= DaysBeforeYear(y + 1)
  }

  lemma YearLength(y: Year)
    ensures DaysBeforeYear(y + 1) == DaysBeforeYear(y) + 365 + if IsLeap(y) then 1 else 0
  {
    Steps(y, 4);
    Steps(y, 100);
    Steps(y, 400);
    Multiples(y);
  }

  lemma Steps(y: Year, n: int)
    requires n == 4 || n == 100 || n == 400
    ensures y / n - (y - 1) / n == if y % n == 0 then 1 else 0
  {
  }

  lemma Divides(n: int, q: int)
    requires n == 4 || n == 100
    ensures (n * q) % n == 0
  {
  }

  lemma Multiples(y: Year)
    ensures y % 400 == 0 ==> y % 100 == 0
    ensures y % 100 == 0 ==> y % 4 == 0
  {
    if y % 100 == 0 { Divides(4, 25 * (y / 100)); }
    if y % 400 == 0 { Divides(100, 4 * (y / 400)); }
  }

  // ---- the rules ----------------------------------------------------------------------------

  function Observed(day: int): int {
    if Weekday(day) == 5 then day - 1 else if Weekday(day) == 6 then day + 1 else day
  }

  function NthWeekday(y: Year, m: int, weekday: int, n: int): int
    requires 1 <= m <= 12
  {
    var first := Date(y, m, 1);
    first + (weekday - Weekday(first)) % 7 + 7 * (n - 1)
  }

  function LastWeekday(y: Year, m: int, weekday: int): int
    requires 1 <= m <= 12
  {
    var last := (if m == 12 then Date(y + 1, 1, 1) else Date(y, m + 1, 1)) - 1;
    last - (Weekday(last) - weekday) % 7
  }

  datatype MonthDay = MonthDay(month: int, day: int)

  /** The terms of the anonymous Gregorian computus: the day of Easter is 22 March and `Delay` more. */
  function FullMoon(y: Year): int {
    var a, b := y % 19, y / 100;
    var d, f := b / 4, (b + 8) / 25;
    var g := (b - f + 1) / 3;
    (19 * a + b - d - g + 15) % 30
  }

  function ToSunday(y: Year): int {
    var b, c := y / 100, y % 100;
    var e, i, k := b % 4, c / 4, c % 4;
    (32 + 2 * e + 2 * i - FullMoon(y) - k) % 7
  }

  function Delay(y: Year): int {
    var a, h, ell := y % 19, FullMoon(y), ToSunday(y);
    var m := (a + 11 * h + 22 * ell) / 451;
    h + ell - 7 * m
  }

  function EasterDate(y: Year): MonthDay {
    MonthDay((Delay(y) + 114) / 31, (Delay(y) + 114) % 31 + 1)
  }

  lemma DelayBounds(y: Year)
    ensures 0 <= Delay(y) <= 34
  {
    var a, h, ell := y % 19, FullMoon(y), ToSunday(y);
    DelayOf(a, h, ell);
  }

  lemma DelayOf(a: int, h: int, ell: int)
    requires 0 <= a <= 18 && 0 <= h <= 29 && 0 <= ell <= 6
    ensures 0 <= h + ell - 7 * ((a + 11 * h + 22 * ell) / 451) <= 34
  {
    var n := a + 11 * h + 22 * ell;
    if n < 451 { assert n / 451 == 0; } else { assert n / 451 == 1; }
  }

  function EasterSunday(y: Year): (day: int)
    ensures 1 <= EasterDate(y).month <= 12 && 1 <= EasterDate(y).day <= 31
  {
    DelayBounds(y);
    Date(y, EasterDate(y).month, EasterDate(y).day)
  }

  // ---- Easter is a Sunday -------------------------------------------------------------------

  /** Counting years from March absorbs the leap day. */
  lemma FromMarch(y: Year)
    ensures DaysBeforeYear(y) + DaysBeforeMonth(y, 3) == 365 * y + y / 4 - y / 100 + y / 400 - 306
  {
    Steps(y, 4);
    Steps(y, 100);
    Steps(y, 400);
    Multiples(y);
  }

  lemma Centuries(y: Year, b: int, c: int, d: int, e: int, i: int, k: int)
    requires b == y / 100 && c == y % 100 && d == b / 4 && e == b % 4 && i == c / 4 && k == c % 4
    ensures y == 100 * b + c && b == 4 * d + e && c == 4 * i + k
    ensures y / 4 == 25 * b + i && y / 400 == d
  {
    assert y == 4 * (25 * b + i) + k;
    assert y == 400 * d + (100 * e + c);
  }

  lemma MarchWeekday(y: Year)
    ensures var b, c := y / 100, y % 100; var e, i, k := b % 4, c / 4, c % 4;
      Weekday(Date(y, 3, 22)) == (5 * e + 5 * i + k + 2) % 7
  {
    var b, c := y / 100, y % 100;
    var d, e, i, k := b / 4, b % 4, c / 4, c % 4;
    Centuries(y, b, c, d, e, i, k);
    FromMarch(y);
    var day := Date(y, 3, 22);
    assert day + 6 == 36524 * b + 365 * c + i + d - 278;
    assert day + 6 == 7 * (5217 * b + 52 * c + 3 * d - 40) + (5 * e + 5 * i + k + 2);
    Modulo(5217 * b + 52 * c + 3 * d - 40, 5 * e + 5 * i + k + 2);
  }

  lemma Modulo(q: int, r: int)
    ensures (7 * q + r) % 7 == r % 7
  {
  }

  /** The congruence behind the computus: the weekday of 22 March and the delay add up to Sunday. */
  lemma Congruence(march: int, e: int, i: int, k: int, h: int, ell: int, m: int)
    requires (march + 6) % 7 == (5 * e + 5 * i + k + 2) % 7 && ell == (32 + 2 * e + 2 * i - h - k) % 7
    ensures (march + (h + ell - 7 * m) + 6) % 7 == 6
  {
    var n, w := 32 + 2 * e + 2 * i - h - k, 5 * e + 5 * i + k + 2;
    var q := (march + 6) / 7 - w / 7 - n / 7 - m + e + i + 4;
    assert march + (h + ell - 7 * m) + 6 == 7 * q + 6;
    Modulo(q, 6);
  }

  lemma EasterFromMarch(y: Year)
    ensures EasterSunday(y) == Date(y, 3, 22) + Delay(y)
  {
    DelayBounds(y);
    var s := Delay(y);
    if s <= 9 { assert EasterDate(y) == MonthDay(3, 22 + s); } else { assert EasterDate(y) == MonthDay(4, s - 9); }
  }

  /** In every year the computus yields a Sunday from 22 March to 25 April. */
  lemma EasterIsSunday(y: Year)
    ensures Weekday(EasterSunday(y)) == 6
    ensures Date(y, 3, 22) <= EasterSunday(y) <= Date(y, 4, 25)
  {
    DelayBounds(y);
    EasterFromMarch(y);
    MarchWeekday(y);
    var b, c := y / 100, y % 100;
    var m := (y % 19 + 11 * FullMoon(y) + 22 * ToSunday(y)) / 451;
    Congruence(Date(y, 3, 22), b % 4, c / 4, c % 4, FullMoon(y), ToSunday(y), m);
  }

  // ---- the holidays -------------------------------------------------------------------------

  lemma NthIsNth(y: Year, m: int, weekday: int, n: int)
    requires 1 <= m <= 12 && 0 <= weekday < 7
    ensures var day := NthWeekday(y, m, weekday, n);
      Weekday(day) == weekday && Date(y, m, 1) + 7 * (n - 1) <= day < Date(y, m, 1) + 7 * n
  {
    var first := Date(y, m, 1);
    Modulo((first + 6) / 7 + (n - 1) + (weekday - Weekday(first)) / -7, weekday);
    Shift(first, weekday);
    Modulo(n - 1, first + (weekday - Weekday(first)) % 7 + 6);
  }

  lemma Shift(first: int, weekday: int)
    requires 0 <= weekday < 7
    ensures Weekday(first + (weekday - Weekday(first)) % 7) == weekday
  {
    var w := Weekday(first);
    if weekday >= w { assert (weekday - w) % 7 == weekday - w; } else { assert (weekday - w) % 7 == weekday - w + 7; }
  }

  lemma Back(last: int, weekday: int)
    requires 0 <= weekday < 7
    ensures var day := last - (Weekday(last) - weekday) % 7; Weekday(day) == weekday && last - 6 <= day <= last
  {
    var w := Weekday(last);
    if w >= weekday { assert (w - weekday) % 7 == w - weekday; } else { assert (w - weekday) % 7 == w - weekday + 7; }
  }

  lemma LastIsLast(y: Year, m: int, weekday: int)
    requires 1 <= m <= 12 && 0 <= weekday < 7
    ensures var day, next := LastWeekday(y, m, weekday), if m == 12 then Date(y + 1, 1, 1) else Date(y, m + 1, 1);
      Weekday(day) == weekday && next - 7 <= day < next
  {
    Back((if m == 12 then Date(y + 1, 1, 1) else Date(y, m + 1, 1)) - 1, weekday);
  }

  lemma ObservedIsWeekday(day: int)
    ensures Weekday(Observed(day)) < 5 && day - 1 <= Observed(day) <= day + 1
  {
  }

  predicate NewYearObserved(y: Year) {
    Weekday(Date(y, 1, 1)) != 5
  }

  /** The nominal holidays in the order of the year. */
  function HolidayList(y: Year): seq<int> {
    (if NewYearObserved(y) then [Observed(Date(y, 1, 1))] else [])
    + [NthWeekday(y, 1, 0, 3), NthWeekday(y, 2, 0, 3), EasterSunday(y) - 2, LastWeekday(y, 5, 0)]
    + (if y >= 2022 then [Observed(Date(y, 6, 19))] else [])
    + [Observed(Date(y, 7, 4)), NthWeekday(y, 9, 0, 1), NthWeekday(y, 11, 3, 4), Observed(Date(y, 12, 25))]
  }

  /** Only days of the year itself are kept. */
  function Holidays(y: Year): set<int> {
    set i | 0 <= i < |HolidayList(y)| && InYear(HolidayList(y)[i], y) :: HolidayList(y)[i]
  }

  ghost predicate Increasing(days: seq<int>) {
    forall i, j :: 0 <= i < j < |days| ==> days[i] < days[j]
  }

  lemma {:induction false} CountIncreasing(days: seq<int>)
    requires Increasing(days)
    ensures |set i | 0 <= i < |days| :: days[i]| == |days|
    decreases |days|
  {
    if days != [] {
      var n := |days| - 1;
      CountIncreasing(days[..n]);
      var before := set i | 0 <= i < n :: days[..n][i];
      assert (set i | 0 <= i < |days| :: days[i]) == before + {days[n]};
    }
  }

  lemma SundayMoves(day: int)
    requires Weekday(day) != 5
    ensures Weekday(Observed(day)) < 5 && day <= Observed(day) <= day + 1
  {
  }

  lemma TwoDaysBefore(day: int)
    requires Weekday(day) == 6
    ensures Weekday(day - 2) == 4
  {
  }

  ghost predicate Falls(day: int, from: int, to: int) {
    from <= day <= to && Weekday(day) < 5
  }

  /** Each holiday is a weekday of its own stretch of the year. */
  lemma FixedHolidays(y: Year)
    ensures Falls(NthWeekday(y, 1, 0, 3), Date(y, 1, 15), Date(y, 1, 21))
    ensures Falls(NthWeekday(y, 2, 0, 3), Date(y, 2, 15), Date(y, 2, 21))
    ensures Falls(LastWeekday(y, 5, 0), Date(y, 5, 25), Date(y, 5, 31))
    ensures Falls(NthWeekday(y, 9, 0, 1), Date(y, 9, 1), Date(y, 9, 7))
    ensures Falls(NthWeekday(y, 11, 3, 4), Date(y, 11, 22), Date(y, 11, 28))
  {
    NthIsNth(y, 1, 0, 3);
    NthIsNth(y, 2, 0, 3);
    LastIsLast(y, 5, 0);
    NthIsNth(y, 9, 0, 1);
    NthIsNth(y, 11, 3, 4);
  }

  lemma EasterWindow(y: Year)
    ensures Date(y, 3, 20) == Date(y, 3, 22) - 2 && Date(y, 4, 23) == Date(y, 4, 25) - 2
  {
  }

  lemma MovedHolidays(y: Year)
    ensures Falls(EasterSunday(y) - 2, Date(y, 3, 20), Date(y, 4, 23))
    ensures Falls(Observed(Date(y, 6, 19)), Date(y, 6, 18), Date(y, 6, 20))
    ensures Falls(Observed(Date(y, 7, 4)), Date(y, 7, 3), Date(y, 7, 5))
    ensures Falls(Observed(Date(y, 12, 25)), Date(y, 12, 24), Date(y, 12, 26))
  {
    EasterIsSunday(y);
    ObservedIsWeekday(Date(y, 6, 19));
    ObservedIsWeekday(Date(y, 7, 4));
    ObservedIsWeekday(Date(y, 12, 25));
    TwoDaysBefore(EasterSunday(y));
    EasterWindow(y);
  }

  lemma ListIsOrdered(y: Year)
    ensures Increasing(HolidayList(y))
    ensures forall i :: 0 <= i < |HolidayList(y)| ==> Weekday(HolidayList(y)[i]) < 5 && InYear(HolidayList(y)[i], y)
    ensures |HolidayList(y)| == 8 + (if NewYearObserved(y) then 1 else 0) + (if y >= 2022 then 1 else 0)
  {
    FixedHolidays(y);
    MovedHolidays(y);
    YearLength(y);
    if NewYearObserved(y) { SundayMoves(Date(y, 1, 1)); }
    var days := HolidayList(y);
    forall i | 0 < i < |days| ensures days[i - 1] < days[i] {}
    Chain(days);
  }

  lemma {:induction false} Chain(days: seq<int>)
    requires forall i :: 0 < i < |days| ==> days[i - 1] < days[i]
    ensures Increasing(days)
    decreases |days|
  {
    if days != [] {
      var n := |days| - 1;
      Chain(days[..n]);
      forall i, j | 0 <= i < j < |days| ensures days[i] < days[j] {
        if j < n { assert days[..n][i] < days[..n][j]; } else if i < n - 1 { assert days[..n][i] < days[..n][n - 1]; }
      }
    }
  }

  /** Every nominal holiday is a weekday; from 2022 on there are ten of them, or nine in a year that
      begins on a Saturday, and one fewer before. */
  lemma HolidaysCounted(y: Year)
    ensures forall day :: day in Holidays(y) ==> Weekday(day) < 5 && InYear(day, y)
    ensures |Holidays(y)| == (if y >= 2022 then 10 else 9) - (if Weekday(Date(y, 1, 1)) == 5 then 1 else 0)
  {
    ListIsOrdered(y);
    CountIncreasing(HolidayList(y));
    var days := HolidayList(y);
    assert Holidays(y) == set i | 0 <= i < |days| :: days[i];
  }
}
