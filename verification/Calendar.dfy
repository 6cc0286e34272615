/** Calendar arithmetic: splitting seconds into a date with loops, and Julian dates in closed form. */
module Calendar {

  const DAY := 86400
  const EPOCH_YEAR := 1970

  predicate IsLeapYear(x: int) {
    x % 4 == 0 && (x % 100 != 0 || x % 400 == 0)
  }

  function MonthLength(year: int, mon: int): (r: int)
    requires 1 <= mon <= 12
    ensures 28 <= r <= 31
  {
    if mon == 2 then if IsLeapYear(year) then 29 else 28
    else if mon == 4 || mon == 6 || mon == 9 || mon == 11 then 30
    else 31
  }

  function YearLength(year: int): int {
    if IsLeapYear(year) then 366 else 365
  }

  /** Days of the year before the month. */
  function DaysBefore(year: int, mon: int): (r: int)
    requires 1 <= mon <= 13
    ensures r >= 0
    decreases mon
  {
    if mon == 1 then 0 else DaysBefore(year, mon - 1) + MonthLength(year, mon - 1)
  }

  function DaysSince(base: int, year: int): (r: int)
    requires base <= year
    ensures r >= 0
    decreases year - base
  {
    if year == base then 0 else DaysSince(base, year - 1) + YearLength(year - 1)
  }

  lemma DaysInYear(year: int)
    ensures DaysBefore(year, 13) == YearLength(year)
  {
    assert DaysBefore(year, 4) == 90 + (if IsLeapYear(year) then 1 else 0);
    assert DaysBefore(year, 7) == DaysBefore(year, 4) + 91;
    assert DaysBefore(year, 10) == DaysBefore(year, 7) + 92;
    assert DaysBefore(year, 13) == DaysBefore(year, 10) + 92;
  }

  // --- get_format_timestamp

  datatype Fields = Fields(year: int, mon: int, day: int, hour: int, min: int, sec: int)

  /** The seconds the fields stand for, from the start of the base year. */
  ghost function Instant(base: int, f: Fields): int
    requires base <= f.year && 1 <= f.mon <= 12
  {
    (DaysSince(base, f.year) + DaysBefore(f.year, f.mon) + f.day - 1) * DAY + f.hour * 3600 + f.min * 60 + f.sec
  }

  ghost predicate Clock(f: Fields) {
    0 <= f.hour < 24 && 0 <= f.min < 60 && 0 <= f.sec < 60
  }

  /** A day of the calendar and a time of that day. */
  ghost predicate Gregorian(base: int, f: Fields) {
    base <= f.year && 1 <= f.mon <= 12 && 1 <= f.day <= MonthLength(f.year, f.mon) && Clock(f)
  }

  /** Midnight at the end of a month, as the day after its last. */
  ghost predicate DayTooMany(base: int, f: Fields) {
    base <= f.year && 1 <= f.mon <= 12 && f.day == MonthLength(f.year, f.mon) + 1 && f.hour == f.min == f.sec == 0
  }

  /** The start of a month other than the first. */
  ghost predicate MonthStarts(base: int, t: int) {
    exists y, m :: StartsAt(base, t, y, m)
  }

  ghost predicate StartsAt(base: int, t: int, y: int, m: int) {
    t > 0 && base <= y && 1 <= m <= 12 && t == (DaysSince(base, y) + DaysBefore(y, m)) * DAY
  }

  /** C's conversion to a 32-bit `int`. */
  function ToInt32(x: int): (r: int)
    ensures -0x8000_0000 <= r < 0x8000_0000
    ensures 0 <= x < 0x8000_0000 ==> r == x
    ensures (x - r) % 0x1_0000_0000 == 0
  {
    (x + 0x8000_0000) % 0x1_0000_0000 - 0x8000_0000
  }

  /** C's division, towards zero. */
  function Div(a: int, b: int): (r: int)
    requires b > 0
    ensures a >= 0 ==> r == a / b
    ensures a < 0 ==> -b < a - r * b <= 0
  {
    if a >= 0 then a / b else -(-a / b)
  }

  /** What the loops leave: the month that the last second counted lies in. */
  ghost predicate InMonth(base: int, t: int, year: int, mon: int, rest: int) {
    && base <= year && 1 <= mon <= 12
    && t == (DaysSince(base, year) + DaysBefore(year, mon)) * DAY + rest
    && 0 <= rest <= MonthLength(year, mon) * DAY
    && (rest == 0 ==> t == 0)
  }

  /** `s` seconds are left of `t`: no more than the period has, and none only when there were none at all. */
  ghost predicate Remains(left: int, s: int, days: int, t: int) {
    left == s && 0 <= s <= days * DAY && (s == 0 ==> t == 0)
  }

  method CountYears(yearBase: int, t: int) returns (year: int, s: int)
    ensures t < 0 ==> year == yearBase && s == t
    ensures t >= 0 ==> yearBase <= year && Remains(t - DaysSince(yearBase, year) * DAY, s, YearLength(year), t)
  {
    s, year := t, yearBase;
    var sec := (if IsLeapYear(year) then 366 else 365) * DAY;
    while s > sec
      invariant yearBase <= year && sec == YearLength(year) * DAY && t == DaysSince(yearBase, year) * DAY + s
      invariant t < 0 ==> year == yearBase
      invariant t >= 0 ==> s >= 0 && (s == 0 ==> t == 0)
      decreases s
    {
      s := s - sec;
      year := year + 1;
      sec := (if IsLeapYear(year) then 366 else 365) * DAY;
    }
  }

  method CountMonths(year: int, t: int) returns (mon: int, s: int)
    requires t <= YearLength(year) * DAY
    ensures t < 0 ==> mon == 1 && s == t
    ensures t >= 0 ==> 1 <= mon <= 12 && Remains(t - DaysBefore(year, mon) * DAY, s, MonthLength(year, mon), t)
  {
    DaysInYear(year);
    var days := [31, 28, 31, 30, 31, 30, 31, 31, 30, 31, 30, 31];
    var daysl := [31, 29, 31, 30, 31, 30, 31, 31, 30, 31, 30, 31];
    var daysp := if IsLeapYear(year) then daysl else days;
    MonthTable(year, daysp);
    BeforeNext(year, 12);
    BeforeFirst(year);
    hide MonthLength, YearLength, IsLeapYear, DaysBefore;
    mon, s := 1, t;
    var sec := 31 * DAY;
    while s > sec
      invariant 1 <= mon <= 12 && sec == MonthLength(year, mon) * DAY && t == DaysBefore(year, mon) * DAY + s
      invariant t < 0 ==> mon == 1
      invariant t >= 0 ==> s >= 0 && (s == 0 ==> t == 0)
      decreases s
    {
      BeforeNext(year, mon);
      LengthPositive(year, mon);
      mon := mon + 1;
      s := s - sec;
      sec := daysp[mon - 1] * DAY;
    }
  }

  lemma MonthTable(year: int, days: seq<int>)
    requires days == if IsLeapYear(year) then [31, 29, 31, 30, 31, 30, 31, 31, 30, 31, 30, 31]
                     else [31, 28, 31, 30, 31, 30, 31, 31, 30, 31, 30, 31]
    ensures |days| == 12 && forall m :: 1 <= m <= 12 ==> days[m - 1] == MonthLength(year, m)
  {
  }

  lemma BeforeNext(year: int, mon: int)
    requires 1 <= mon <= 12
    ensures DaysBefore(year, mon + 1) == DaysBefore(year, mon) + MonthLength(year, mon)
  {
  }

  lemma BeforeFirst(year: int)
    ensures DaysBefore(year, 1) == 0 && MonthLength(year, 1) == 31
  {
  }

  lemma LengthPositive(year: int, mon: int)
    requires 1 <= mon <= 12
    ensures MonthLength(year, mon) > 0
  {
  }

  /** The fields of the text; seconds beyond 32 bits wrap around, and negative ones count down from the first
      day. The loops end, and the month never runs past the twelfth. */
  method GetFormatTimestamp(utime: int, yearBase: int) returns (f: Fields, sign: char)
    requires -0x8000_0000_0000_0000 < utime < 0x8000_0000_0000_0000
    ensures sign == if utime < 0 then '-' else ' '
    ensures
      var s := ToInt32(if utime < 0 then -utime else utime);
      if s >= 0
      then InMonth(yearBase, s, f.year, f.mon, (f.day - 1) * DAY + f.hour * 3600 + f.min * 60 + f.sec) && Clock(f)
      else f.year == yearBase && f.mon == 1 && (f.day - 1) * DAY + f.hour * 3600 + f.min * 60 + f.sec == s
           && -24 < f.hour <= 0 && -60 < f.min <= 0 && -60 < f.sec <= 0
  {
    hide DaysSince, DaysBefore, MonthLength, ToInt32;
    sign := ' ';
    var u := utime;
    if u < 0 {
      sign := '-';
      u := -u;
    }
    var s := ToInt32(u);
    var year, mon;
    year, s := CountYears(yearBase, s);
    mon, s := CountMonths(year, s);
    var day := Div(s, DAY);
    s := s - day * DAY;
    day := day + 1;
    var hour := Div(s, 3600);
    s := s - hour * 3600;
    var min := Div(s, 60);
    s := s - min * 60;
    f := Fields(year, mon, day, hour, min, s);
  }

  ghost predicate Splits(base: int, t: int, f: Fields) {
    InMonth(base, t, f.year, f.mon, (f.day - 1) * DAY + f.hour * 3600 + f.min * 60 + f.sec) && Clock(f)
  }

  lemma {:induction false} YearsAdd(base: int, y: int, z: int)
    requires base <= y < z
    ensures DaysSince(base, z) >= DaysSince(base, y) + YearLength(y)
    decreases z - y
  {
    if z > y + 1 {
      YearsAdd(base, y, z - 1);
    }
  }

  lemma {:induction false} MonthsAdd(year: int, m: int, n: int)
    requires 1 <= m < n <= 13
    ensures DaysBefore(year, n) >= DaysBefore(year, m) + MonthLength(year, m)
    decreases n - m
  {
    if n > m + 1 {
      MonthsAdd(year, m, n - 1);
    }
  }

  /** A month ends before any later one starts. */
  lemma MonthsInOrder(base: int, y: int, m: int, z: int, n: int)
    requires base <= y && base <= z && 1 <= m <= 12 && 1 <= n <= 12
    requires y < z || (y == z && m < n)
    ensures DaysSince(base, y) + DaysBefore(y, m) + MonthLength(y, m) <= DaysSince(base, z) + DaysBefore(z, n)
  {
    if y < z {
      DaysInYear(y);
      YearsAdd(base, y, z);
      MonthsAdd(y, m, 13);
    } else {
      MonthsAdd(y, m, n);
    }
  }

  /** The fields determine the instant and the instant the fields. */
  lemma SplitUnique(base: int, t: int, f: Fields, u: int, g: Fields)
    requires Splits(base, t, f) && Splits(base, u, g)
    ensures t == u <==> f == g
  {
    if t == u {
      if f.year < g.year || (f.year == g.year && f.mon < g.mon) {
        MonthsInOrder(base, f.year, f.mon, g.year, g.mon);
      } else if g.year < f.year || (f.year == g.year && g.mon < f.mon) {
        MonthsInOrder(base, g.year, g.mon, f.year, f.mon);
      }
    }
  }

  /** No second is lost, and the fields are the Gregorian date except at midnight when a new month starts:
      there the day is one past the end of the month before. */
  lemma SplitIsFaithful(base: int, t: int, f: Fields)
    requires Splits(base, t, f)
    ensures Instant(base, f) == t
    ensures Gregorian(base, f) <==> !MonthStarts(base, t)
    ensures DayTooMany(base, f) <==> MonthStarts(base, t)
  {
    var len := MonthLength(f.year, f.mon);
    if f.day == len + 1 {
      NextMonth(base, f.year, f.mon);
      var y, m := if f.mon == 12 then f.year + 1 else f.year, if f.mon == 12 then 1 else f.mon + 1;
      assert StartsAt(base, t, y, m);
    } else {
      forall y, m
        ensures !StartsAt(base, t, y, m)
      {
        NoStartInside(base, t, f, y, m);
      }
    }
  }

  lemma NextMonth(base: int, y: int, m: int)
    requires base <= y && 1 <= m <= 12
    ensures DaysSince(base, y) + DaysBefore(y, m) + MonthLength(y, m)
         == if m == 12 then DaysSince(base, y + 1) else DaysSince(base, y) + DaysBefore(y, m + 1)
  {
    DaysInYear(y);
  }

  lemma NoStartInside(base: int, t: int, f: Fields, y: int, m: int)
    requires Splits(base, t, f) && f.day != MonthLength(f.year, f.mon) + 1
    ensures !StartsAt(base, t, y, m)
  {
    if base <= y && 1 <= m <= 12 && t > 0 {
      if f.year < y || (f.year == y && f.mon < m) {
        MonthsInOrder(base, f.year, f.mon, y, m);
      } else if y < f.year || (f.year == y && m < f.mon) {
        MonthsInOrder(base, y, m, f.year, f.mon);
      }
    }
  }

  /** There is one Gregorian date for an instant. */
  lemma GregorianUnique(base: int, f: Fields, g: Fields)
    requires Gregorian(base, f) && Gregorian(base, g) && Instant(base, f) == Instant(base, g)
    ensures f == g
  {
    if f.year < g.year || (f.year == g.year && f.mon < g.mon) {
      MonthsInOrder(base, f.year, f.mon, g.year, g.mon);
    } else if g.year < f.year || (f.year == g.year && g.mon < f.mon) {
      MonthsInOrder(base, g.year, g.mon, f.year, f.mon);
    } else {
      hide DaysSince, DaysBefore, MonthLength, Gregorian;
      assert Clock(f) && Clock(g) by {
        ClockOf(base, f);
        ClockOf(base, g);
      }
      ClockUnique(DaysSince(base, f.year) + DaysBefore(f.year, f.mon), f, g);
    }
  }

  lemma ClockOf(base: int, f: Fields)
    requires Gregorian(base, f)
    ensures Clock(f)
  {
  }

  lemma ClockUnique(d: int, f: Fields, g: Fields)
    requires Clock(f) && Clock(g)
    requires (d + f.day - 1) * DAY + f.hour * 3600 + f.min * 60 + f.sec
      == (d + g.day - 1) * DAY + g.hour * 3600 + g.min * 60 + g.sec
    ensures f.day == g.day && f.hour == g.hour && f.min == g.min && f.sec == g.sec
  {
  }

  // --- Julian dates

  /** C's conversion of a real number to an integer. */
  function Trunc(x: real): int {
    if x >= 0.0 then x.Floor else -(-x).Floor
  }

  /** The day before the first of the year. */
  function JulianDateOfYear(year: real): real {
    var y := year - 1.0;
    var a := Trunc(y / 100.0);
    var b := 2 - a + (if a >= 0 then a / 4 else -(-a / 4));
    var i := Trunc(365.25 * y);
    var k := Trunc(i as real + 30.6001 * 14.0);
    k as real + 1720994.5 + b as real
  }

  /** The day of the year. */
  method DOY(yr: int, mo: int, dy: int) returns (day: int)
    requires 1 <= mo <= 12
    ensures day == DaysBefore(yr, mo) + dy
  {
    var days := [31, 28, 31, 30, 31, 30, 31, 31, 30, 31, 30, 31];
    day := 0;
    for i := 0 to mo - 1
      invariant day + (if i >= 2 && IsLeapYear(yr) then 1 else 0) == DaysBefore(yr, i + 1)
    {
      day := day + days[i];
    }
    day := day + dy;
    if yr % 4 == 0 && (yr % 100 != 0 || yr % 400 == 0) && mo > 2 {
      day := day + 1;
    }
  }

  function FractionOfDay(hr: int, mi: int, se: real): real {
    (hr as real + (mi as real + se / 60.0) / 60.0) / 24.0
  }

  /** The tracker's clock. */
  class Tracker {
    var daynum: real
    var julUtc: real

    method SetCalcTime(time: int)
      modifies this`daynum
      ensures daynum == time as real / 86400.0 - 3651.0
    {
      daynum := time as real / 86400.0 - 3651.0;
    }

    method Calc()
      modifies this`julUtc
      ensures julUtc == daynum + 2444238.5
    {
      julUtc := daynum + 2444238.5;
    }

    /** The Julian date of an instant, both ways. */
    method JulianDateBothWays(t: int) returns (loops: real)
      requires 0 <= t < 0x8000_0000
      modifies this
      ensures loops == julUtc
    {
      var f, sign := GetFormatTimestamp(t, EPOCH_YEAR);
      var doy := DOY(f.year, f.mon, f.day);
      loops := JulianDateOfYear(f.year as real) + doy as real + FractionOfDay(f.hour, f.min, f.sec as real);
      SetCalcTime(t);
      Calc();
      LoopsAgree(t, f);
    }
  }

  lemma TruncWhole(n: int, d: int)
    requires n >= 0 && (d == 4 || d == 100)
    ensures Trunc(n as real / d as real) == n / d
  {
    var q := n / d;
    assert q * d <= n < q * d + d;
    if d == 4 {
      assert q as real <= n as real / 4.0 < q as real + 1.0;
    } else {
      assert q as real <= n as real / 100.0 < q as real + 1.0;
    }
  }

  /** The formula in whole numbers. */
  lemma JulianWhole(year: int)
    requires year >= 1
    ensures
      var n := year - 1;
      JulianDateOfYear(year as real) == (365 * n + n / 4 - n / 100 + n / 100 / 4 + 430) as real + 1720994.5
  {
    var n := year - 1;
    hide Trunc;
    TruncWhole(n, 100);
    YearDays(n);
    FourteenMonths(365 * n + n / 4);
    var y := year as real - 1.0;
    assert y == n as real;
    assert JulianDateOfYear(year as real)
      == (365 * n + n / 4 + 428) as real + 1720994.5 + (2 - n / 100 + n / 100 / 4) as real;
  }

  lemma YearDays(n: int)
    requires n >= 0
    ensures Trunc(365.25 * n as real) == 365 * n + n / 4
  {
    TruncWhole(1461 * n, 4);
    hide Trunc;
    assert 365.25 * n as real == (1461 * n) as real / 4.0;
    assert 1461 * n / 4 == 365 * n + n / 4;
  }

  lemma FourteenMonths(i: int)
    requires i >= 0
    ensures Trunc(i as real + 30.6001 * 14.0) == i + 428
  {
  }

  /** From one year to the next the formula counts the days of the calendar. */
  lemma JulianStep(year: int)
    requires year >= 1
    ensures JulianDateOfYear((year + 1) as real) == JulianDateOfYear(year as real) + YearLength(year) as real
  {
    JulianWhole(year);
    JulianWhole(year + 1);
    LeapSteps(year);
  }

  lemma LeapSteps(n: int)
    requires n >= 1
    ensures n / 4 - (n - 1) / 4 - (n / 100 - (n - 1) / 100) + (n / 100 / 4 - (n - 1) / 100 / 4)
      == if IsLeapYear(n) then 1 else 0
  {
    OneMore(n, 4);
    OneMore(n, 100);
    OneMore(n, 400);
    assert n / 100 / 4 == n / 400 && (n - 1) / 100 / 4 == (n - 1) / 400;
  }

  lemma OneMore(n: int, d: int)
    requires n >= 1 && (d == 4 || d == 100 || d == 400)
    ensures n / d - (n - 1) / d == if n % d == 0 then 1 else 0
  {
  }

  lemma {:induction false} JulianYears(year: int)
    requires year >= EPOCH_YEAR
    ensures JulianDateOfYear(year as real) == 2440586.5 + DaysSince(EPOCH_YEAR, year) as real
    decreases year
  {
    if year == EPOCH_YEAR {
      JulianWhole(year);
    } else {
      JulianYears(year - 1);
      JulianStep(year - 1);
    }
  }

  /** The closed form on the fields the loops leave is the tracker's Julian date, at every instant, those
      where the day is one too many included. */
  lemma LoopsAgree(t: int, f: Fields)
    requires Splits(EPOCH_YEAR, t, f)
    ensures JulianDateOfYear(f.year as real) + (DaysBefore(f.year, f.mon) + f.day) as real
      + FractionOfDay(f.hour, f.min, f.sec as real)
         == (t as real / 86400.0 - 3651.0) + 2444238.5
  {
    JulianYears(f.year);
    var days := DaysSince(EPOCH_YEAR, f.year) + DaysBefore(f.year, f.mon) + f.day - 1;
    var rest := f.hour * 3600 + f.min * 60 + f.sec;
    assert t == days * DAY + rest;
    assert FractionOfDay(f.hour, f.min, f.sec as real) == rest as real / 86400.0;
    assert t as real / 86400.0 == days as real + rest as real / 86400.0;
  }
}
