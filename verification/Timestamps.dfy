/**
 Timestamps as text of fixed width (RFC 3339, sections 5.1 and 5.6): an instant, counted in
 nanoseconds from the Unix epoch, becomes a proleptic Gregorian date and time of day, and these
 become digits. Compared as text, timestamps of the years 0000 to 9999 are in time order.
 */
module Timestamps {
  import opened Common

  // ---- Calendar ---------------------------------------------------------------------------

  predicate Leap(y: nat) {
    y % 4 == 0 && (y % 100 != 0 || y % 400 == 0)
  }

  function YearDays(leap: bool): nat {
    if leap then 366 else 365
  }

  // Days from 1 January of year 0 to 1 January of year `y`.
  function YearStart(y: nat): nat {
    if y == 0 then 0 else YearStart(y - 1) + YearDays(Leap(y - 1))
  }

  /** How many leap years there were before year `y`, counted rather than visited. */
  lemma {:induction false} YearStartClosed(y: nat)
    ensures YearStart(y) == 365 * y + (y + 3) / 4 + (y + 399) / 400 - (y + 99) / 100
  {
    if y > 0 {
      var x := y - 1;
      YearStartClosed(x);
      EveryFourth(x);
      EveryHundredth(x);
      EveryFourHundredth(x);
      Divisible(x);
      assert Leap(x) <==> x % 4 == 0 && (x % 100 == 0 ==> x % 400 == 0);
    }
  }

  lemma EveryFourth(y: nat)
    ensures (y + 4) / 4 == (y + 3) / 4 + if y % 4 == 0 then 1 else 0
  {
  }

  lemma EveryHundredth(y: nat)
    ensures (y + 100) / 100 == (y + 99) / 100 + if y % 100 == 0 then 1 else 0
  {
    var q, r := y / 100, y % 100;
    Quotient100(y + 100, q + 1);
    Quotient100(y + 99, if r == 0 then q else q + 1);
  }

  lemma Quotient100(n: nat, q: nat)
    requires 100 * q <= n < 100 * q + 100
    ensures n / 100 == q
  {
  }

  lemma EveryFourHundredth(y: nat)
    ensures (y + 400) / 400 == (y + 399) / 400 + if y % 400 == 0 then 1 else 0
  {
    var q, r := y / 400, y % 400;
    Quotient400(y + 400, q + 1);
    Quotient400(y + 399, if r == 0 then q else q + 1);
  }

  lemma Quotient400(n: nat, q: nat)
    requires 400 * q <= n < 400 * q + 400
    ensures n / 400 == q
  {
  }

  // A year divisible by 400 is divisible by 100, one divisible by 100 is divisible by 4.
  lemma Divisible(y: nat)
    ensures (y % 400 == 0 ==> y % 100 == 0) && (y % 100 == 0 ==> y % 4 == 0)
  {
    if y % 400 == 0 { assert y == 100 * (4 * (y / 400)); }
    if y % 100 == 0 { assert y == 4 * (25 * (y / 100)); }
  }

  lemma {:induction false} YearStartMono(x: nat, y: nat)
    requires x <= y
    ensures YearStart(x) <= YearStart(y)
    decreases y
  {
    if x < y {
      YearStartMono(x, y - 1);
    }
  }

  // The year a day lies in, counting up from `y`.
  function YearFrom(day: nat, y: nat): (r: nat)
    requires YearStart(y) <= day
    ensures YearStart(r) <= day < YearStart(r + 1)
    decreases day - YearStart(y)
  {
    if day < YearStart(y + 1) then y else YearFrom(day, y + 1)
  }

  const MONTH_STARTS: seq<nat> := [0, 31, 59, 90, 120, 151, 181, 212, 243, 273, 304, 334, 365]

  // Days from 1 January to the first of the month after `m` months.
  function MonthStart(leap: bool, m: nat): nat
    requires m <= 12
  {
    MONTH_STARTS[m] + if leap && m >= 2 then 1 else 0
  }

  lemma MonthStartMono(leap: bool, m: nat, n: nat)
    requires m < n <= 12
    ensures MonthStart(leap, m) < MonthStart(leap, n) && MonthStart(leap, n) >= 28 * n
    ensures MonthStart(leap, n) <= MonthStart(leap, n - 1) + 31
  {
  }

  // The number of whole months before a day of the year, counting up from `m`.
  function MonthFrom(leap: bool, day: nat, m: nat): (r: nat)
    requires m < 12 && MonthStart(leap, m) <= day < YearDays(leap)
    ensures r < 12 && MonthStart(leap, r) <= day < MonthStart(leap, r + 1)
    decreases 12 - m
  {
    if m == 11 || day < MonthStart(leap, m + 1) then m else MonthFrom(leap, day, m + 1)
  }

  datatype Date = Date(year: nat, month: nat, day: nat)

  function DateIn(y: nat, leap: bool, day: nat): (d: Date)
    requires day < YearDays(leap)
    ensures d.year == y && 1 <= d.month <= 12 && 1 <= d.day <= 31
    ensures MonthStart(leap, d.month - 1) <= day < MonthStart(leap, d.month)
    ensures day == MonthStart(leap, d.month - 1) + d.day - 1
  {
    var m := MonthFrom(leap, day, 0);
    MonthStartMono(leap, m, m + 1);
    Date(y, m + 1, day - MonthStart(leap, m) + 1)
  }

  /** The day is that date: in that year, in that month, and so many days into it. */
  ghost predicate On(day: nat, d: Date) {
    && YearStart(d.year) <= day < YearStart(d.year + 1)
    && 1 <= d.month <= 12
    && MonthStart(Leap(d.year), d.month - 1) <= day - YearStart(d.year) < MonthStart(Leap(d.year), d.month)
    && day == YearStart(d.year) + MonthStart(Leap(d.year), d.month - 1) + d.day - 1
  }

  function Civil(day: nat): (d: Date)
    ensures On(day, d) && d.day <= 31
  {
    var y := YearFrom(day, 0);
    DateIn(y, Leap(y), day - YearStart(y))
  }

  ghost predicate DateLess(a: Date, b: Date) {
    || a.year < b.year
    || (a.year == b.year && a.month < b.month)
    || (a.year == b.year && a.month == b.month && a.day < b.day)
  }

  lemma MonthsOrdered(leap: bool, m: nat, x: nat, n: nat, y: nat)
    requires m < n < 12 && x < MonthStart(leap, m + 1) && MonthStart(leap, n) <= y
    ensures x < y
  {
    if m + 1 < n { MonthStartMono(leap, m + 1, n); }
  }

  lemma YearsOrdered(x: nat, c: nat, y: nat, d: nat)
    requires x < y && c < YearStart(x + 1) && YearStart(y) <= d
    ensures c < d
  {
    YearStartMono(x + 1, y);
  }

  lemma EarlierIfLess(c: nat, a: Date, d: nat, b: Date)
    requires On(c, a) && On(d, b) && DateLess(a, b)
    ensures c < d
  {
    if a.year < b.year {
      YearsOrdered(a.year, c, b.year, d);
    } else if a.month < b.month {
      var start, leap := YearStart(a.year), Leap(a.year);
      MonthsOrdered(leap, a.month - 1, c - start, b.month - 1, d - start);
    }
  }

  /** Dates are ordered as days are, and each day has its own date. */
  lemma CivilOrder(c: nat, d: nat)
    ensures c < d <==> DateLess(Civil(c), Civil(d))
    ensures c == d <==> Civil(c) == Civil(d)
  {
    if DateLess(Civil(c), Civil(d)) { EarlierIfLess(c, Civil(c), d, Civil(d)); }
    if DateLess(Civil(d), Civil(c)) { EarlierIfLess(d, Civil(d), c, Civil(c)); }
  }

  lemma OneDate(c: nat, a: Date, b: Date)
    requires On(c, a) && On(c, b)
    ensures a == b
  {
    if DateLess(a, b) { EarlierIfLess(c, a, c, b); }
    if DateLess(b, a) { EarlierIfLess(c, b, c, a); }
  }

  /** The date after another, by the lengths of the months: thirty days hath September, April, June and
      November; February has 28 and in a leap year 29, all the rest 31. */
  ghost predicate NextDate(d: Date, e: Date) {
    var leap := d.year % 400 == 0 || (d.year % 4 == 0 && d.year % 100 != 0);
    var last := if d.month == 2 then (if leap then 29 else 28)
                else if d.month == 4 || d.month == 6 || d.month == 9 || d.month == 11 then 30 else 31;
    && 1 <= d.day <= last && 1 <= d.month <= 12
    && e == if d.day < last then Date(d.year, d.month, d.day + 1)
            else if d.month < 12 then Date(d.year, d.month + 1, 1) else Date(d.year + 1, 1, 1)
  }

  lemma NextMonth(leap: bool, m: nat)
    requires m < 12
    ensures MonthStart(leap, m + 1) == MonthStart(leap, m) +
              if m == 1 then (if leap then 29 else 28) else if m == 3 || m == 5 || m == 8 || m == 10 then 30 else 31
    ensures MonthStart(leap, 0) == 0 && MonthStart(leap, 12) == YearDays(leap)
  {
  }

  // How long the month of a date is.
  function MonthLength(d: Date): int
    requires 1 <= d.month <= 12
  {
    MonthStart(Leap(d.year), d.month) - MonthStart(Leap(d.year), d.month - 1)
  }

  lemma SameMonth(day: nat, d: Date)
    requires On(day, d) && d.day < MonthLength(d)
    ensures On(day + 1, Date(d.year, d.month, d.day + 1))
  {
    MonthsWithin(Leap(d.year), d.month);
  }

  lemma MonthsWithin(leap: bool, m: nat)
    requires m <= 12
    ensures MonthStart(leap, m) <= YearDays(leap) && (m < 12 ==> MonthStart(leap, m) < YearDays(leap))
    ensures MonthStart(leap, 0) == 0 && MonthStart(leap, 12) == YearDays(leap)
  {
    NextMonth(leap, 0);
    if m < 12 { MonthStartMono(leap, m, 12); }
  }

  lemma MonthOver(day: nat, d: Date)
    requires On(day, d) && d.day >= MonthLength(d) && d.month < 12
    ensures On(day + 1, Date(d.year, d.month + 1, 1))
  {
    MonthsWithin(Leap(d.year), d.month);
    MonthStartMono(Leap(d.year), d.month, d.month + 1);
  }

  lemma YearOver(day: nat, d: Date)
    requires On(day, d) && d.day >= MonthLength(d) && d.month == 12
    ensures On(day + 1, Date(d.year + 1, 1, 1))
  {
    MonthsWithin(Leap(d.year), 12);
    FirstOfYear(d.year + 1);
  }

  lemma FirstOfYear(y: nat)
    ensures On(YearStart(y), Date(y, 1, 1))
  {
    MonthsWithin(Leap(y), 0);
    MonthStartMono(Leap(y), 0, 1);
  }

  // The same length by the rule.
  lemma LengthByRule(day: nat, d: Date, e: Date)
    requires On(day, d)
    requires e == if d.day < MonthLength(d) then Date(d.year, d.month, d.day + 1)
                  else if d.month < 12 then Date(d.year, d.month + 1, 1) else Date(d.year + 1, 1, 1)
    ensures NextDate(d, e)
  {
    NextMonth(Leap(d.year), d.month - 1);
    Divisible(d.year);
  }

  lemma YearZero(y: nat)
    requires y == 0
    ensures Civil(y) == Date(0, 1, 1)
  {
    FirstOfYear(y);
    OneDate(y, Date(y, 1, 1), Civil(y));
  }

  /** The calendar, day by day: it begins on 1 January of year 0, and each day is the date after the day
      before, by the rule above. */
  lemma DayAfter(day: nat)
    ensures day == 0 ==> Civil(day) == Date(0, 1, 1)
    ensures NextDate(Civil(day), Civil(day + 1))
  {
    var d := Civil(day);
    if day == 0 { YearZero(day); }
    if d.day < MonthLength(d) { SameMonth(day, d); }
    else if d.month < 12 { MonthOver(day, d); }
    else { YearOver(day, d); }
    var e := if d.day < MonthLength(d) then Date(d.year, d.month, d.day + 1)
             else if d.month < 12 then Date(d.year, d.month + 1, 1) else Date(d.year + 1, 1, 1);
    OneDate(day + 1, e, Civil(day + 1));
    LengthByRule(day, d, e);
  }

  // ---- Instants ---------------------------------------------------------------------------

  const SECOND: nat := 1_000_000_000
  const MINUTE: nat := 60_000_000_000
  const HOUR: nat := 3_600_000_000_000
  const DAY: nat := 86_400_000_000_000

  // The day of the epoch, counted from 1 January of year 0.
  const EPOCH_DAY: nat := 719_528

  function DayOf(t: int): int {
    t / DAY + EPOCH_DAY
  }

  /** Years 0000 to 9999. */
  predicate InRange(t: int) {
    0 <= DayOf(t) && YearFrom(DayOf(t), 0) <= 9999
  }

  // 1 January of year -9999: 25 cycles of 400 years before year 0, less the leap year -10000.
  const FIRST_DAY: int := -(25 * 146_097 - 366)

  /** Years -9999 to 9999: for any other instant the conversion to a date does not return. */
  predicate Convertible(t: int) {
    FIRST_DAY <= DayOf(t) && (DayOf(t) < 0 || InRange(t))
  }

  function Calendar(d: Date): seq<nat> {
    [d.year, d.month, d.day]
  }

  // The time of day, most significant unit first.
  function Clock(n: nat): seq<nat> {
    [n / HOUR, n % HOUR / MINUTE, n % MINUTE / SECOND, n % SECOND]
  }

  // Year, month, day, hour, minute, second and nanosecond.
  function Fields(t: int): seq<nat>
    requires DayOf(t) >= 0
  {
    Calendar(Civil(DayOf(t))) + Clock(t % DAY)
  }

  ghost predicate LexLess(a: seq<nat>, b: seq<nat>)
    requires |a| == |b|
  {
    a != [] && (a[0] < b[0] || (a[0] == b[0] && LexLess(a[1..], b[1..])))
  }

  lemma LexLess4(a: seq<nat>, b: seq<nat>)
    requires |a| == |b| == 4
    ensures LexLess(a, b) <==>
            || a[0] < b[0] || (a[0] == b[0] && (a[1] < b[1] || (a[1] == b[1] && (a[2] < b[2] || (a[2] == b[2] && a[3] < b[3])))))
  {
    var a1, b1 := a[1..], b[1..];
    var a2, b2 := a1[1..], b1[1..];
    var a3, b3 := a2[1..], b2[1..];
    assert LexLess(a3, b3) <==> a[3] < b[3];
    assert LexLess(a2, b2) <==> a[2] < b[2] || (a[2] == b[2] && LexLess(a3, b3));
    assert LexLess(a1, b1) <==> a[1] < b[1] || (a[1] == b[1] && LexLess(a2, b2));
  }

  lemma Units(n: nat)
    ensures n == n / HOUR * HOUR + n % HOUR
    ensures n % HOUR == n % HOUR / MINUTE * MINUTE + n % MINUTE
    ensures n % MINUTE == n % MINUTE / SECOND * SECOND + n % SECOND
  {
  }

  lemma ClockOrder(m: nat, n: nat)
    ensures LexLess(Clock(m), Clock(n)) <==> m < n
    ensures Clock(m) == Clock(n) <==> m == n
  {
    LexLess4(Clock(m), Clock(n));
    Units(m);
    Units(n);
    assert Clock(m)[0] == m / HOUR && Clock(n)[0] == n / HOUR && Clock(m)[1] == m % HOUR / MINUTE && Clock(n)[1] == n % HOUR / MINUTE;
    assert Clock(m)[2] == m % MINUTE / SECOND && Clock(n)[2] == n % MINUTE / SECOND && Clock(m)[3] == m % SECOND && Clock(n)[3] == n % SECOND;
  }

  // The first element decides, or else the rest.
  lemma LexFirst(a: seq<nat>, b: seq<nat>, c: seq<nat>, d: seq<nat>)
    requires |a| == |b| > 0 && |c| == |d|
    ensures LexLess(a + c, b + d) <==> a[0] < b[0] || (a[0] == b[0] && LexLess(a[1..] + c, b[1..] + d))
  {
    assert (a + c)[1..] == a[1..] + c && (b + d)[1..] == b[1..] + d;
  }

  lemma LexLess3(a: seq<nat>, b: seq<nat>, c: seq<nat>, d: seq<nat>)
    requires |a| == |b| == 3 && |c| == |d|
    ensures LexLess(a + c, b + d) <==>
            || a[0] < b[0] || (a[0] == b[0] && (a[1] < b[1] || (a[1] == b[1] && (a[2] < b[2] || (a[2] == b[2] && LexLess(c, d))))))
  {
    var a1, b1 := a[1..], b[1..];
    var a2, b2 := a1[1..], b1[1..];
    assert a2[1..] + c == c && b2[1..] + d == d;
    LexFirst(a, b, c, d);
    LexFirst(a1, b1, c, d);
    LexFirst(a2, b2, c, d);
  }

  lemma InstantOrder(t: int, u: int)
    ensures t < u <==> DayOf(t) < DayOf(u) || (DayOf(t) == DayOf(u) && t % DAY < u % DAY)
  {
  }

  /** The fields of two instants are ordered as the instants are, down to the nanosecond. */
  lemma FieldsOrder(t: int, u: int)
    requires DayOf(t) >= 0 && DayOf(u) >= 0
    ensures LexLess(Fields(t), Fields(u)) <==> t < u
    ensures Fields(t) == Fields(u) <==> t == u
  {
    var c, d := Civil(DayOf(t)), Civil(DayOf(u));
    LexLess3(Calendar(c), Calendar(d), Clock(t % DAY), Clock(u % DAY));
    ClockOrder(t % DAY, u % DAY);
    CivilOrder(DayOf(t), DayOf(u));
    InstantOrder(t, u);
    if Fields(t) == Fields(u) {
      assert c == Date(Fields(t)[0], Fields(t)[1], Fields(t)[2]) == d;
      assert Clock(t % DAY) == Fields(t)[3..] == Clock(u % DAY);
    }
  }

  lemma ClockAt(h: nat, m: nat, s: nat, x: nat)
    requires h < 24 && m < 60 && s < 60 && x < SECOND
    ensures Clock(h * HOUR + m * MINUTE + s * SECOND + x) == [h, m, s, x]
  {
    var n := h * HOUR + m * MINUTE + s * SECOND + x;
    assert n / HOUR == h && n % HOUR == m * MINUTE + s * SECOND + x;
    assert n % HOUR / MINUTE == m;
    assert n % MINUTE == s * SECOND + x;
  }

  // What a clock shows one nanosecond later, short of midnight.
  ghost predicate Ticks(c: seq<nat>, d: seq<nat>)
    requires |c| == |d| == 4
  {
    if c[3] < 999_999_999 then d == [c[0], c[1], c[2], c[3] + 1]
    else if c[2] < 59 then d == [c[0], c[1], c[2] + 1, 0]
    else if c[1] < 59 then d == [c[0], c[1] + 1, 0, 0]
    else c[0] < 23 && d == [c[0] + 1, 0, 0, 0]
  }

  lemma ClockTicks(n: nat)
    requires n + 1 < DAY
    ensures Ticks(Clock(n), Clock(n + 1))
  {
    var h, m, s, x := Clock(n)[0], Clock(n)[1], Clock(n)[2], Clock(n)[3];
    ClockFits(n);
    Units(n);
    if x < 999_999_999 { ClockAt(h, m, s, x + 1); }
    else if s < 59 { ClockAt(h, m, s + 1, 0); }
    else if m < 59 { ClockAt(h, m + 1, 0, 0); }
    else { ClockAt(h + 1, 0, 0, 0); }
  }

  lemma LastTick(n: nat)
    requires n + 1 == DAY
    ensures Clock(n) == [23, 59, 59, 999_999_999]
  {
    ClockAt(23, 59, 59, 999_999_999);
  }

  // One nanosecond later on the calendar and the clock.
  lemma Later(day: nat, n: nat, day': nat, n': nat)
    requires n < DAY && n' < DAY && (if n + 1 < DAY then day' == day && n' == n + 1 else day' == day + 1 && n' == 0)
    ensures || (day' == day && Ticks(Clock(n), Clock(n')))
            || (Clock(n) == [23, 59, 59, 999_999_999] && Clock(n') == [0, 0, 0, 0] && NextDate(Civil(day), Civil(day')))
  {
    if n + 1 < DAY {
      ClockTicks(n);
    } else {
      LastTick(n);
      Midnight(n');
      DayAfter(day);
    }
  }

  /** The clock, nanosecond by nanosecond: a thousand million to the second, sixty seconds, sixty minutes
      and twenty-four hours, and after the last comes midnight of the next date. */
  lemma NanosecondAfter(t: int)
    requires DayOf(t) >= 0
    ensures DayOf(t + 1) >= 0
    ensures var f, g := Fields(t), Fields(t + 1);
            || (g[..3] == f[..3] && Ticks(f[3..], g[3..]))
            || (f[3..] == [23, 59, 59, 999_999_999] && g[3..] == [0, 0, 0, 0]
                && NextDate(Date(f[0], f[1], f[2]), Date(g[0], g[1], g[2])))
  {
    if t % DAY + 1 < DAY { SameDay(t); } else { DayEnds(t); }
    Later(DayOf(t), t % DAY, DayOf(t + 1), (t + 1) % DAY);
    FieldsSplit(t);
    FieldsSplit(t + 1);
  }

  lemma FieldsSplit(t: int)
    requires DayOf(t) >= 0
    ensures var f := Fields(t); |f| == 7 && f[..3] == Calendar(Civil(DayOf(t))) && f[3..] == Clock(t % DAY)
    ensures Date(Fields(t)[0], Fields(t)[1], Fields(t)[2]) == Civil(DayOf(t))
  {
  }

  lemma SameDay(t: int)
    requires t % DAY + 1 < DAY
    ensures (t + 1) % DAY == t % DAY + 1 && DayOf(t + 1) == DayOf(t)
  {
  }

  lemma DayEnds(t: int)
    requires t % DAY + 1 == DAY
    ensures (t + 1) % DAY == 0 && DayOf(t + 1) == DayOf(t) + 1
  {
  }

  // ---- Text -------------------------------------------------------------------------------

  /** Text order, as a byte-wise comparison gives it. */
  ghost predicate TextLess(a: string, b: string) {
    b != [] && (a == [] || a[0] < b[0] || (a[0] == b[0] && TextLess(a[1..], b[1..])))
  }

  lemma {:induction false} TextLessConcat(a: string, b: string, c: string, d: string)
    requires |a| == |b|
    ensures TextLess(a + c, b + d) <==> TextLess(a, b) || (a == b && TextLess(c, d))
  {
    if a == [] {
      assert a + c == c && b + d == d;
    } else {
      assert (a + c)[1..] == a[1..] + c && (b + d)[1..] == b[1..] + d;
      TextLessConcat(a[1..], b[1..], c, d);
      assert a == [a[0]] + a[1..] && b == [b[0]] + b[1..];
    }
  }

  function Pow10(w: nat): nat {
    if w == 0 then 1 else 10 * Pow10(w - 1)
  }

  // A number in exactly `w` digits.
  function Padded(n: nat, w: nat): (s: string)
    ensures |s| == w
  {
    if w == 0 then "" else Padded(n / 10, w - 1) + [Digit(n % 10)]
  }

  lemma OneDigit(m: nat, n: nat)
    requires m < 10 && n < 10
    ensures TextLess([Digit(m)], [Digit(n)]) <==> m < n
    ensures Digit(m) == Digit(n) <==> m == n
  {
    assert [Digit(m)][1..] == [] && [Digit(n)][1..] == [];
  }

  lemma {:induction false} PaddedOrder(m: nat, n: nat, w: nat)
    requires m < Pow10(w) && n < Pow10(w)
    ensures TextLess(Padded(m, w), Padded(n, w)) <==> m < n
    ensures Padded(m, w) == Padded(n, w) <==> m == n
  {
    if w > 0 {
      PaddedOrder(m / 10, n / 10, w - 1);
      OneDigit(m % 10, n % 10);
      TextLessConcat(Padded(m / 10, w - 1), Padded(n / 10, w - 1), [Digit(m % 10)], [Digit(n % 10)]);
      if Padded(m, w) == Padded(n, w) {
        assert Padded(m, w)[..w - 1] == Padded(m / 10, w - 1) && Padded(n, w)[..w - 1] == Padded(n / 10, w - 1);
        assert Padded(m, w)[w - 1] == Digit(m % 10) && Padded(n, w)[w - 1] == Digit(n % 10);
      }
    }
  }

  // Each number in its width, each followed by its mark.
  function Render(values: seq<nat>, widths: seq<nat>, marks: string): (s: string)
    requires |values| == |widths| == |marks|
  {
    if values == [] then ""
    else Padded(values[0], widths[0]) + [marks[0]] + Render(values[1..], widths[1..], marks[1..])
  }

  ghost predicate Fits(values: seq<nat>, widths: seq<nat>) {
    |values| == |widths| && forall i :: 0 <= i < |values| ==> values[i] < Pow10(widths[i])
  }

  lemma {:induction false} RenderLength(v: seq<nat>, w: seq<nat>, widths: seq<nat>, marks: string)
    requires |v| == |w| == |widths| == |marks|
    ensures |Render(v, widths, marks)| == |Render(w, widths, marks)|
  {
    if v != [] { RenderLength(v[1..], w[1..], widths[1..], marks[1..]); }
  }

  /** With fixed widths, text order is the order of the numbers, first number first. */
  lemma {:induction false} RenderOrder(v: seq<nat>, w: seq<nat>, widths: seq<nat>, marks: string)
    requires Fits(v, widths) && Fits(w, widths) && |widths| == |marks|
    ensures TextLess(Render(v, widths, marks), Render(w, widths, marks)) <==> LexLess(v, w)
    ensures Render(v, widths, marks) == Render(w, widths, marks) <==> v == w
  {
    if v != [] {
      var a, b := Padded(v[0], widths[0]), Padded(w[0], widths[0]);
      var c, d := Render(v[1..], widths[1..], marks[1..]), Render(w[1..], widths[1..], marks[1..]);
      RenderOrder(v[1..], w[1..], widths[1..], marks[1..]);
      RenderLength(v[1..], w[1..], widths[1..], marks[1..]);
      PaddedOrder(v[0], w[0], widths[0]);
      MarkedOrder(a, b, marks[0], c, d);
      assert v == [v[0]] + v[1..] && w == [w[0]] + w[1..];
    }
  }

  lemma MarkedOrder(a: string, b: string, mark: char, c: string, d: string)
    requires |a| == |b| && |c| == |d|
    ensures TextLess(a + [mark] + c, b + [mark] + d) <==> TextLess(a, b) || (a == b && TextLess(c, d))
    ensures a + [mark] + c == b + [mark] + d <==> a == b && c == d
  {
    TextLessConcat(a + [mark], b + [mark], c, d);
    TextLessConcat(a, b, [mark], [mark]);
    assert !TextLess([mark], [mark]) by { assert [mark][1..] == []; }
    SameParts(a + [mark], b + [mark], c, d);
    SameParts(a, b, [mark], [mark]);
  }

  lemma SameParts(a: string, b: string, c: string, d: string)
    requires |a| == |b|
    ensures a + c == b + d <==> a == b && c == d
  {
    assert (a + c)[..|a|] == a && (b + d)[..|b|] == b && (a + c)[|a|..] == c && (b + d)[|b|..] == d;
  }

  const WIDTHS: seq<nat> := [4, 2, 2, 2, 2, 2, 9]
  const MARKS: string := "--T::.Z"
  const EPOCH: string := "1970-01-01T00:00:00.000000000Z"

  function FixedWidth(t: int): Option<string> {
    if InRange(t) then Some(Render(Fields(t), WIDTHS, MARKS)) else None
  }

  function SystemTimeIso8601(t: int): string
    requires Convertible(t)
  {
    match FixedWidth(t)
    case Some(text) => text
    case None => EPOCH
  }

  lemma FieldsFit(t: int)
    requires InRange(t)
    ensures Fits(Fields(t), WIDTHS)
  {
    Pow10Values();
    ClockFits(t % DAY);
    assert Civil(DayOf(t)).year == YearFrom(DayOf(t), 0);
  }

  lemma ClockFits(n: nat)
    requires n < DAY
    ensures Clock(n)[0] < 24 && Clock(n)[1] < 60 && Clock(n)[2] < 60 && Clock(n)[3] < SECOND
  {
  }

  lemma Pow10Values()
    ensures Pow10(4) == 10_000 && Pow10(2) == 100 && Pow10(9) == 1_000_000_000
  {
    assert Pow10(1) == 10;
    assert Pow10(3) == 1_000;
    assert Pow10(6) == 1_000_000;
  }

  // ---- What the text says -----------------------------------------------------------------

  lemma {:induction false} PaddedNumber(n: nat, w: nat)
    requires n < Pow10(w)
    ensures Number(Padded(n, w)) == n
  {
    if w > 0 {
      PaddedNumber(n / 10, w - 1);
      assert Padded(n, w)[..w - 1] == Padded(n / 10, w - 1);
    }
  }

  // Number `k` and its mark, where the numbers before it end.
  lemma Shows(f: seq<nat>, widths: seq<nat>, marks: string, k: nat, text: string, at: nat)
    requires Fits(f, widths) && |widths| == |marks| && k < |f| && at <= |text|
    requires text[at..] == Render(f[k..], widths[k..], marks[k..])
    ensures var w := widths[k];
            && |text| > at + w && Number(text[at..at + w]) == f[k] && text[at + w] == marks[k]
            && text[at + w + 1..] == Render(f[k + 1..], widths[k + 1..], marks[k + 1..])
  {
    var digits, rest := Padded(f[k], widths[k]), Render(f[k + 1..], widths[k + 1..], marks[k + 1..]);
    PaddedNumber(f[k], widths[k]);
    assert f[k..][1..] == f[k + 1..] && widths[k..][1..] == widths[k + 1..] && marks[k..][1..] == marks[k + 1..];
    assert text[at..] == digits + [marks[k]] + rest;
    assert text[at..at + widths[k]] == text[at..][..widths[k]] == digits;
    assert text[at + widths[k] + 1..] == text[at..][widths[k] + 1..] == rest;
  }

  lemma ShowsDate(f: seq<nat>, text: string)
    requires Fits(f, WIDTHS) && text[0..] == Render(f[0..], WIDTHS[0..], MARKS[0..])
    ensures |text| > 10 && Number(text[0..4]) == f[0] && Number(text[5..7]) == f[1] && Number(text[8..10]) == f[2]
    ensures text[4] == '-' && text[7] == '-' && text[10] == 'T'
    ensures text[11..] == Render(f[3..], WIDTHS[3..], MARKS[3..])
  {
    Shows(f, WIDTHS, MARKS, 0, text, 0);
    Shows(f, WIDTHS, MARKS, 1, text, 5);
    Shows(f, WIDTHS, MARKS, 2, text, 8);
  }

  lemma ShowsTime(f: seq<nat>, text: string)
    requires Fits(f, WIDTHS) && |text| == 30 && text[11..] == Render(f[3..], WIDTHS[3..], MARKS[3..])
    ensures Number(text[11..13]) == f[3] && Number(text[14..16]) == f[4] && Number(text[17..19]) == f[5] && Number(text[20..29]) == f[6]
    ensures text[13] == ':' && text[16] == ':' && text[19] == '.' && text[29] == 'Z'
  {
    Shows(f, WIDTHS, MARKS, 3, text, 11);
    Shows(f, WIDTHS, MARKS, 4, text, 14);
    Shows(f, WIDTHS, MARKS, 5, text, 17);
    Shows(f, WIDTHS, MARKS, 6, text, 20);
  }

  /** The text, read back: year, month and day, hour, minute, second and nanosecond stand in their places,
      in decimal digits, with the marks of RFC 3339 between them. */
  lemma ReadsBack(t: int)
    requires InRange(t)
    ensures var text, f := SystemTimeIso8601(t), Fields(t);
            && |text| == 30
            && Number(text[0..4]) == f[0] && Number(text[5..7]) == f[1] && Number(text[8..10]) == f[2]
            && Number(text[11..13]) == f[3] && Number(text[14..16]) == f[4] && Number(text[17..19]) == f[5]
            && Number(text[20..29]) == f[6]
            && text[4] == '-' && text[7] == '-' && text[10] == 'T' && text[13] == ':' && text[16] == ':' && text[19] == '.' && text[29] == 'Z'
  {
    var text, f := SystemTimeIso8601(t), Fields(t);
    AlwaysThirty(t);
    FieldsFit(t);
    assert text[0..] == text && f[0..] == f && WIDTHS[0..] == WIDTHS && MARKS[0..] == MARKS;
    ShowsDate(f, text);
    ShowsTime(f, text);
  }

  /** Over the years 0000 to 9999 text order is time order, and the text determines the instant. */
  lemma TextOrderIsTimeOrder(t: int, u: int)
    requires InRange(t) && InRange(u)
    ensures TextLess(SystemTimeIso8601(t), SystemTimeIso8601(u)) <==> t < u
    ensures SystemTimeIso8601(t) == SystemTimeIso8601(u) <==> t == u
  {
    FieldsFit(t);
    FieldsFit(u);
    RenderOrder(Fields(t), Fields(u), WIDTHS, MARKS);
    FieldsOrder(t, u);
  }

  /** The range, in days: 0000-01-01 to 9999-12-31, and with the years before it from -9999-01-01. */
  lemma RangeInDays(t: int)
    ensures InRange(t) <==> 0 <= DayOf(t) < 3_652_425
    ensures Convertible(t) <==> -3_652_059 <= DayOf(t) < 3_652_425
  {
    if DayOf(t) >= 0 { YearsBelow(DayOf(t), 10_000); }
  }

  lemma YearsBelow(day: nat, y: nat)
    ensures YearFrom(day, 0) < y <==> day < 365 * y + (y + 3) / 4 + (y + 399) / 400 - (y + 99) / 100
  {
    YearStartClosed(y);
    var r := YearFrom(day, 0);
    if r < y { YearStartMono(r + 1, y); } else { YearStartMono(y, r); }
  }

  // Midnight of 1 January of a year in range.
  lemma FirstMidnight(t: int, day: nat, y: nat)
    requires DayOf(t) == day == YearStart(y) && t % DAY == 0 && y <= 9999
    ensures InRange(t) && Fields(t) == [y, 1, 1, 0, 0, 0, 0]
  {
    var r := YearFrom(day, 0);
    if r < y { YearStartMono(r + 1, y); }
    if y < r { YearStartMono(y + 1, r); }
    FirstDay(day, y);
    Midnight(t % DAY);
    assert Calendar(Date(y, 1, 1)) + [0, 0, 0, 0] == [y, 1, 1, 0, 0, 0, 0];
  }

  lemma Midnight(n: nat)
    requires n == 0
    ensures Clock(n) == [0, 0, 0, 0]
  {
  }

  lemma FirstDay(day: nat, y: nat)
    requires YearFrom(day, 0) == y && day == YearStart(y)
    ensures Civil(day) == Date(y, 1, 1)
  {
    var d := Civil(day);
    if d.month > 1 { MonthStartMono(Leap(y), 0, d.month - 1); }
  }

  lemma EpochYear(y: nat)
    requires y == 1970
    ensures YearStart(y) == EPOCH_DAY
  {
    YearStartClosed(y);
  }

  lemma EpochFields(t: int, y: nat)
    requires t == 0 && y == 1970
    ensures InRange(t) && Fields(t) == [y, 1, 1, 0, 0, 0, 0]
  {
    EpochYear(y);
    FirstMidnight(t, EPOCH_DAY, y);
  }

  lemma Zeros(n: nat)
    requires n == 0
    ensures Padded(n, 2) == "00" && Padded(n, 9) == "000000000"
  {
    assert Padded(n, 1) == "0";
    assert Padded(n, 3) == "000";
    assert Padded(n, 5) == "00000";
    assert Padded(n, 7) == "0000000";
  }

  lemma Ones(n: nat)
    requires n == 1
    ensures Padded(n, 2) == "01"
  {
    Zeros(n / 10);
    assert Padded(n / 10, 1) == "0";
  }

  lemma Nineteen70(n: nat)
    requires n == 1970
    ensures Padded(n, 4) == "1970"
  {
    assert n / 10 == 197 && n / 10 / 10 == 19 && n / 10 / 10 / 10 == 1;
    assert Padded(n / 10 / 10 / 10, 1) == "1";
    assert Padded(n / 10 / 10, 2) == "19";
    assert Padded(n / 10, 3) == "197";
  }

  lemma EpochTime(zero: nat)
    requires zero == 0
    ensures Render([zero, zero, zero, zero], [2, 2, 2, 9], "::.Z") == "00:00:00.000000000Z"
  {
    Zeros(zero);
    RenderOne(zero, [], 9, [], 'Z', "");
    RenderOne(zero, [zero], 2, [9], '.', "Z");
    RenderOne(zero, [zero, zero], 2, [2, 9], ':', ".Z");
    RenderOne(zero, [zero, zero, zero], 2, [2, 2, 9], ':', ":.Z");
    assert [zero] + [] == [zero] && [9] + [] == [9] && ['Z'] + "" == "Z";
    assert [zero] + [zero] == [zero, zero] && [2] + [9] == [2, 9] && ['.'] + "Z" == ".Z";
    assert [zero] + [zero, zero] == [zero, zero, zero] && [2] + [2, 9] == [2, 2, 9] && [':'] + ".Z" == ":.Z";
    assert [zero] + [zero, zero, zero] == [zero, zero, zero, zero] && [2] + [2, 2, 9] == [2, 2, 2, 9] && [':'] + ":.Z" == "::.Z";
  }

  lemma EpochDate(y: nat, one: nat, time: seq<nat>, widths: seq<nat>, marks: string)
    requires y == 1970 && one == 1 && |time| == |widths| == |marks|
    ensures Render([y] + ([one] + ([one] + time)), [4] + ([2] + ([2] + widths)), ['-'] + (['-'] + (['T'] + marks)))
         == "1970-01-01T" + Render(time, widths, marks)
  {
    Nineteen70(y);
    Ones(one);
    RenderOne(one, time, 2, widths, 'T', marks);
    RenderOne(one, [one] + time, 2, [2] + widths, '-', ['T'] + marks);
    RenderOne(y, [one] + ([one] + time), 4, [2] + ([2] + widths), '-', ['-'] + (['T'] + marks));
  }

  lemma EpochRendered(f: seq<nat>)
    requires f == [1970, 1, 1, 0, 0, 0, 0]
    ensures Render(f, WIDTHS, MARKS) == EPOCH
  {
    var time := [f[3], f[3], f[3], f[3]];
    EpochTime(f[3]);
    EpochDate(f[0], f[1], time, [2, 2, 2, 9], "::.Z");
    assert f == [f[0]] + ([f[1]] + ([f[1]] + time));
    FormatSplits();
  }

  lemma FormatSplits()
    ensures WIDTHS == [4] + ([2] + ([2] + [2, 2, 2, 9]))
    ensures MARKS == ['-'] + (['-'] + (['T'] + "::.Z"))
    ensures EPOCH == "1970-01-01T" + "00:00:00.000000000Z"
  {
    var joined := "1970-01-01T" + "00:00:00.000000000Z";
    assert |EPOCH| == |joined|;
    forall i | 0 <= i < |joined| ensures EPOCH[i] == joined[i] {
    }
  }

  lemma EpochText(t: int)
    requires t == 0
    ensures InRange(t) && SystemTimeIso8601(t) == EPOCH
  {
    EpochFields(t, 1970);
    EpochRendered(Fields(t));
  }

  lemma RenderOne(v: nat, values: seq<nat>, w: nat, widths: seq<nat>, mark: char, marks: string)
    requires |values| == |widths| == |marks|
    ensures Render([v] + values, [w] + widths, [mark] + marks) == Padded(v, w) + [mark] + Render(values, widths, marks)
  {
    assert ([v] + values)[1..] == values && ([w] + widths)[1..] == widths && ([mark] + marks)[1..] == marks;
  }

  /** Before year 0 order is lost, and nowhere else: of the instants that have a text, exactly those
      share the text of the epoch. */
  lemma OutOfRangeReadsAsEpoch(t: int)
    requires Convertible(t)
    ensures SystemTimeIso8601(t) == EPOCH <==> t == 0 || DayOf(t) < 0
  {
    if InRange(t) { OnlyTheEpoch(t, 0); }
  }

  lemma OnlyTheEpoch(t: int, zero: int)
    requires InRange(t) && zero == 0
    ensures SystemTimeIso8601(t) == EPOCH <==> t == zero
  {
    EpochText(zero);
    TextOrderIsTimeOrder(t, zero);
  }

  lemma {:induction false} RenderedLength(values: seq<nat>, widths: seq<nat>, marks: string)
    requires |values| == |widths| == |marks| && values != []
    ensures |Render(values, widths, marks)| == widths[0] + 1 + |Render(values[1..], widths[1..], marks[1..])|
  {
  }

  /** Every instant that has a text has one of 30 characters. */
  lemma AlwaysThirty(t: int)
    requires Convertible(t)
    ensures |SystemTimeIso8601(t)| == 30
  {
    if InRange(t) {
      var v := Fields(t);
      var v1, w1, m1 := v[1..], WIDTHS[1..], MARKS[1..];
      var v2, w2, m2 := v1[1..], w1[1..], m1[1..];
      var v3, w3, m3 := v2[1..], w2[1..], m2[1..];
      var v4, w4, m4 := v3[1..], w3[1..], m3[1..];
      var v5, w5, m5 := v4[1..], w4[1..], m4[1..];
      var v6, w6, m6 := v5[1..], w5[1..], m5[1..];
      RenderedLength(v, WIDTHS, MARKS);
      RenderedLength(v1, w1, m1);
      RenderedLength(v2, w2, m2);
      RenderedLength(v3, w3, m3);
      RenderedLength(v4, w4, m4);
      RenderedLength(v5, w5, m5);
      RenderedLength(v6, w6, m6);
    }
  }
}
