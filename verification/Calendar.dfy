/** The proleptic Gregorian calendar that Go's time package uses, over all years, and the
    nanoseconds of a wall clock. */
module Calendar {
  import opened Division

  // ---- Years ------------------------------------------------------------------

  predicate IsLeap(y: int) { y % 4 == 0 && (y % 100 != 0 || y % 400 == 0) }

  function YearLength(y: int): nat { if IsLeap(y) then 366 else 365 }

  /** Days from 1 January of the year 1 to 1 January of `y`. */
  function YearStart(y: int): int {
    365 * (y - 1) + (y - 1) / 4 - (y - 1) / 100 + (y - 1) / 400
  }

  lemma YearStartStep(y: int)
    ensures YearStart(y + 1) == YearStart(y) + YearLength(y)
  {
    NextQuotient(y, 4);
    NextQuotient(y, 100);
    NextQuotient(y, 400);
  }

  lemma {:induction false} YearStartGrows(y: int, z: int)
    requires y <= z
    ensures YearStart(y) + 365 * (z - y) <= YearStart(z)
    decreases z - y
  {
    if y < z {
      YearStartGrows(y, z - 1);
      YearStartStep(z - 1);
    }
  }

  /** The year a day is in: Go takes cycles of 400, 100, 4 and 1 years off in turn, and cuts a
      hundredth hundred and a fourth single year short. */
  function YearOf(day: int): int {
    var c400, r400 := day / 146097, day % 146097;
    var n100 := r400 / 36524;
    var c100 := n100 - n100 / 4;
    var r100 := r400 - 36524 * c100;
    var c4, r4 := r100 / 1461, r100 % 1461;
    var n1 := r4 / 365;
    400 * c400 + 100 * c100 + 4 * c4 + (n1 - n1 / 4) + 1
  }

  lemma CycleStart(a: int, b: int, c: int, e: int)
    requires 0 <= b <= 3 && 0 <= c <= 24 && 0 <= e <= 3
    ensures YearStart(400 * a + 100 * b + 4 * c + e + 1) == 146097 * a + 36524 * b + 1461 * c + 365 * e
  {
    var n := 400 * a + 100 * b + 4 * c + e;
    QuotientIs(n, 4, 100 * a + 25 * b + c, e);
    QuotientIs(n, 100, 4 * a + b, 4 * c + e);
    QuotientIs(n, 400, a, 100 * b + 4 * c + e);
  }

  lemma CycleLength(a: int, b: int, c: int, e: int)
    requires 0 <= b <= 3 && 0 <= c <= 24 && 0 <= e <= 3
    ensures YearLength(400 * a + 100 * b + 4 * c + e + 1) ==
              if e == 3 && (c < 24 || b == 3) then 366 else 365
  {
    var y := 400 * a + 100 * b + 4 * c + e + 1;
    QuotientIs(y, 4, 100 * a + 25 * b + c + (if e == 3 then 1 else 0), if e == 3 then 0 else e + 1);
    var h := 4 * c + e + 1;
    QuotientIs(y, 100, 4 * a + b + (if h == 100 then 1 else 0), if h == 100 then 0 else h);
    QuotientIs(y, 400, a + (if b == 3 && h == 100 then 1 else 0), if b == 3 && h == 100 then 0 else 100 * b + h);
  }

  /** What is left in a cycle once the cut quotients have been taken off. */
  lemma Remainders(r400: int)
    requires 0 <= r400 < 146097
    ensures var b := r400 / 36524 - r400 / 36524 / 4;
            var r100 := r400 - 36524 * b;
            var c, r4 := r100 / 1461, r100 % 1461;
            var e := r4 / 365 - r4 / 365 / 4;
            && 0 <= b <= 3 && 0 <= c <= 24 && 0 <= e <= 3
            && 0 <= r4 - 365 * e < (if e == 3 && (c < 24 || b == 3) then 366 else 365)
  {
    var b := r400 / 36524 - r400 / 36524 / 4;
    var r100 := r400 - 36524 * b;
    assert 0 <= b <= 3 && 0 <= r100 < (if b == 3 then 36525 else 36524);
    var r4 := r100 % 1461;
    var e := r4 / 365 - r4 / 365 / 4;
    assert 0 <= e <= 3 && 0 <= r4 - 365 * e <= 365;
  }

  /** The fast form finds the year a search over years would find. */
  lemma YearOfContains(day: int)
    ensures YearStart(YearOf(day)) <= day < YearStart(YearOf(day) + 1)
  {
    var a, r400 := day / 146097, day % 146097;
    var b := r400 / 36524 - r400 / 36524 / 4;
    var r100 := r400 - 36524 * b;
    var c, r4 := r100 / 1461, r100 % 1461;
    var e := r4 / 365 - r4 / 365 / 4;
    Remainders(r400);
    assert day == 146097 * a + 36524 * b + 1461 * c + r4;
    assert YearOf(day) == 400 * a + 100 * b + 4 * c + e + 1;
    CycleStart(a, b, c, e);
    CycleLength(a, b, c, e);
    YearStartStep(YearOf(day));
    hide YearStart, YearLength, YearOf;
  }

  // ---- Days -------------------------------------------------------------------

  function DaysIn(y: int, m: int): nat {
    if m == 2 then (if IsLeap(y) then 29 else 28)
    else if m == 4 || m == 6 || m == 9 || m == 11 then 30
    else 31
  }

  predicate ValidDate(y: int, m: int, d: int) { 1 <= m <= 12 && 1 <= d <= DaysIn(y, m) }

  /** Days of the year before the first of the month. */
  function MonthStart(y: int, m: nat): nat
    requires 1 <= m <= 13
  {
    if m == 1 then 0 else MonthStart(y, m - 1) + DaysIn(y, m - 1)
  }

  lemma MonthStarts(y: int)
    ensures var l := if IsLeap(y) then 1 else 0;
            && MonthStart(y, 1) == 0 && MonthStart(y, 2) == 31 && MonthStart(y, 3) == 59 + l
            && MonthStart(y, 4) == 90 + l && MonthStart(y, 5) == 120 + l && MonthStart(y, 6) == 151 + l
            && MonthStart(y, 7) == 181 + l && MonthStart(y, 8) == 212 + l && MonthStart(y, 9) == 243 + l
            && MonthStart(y, 10) == 273 + l && MonthStart(y, 11) == 304 + l && MonthStart(y, 12) == 334 + l
            && MonthStart(y, 13) == 365 + l == YearLength(y)
  {
    assert MonthStart(y, 2) == 31;
    assert MonthStart(y, 12) == MonthStart(y, 11) + 30;
  }

  lemma {:induction false} MonthStartGrows(y: int, m: nat, n: nat)
    requires 1 <= m <= n <= 13
    ensures MonthStart(y, m) <= MonthStart(y, n)
  {
    if m < n { MonthStartGrows(y, m, n - 1); }
  }

  /** The month a day of the year is in: the last one, of those up to `m`, that has begun. */
  function MonthOf(y: int, yday: nat, m: nat): (r: nat)
    requires 1 <= m <= 12
    ensures 1 <= r <= m && MonthStart(y, r) <= yday
    ensures r < m ==> yday < MonthStart(y, r + 1)
  {
    if m == 1 || MonthStart(y, m) <= yday then m else MonthOf(y, yday, m - 1)
  }

  /** The day of 1 January 1970, counted from 1 January of the year 1. */
  const EPOCH := 719162

  /** Days since 1 January 1970. */
  function DayNumber(y: int, m: int, d: int): int
    requires 1 <= m <= 12
  {
    YearStart(y) + MonthStart(y, m) + d - 1 - EPOCH
  }

  function DateOf(n: int): (r: (int, int, int))
    ensures ValidDate(r.0, r.1, r.2) && DayNumber(r.0, r.1, r.2) == n
  {
    var y := YearOf(n + EPOCH);
    YearOfContains(n + EPOCH);
    YearStartStep(y);
    MonthStarts(y);
    var yday := n + EPOCH - YearStart(y);
    var m := MonthOf(y, yday, 12);
    (y, m, yday - MonthStart(y, m) + 1)
  }

  lemma InYear(y: int, m: int, d: int)
    requires ValidDate(y, m, d)
    ensures YearStart(y) <= DayNumber(y, m, d) + EPOCH < YearStart(y + 1)
  {
    YearStartStep(y);
    MonthStarts(y);
    MonthStartGrows(y, m + 1, 13);
  }

  /** Dates are ordered as their days are. */
  predicate DateBefore(y: int, m: int, d: int, y': int, m': int, d': int) {
    y < y' || (y == y' && (m < m' || (m == m' && d < d')))
  }

  lemma DaysInOrder(y: int, m: int, d: int, y': int, m': int, d': int)
    requires ValidDate(y, m, d) && ValidDate(y', m', d') && DateBefore(y, m, d, y', m', d')
    ensures DayNumber(y, m, d) < DayNumber(y', m', d')
  {
    InYear(y, m, d);
    InYear(y', m', d');
    if y < y' {
      YearStartGrows(y + 1, y');
    } else if m < m' {
      MonthStartGrows(y, m + 1, m');
    }
    hide YearStart;
  }

  /** A day number has one date. */
  lemma DateOfDay(y: int, m: int, d: int)
    requires ValidDate(y, m, d)
    ensures DateOf(DayNumber(y, m, d)) == (y, m, d)
  {
    var (y', m', d') := DateOf(DayNumber(y, m, d));
    hide DayNumber, DaysIn, DateOf;
    if DateBefore(y, m, d, y', m', d') { DaysInOrder(y, m, d, y', m', d'); }
    if DateBefore(y', m', d', y, m, d) { DaysInOrder(y', m', d', y, m, d); }
  }

  // ---- Wall clocks --------------------------------------------------------------

  const SECOND := 1_000_000_000

  /** The nanoseconds of so many seconds; the whole seconds of an instant, rounded down; and what
      is left of it. */
  function Nanos(seconds: int): int { seconds * 1_000_000_000 }

  function Unix(t: int): int { t / 1_000_000_000 }

  function Nano(t: int): nat { t % 1_000_000_000 }

  datatype Civil = Civil(year: int, month: int, day: int, hour: int, minute: int, second: int, nano: int)

  predicate ValidCivil(c: Civil) {
    && ValidDate(c.year, c.month, c.day)
    && 0 <= c.hour < 24 && 0 <= c.minute < 60 && 0 <= c.second < 60 && 0 <= c.nano < SECOND
  }

  /** Nanoseconds since 1 January 1970, as the clock on the wall counts them. */
  function WallOf(c: Civil): int
    requires ValidCivil(c)
  {
    Nanos(DayNumber(c.year, c.month, c.day) * 86400 + c.hour * 3600 + c.minute * 60 + c.second) + c.nano
  }

  function CivilOf(wall: int): Civil {
    var seconds := Unix(wall);
    var (y, m, d) := DateOf(seconds / 86400);
    var s := seconds % 86400;
    Civil(y, m, d, s / 3600, s % 3600 / 60, s % 60, Nano(wall))
  }

  lemma ClockParts(s: int)
    requires 0 <= s < 86400
    ensures 0 <= s / 3600 < 24 && 0 <= s % 3600 / 60 < 60 && 0 <= s % 60 < 60
    ensures s / 3600 * 3600 + s % 3600 / 60 * 60 + s % 60 == s
  {
    QuotientIs(s % 3600, 60, s % 3600 / 60, s % 60);
  }

  lemma CivilOfIsWhole(wall: int)
    ensures ValidCivil(CivilOf(wall)) && WallOf(CivilOf(wall)) == wall
  {
    var seconds := Unix(wall);
    var (y, m, d) := DateOf(seconds / 86400);
    ClockParts(seconds % 86400);
    hide DateOf, DayNumber, DaysIn;
    assert wall == Nanos(seconds) + Nano(wall);
  }

  predicate Earlier(c: Civil, e: Civil) {
    DateBefore(c.year, c.month, c.day, e.year, e.month, e.day) ||
    (c.year == e.year && c.month == e.month && c.day == e.day &&
     (c.hour < e.hour || (c.hour == e.hour &&
      (c.minute < e.minute || (c.minute == e.minute &&
       (c.second < e.second || (c.second == e.second && c.nano < e.nano)))))))
  }

  lemma WallsInOrder(c: Civil, e: Civil)
    requires ValidCivil(c) && ValidCivil(e) && Earlier(c, e)
    ensures WallOf(c) < WallOf(e)
  {
    if DateBefore(c.year, c.month, c.day, e.year, e.month, e.day) {
      DaysInOrder(c.year, c.month, c.day, e.year, e.month, e.day);
    }
    hide DayNumber, DaysIn;
  }

  /** Wall clocks read field by field are ordered as the nanoseconds they show. */
  lemma EarlierIsLess(c: Civil, e: Civil)
    requires ValidCivil(c) && ValidCivil(e)
    ensures Earlier(c, e) <==> WallOf(c) < WallOf(e)
    ensures c == e <==> WallOf(c) == WallOf(e)
  {
    assert c == e || Earlier(c, e) || Earlier(e, c);
    hide Earlier, WallOf, ValidCivil;
    if Earlier(c, e) { WallsInOrder(c, e); }
    if Earlier(e, c) { WallsInOrder(e, c); }
  }

  lemma CivilOfWall(c: Civil)
    requires ValidCivil(c)
    ensures CivilOf(WallOf(c)) == c
  {
    CivilOfIsWhole(WallOf(c));
    EarlierIsLess(CivilOf(WallOf(c)), c);
  }
}
