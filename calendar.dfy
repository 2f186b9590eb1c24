/**
 * The clock reading the handlers take from `new Date()`, as a Gregorian
 * calendar date. Local time and UTC are treated as the same day.
 */
module Calendar {

  /** A calendar date; `month` is 1..12 as in ISO 8601 (JavaScript's `getMonth()` is `month - 1`). */
  datatype Moment = Moment(year: int, month: int, day: int)

  predicate IsLeapYear(y: int) {
    (y % 4 == 0 && y % 100 != 0) || y % 400 == 0
  }

  function DaysInMonth(y: int, m: int): int
    requires 1 <= m <= 12
  {
    if m == 2 then (if IsLeapYear(y) then 29 else 28)
    else if m == 4 || m == 6 || m == 9 || m == 11 then 30
    else 31
  }

  function DaysInYear(y: int): int {
    if IsLeapYear(y) then 366 else 365
  }

  /** Days of the year that come before the first of month `m`. */
  function DaysBeforeMonth(y: int, m: int): (r: nat)
    requires 1 <= m <= 12
    ensures r + DaysInMonth(y, m) <= DaysInYear(y)
  {
    [0, 31, 59, 90, 120, 151, 181, 212, 243, 273, 304, 334][m - 1]
      + (if IsLeapYear(y) && m > 2 then 1 else 0)
  }

  /**
   * A date the model accepts as "now". Years are four digits, so that
   * `getFullYear()` and the year of `toISOString()` render alike.
   */
  predicate Valid(t: Moment) {
    1000 <= t.year <= 9999 && 1 <= t.month <= 12 && 1 <= t.day <= DaysInMonth(t.year, t.month)
  }

  /** Whole days since January 1 of the same year (0 on January 1). */
  function DayOfYear(t: Moment): (r: nat)
    requires Valid(t)
    ensures r < DaysInYear(t.year)
  {
    DaysBeforeMonth(t.year, t.month) + t.day - 1
  }

  /** Weekday of January 1 of year `y`, 0 = Sunday (Gauss's formula), as `getDay()` numbers it. */
  function JanFirstWeekday(y: int): (w: nat)
    ensures w < 7
  {
    (1 + 5 * ((y - 1) % 4) + 4 * ((y - 1) % 100) + 6 * ((y - 1) % 400)) % 7
  }

  /** Weekday of the date, 0 = Sunday. */
  function Weekday(t: Moment): (w: nat)
    requires Valid(t)
    ensures w < 7
  {
    (JanFirstWeekday(t.year) + DayOfYear(t)) % 7
  }

  /** January 1 of the next year falls `DaysInYear(y)` days later in the week: Gauss's formula agrees with the calendar. */
  lemma JanFirstAdvances(y: int)
    ensures JanFirstWeekday(y + 1) == (JanFirstWeekday(y) + DaysInYear(y)) % 7
  {
    var a := y - 1;
    var r4, r100, r400 := a % 4, a % 100, a % 400;
    var x := 1 + 5 * r4 + 4 * r100 + 6 * r400;
    var x' := 1 + 5 * ((a + 1) % 4) + 4 * ((a + 1) % 100) + 6 * ((a + 1) % 400);
    ModSucc(a, 4);
    ModSucc(a, 100);
    ModSucc(a, 400);
    ModNested(a);
    assert IsLeapYear(y) <==> r4 == 3 && (r100 != 99 || r400 == 399);
    var k: int;
    if r4 != 3 {
      k := -50;
    } else if r100 != 99 {
      k := -53;
    } else if r400 != 399 {
      k := -110;
    } else {
      k := -453;
    }
    assert x' == x + DaysInYear(y) + 7 * k;
    ModSevenShift(x + DaysInYear(y), k);
    ModSevenShift(x % 7 + DaysInYear(y), x / 7);
  }

  lemma ModSucc(a: int, m: int)
    requires m == 4 || m == 100 || m == 400
    ensures (a + 1) % m == if a % m == m - 1 then 0 else a % m + 1
  {
    var q, r := a / m, a % m;
    assert a == m * q + r && 0 <= r < m;
    if r == m - 1 {
      assert a + 1 == m * (q + 1);
      ModOfMultiple(q + 1, m);
    } else {
      assert a + 1 == m * q + (r + 1);
      ModOfSum(q, r + 1, m);
    }
  }

  lemma ModOfMultiple(q: int, m: int)
    requires m == 4 || m == 100 || m == 400
    ensures (m * q) % m == 0
  {
    if m == 4 {
      assert (4 * q) % 4 == 0;
    } else if m == 100 {
      assert (100 * q) % 100 == 0;
    } else {
      assert (400 * q) % 400 == 0;
    }
  }

  lemma ModOfSum(q: int, r: int, m: int)
    requires m == 4 || m == 100 || m == 400
    requires 0 <= r < m
    ensures (m * q + r) % m == r
  {
    if m == 4 {
      assert (4 * q + r) % 4 == r;
    } else if m == 100 {
      assert (100 * q + r) % 100 == r;
    } else {
      assert (400 * q + r) % 400 == r;
    }
  }

  /** The remainder by 100 determines the remainder by 4, and the remainder by 400 the one by 100. */
  lemma ModNested(a: int)
    ensures (a % 100) % 4 == a % 4
    ensures (a % 400) % 100 == a % 100
  {
    var q, r := a / 100, a % 100;
    assert a == 100 * q + r;
    assert r == 4 * (r / 4) + r % 4;
    assert a == 4 * (25 * q + r / 4) + r % 4;
    ModOfSum(25 * q + r / 4, r % 4, 4);
    var p, t := a / 400, a % 400;
    assert a == 400 * p + t;
    assert t == 100 * (t / 100) + t % 100;
    assert a == 100 * (4 * p + t / 100) + t % 100;
    ModOfSum(4 * p + t / 100, t % 100, 100);
  }

  lemma ModSevenShift(n: int, k: int)
    ensures (n + 7 * k) % 7 == n % 7
  {
  }
}
