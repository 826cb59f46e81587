/**
 Civil dates from day counts: `civil_from_days` and `rfc3339`
 (crates/loadsmith-cli/src/run_summary.rs) and the second copy of the same
 arithmetic, `utc` (crates/loadsmith-plugin-sdk/src/object_key.rs).

 The reference is the Gregorian calendar itself: leap years, month lengths and
 the number of days before a date. `/` rounds down, as `div_euclid` does here.

 The code counts in eras of 400 years that begin on the first of March, so that
 the leap day comes last. The proof takes its divisions one at a time (century,
 year, month), bounds each remainder, and then moves the year's start back to
 January.
 */
module Calendar {
  datatype Date = Date(year: int, month: int, day: int)

  // ----- the calendar (RFC 3339, sections 5.1, 5.6 and 5.7, appendix C) ------------

  predicate IsLeap(y: int) { y % 4 == 0 && (y % 100 != 0 || y % 400 == 0) }

  function DaysInMonth(y: int, m: int): int {
    if m == 2 then (if IsLeap(y) then 29 else 28)
    else if m == 4 || m == 6 || m == 9 || m == 11 then 30
    else 31
  }

  predicate Valid(d: Date) { 1 <= d.month <= 12 && 1 <= d.day <= DaysInMonth(d.year, d.month) }

  /** The day after. */
  function NextDate(d: Date): Date {
    if d.day < DaysInMonth(d.year, d.month) then d.(day := d.day + 1)
    else if d.month < 12 then Date(d.year, d.month + 1, 1)
    else Date(d.year + 1, 1, 1)
  }

  /** Leap years up to and including `y`, counted from year 1. */
  function Leaps(y: int): int { y / 4 - y / 100 + y / 400 }

  function DaysBeforeMonth(y: int, m: int): int
    requires 1 <= m <= 12
    decreases m
  {
    if m == 1 then 0 else DaysBeforeMonth(y, m - 1) + DaysInMonth(y, m - 1)
  }

  /** Days from 1970-01-01 to a date. */
  function DayNumber(d: Date): int
    requires 1 <= d.month <= 12
  {
    365 * (d.year - 1970) + Leaps(d.year - 1) - Leaps(1969) + DaysBeforeMonth(d.year, d.month) + d.day - 1
  }

  // ----- the code -------------------------------------------------------------------

  function YearOfEra(doe: int): int { (doe - doe / 1460 + doe / 36524 - doe / 146096) / 365 }

  /** Days since 1970-01-01 to a date. */
  function CivilFromDays(days: int): Date {
    var z := days + 719468;
    var era := z / 146097;
    var doe := z % 146097;
    var yoe := YearOfEra(doe);
    var doy := doe - (365 * yoe + yoe / 4 - yoe / 100);
    var mp := (5 * doy + 2) / 153;
    var d := doy - (153 * mp + 2) / 5 + 1;
    var m := if mp < 10 then mp + 3 else mp - 9;
    Date(yoe + era * 400 + (if m <= 2 then 1 else 0), m, d)
  }

  // ----- the arithmetic of one era -----------------------------------------------------

  /** Days of an era before its year `y` (years run from March). */
  function EraDays(y: int): int { 365 * y + y / 4 - y / 100 }

  /** A day of an era as century, four-year group, year and day of the year. */
  lemma EraParts(doe: int) returns (c: int, q: int, k: int, doy: int)
    requires 0 <= doe < 146097
    ensures 0 <= c <= 3 && 0 <= q <= 24 && 0 <= k <= 3 && 0 <= doy <= 365
    ensures doe == 36524 * c + 1461 * q + 365 * k + doy
    ensures doy == 365 ==> k == 3 && (q == 24 ==> c == 3)
  {
    c := if doe == 146096 then 3 else doe / 36524;
    var r := doe - 36524 * c;
    q := r / 1461;
    var s := r - 1461 * q;
    k := if s == 1460 then 3 else s / 365;
    doy := s - 365 * k;
  }

  lemma YearOfEraOfParts(c: int, q: int, k: int, doy: int)
    requires 0 <= c <= 3 && 0 <= q <= 24 && 0 <= k <= 3 && 0 <= doy <= 365
    requires doy == 365 ==> k == 3 && (q == 24 ==> c == 3)
    ensures YearOfEra(36524 * c + 1461 * q + 365 * k + doy) == 100 * c + 4 * q + k
    ensures EraDays(100 * c + 4 * q + k) == 36524 * c + 1461 * q + 365 * k
  {
    var doe := 36524 * c + 1461 * q + 365 * k + doy;
    var y := 100 * c + 4 * q + k;
    var t, r := 24 * c + q + 365 * k + doy, 1461 * q + 365 * k + doy;
    var carry, last := if t >= 1460 then 1 else 0, if r == 36524 then 1 else 0;
    Quotients(doe, c, q, t, r, carry, last);
    DivIs(y, 4, 25 * c + q, k);
    DivIs(y, 100, c, 4 * q + k);
    DivIs(365 * y + doy - carry, 365, y, doy - carry);
  }

  lemma Quotients(doe: int, c: int, q: int, t: int, r: int, carry: int, last: int)
    requires doe == 1460 * (25 * c + q) + t && 0 <= t < 2920 && carry == if t >= 1460 then 1 else 0
    requires doe == 36524 * c + r && 0 <= r <= 36524 && last == if r == 36524 then 1 else 0
    requires 0 <= doe && if last == 1 then doe == 146096 else doe < 146096
    ensures doe / 1460 == 25 * c + q + carry && doe / 36524 == c + last && doe / 146096 == last
  {
    DivIs(doe, 1460, 25 * c + q + carry, t - 1460 * carry);
    DivIs(doe, 36524, c + last, r - 36524 * last);
    DivIs(doe, 146096, last, doe - 146096 * last);
  }

  lemma DivIs(n: int, d: int, q: int, r: int)
    requires d > 0 && n == d * q + r && 0 <= r < d
    ensures n / d == q && n % d == r
  {
    var x := n / d;
    assert d * x <= n < d * x + d;
    if x < q { TimesKeepsOrder(d, x + 1, q); }
    if q < x { TimesKeepsOrder(d, q + 1, x); }
  }

  lemma TimesKeepsOrder(d: int, a: int, b: int)
    requires d > 0 && a <= b
    ensures d * a <= d * b
  {
  }

  /** The year of an era that a day belongs to, and its day of that year. */
  lemma YearAndDay(doe: int)
    requires 0 <= doe < 146097
    ensures var y := YearOfEra(doe);
            && 0 <= y <= 399 && 0 <= doe - EraDays(y) <= 365
            && (doe - EraDays(y) == 365 ==> IsLeap(y + 1))
  {
    var c, q, k, doy := EraParts(doe);
    YearOfEraOfParts(c, q, k, doy);
    if doy == 365 {
      var y := 100 * c + 4 * q + 3;
      DivIs(y + 1, 4, 25 * c + q + 1, 0);
      if q < 24 {
        DivIs(y + 1, 100, c, 4 * q + 4);
      }
    }
  }

  /** A year of an era and a day of it fix the day of the era. */
  lemma YearIsUnique(y: int, doy: int)
    requires 0 <= y <= 399 && 0 <= doy <= 365 && (doy == 365 ==> IsLeap(y + 1))
    ensures 0 <= EraDays(y) + doy < 146097 && YearOfEra(EraDays(y) + doy) == y
  {
    var c, q, k := y / 100, y % 100 / 4, y % 4;
    assert y % 100 % 4 == y % 4 by { DivIs(y, 4, 25 * (y / 100) + y % 100 / 4, y % 100 % 4); }
    assert y == 100 * c + 4 * q + k;
    if doy == 365 {
      DivIs(y + 1, 4, 25 * c + q + (if k == 3 then 1 else 0), if k == 3 then 0 else k + 1);
      if q == 24 && k == 3 {
        assert (y + 1) % 100 == 0 by { DivIs(y + 1, 100, c + 1, 0); }
        DivIs(y + 1, 400, (c + 1) / 4, 100 * ((c + 1) % 4));
      }
    }
    YearOfEraOfParts(c, q, k, doy);
  }

  /** Days of a March-based year before its month `mp` (0 is March). */
  function MonthDays(mp: int): int { (153 * mp + 2) / 5 }

  /** The month and day of the month of a day of a March-based year. */
  lemma MonthAndDay(doy: int)
    requires 0 <= doy <= 365
    ensures var mp := (5 * doy + 2) / 153;
            && 0 <= mp <= 11 && MonthDays(mp) <= doy && (mp < 11 ==> doy < MonthDays(mp + 1))
  {
  }

  lemma MonthIsUnique(mp: int, doy: int)
    requires 0 <= mp <= 11 && MonthDays(mp) <= doy <= 365 && (mp < 11 ==> doy < MonthDays(mp + 1))
    ensures (5 * doy + 2) / 153 == mp
  {
  }

  /** March-based months have the calendar's lengths. */
  lemma MonthLengths(mp: int, y: int)
    requires 0 <= mp <= 10
    ensures MonthDays(mp + 1) - MonthDays(mp) == DaysInMonth(y, if mp < 10 then mp + 3 else mp - 9)
  {
  }

  /** The calendar's days before a month, from the March-based count. */
  lemma DaysBeforeMonthIs(y: int, m: int)
    requires 1 <= m <= 12
    ensures DaysBeforeMonth(y, m)
            == if m > 2 then MonthDays(m - 3) + 59 + (if IsLeap(y) then 1 else 0) else MonthDays(m + 9) - 306
  {
    if m == 3 {
      assert DaysBeforeMonth(y, 2) == DaysBeforeMonth(y, 1) + 31;
    } else if m > 3 {
      DaysBeforeMonthIs(y, m - 1);
      MonthLengths(m - 4, y);
    }
  }

  lemma FloorStep(y: int, d: int)
    requires d > 0
    ensures y / d == (y - 1) / d + if y % d == 0 then 1 else 0
  {
    var q, r := y / d, y % d;
    assert y == d * q + r;
    if r == 0 {
      assert y - 1 == d * (q - 1) + (d - 1);
      DivIs(y - 1, d, q - 1, d - 1);
    } else {
      DivIs(y - 1, d, q, r - 1);
    }
  }

  lemma Multiples(y: int)
    ensures y % 400 == 0 ==> y % 100 == 0
    ensures y % 100 == 0 ==> y % 4 == 0
  {
    if y % 400 == 0 { DivIs(y, 100, 4 * (y / 400), 0); }
    if y % 100 == 0 { DivIs(y, 4, 25 * (y / 100), 0); }
  }

  /** Leap years are the years at which the count of leap years grows. */
  lemma LeapsStep(y: int)
    ensures Leaps(y) == Leaps(y - 1) + if IsLeap(y) then 1 else 0
  {
    FloorStep(y, 4);
    FloorStep(y, 100);
    FloorStep(y, 400);
    Multiples(y);
  }

  /** A March-based year, by era. */
  lemma LeapsOfEra(yoe: int, era: int)
    requires 0 <= yoe <= 399
    ensures Leaps(yoe + 400 * era) == yoe / 4 - yoe / 100 + 97 * era
    ensures IsLeap(yoe + 400 * era + 1) == IsLeap(yoe + 1)
  {
    var y := yoe + 400 * era;
    DivIs(y, 4, yoe / 4 + 100 * era, yoe % 4);
    DivIs(y, 100, yoe / 100 + 4 * era, yoe % 100);
    DivIs(y, 400, era, yoe);
    DivIs(y + 1, 4, (yoe + 1) / 4 + 100 * era, (yoe + 1) % 4);
    DivIs(y + 1, 100, (yoe + 1) / 100 + 4 * era, (yoe + 1) % 100);
    DivIs(y + 1, 400, (yoe + 1) / 400 + era, (yoe + 1) % 400);
  }

  /** The day number of a date given as March-based year, month and day of month. */
  lemma DayNumberOf(era: int, yoe: int, mp: int, d: int)
    requires 0 <= yoe <= 399 && 0 <= mp <= 11
    ensures var m := if mp < 10 then mp + 3 else mp - 9;
            DayNumber(Date(yoe + 400 * era + (if m <= 2 then 1 else 0), m, d))
            == 146097 * era + EraDays(yoe) + MonthDays(mp) + d - 1 - 719468
  {
    var m := if mp < 10 then mp + 3 else mp - 9;
    var y := yoe + 400 * era;
    LeapsOfEra(yoe, era);
    LeapsStep(y);
    if m > 2 {
      DaysBeforeMonthIs(y, m);
      hide DaysBeforeMonth, IsLeap;
      assert Leaps(1969) == 477;
    } else {
      DaysBeforeMonthIs(y + 1, m);
      hide DaysBeforeMonth, IsLeap;
      assert Leaps(1969) == 477;
    }
  }

  // ----- the theorems ---------------------------------------------------------------

  /** What the code computes, as era, year, month and day of month. */
  lemma CivilParts(days: int) returns (era: int, yoe: int, mp: int, d: int)
    ensures 0 <= yoe <= 399 && 0 <= mp <= 11 && d >= 1
    ensures var doy := MonthDays(mp) + d - 1;
            doy <= 365 && (mp < 11 ==> doy < MonthDays(mp + 1)) && (doy == 365 ==> IsLeap(yoe + 1))
    ensures 146097 * era + EraDays(yoe) + MonthDays(mp) + d - 1 - 719468 == days
    ensures var m := if mp < 10 then mp + 3 else mp - 9;
            CivilFromDays(days) == Date(yoe + 400 * era + (if m <= 2 then 1 else 0), m, d)
  {
    var z := days + 719468;
    var doe := z % 146097;
    YearAndDay(doe);
    era, yoe := z / 146097, YearOfEra(doe);
    var doy := doe - EraDays(yoe);
    MonthAndDay(doy);
    mp := (5 * doy + 2) / 153;
    d := doy - MonthDays(mp) + 1;
    hide YearOfEra, IsLeap;
  }

  /** A day of a month that lies in its year is a day of the calendar's month. */
  lemma PartsAreValid(era: int, yoe: int, mp: int, d: int)
    requires 0 <= yoe <= 399 && 0 <= mp <= 11 && d >= 1
    requires var doy := MonthDays(mp) + d - 1;
             doy <= 365 && (mp < 11 ==> doy < MonthDays(mp + 1)) && (doy == 365 ==> IsLeap(yoe + 1))
    ensures var m := if mp < 10 then mp + 3 else mp - 9;
            Valid(Date(yoe + 400 * era + (if m <= 2 then 1 else 0), m, d))
  {
    LeapsOfEra(yoe, era);
    hide IsLeap, Leaps;
    if mp < 11 { MonthLengths(mp, yoe + 400 * era + if mp == 10 then 1 else 0); }
  }

  /** For every day count, before and after 1970: a valid date, and the one with
      that day number. */
  lemma CivilIsTheDate(days: int)
    ensures Valid(CivilFromDays(days)) && DayNumber(CivilFromDays(days)) == days
  {
    hide CivilFromDays, Valid, DayNumber, IsLeap;
    var era, yoe, mp, d := CivilParts(days);
    DayNumberOf(era, yoe, mp, d);
    PartsAreValid(era, yoe, mp, d);
  }

  /** The code on a day given by era, year, month and day of month. */
  lemma CivilOf(era: int, yoe: int, mp: int, d: int)
    requires 0 <= yoe <= 399 && 0 <= mp <= 11 && d >= 1
    requires var doy := MonthDays(mp) + d - 1;
             doy <= 365 && (mp < 11 ==> doy < MonthDays(mp + 1)) && (doy == 365 ==> IsLeap(yoe + 1))
    ensures var m := if mp < 10 then mp + 3 else mp - 9;
            CivilFromDays(146097 * era + EraDays(yoe) + MonthDays(mp) + d - 1 - 719468)
            == Date(yoe + 400 * era + (if m <= 2 then 1 else 0), m, d)
  {
    hide YearOfEra, IsLeap;
    var doy := MonthDays(mp) + d - 1;
    var doe := EraDays(yoe) + doy;
    YearIsUnique(yoe, doy);
    MonthIsUnique(mp, doy);
    DivIs(146097 * era + doe, 146097, era, doe);
  }

  /** A valid day of a month lies in its March-based year. */
  lemma DayFits(y: int, m: int, d: int, mp: int)
    requires 1 <= m <= 12 && 1 <= d <= DaysInMonth(y, m) && mp == if m > 2 then m - 3 else m + 9
    ensures var doy := MonthDays(mp) + d - 1;
            doy <= 365 && (mp < 11 ==> doy < MonthDays(mp + 1)) && (doy == 365 ==> mp == 11 && IsLeap(y))
  {
    hide IsLeap;
    if mp < 11 { MonthLengths(mp, y); }
  }

  /** Every valid date comes from exactly its day number. */
  lemma CivilUndoesDayNumber(date: Date)
    requires Valid(date)
    ensures CivilFromDays(DayNumber(date)) == date
  {
    hide YearOfEra, IsLeap, Leaps, CivilFromDays, DayNumber, DaysInMonth, MonthDays;
    var mp := if date.month > 2 then date.month - 3 else date.month + 9;
    var y := if date.month > 2 then date.year else date.year - 1;
    var era, yoe := Era(y);
    LeapsOfEra(yoe, era);
    DayFits(date.year, date.month, date.day, mp);
    DayNumberOf(era, yoe, mp, date.day);
    CivilOf(era, yoe, mp, date.day);
  }

  lemma Era(y: int) returns (era: int, yoe: int)
    ensures 0 <= yoe <= 399 && y == yoe + 400 * era
  {
    era, yoe := y / 400, y % 400;
  }

  lemma NextDateIsNext(date: Date)
    requires Valid(date)
    ensures Valid(NextDate(date)) && DayNumber(NextDate(date)) == DayNumber(date) + 1
  {
    hide Leaps, DaysBeforeMonth, DaysInMonth, IsLeap;
    if date.day < DaysInMonth(date.year, date.month) {
    } else if date.month < 12 {
      MonthFollows(date.year, date.month);
    } else {
      YearFollows(date.year);
    }
  }

  lemma MonthFollows(y: int, m: int)
    requires 1 <= m < 12
    ensures DaysBeforeMonth(y, m + 1) == DaysBeforeMonth(y, m) + DaysInMonth(y, m) && DaysInMonth(y, m + 1) >= 1
  {
  }

  lemma YearFollows(y: int)
    ensures DayNumber(Date(y + 1, 1, 1)) == DayNumber(Date(y, 12, 31)) + 1
    ensures DaysInMonth(y, 12) == 31 && DaysInMonth(y + 1, 1) == 31
  {
    LeapsStep(y);
    DaysBeforeMonthIs(y, 12);
    hide Leaps, IsLeap;
    assert DaysBeforeMonth(y + 1, 1) == 0;
  }

  /** The next day count gives the next date, and the count begins on the first
      of January 1970. */
  lemma NextDayIsNextDate(days: int)
    ensures CivilFromDays(days + 1) == NextDate(CivilFromDays(days))
    ensures CivilFromDays(0) == Date(1970, 1, 1)
  {
    DayZeroIsTheEpoch();
    hide CivilFromDays, NextDate, DayNumber, Valid;
    CivilIsTheDate(days);
    NextDateIsNext(CivilFromDays(days));
    CivilUndoesDayNumber(NextDate(CivilFromDays(days)));
  }

  lemma DayZeroIsTheEpoch()
    ensures CivilFromDays(0) == Date(1970, 1, 1)
  {
    assert DayNumber(Date(1970, 1, 1)) == 0;
    hide DayNumber, CivilFromDays;
    CivilUndoesDayNumber(Date(1970, 1, 1));
  }
}
