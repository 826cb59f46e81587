/**
 Instants as text: `rfc3339` (crates/loadsmith-cli/src/run_summary.rs) and the
 date and time of an object key (crates/loadsmith-plugin-sdk/src/object_key.rs).

 That texts sort as the instants do goes through the list of an instant's
 numbers, year first. The later of two instants has the larger number at the
 first place where the lists differ: for the date by the calendar, for the
 clock by division. Padded to their widths, the numbers differ as text at the
 same place, as long as each fits its width, which the year does up to 9999.

 `utc` computes the same numbers a second time; that the two copies agree
 carries the order over to the times in object keys.
 */
module Timestamps {
  import opened Calendar
  import opened Text
  import opened Wrappers

  /** Milliseconds of a day. */
  const DAY_MS: nat := 86_400_000
  /** The first day of the year 10000. */
  const FIVE_DIGITS: nat := 2_932_897

  // ----- numbers of a fixed width ----------------------------------------------------

  /** At least `w` digits, padded with zeros. */
  function Pad(n: nat, w: nat): string {
    if w == 0 then (if n == 0 then "" else Digits(n)) else Pad(n / 10, w - 1) + [Digit(n % 10)]
  }

  function Pow10(w: nat): nat { if w == 0 then 1 else 10 * Pow10(w - 1) }

  lemma {:induction false} LessAppend(a: string, b: string, x: string, y: string)
    requires |a| == |b| && Less(a, b)
    ensures Less(a + x, b + y)
    decreases |a|
  {
    if a[0] == b[0] { LessAppend(a[1..], b[1..], x, y); }
    assert (a + x)[1..] == a[1..] + x && (b + y)[1..] == b[1..] + y;
  }

  lemma {:induction false} LessAfter(p: string, a: string, b: string)
    requires Less(a, b)
    ensures Less(p + a, p + b)
    decreases |p|
  {
    if p == [] {
      assert p + a == a && p + b == b;
    } else {
      LessAfter(p[1..], a, b);
      assert (p + a)[1..] == p[1..] + a && (p + b)[1..] == p[1..] + b;
    }
  }

  lemma {:induction false} PadLength(n: nat, w: nat)
    requires n < Pow10(w)
    ensures |Pad(n, w)| == w
  {
    if w > 0 { PadLength(n / 10, w - 1); }
  }

  lemma {:induction false} PadKeepsOrder(m: nat, n: nat, w: nat)
    requires m < n < Pow10(w)
    ensures Less(Pad(m, w), Pad(n, w))
  {
    PadLength(m / 10, w - 1);
    PadLength(n / 10, w - 1);
    if m / 10 < n / 10 {
      PadKeepsOrder(m / 10, n / 10, w - 1);
      LessAppend(Pad(m / 10, w - 1), Pad(n / 10, w - 1), [Digit(m % 10)], [Digit(n % 10)]);
    } else {
      LessAfter(Pad(m / 10, w - 1), [Digit(m % 10)], [Digit(n % 10)]);
    }
  }

  // ----- fields and separators ---------------------------------------------------------

  datatype Part = Part(width: nat, separator: string)

  /** Numbers of given widths, each followed by its separator. */
  function Join(values: seq<nat>, parts: seq<Part>): string
    requires |values| == |parts|
  {
    if values == [] then "" else Pad(values[0], parts[0].width) + parts[0].separator + Join(values[1..], parts[1..])
  }

  predicate Fit(values: seq<nat>, parts: seq<Part>)
    requires |values| == |parts|
  {
    forall i :: 0 <= i < |values| ==> values[i] < Pow10(parts[i].width)
  }

  /** The first difference decides. */
  predicate Before(a: seq<nat>, b: seq<nat>)
    requires |a| == |b|
  {
    a != [] && (a[0] < b[0] || (a[0] == b[0] && Before(a[1..], b[1..])))
  }

  lemma {:induction false} JoinKeepsOrder(a: seq<nat>, b: seq<nat>, parts: seq<Part>)
    requires |a| == |b| == |parts| && Fit(a, parts) && Fit(b, parts) && Before(a, b)
    ensures Less(Join(a, parts), Join(b, parts))
    decreases |a|
  {
    var w, sep := parts[0].width, parts[0].separator;
    var ra, rb := Join(a[1..], parts[1..]), Join(b[1..], parts[1..]);
    PadLength(a[0], w);
    PadLength(b[0], w);
    assert Join(a, parts) == Pad(a[0], w) + (sep + ra) && Join(b, parts) == Pad(b[0], w) + (sep + rb);
    if a[0] < b[0] {
      PadKeepsOrder(a[0], b[0], w);
      LessAppend(Pad(a[0], w), Pad(b[0], w), sep + ra, sep + rb);
    } else {
      assert Fit(a[1..], parts[1..]) && Fit(b[1..], parts[1..]);
      JoinKeepsOrder(a[1..], b[1..], parts[1..]);
      LessAfter(sep, ra, rb);
      LessAfter(Pad(a[0], w), sep + ra, sep + rb);
    }
  }

  // ----- RFC 3339 -----------------------------------------------------------------------

  const PARTS := [Part(4, "-"), Part(2, "-"), Part(2, "T"), Part(2, ":"), Part(2, ":"), Part(2, "."), Part(3, "Z")]

  /** A date after 1970 as numbers. */
  function DateFields(days: nat): (r: seq<nat>)
    ensures |r| == 3
  {
    CivilAfterEpoch(days);
    var d := CivilFromDays(days);
    [d.year, d.month, d.day]
  }

  function Fields(ms: nat): (r: seq<nat>)
    ensures |r| == 7
  {
    var secs := ms / 1000;
    var rem := secs % 86_400;
    DateFields(secs / 86_400) + [rem / 3600, rem % 3600 / 60, rem % 60, ms % 1000]
  }

  /** The text of an instant in milliseconds from 1970; what lies before is 1970. */
  function Rfc3339(ms: int): string { Join(Fields(if ms < 0 then 0 else ms), PARTS) }

  lemma CivilAfterEpoch(days: nat)
    ensures CivilFromDays(days).year >= 1970 && CivilFromDays(days).month >= 1 && CivilFromDays(days).day >= 1
  {
    CivilIsTheDate(days);
    assert DayNumber(Date(1970, 1, 1)) == 0;
    hide DayNumber, CivilFromDays;
    DatesInOrder(CivilFromDays(days), Date(1970, 1, 1));
  }

  predicate DateBefore(a: Date, b: Date) {
    a.year < b.year || (a.year == b.year && (a.month < b.month || (a.month == b.month && a.day < b.day)))
  }

  lemma {:induction false} LeapsGrow(a: int, b: int)
    requires a <= b
    ensures Leaps(a) <= Leaps(b)
    decreases b - a
  {
    if a < b {
      LeapsGrow(a, b - 1);
      LeapsStep(b);
    }
  }

  lemma {:induction false} MonthsInOrder(y: int, m: int, n: int)
    requires 1 <= m < n <= 12
    ensures DaysBeforeMonth(y, m) + DaysInMonth(y, m) <= DaysBeforeMonth(y, n)
  {
    if m < n - 1 { MonthsInOrder(y, m, n - 1); }
  }

  lemma DayOfYearBounds(d: Date)
    requires Valid(d)
    ensures 0 <= DaysBeforeMonth(d.year, d.month)
    ensures DaysBeforeMonth(d.year, d.month) + d.day <= 365 + if IsLeap(d.year) then 1 else 0
  {
    DaysBeforeMonthIs(d.year, d.month);
    DaysBeforeMonthIs(d.year, 12);
    if d.month < 12 { MonthsInOrder(d.year, d.month, 12); }
    if d.month > 1 { MonthsInOrder(d.year, 1, d.month); }
  }

  /** An earlier date has the smaller day number. */
  lemma DatesInOrder(a: Date, b: Date)
    requires Valid(a) && Valid(b)
    ensures DateBefore(a, b) <==> DayNumber(a) < DayNumber(b)
  {
    DateBeforeIsEarlier(a, b);
    DateBeforeIsEarlier(b, a);
  }

  lemma DateBeforeIsEarlier(a: Date, b: Date)
    requires Valid(a) && Valid(b)
    ensures DateBefore(a, b) ==> DayNumber(a) < DayNumber(b)
  {
    hide DayNumber;
    if a.year < b.year {
      EarlierYear(a, b);
    } else if DateBefore(a, b) {
      EarlierInYear(a, b);
    }
  }

  lemma EarlierYear(a: Date, b: Date)
    requires Valid(a) && Valid(b) && a.year < b.year
    ensures DayNumber(a) < DayNumber(b)
  {
    hide DaysBeforeMonth, Leaps, IsLeap, DaysInMonth;
    DayOfYearBounds(a);
    DayOfYearBounds(b);
    LeapsStep(a.year);
    LeapsGrow(a.year, b.year - 1);
    assert b.day >= 1;
    YearsApart(a.year, b.year, Leaps(a.year - 1), Leaps(b.year - 1), if IsLeap(a.year) then 1 else 0,
               DaysBeforeMonth(a.year, a.month) + a.day, DaysBeforeMonth(b.year, b.month) + b.day);
  }

  lemma YearsApart(y: int, z: int, leaps: int, leaps': int, leap: int, day: int, day': int)
    requires y < z && leaps + leap <= leaps' && day <= 365 + leap && day' >= 1
    ensures 365 * (y - 1970) + leaps + day < 365 * (z - 1970) + leaps' + day'
  {
  }

  lemma EarlierInYear(a: Date, b: Date)
    requires Valid(a) && Valid(b) && a.year == b.year && DateBefore(a, b)
    ensures DayNumber(a) < DayNumber(b)
  {
    if a.month < b.month { MonthsInOrder(a.year, a.month, b.month); }
    hide DaysBeforeMonth, Leaps, IsLeap, DaysInMonth;
  }

  lemma DaysInDateOrder(a: nat, b: nat)
    requires a < b
    ensures Before(DateFields(a), DateFields(b))
  {
    CivilIsTheDate(a);
    CivilIsTheDate(b);
    var x, y := DateFields(a), DateFields(b);
    DatesInOrder(CivilFromDays(a), CivilFromDays(b));
    assert x[1..][0] == x[1] && y[1..][0] == y[1] && x[1..][1..][0] == x[2] && y[1..][1..][0] == y[2];
  }

  lemma ClockFields(ms: nat)
    ensures var rem := ms / 1000 % 86_400;
            ms == ms / 1000 / 86_400 * DAY_MS + (rem / 3600 * 3600 + rem % 3600 / 60 * 60 + rem % 60) * 1000 + ms % 1000
  {
  }

  /** The first difference of two lists with a common start is behind it. */
  lemma {:induction false} BeforeAfter(p: seq<nat>, a: seq<nat>, b: seq<nat>)
    requires |a| == |b| && Before(a, b)
    ensures Before(p + a, p + b)
    decreases |p|
  {
    if p == [] {
      assert p + a == a && p + b == b;
    } else {
      BeforeAfter(p[1..], a, b);
      assert (p + a)[1..] == p[1..] + a && (p + b)[1..] == p[1..] + b;
    }
  }

  lemma {:induction false} BeforeAppend(a: seq<nat>, b: seq<nat>, x: seq<nat>, y: seq<nat>)
    requires |a| == |b| && |x| == |y| && Before(a, b)
    ensures Before(a + x, b + y)
    decreases |a|
  {
    if a[0] == b[0] { BeforeAppend(a[1..], b[1..], x, y); }
    assert (a + x)[1..] == a[1..] + x && (b + y)[1..] == b[1..] + y;
  }

  function Clock(ms: nat): (r: seq<nat>)
    ensures |r| == 4
  {
    var rem := ms / 1000 % 86_400;
    [rem / 3600, rem % 3600 / 60, rem % 60, ms % 1000]
  }

  lemma ClockInOrder(a: nat, b: nat)
    requires a < b && a / 1000 / 86_400 == b / 1000 / 86_400
    ensures Before(Clock(a), Clock(b))
  {
    ClockFields(a);
    ClockFields(b);
    var x, y := Clock(a), Clock(b);
    ClockIsEarlier(x[0], x[1], x[2], x[3], y[0], y[1], y[2], y[3]);
    FourInOrder(x, y);
  }

  lemma FourInOrder(x: seq<nat>, y: seq<nat>)
    requires |x| == |y| == 4
    requires x[0] < y[0] || (x[0] == y[0] && (x[1] < y[1] || (x[1] == y[1] && (x[2] < y[2] || (x[2] == y[2] && x[3] < y[3])))))
    ensures Before(x, y)
  {
    var x1, y1 := x[1..], y[1..];
    var x2, y2 := x1[1..], y1[1..];
    var x3, y3 := x2[1..], y2[1..];
    assert x3[0] == x[3] && y3[0] == y[3] && x2[0] == x[2] && y2[0] == y[2] && x1[0] == x[1] && y1[0] == y[1];
    assert x[3] < y[3] ==> Before(x3, y3);
    assert x[2] < y[2] || (x[2] == y[2] && Before(x3, y3)) ==> Before(x2, y2);
    assert x[1] < y[1] || (x[1] == y[1] && Before(x2, y2)) ==> Before(x1, y1);
  }

  lemma ClockIsEarlier(h: nat, m: nat, s: nat, ms: nat, h': nat, m': nat, s': nat, ms': nat)
    requires m < 60 && s < 60 && ms < 1000 && m' < 60 && s' < 60 && ms' < 1000
    requires (h * 3600 + m * 60 + s) * 1000 + ms < (h' * 3600 + m' * 60 + s') * 1000 + ms'
    ensures h < h' || (h == h' && (m < m' || (m == m' && (s < s' || (s == s' && ms < ms')))))
  {
  }

  lemma FieldsInOrder(a: nat, b: nat)
    requires a < b
    ensures Before(Fields(a), Fields(b))
  {
    var da, db := a / 1000 / 86_400, b / 1000 / 86_400;
    assert Fields(a) == DateFields(da) + Clock(a) && Fields(b) == DateFields(db) + Clock(b);
    hide DateFields, Clock, Fields;
    if da < db {
      DaysInDateOrder(da, db);
      BeforeAppend(DateFields(da), DateFields(db), Clock(a), Clock(b));
    } else {
      ClockInOrder(a, b);
      BeforeAfter(DateFields(da), Clock(a), Clock(b));
    }
  }

  lemma FourDigitYears(days: nat)
    ensures CivilFromDays(days).year <= 9999 <==> days < FIVE_DIGITS
  {
    var first := Date(10000, 1, 1);
    assert DayNumber(first) == FIVE_DIGITS;
    CivilIsTheDate(days);
    hide DayNumber, CivilFromDays;
    DatesInOrder(CivilFromDays(days), first);
  }

  lemma FieldsFit(ms: nat)
    requires ms < FIVE_DIGITS * DAY_MS
    ensures Fit(Fields(ms), PARTS)
  {
    var days := ms / 1000 / 86_400;
    FourDigitYears(days);
    CivilIsTheDate(days);
    assert Pow10(4) == 10000 && Pow10(2) == 100 && Pow10(3) == 1000 by { assert Pow10(1) == 10; }
    hide CivilFromDays, DayNumber, Pow10;
    var f := Fields(ms);
    assert f[0] < 10000 && f[1] < 100 && f[2] < 100 && f[3] < 100 && f[4] < 100 && f[5] < 100 && f[6] < 1000;
  }

  /** Up to the end of year 9999 texts sort as the instants do, and only the
      same instant (in milliseconds) has the same text. */
  lemma TextOrderIsTimeOrder(a: nat, b: nat)
    requires a < FIVE_DIGITS * DAY_MS && b < FIVE_DIGITS * DAY_MS
    ensures a < b <==> Less(Rfc3339(a), Rfc3339(b))
    ensures a == b <==> Rfc3339(a) == Rfc3339(b)
  {
    hide Fields, Less, Join;
    if a < b { EarlierIsLess(a, b); }
    if b < a { EarlierIsLess(b, a); }
    if a == b && Less(Rfc3339(a), Rfc3339(b)) { LessIsStrict(Rfc3339(a), Rfc3339(b)); }
  }

  lemma EarlierIsLess(a: nat, b: nat)
    requires a < b < FIVE_DIGITS * DAY_MS
    ensures Less(Rfc3339(a), Rfc3339(b)) && !Less(Rfc3339(b), Rfc3339(a)) && Rfc3339(a) != Rfc3339(b)
  {
    hide Fields, Less, Join, Fit, Before;
    FieldsInOrder(a, b);
    FieldsFit(a);
    FieldsFit(b);
    JoinKeepsOrder(Fields(a), Fields(b), PARTS);
    LessIsStrict(Rfc3339(a), Rfc3339(b));
  }

  /** And not a millisecond longer: the first text of year 10000 sorts before
      the last one of year 9999. */
  lemma TextOrderEndsWithYear9999()
    ensures Less(Rfc3339(FIVE_DIGITS * DAY_MS), Rfc3339(FIVE_DIGITS * DAY_MS - 1))
  {
    var t := FIVE_DIGITS * DAY_MS;
    assert t / 1000 / 86_400 == FIVE_DIGITS && (t - 1) / 1000 / 86_400 == FIVE_DIGITS - 1;
    YearsAroundTheLimit();
    FirstFieldIsTheYear(t);
    FirstFieldIsTheYear(t - 1);
    hide Fields, Join, CivilFromDays;
    FirstCharacter(Fields(t));
    FirstCharacter(Fields(t - 1));
  }

  lemma YearsAroundTheLimit()
    ensures CivilFromDays(FIVE_DIGITS).year == 10000 && CivilFromDays(FIVE_DIGITS - 1).year == 9999
  {
    assert DayNumber(Date(10000, 1, 1)) == FIVE_DIGITS;
    hide CivilFromDays, DayNumber;
    NextDateIsNext(Date(9999, 12, 31));
    CivilUndoesDayNumber(Date(10000, 1, 1));
    CivilUndoesDayNumber(Date(9999, 12, 31));
  }

  lemma FirstFieldIsTheYear(ms: nat)
    ensures Fields(ms)[0] == CivilFromDays(ms / 1000 / 86_400).year
  {
    hide CivilFromDays;
  }

  lemma FirstCharacter(f: seq<nat>)
    requires |f| == 7 && (f[0] == 10000 || f[0] == 9999)
    ensures Join(f, PARTS) != [] && Join(f, PARTS)[0] == if f[0] == 10000 then '1' else '9'
  {
    PadOf10000();
  }

  lemma PadOf10000()
    ensures Pad(10000, 4) == "10000" && Pad(9999, 4) == "9999"
  {
    assert Pad(1, 0) == "1" && Pad(10, 1) == "10" && Pad(100, 2) == "100" && Pad(1000, 3) == "1000";
    assert Pad(9, 1) == "9" && Pad(99, 2) == "99" && Pad(999, 3) == "999";
  }

  // ----- the object key's copy ------------------------------------------------------------

  /** `utc`: the remainder is taken by subtraction, the clock from the second of the day. */
  function Utc(ms: nat): (Date, nat) {
    var secs := ms / 1000;
    var z := secs / 86_400 + 719468;
    var era := z / 146097;
    var doe := z - era * 146097;
    var yoe := YearOfEra(doe);
    var doy := doe - (365 * yoe + yoe / 4 - yoe / 100);
    var mp := (5 * doy + 2) / 153;
    var day := doy - (153 * mp + 2) / 5 + 1;
    var month := if mp < 10 then mp + 3 else mp - 9;
    (Date(yoe + era * 400 + (if month <= 2 then 1 else 0), month, day), secs % 86_400)
  }

  function UtcDate(ms: nat): string {
    UtcIsCivil(ms);
    CivilAfterEpoch(ms / 1000 / 86_400);
    var d := Utc(ms).0;
    Pad(d.year, 4) + "-" + Pad(d.month, 2) + "-" + Pad(d.day, 2)
  }

  function UtcTime(ms: nat): string {
    UtcIsCivil(ms);
    CivilAfterEpoch(ms / 1000 / 86_400);
    var (d, s) := Utc(ms);
    Pad(d.year, 4) + Pad(d.month, 2) + Pad(d.day, 2) + "T" + Pad(s / 3600, 2) + Pad(s / 60 % 60, 2) + Pad(s % 60, 2) + "Z"
  }

  /** The two copies agree on every instant since 1970. */
  lemma UtcIsCivil(ms: nat)
    ensures Utc(ms) == (CivilFromDays(ms / 1000 / 86_400), ms / 1000 % 86_400)
  {
    hide YearOfEra;
    Remainder(ms / 1000 / 86_400 + 719468, 146097);
  }

  lemma Remainder(z: nat, n: nat)
    requires n > 0
    ensures z - z / n * n == z % n
  {
  }

  function PartText(v: nat, p: Part): string { Pad(v, p.width) + p.separator }

  lemma JoinThree(a: nat, b: nat, c: nat, p: Part, q: Part, r: Part)
    ensures Join([a, b, c], [p, q, r]) == PartText(a, p) + PartText(b, q) + PartText(c, r)
  {
    hide Pad;
    assert [a, b, c][1..] == [b, c] && [p, q, r][1..] == [q, r];
    assert [b, c][1..] == [c] && [q, r][1..] == [r];
    assert [c][1..] == [] && [r][1..] == [];
    assert Join([c], [r]) == PartText(c, r);
    assert Join([b, c], [q, r]) == PartText(b, q) + PartText(c, r);
  }

  lemma {:induction false} JoinSplit(a: seq<nat>, b: seq<nat>, p: seq<Part>, q: seq<Part>)
    requires |a| == |p| && |b| == |q|
    ensures Join(a + b, p + q) == Join(a, p) + Join(b, q)
    decreases |a|
  {
    hide Pad;
    if a == [] {
      assert a + b == b && p + q == q;
    } else {
      JoinSplit(a[1..], b, p[1..], q);
      assert (a + b)[1..] == a[1..] + b && (p + q)[1..] == p[1..] + q;
    }
  }

  /** The key's date is how the RFC 3339 text begins. */
  lemma UtcDateBeginsTheText(ms: nat)
    ensures UtcDate(ms) <= Rfc3339(ms)
  {
    hide Fields, DateFields, Join, Utc, Pad;
    UtcDateIs(ms);
    var f, rest := Fields(ms), PARTS[3..];
    assert PARTS == [Part(4, "-"), Part(2, "-"), Part(2, "T")] + rest;
    JoinFirstThree(f, Part(4, "-"), Part(2, "-"), Part(2, "T"), rest);
    Regroup(Pad(f[0], 4), Pad(f[1], 2), Pad(f[2], 2), Join(f[3..], rest));
  }

  lemma UtcDateIs(ms: nat)
    ensures var f := Fields(ms); UtcDate(ms) == Pad(f[0], 4) + "-" + Pad(f[1], 2) + "-" + Pad(f[2], 2)
  {
    hide CivilFromDays, Utc, Pad;
    UtcIsCivil(ms);
    CivilAfterEpoch(ms / 1000 / 86_400);
  }

  lemma JoinFirstThree(f: seq<nat>, p: Part, q: Part, r: Part, rest: seq<Part>)
    requires |f| == 3 + |rest|
    ensures Join(f, [p, q, r] + rest) == PartText(f[0], p) + PartText(f[1], q) + PartText(f[2], r) + Join(f[3..], rest)
  {
    hide Join, PartText;
    var first := [f[0], f[1], f[2]];
    assert f == first + f[3..];
    JoinSplit(first, f[3..], [p, q, r], rest);
    JoinThree(f[0], f[1], f[2], p, q, r);
  }

  lemma Regroup(y: string, m: string, d: string, rest: string)
    ensures (y + "-") + (m + "-") + (d + "T") + rest == (y + "-" + m + "-" + d) + ("T" + rest)
  {
  }

  const COMPACT_DATE := [Part(4, ""), Part(2, ""), Part(2, "T")]
  const COMPACT_CLOCK := [Part(2, ""), Part(2, ""), Part(2, "Z")]

  lemma UtcTimeIsJoin(ms: nat)
    ensures UtcTime(ms) == Join(Fields(ms)[..6], COMPACT_DATE + COMPACT_CLOCK)
  {
    var f := Fields(ms);
    UtcTimeIs(ms);
    hide Fields, Join, Pad, UtcTime;
    assert f[..6] == [f[0], f[1], f[2]] + [f[3], f[4], f[5]];
    JoinSplit([f[0], f[1], f[2]], [f[3], f[4], f[5]], COMPACT_DATE, COMPACT_CLOCK);
    JoinThree(f[0], f[1], f[2], Part(4, ""), Part(2, ""), Part(2, "T"));
    JoinThree(f[3], f[4], f[5], Part(2, ""), Part(2, ""), Part(2, "Z"));
  }

  lemma UtcTimeIs(ms: nat)
    ensures var f := Fields(ms);
            UtcTime(ms) == Pad(f[0], 4) + Pad(f[1], 2) + Pad(f[2], 2) + "T" + Pad(f[3], 2) + Pad(f[4], 2) + Pad(f[5], 2) + "Z"
  {
    MinuteOfHour(ms / 1000 % 86_400);
    UtcIsCivil(ms);
    CivilAfterEpoch(ms / 1000 / 86_400);
    hide CivilFromDays, Utc, Pad;
  }

  lemma MinuteOfHour(s: nat)
    ensures s / 60 % 60 == s % 3600 / 60
  {
    var h, r := s / 3600, s % 3600;
    DivIs(s, 60, 60 * h + r / 60, r % 60);
    DivIs(s / 60, 60, h, r / 60);
  }

  /** Up to year 9999 the key's times sort as the seconds do. */
  lemma KeyTimesSort(a: nat, b: nat)
    requires a / 1000 < b / 1000 && b < FIVE_DIGITS * DAY_MS
    ensures Less(UtcTime(a), UtcTime(b))
  {
    WholeSecond(a);
    WholeSecond(b);
    hide Fields, Join, UtcTime, Less, Before;
    FieldsInOrder(a / 1000 * 1000, b / 1000 * 1000);
    FieldsFit(a);
    FieldsFit(b);
    SameLast(Fields(a / 1000 * 1000), Fields(b / 1000 * 1000));
    UtcTimeIsJoin(a);
    UtcTimeIsJoin(b);
    FitCompact(Fields(a));
    FitCompact(Fields(b));
    JoinKeepsOrder(Fields(a)[..6], Fields(b)[..6], COMPACT_DATE + COMPACT_CLOCK);
  }

  /** The fields of an instant without its milliseconds. */
  lemma WholeSecond(ms: nat)
    ensures var w := ms / 1000 * 1000; Fields(w)[..6] == Fields(ms)[..6] && Fields(w)[6] == 0
  {
    assert ms / 1000 * 1000 / 1000 == ms / 1000;
    hide DateFields;
  }

  lemma FitCompact(f: seq<nat>)
    requires |f| == 7 && Fit(f, PARTS)
    ensures Fit(f[..6], COMPACT_DATE + COMPACT_CLOCK)
  {
    hide Pow10;
    var parts := COMPACT_DATE + COMPACT_CLOCK;
    forall i | 0 <= i < 6 ensures f[i] < Pow10(parts[i].width) {
      assert parts[i].width == PARTS[i].width;
    }
  }

  /** Lists that end alike are told apart before. */
  lemma {:induction false} SameLast(a: seq<nat>, b: seq<nat>)
    requires |a| == |b| > 0 && a[|a| - 1] == b[|b| - 1] && Before(a, b)
    ensures Before(a[..|a| - 1], b[..|b| - 1])
    decreases |a|
  {
    if |a| > 1 && a[0] == b[0] {
      SameLast(a[1..], b[1..]);
      assert a[..|a| - 1][1..] == a[1..][..|a| - 2] && b[..|b| - 1][1..] == b[1..][..|b| - 2];
    }
  }

  // ----- the texts, read back -----------------------------------------------------------------

  predicate AllDigits(s: string) { forall i :: 0 <= i < |s| ==> '0' <= s[i] <= '9' }

  /** A text as numbers of these widths, each before its separator. */
  function ReadFields(t: string, parts: seq<Part>): (r: Option<seq<nat>>)
    ensures r.Some? ==> |r.value| == |parts|
    decreases |parts|
  {
    if parts == [] then (if t == "" then Some([]) else None)
    else
      var w, n := parts[0].width, parts[0].width + |parts[0].separator|;
      if |t| < n || !AllDigits(t[..w]) || t[w..n] != parts[0].separator then None
      else
        match ReadFields(t[n..], parts[1..])
        case None => None
        case Some(rest) => Some([NatOf(t[..w])] + rest)
  }

  lemma {:induction false} PadSpells(n: nat, w: nat)
    requires n < Pow10(w)
    ensures |Pad(n, w)| == w && AllDigits(Pad(n, w)) && NatOf(Pad(n, w)) == n
  {
    if w > 0 {
      PadSpells(n / 10, w - 1);
      assert Pad(n, w)[..w - 1] == Pad(n / 10, w - 1);
    }
  }

  lemma {:induction false} FieldsAreReadBack(values: seq<nat>, parts: seq<Part>)
    requires |values| == |parts| && Fit(values, parts)
    ensures ReadFields(Join(values, parts), parts) == Some(values)
    decreases |values|
  {
    hide Pow10, Pad, NatOf;
    if values != [] {
      var v, w, sep := values[0], parts[0].width, parts[0].separator;
      var rest := Join(values[1..], parts[1..]);
      PadSpells(v, w);
      forall i | 0 <= i < |values[1..]| ensures values[1..][i] < Pow10(parts[1..][i].width) {
        assert values[i + 1] < Pow10(parts[i + 1].width);
      }
      FieldsAreReadBack(values[1..], parts[1..]);
      var t := Join(values, parts);
      assert t == Pad(v, w) + sep + rest;
      assert t[..w] == Pad(v, w) && t[w..w + |sep|] == sep && t[w + |sep|..] == rest;
      assert values == [v] + values[1..];
    }
  }

  /** A date and a time of day on the calendar. */
  predicate OnTheClock(f: seq<nat>) {
    |f| >= 6 && Valid(Date(f[0], f[1], f[2])) && f[3] < 24 && f[4] < 60 && f[5] < 60
  }

  /** The second, counted from 1970, of a date and a time of day. */
  function SecondOf(f: seq<nat>): int
    requires |f| >= 6 && 1 <= f[1] <= 12
  {
    DayNumber(Date(f[0], f[1], f[2])) * 86_400 + f[3] * 3600 + f[4] * 60 + f[5]
  }

  lemma FieldsAreTheInstant(ms: nat)
    ensures var f := Fields(ms);
            OnTheClock(f) && f[6] < 1000 && SecondOf(f) == ms / 1000 && SecondOf(f) * 1000 + f[6] == ms
  {
    var days, rem := ms / 1000 / 86_400, ms / 1000 % 86_400;
    var f := Fields(ms);
    CivilIsTheDate(days);
    ClockIsTheRest(rem);
    assert f[..3] == DateFields(days) && f[3] == rem / 3600 && f[4] == rem % 3600 / 60 && f[5] == rem % 60 && f[6] == ms % 1000;
    assert f[0] == f[..3][0] && f[1] == f[..3][1] && f[2] == f[..3][2];
    hide Fields, CivilFromDays, DayNumber, Valid;
    assert Date(f[0], f[1], f[2]) == CivilFromDays(days);
  }

  lemma ClockIsTheRest(rem: nat)
    requires rem < 86_400
    ensures rem == rem / 3600 * 3600 + rem % 3600 / 60 * 60 + rem % 60
    ensures rem / 3600 < 24 && rem % 3600 / 60 < 60 && rem % 60 < 60
  {
  }

  /** Up to year 9999 the RFC 3339 text of an instant has the form of section 5.6
      and is read back as that instant, by the calendar. */
  lemma TextIsReadBack(ms: nat)
    requires ms < FIVE_DIGITS * DAY_MS
    ensures var f := ReadFields(Rfc3339(ms), PARTS);
            && f.Some? && OnTheClock(f.value) && f.value[6] < 1000
            && SecondOf(f.value) * 1000 + f.value[6] == ms
  {
    hide Fields, ReadFields, Join, DayNumber, Valid, Fit;
    FieldsFit(ms);
    FieldsAreReadBack(Fields(ms), PARTS);
    FieldsAreTheInstant(ms);
  }

  /** So is an object key's time, to the second. */
  lemma KeyTimeIsReadBack(ms: nat)
    requires ms < FIVE_DIGITS * DAY_MS
    ensures var f := ReadFields(UtcTime(ms), COMPACT_DATE + COMPACT_CLOCK);
            f.Some? && OnTheClock(f.value) && SecondOf(f.value) == ms / 1000
  {
    hide Fields, ReadFields, Join, DayNumber, Valid, Fit, UtcTime;
    FieldsFit(ms);
    FitCompact(Fields(ms));
    UtcTimeIsJoin(ms);
    FieldsAreReadBack(Fields(ms)[..6], COMPACT_DATE + COMPACT_CLOCK);
    FieldsAreTheInstant(ms);
  }
}
