/** Token expiry as a comparison of texts: `resolve_token` in src/discovery.rs compares the
    RFC 3339 text written by `token_refresh` and `register` (section 5.6 of RFC 3339) with the
    text of SQLite's `datetime('now')`. */
module Expiry {
  /** A calendar date and a time of day in UTC. */
  datatype Stamp = Stamp(year: nat, month: nat, day: nat, hour: nat, minute: nat, second: nat)

  predicate Leap(year: nat) {
    year % 4 == 0 && (year % 100 != 0 || year % 400 == 0)
  }

  function DaysInMonth(year: nat, month: nat): nat
    requires 1 <= month <= 12
  {
    if month == 2 then (if Leap(year) then 29 else 28)
    else if month in {4, 6, 9, 11} then 30
    else 31
  }

  ghost predicate Valid(s: Stamp) {
    s.year <= 9999 && 1 <= s.month <= 12 && 1 <= s.day <= DaysInMonth(s.year, s.month)
    && s.hour < 24 && s.minute < 60 && s.second < 60
  }

  // ---------------------------------------------------------------------------
  // The two texts and their comparison

  function Digit(d: nat): char
    requires d < 10
  {
    "0123456789"[d]
  }

  /** The last `width` decimal digits of `n`, zero padded. */
  function Padded(n: nat, width: nat): (s: string)
    ensures |s| == width
  {
    if width == 0 then "" else Padded(n / 10, width - 1) + [Digit(n % 10)]
  }

  function DateText(s: Stamp): string {
    Padded(s.year, 4) + "-" + Padded(s.month, 2) + "-" + Padded(s.day, 2)
  }

  function TimeText(s: Stamp): string {
    Padded(s.hour, 2) + ":" + Padded(s.minute, 2) + ":" + Padded(s.second, 2)
  }

  /** What `to_rfc3339` writes; `rest` is the fraction, if any, and the offset. */
  function Rfc3339(s: Stamp, rest: string): string {
    DateText(s) + "T" + TimeText(s) + rest
  }

  /** What `datetime('now')` yields. */
  function SqliteText(s: Stamp): string {
    DateText(s) + " " + TimeText(s)
  }

  /** SQLite's BINARY collation. */
  predicate TextLess(a: string, b: string) {
    b != [] && (a == [] || a[0] < b[0] || (a[0] == b[0] && TextLess(a[1..], b[1..])))
  }

  /** `expires_at > datetime('now')` */
  predicate NotExpired(expires: string, now: Stamp) {
    TextLess(SqliteText(now), expires)
  }

  // ---------------------------------------------------------------------------
  // Calendar order

  predicate DateBefore(a: Stamp, b: Stamp) {
    a.year < b.year
    || (a.year == b.year && (a.month < b.month || (a.month == b.month && a.day < b.day)))
  }

  function DaysBeforeYear(year: nat): nat {
    if year == 0 then 0 else DaysBeforeYear(year - 1) + if Leap(year - 1) then 366 else 365
  }

  function DaysBeforeMonth(year: nat, month: nat): nat
    requires 1 <= month <= 13
  {
    if month == 1 then 0 else DaysBeforeMonth(year, month - 1) + DaysInMonth(year, month - 1)
  }

  /** Days since the first of January of year 0. */
  function DayNumber(s: Stamp): nat
    requires 1 <= s.month <= 12
  {
    DaysBeforeYear(s.year) + DaysBeforeMonth(s.year, s.month) + s.day
  }

  /** Seconds since the same moment. */
  function Seconds(s: Stamp): nat
    requires 1 <= s.month <= 12
  {
    86400 * DayNumber(s) + 3600 * s.hour + 60 * s.minute + s.second
  }

  lemma {:induction false} YearsGrow(y: nat, z: nat)
    requires y < z
    ensures DaysBeforeYear(y) + (if Leap(y) then 366 else 365) <= DaysBeforeYear(z)
  {
    if y < z - 1 {
      YearsGrow(y, z - 1);
    }
  }

  lemma {:induction false} MonthsGrow(year: nat, m: nat, n: nat)
    requires 1 <= m < n <= 13
    ensures DaysBeforeMonth(year, m) + DaysInMonth(year, m) <= DaysBeforeMonth(year, n)
  {
    if m < n - 1 {
      MonthsGrow(year, m, n - 1);
    }
  }

  lemma YearLength(year: nat)
    ensures DaysBeforeMonth(year, 13) == if Leap(year) then 366 else 365
  {
    var leap := if Leap(year) then 1 else 0;
    assert DaysBeforeMonth(year, 2) == 31;
    assert DaysBeforeMonth(year, 3) == 59 + leap;
    assert DaysBeforeMonth(year, 5) == 120 + leap;
    assert DaysBeforeMonth(year, 7) == 181 + leap;
    assert DaysBeforeMonth(year, 9) == 243 + leap;
    assert DaysBeforeMonth(year, 11) == 304 + leap;
  }

  /** Day numbers order dates as the calendar does. */
  lemma DayNumberMonotone(a: Stamp, b: Stamp)
    requires Valid(a) && Valid(b) && DateBefore(a, b)
    ensures DayNumber(a) < DayNumber(b)
  {
    MonthsGrow(a.year, a.month, 13);
    YearLength(a.year);
    if a.year < b.year {
      YearsGrow(a.year, b.year);
    } else if a.month < b.month {
      MonthsGrow(a.year, a.month, b.month);
    }
  }

  lemma DayNumberOrder(a: Stamp, b: Stamp)
    requires Valid(a) && Valid(b)
    ensures DateBefore(a, b) <==> DayNumber(a) < DayNumber(b)
  {
    if DateBefore(a, b) {
      DayNumberMonotone(a, b);
    } else if DateBefore(b, a) {
      DayNumberMonotone(b, a);
    } else {
      assert a.year == b.year && a.month == b.month && a.day == b.day;
    }
  }

  lemma FourthYears(y: nat)
    ensures (y + 4) / 4 == (y + 3) / 4 + if y % 4 == 0 then 1 else 0
  {}

  lemma HundredthYears(y: nat)
    ensures (y + 100) / 100 == (y + 99) / 100 + if y % 100 == 0 then 1 else 0
  {
    var q, m := y / 100, y % 100;
    assert y == 100 * q + m;
    assert (100 * q + m + 99) / 100 == if m == 0 then q else q + 1;
  }

  lemma HundredthIsFourth(y: nat)
    ensures y % 100 == 0 ==> y % 4 == 0
  {
    var k := 25 * (y / 100);
    assert y == 4 * k + y % 100;
  }

  lemma FourHundredthYears(y: nat)
    ensures (y + 400) / 400 == (y + 399) / 400 + if y % 400 == 0 then 1 else 0
  {
    var q, m := y / 400, y % 400;
    assert y == 400 * q + m;
    assert (400 * q + m + 399) / 400 == if m == 0 then q else q + 1;
  }

  lemma FourHundredthIsHundredth(y: nat)
    ensures y % 400 == 0 ==> y % 100 == 0
  {
    var k := 4 * (y / 400);
    assert y == 100 * k + y % 400;
  }

  lemma LeapStep(y: nat)
    ensures (if Leap(y) then 1 else 0)
         == (y + 4) / 4 - (y + 3) / 4 - ((y + 100) / 100 - (y + 99) / 100) + (y + 400) / 400 - (y + 399) / 400
  {
    FourthYears(y);
    HundredthYears(y);
    HundredthIsFourth(y);
    FourHundredthYears(y);
    FourHundredthIsHundredth(y);
  }

  lemma {:induction false} YearsInClosedForm(year: nat)
    ensures DaysBeforeYear(year) == 365 * year + (year + 3) / 4 - (year + 99) / 100 + (year + 399) / 400
  {
    hide Leap;
    if year > 0 {
      YearsInClosedForm(year - 1);
      LeapStep(year - 1);
    }
  }

  lemma MonthsInClosedForm(year: nat, month: nat)
    requires 1 <= month <= 12
    ensures DaysBeforeMonth(year, month)
         == if month <= 2 then 31 * (month - 1)
            else 59 + (153 * (month - 3) + 2) / 5 + if Leap(year) then 1 else 0
  {
    var leap := if Leap(year) then 1 else 0;
    assert DaysBeforeMonth(year, 2) == 31;
    assert DaysBeforeMonth(year, 3) == 59 + leap;
    assert DaysBeforeMonth(year, 4) == 90 + leap && DaysBeforeMonth(year, 5) == 120 + leap;
    assert DaysBeforeMonth(year, 6) == 151 + leap && DaysBeforeMonth(year, 7) == 181 + leap;
    assert DaysBeforeMonth(year, 8) == 212 + leap && DaysBeforeMonth(year, 9) == 243 + leap;
    assert DaysBeforeMonth(year, 10) == 273 + leap && DaysBeforeMonth(year, 11) == 304 + leap;
    assert DaysBeforeMonth(year, 12) == 334 + leap;
  }

  /** Day numbers are those of the Gregorian calendar. */
  lemma DayNumberInClosedForm(s: Stamp)
    requires 1 <= s.month <= 12
    ensures var leap := if s.year % 4 == 0 && (s.year % 100 != 0 || s.year % 400 == 0) then 1 else 0;
            DayNumber(s) == 365 * s.year + (s.year + 3) / 4 - (s.year + 99) / 100 + (s.year + 399) / 400
                            + (if s.month <= 2 then 31 * (s.month - 1) else 59 + leap + (153 * (s.month - 3) + 2) / 5)
                            + s.day
  {
    YearsInClosedForm(s.year);
    MonthsInClosedForm(s.year, s.month);
  }

  // ---------------------------------------------------------------------------
  // Text order

  lemma {:induction false} TextLessPrefix(p: string, a: string, b: string)
    ensures TextLess(p + a, p + b) <==> TextLess(a, b)
  {
    if p == [] {
      assert p + a == a && p + b == b;
    } else {
      TextLessPrefix(p[1..], a, b);
      assert (p + a)[1..] == p[1..] + a && (p + b)[1..] == p[1..] + b;
    }
  }

  /** Between different texts of equal length the remainder does not matter. */
  lemma {:induction false} TextLessFirst(p: string, q: string, a: string, b: string)
    requires |p| == |q| && p != q
    ensures TextLess(p + a, q + b) <==> TextLess(p, q)
  {
    if p[0] == q[0] {
      TextLessFirst(p[1..], q[1..], a, b);
    }
    assert (p + a)[1..] == p[1..] + a && (q + b)[1..] == q[1..] + b;
  }

  lemma DigitOrder(d: nat, e: nat)
    requires d < 10 && e < 10
    ensures Digit(d) < Digit(e) <==> d < e
    ensures Digit(d) == Digit(e) <==> d == e
  {}

  function Pow10(k: nat): nat {
    if k == 0 then 1 else 10 * Pow10(k - 1)
  }

  lemma OneDigitMore(p: string, q: string, d: nat, e: nat)
    requires |p| == |q| && d < 10 && e < 10
    ensures p + [Digit(d)] == q + [Digit(e)] <==> p == q && d == e
    ensures TextLess(p + [Digit(d)], q + [Digit(e)]) <==> if p == q then d < e else TextLess(p, q)
  {
    hide Digit;
    DigitOrder(d, e);
    assert (p + [Digit(d)])[..|p|] == p && (q + [Digit(e)])[..|q|] == q;
    assert (p + [Digit(d)])[|p|] == Digit(d) && (q + [Digit(e)])[|q|] == Digit(e);
    if p == q {
      TextLessPrefix(p, [Digit(d)], [Digit(e)]);
    } else {
      TextLessFirst(p, q, [Digit(d)], [Digit(e)]);
    }
  }

  lemma EmptyTexts()
    ensures !TextLess("", "")
  {}

  /** Zero padding makes text order and number order agree. */
  lemma {:induction false} PaddedOrder(n: nat, m: nat, width: nat)
    requires n < Pow10(width) && m < Pow10(width)
    ensures Padded(n, width) == Padded(m, width) <==> n == m
    ensures TextLess(Padded(n, width), Padded(m, width)) <==> n < m
  {
    hide TextLess, Digit;
    if width > 0 {
      PaddedOrder(n / 10, m / 10, width - 1);
      OneDigitMore(Padded(n / 10, width - 1), Padded(m / 10, width - 1), n % 10, m % 10);
    } else {
      EmptyTexts();
    }
  }

  /** Comparing two fields, the first of them decided by equality or order. */
  lemma FieldOrder(n: nat, m: nat, width: nat, a: string, b: string)
    requires n < Pow10(width) && m < Pow10(width)
    ensures TextLess(Padded(n, width) + a, Padded(m, width) + b) <==> n < m || (n == m && TextLess(a, b))
  {
    PaddedOrder(n, m, width);
    if n == m {
      TextLessPrefix(Padded(n, width), a, b);
    } else {
      TextLessFirst(Padded(n, width), Padded(m, width), a, b);
    }
  }

  lemma DateFieldsOrder(s: Stamp, t: Stamp, a: string, b: string)
    requires Valid(s) && Valid(t)
    ensures TextLess(DateText(s) + a, DateText(t) + b)
        <==> DateBefore(s, t) || (s.year == t.year && s.month == t.month && s.day == t.day && TextLess(a, b))
  {
    assert Pow10(2) == 100 && Pow10(4) == 10000;
    var sd, td := Padded(s.day, 2) + a, Padded(t.day, 2) + b;
    var sm, tm := Padded(s.month, 2) + ("-" + sd), Padded(t.month, 2) + ("-" + td);
    assert DateText(s) + a == Padded(s.year, 4) + ("-" + sm);
    assert DateText(t) + b == Padded(t.year, 4) + ("-" + tm);
    FieldOrder(s.year, t.year, 4, "-" + sm, "-" + tm);
    TextLessPrefix("-", sm, tm);
    FieldOrder(s.month, t.month, 2, "-" + sd, "-" + td);
    TextLessPrefix("-", sd, td);
    FieldOrder(s.day, t.day, 2, a, b);
  }

  lemma TimeFieldsOrder(s: Stamp, t: Stamp)
    requires Valid(s) && Valid(t)
    ensures TextLess(TimeText(s), TimeText(t))
        <==> 3600 * s.hour + 60 * s.minute + s.second < 3600 * t.hour + 60 * t.minute + t.second
  {
    assert Pow10(2) == 100;
    assert TimeText(s) == Padded(s.hour, 2) + (":" + (Padded(s.minute, 2) + (":" + Padded(s.second, 2))));
    assert TimeText(t) == Padded(t.hour, 2) + (":" + (Padded(t.minute, 2) + (":" + Padded(t.second, 2))));
    var ss, ts := Padded(s.second, 2), Padded(t.second, 2);
    var sm, tm := Padded(s.minute, 2) + (":" + ss), Padded(t.minute, 2) + (":" + ts);
    FieldOrder(s.hour, t.hour, 2, ":" + sm, ":" + tm);
    TextLessPrefix(":", sm, tm);
    FieldOrder(s.minute, t.minute, 2, ":" + ss, ":" + ts);
    TextLessPrefix(":", ss, ts);
    PaddedOrder(s.second, t.second, 2);
  }

  lemma SecondsWithinDay(s: Stamp)
    requires Valid(s)
    ensures 86400 * DayNumber(s) <= Seconds(s) < 86400 * (DayNumber(s) + 1)
  {}

  /** Between two texts of SQLite's own, text order is the order of time: `ORDER BY created_at` sorts
      by when the rows were written. */
  lemma StoredTimesOrder(s: Stamp, t: Stamp)
    requires Valid(s) && Valid(t)
    ensures TextLess(SqliteText(s), SqliteText(t)) <==> Seconds(s) < Seconds(t)
  {
    assert SqliteText(s) == DateText(s) + (" " + TimeText(s)) && SqliteText(t) == DateText(t) + (" " + TimeText(t));
    DateFieldsOrder(s, t, " " + TimeText(s), " " + TimeText(t));
    TextLessPrefix(" ", TimeText(s), TimeText(t));
    TimeFieldsOrder(s, t);
    hide TextLess, TimeText, DateText;
    DayNumberOrder(s, t);
    DayNumberOrder(t, s);
    SecondsWithinDay(s);
    SecondsWithinDay(t);
  }

  // ---------------------------------------------------------------------------
  // What the comparison decides

  /** The text comparison accepts a token exactly on the days up to and including the one on
      which it expires: 'T' sorts after the space, so the time of day is never looked at. */
  lemma NotExpiredIsDateOrder(expiry: Stamp, rest: string, now: Stamp)
    requires Valid(expiry) && Valid(now)
    ensures NotExpired(Rfc3339(expiry, rest), now) <==> DayNumber(now) <= DayNumber(expiry)
  {
    var a, b := " " + TimeText(now), "T" + TimeText(expiry) + rest;
    assert SqliteText(now) == DateText(now) + a;
    assert Rfc3339(expiry, rest) == DateText(expiry) + b;
    DateFieldsOrder(now, expiry, a, b);
    assert a[0] == ' ' && b[0] == 'T' && TextLess(a, b);
    DayNumberOrder(now, expiry);
    DayNumberOrder(expiry, now);
  }

  /** A token is never rejected before it expires, and never accepted a day or more after. */
  lemma ExpiryWithinADay(expiry: Stamp, rest: string, now: Stamp)
    requires Valid(expiry) && Valid(now)
    ensures Seconds(now) <= Seconds(expiry) ==> NotExpired(Rfc3339(expiry, rest), now)
    ensures NotExpired(Rfc3339(expiry, rest), now) ==> Seconds(now) < Seconds(expiry) + 86400
  {
    NotExpiredIsDateOrder(expiry, rest, now);
    SecondsWithinDay(expiry);
    SecondsWithinDay(now);
  }

  /** The comparison is right at a moment exactly when that moment is not later on the expiry
      date than the expiry itself. */
  lemma ComparisonIsExactUnlessLaterThatDay(expiry: Stamp, rest: string, now: Stamp)
    requires Valid(expiry) && Valid(now)
    ensures (NotExpired(Rfc3339(expiry, rest), now) <==> Seconds(now) <= Seconds(expiry))
       <==> !(DayNumber(now) == DayNumber(expiry)
              && 3600 * now.hour + 60 * now.minute + now.second
               > 3600 * expiry.hour + 60 * expiry.minute + expiry.second)
  {
    NotExpiredIsDateOrder(expiry, rest, now);
    SecondsWithinDay(expiry);
    SecondsWithinDay(now);
  }

  lemma PaddedStep(q: nat, d: nat, width: nat)
    requires d < 10
    ensures Padded(10 * q + d, width + 1) == Padded(q, width) + [Digit(d)]
  {
    assert (10 * q + d) / 10 == q && (10 * q + d) % 10 == d;
  }

  lemma TwoDigits(a: nat, b: nat)
    requires a < 10 && b < 10
    ensures Padded(10 * a + b, 2) == [Digit(a), Digit(b)]
  {
    hide Digit, Padded;
    PaddedStep(a, b, 1);
    PaddedStep(0, a, 0);
  }

  lemma FourDigits(a: nat, b: nat, c: nat, d: nat)
    requires a < 10 && b < 10 && c < 10 && d < 10
    ensures Padded(1000 * a + 100 * b + 10 * c + d, 4) == [Digit(a), Digit(b), Digit(c), Digit(d)]
  {
    hide Padded, Digit;
    TwoDigits(a, b);
    var q := 10 * (10 * a + b) + c;
    PaddedStep(10 * a + b, c, 2);
    PaddedStep(q, d, 3);
    assert 10 * q + d == 1000 * a + 100 * b + 10 * c + d;
  }

  /** How the two texts look: the fields of a date, then a T or a space, then those of the time. */
  lemma TextsLookLikeThis()
    ensures Rfc3339(Stamp(2026, 5, 26, 0, 1, 0), "+00:00") == "2026-05-26" + "T" + "00:01:00" + "+00:00"
    ensures SqliteText(Stamp(2026, 5, 26, 23, 59, 59)) == "2026-05-26" + " " + "23:59:59"
  {
    hide Padded;
    FourDigits(2, 0, 2, 6);
    TwoDigits(0, 5);
    TwoDigits(2, 6);
    TwoDigits(0, 0);
    TwoDigits(0, 1);
    TwoDigits(2, 3);
    TwoDigits(5, 9);
    assert Padded(2026, 4) == "2026" && Padded(5, 2) == "05" && Padded(26, 2) == "26";
    assert Padded(0, 2) == "00" && Padded(1, 2) == "01" && Padded(23, 2) == "23" && Padded(59, 2) == "59";
    hide Digit;
  }

  /** A token that expired at one minute past midnight is still accepted at the end of that day. */
  lemma ExpiredTokenAccepted()
    ensures var expiry, now := Stamp(2026, 5, 26, 0, 1, 0), Stamp(2026, 5, 26, 23, 59, 59);
            Valid(expiry) && Valid(now) && Seconds(expiry) < Seconds(now)
            && NotExpired(Rfc3339(expiry, "+00:00"), now)
  {
    NotExpiredIsDateOrder(Stamp(2026, 5, 26, 0, 1, 0), "+00:00", Stamp(2026, 5, 26, 23, 59, 59));
  }
}
