/**
 What the instants of Timestamps are, against literal data: the calendar, the time that
 passes between two datetimes, and the fields an ISO string reads back to.
 */
module Calendar {
  import opened Timestamps

  // ---- Which datetimes there are -----------------------------------------

  /** The twelve months have their lengths, and February has a 29th in every fourth year,
      but not in the centuries that 400 does not divide. */
  lemma CalendarDays(d: DateTime)
    ensures d.Valid() <==>
      && 1 <= d.year <= 9999 && 1 <= d.month <= 12 && 1 <= d.day
      && (|| d.day <= [31, 28, 31, 30, 31, 30, 31, 31, 30, 31, 30, 31][d.month - 1]
          || (d.month == 2 && d.day == 29 && ((d.year % 4 == 0 && d.year % 100 != 0) || d.year % 400 == 0)))
      && d.hour <= 23 && d.minute <= 59 && d.second <= 59 && d.micro <= 999_999
  {
  }

  // ---- Elapsed time ------------------------------------------------------

  /** 400 divides a year only if 100 does, and 100 only if 4 does. */
  lemma Divisors(y: nat)
    ensures y % 400 == 0 ==> y % 100 == 0
    ensures y % 100 == 0 ==> y % 4 == 0
  {
    if y % 400 == 0 {
      assert y == 100 * (4 * (y / 400));
    }
    if y % 100 == 0 {
      assert y == 4 * (25 * (y / 100));
    }
  }

  lemma LeapMeans(y: nat)
    ensures IsLeap(y) <==> (y % 4 == 0 && y % 100 != 0) || y % 400 == 0
  {
    Divisors(y);
  }

  lemma MonthLengths(y: nat, leap: bool)
    requires leap == ((y % 4 == 0 && y % 100 != 0) || y % 400 == 0)
    ensures forall m :: 1 <= m <= 12 ==>
      DaysInMonth(y, m) == if m == 2 && leap then 29 else [31, 28, 31, 30, 31, 30, 31, 31, 30, 31, 30, 31][m - 1]
  {
    LeapMeans(y);
    hide IsLeap;
  }

  lemma YearLength(y: nat, leap: bool)
    requires leap == ((y % 4 == 0 && y % 100 != 0) || y % 400 == 0)
    ensures DaysBeforeMonth(y, 13) == if leap then 366 else 365
    ensures forall m :: 1 <= m <= 12 ==>
      DaysBeforeMonth(y, m) == [0, 31, 59, 90, 120, 151, 181, 212, 243, 273, 304, 334][m - 1]
        + if m > 2 && leap then 1 else 0
  {
    MonthLengths(y, leap);
    hide DaysInMonth;
    var extra := if leap then 1 else 0;
    assert DaysBeforeMonth(y, 1) == 0;
    assert DaysBeforeMonth(y, 2) == 31;
    assert DaysBeforeMonth(y, 3) == 59 + extra;
    assert DaysBeforeMonth(y, 4) == 90 + extra;
    assert DaysBeforeMonth(y, 5) == 120 + extra;
    assert DaysBeforeMonth(y, 6) == 151 + extra;
    assert DaysBeforeMonth(y, 7) == 181 + extra;
    assert DaysBeforeMonth(y, 8) == 212 + extra;
    assert DaysBeforeMonth(y, 9) == 243 + extra;
    assert DaysBeforeMonth(y, 10) == 273 + extra;
    assert DaysBeforeMonth(y, 11) == 304 + extra;
    assert DaysBeforeMonth(y, 12) == 334 + extra;
  }

  /** How many of the first n years are leap years, by the closed formula. */
  function LeapYears(n: nat): int
  {
    n / 4 - n / 100 + n / 400
  }

  lemma NextFourth(n: nat)
    ensures (n + 1) / 4 == n / 4 + if (n + 1) % 4 == 0 then 1 else 0
  {
  }

  lemma NextCentury(n: nat)
    ensures (n + 1) / 100 == n / 100 + if (n + 1) % 100 == 0 then 1 else 0
  {
  }

  lemma NextEra(n: nat)
    ensures (n + 1) / 400 == n / 400 + if (n + 1) % 400 == 0 then 1 else 0
  {
  }

  lemma NextLeap(n: nat, leap: bool)
    requires leap == (((n + 1) % 4 == 0 && (n + 1) % 100 != 0) || (n + 1) % 400 == 0)
    ensures LeapYears(n + 1) == LeapYears(n) + if leap then 1 else 0
  {
    NextFourth(n);
    NextCentury(n);
    NextEra(n);
    Divisors(n + 1);
  }

  lemma OneMoreYear(y: nat)
    requires 1 < y
    ensures DaysBeforeYear(y) == DaysBeforeYear(y - 1) + 365 + LeapYears(y - 1) - LeapYears(y - 2)
  {
    hide DaysBeforeMonth, LeapYears;
    var leap := ((y - 1) % 4 == 0 && (y - 1) % 100 != 0) || (y - 1) % 400 == 0;
    YearLength(y - 1, leap);
    NextLeap(y - 2, leap);
  }

  lemma {:induction false} YearsClosedForm(y: nat)
    requires 1 <= y
    ensures DaysBeforeYear(y) == 365 * (y - 1) + LeapYears(y - 1)
  {
    if y != 1 {
      hide LeapYears, DaysBeforeYear;
      YearsClosedForm(y - 1);
      OneMoreYear(y);
    }
  }

  /** Micros counts microseconds from the start of year 1 in the proleptic Gregorian
      calendar, by the closed formula of days per year and month. */
  lemma ElapsedTime(d: Instant)
    ensures
      var y := d.year - 1;
      var leap := d.month > 2 && ((d.year % 4 == 0 && d.year % 100 != 0) || d.year % 400 == 0);
      var days := 365 * y + y / 4 - y / 100 + y / 400
        + [0, 31, 59, 90, 120, 151, 181, 212, 243, 273, 304, 334][d.month - 1]
        + (if leap then 1 else 0) + d.day - 1;
      Micros(d) == (days * 86_400 + d.hour * 3_600 + d.minute * 60 + d.second) * 1_000_000 + d.micro
  {
    YearsClosedForm(d.year);
    YearLength(d.year, (d.year % 4 == 0 && d.year % 100 != 0) || d.year % 400 == 0);
    hide DaysBeforeYear, DaysBeforeMonth;
  }

  /** Only the day differs, and b's is the next of the calendar. */
  predicate DayAfter(a: Instant, b: Instant)
  {
    && (a.hour, a.minute, a.second, a.micro) == (b.hour, b.minute, b.second, b.micro)
    && if a.(day := a.day + 1).Valid() then b == a.(day := a.day + 1)
       else b.day == 1 && (b.year, b.month) == if a.month == 12 then (a.year + 1, 1) else (a.year, a.month + 1)
  }

  /** Within a year, the days that pass are those of the months in between. */
  lemma SameYear(a: Instant, b: Instant)
    requires a.year == b.year && (a.hour, a.minute, a.second, a.micro) == (b.hour, b.minute, b.second, b.micro)
    ensures Micros(b) - Micros(a) ==
      (DaysBeforeMonth(b.year, b.month) + b.day - DaysBeforeMonth(a.year, a.month) - a.day) * 86_400_000_000
  {
    hide DaysBeforeYear, DaysBeforeMonth;
  }

  lemma NewYear(a: Instant, b: Instant)
    requires a.month == 12 && a.day == 31 && b.month == 1 && b.day == 1 && b.year == a.year + 1
    requires (a.hour, a.minute, a.second, a.micro) == (b.hour, b.minute, b.second, b.micro)
    ensures Micros(b) == Micros(a) + 86_400_000_000
  {
    assert DaysBeforeYear(b.year) == DaysBeforeYear(a.year) + DaysBeforeMonth(a.year, 13);
    YearLength(a.year, (a.year % 4 == 0 && a.year % 100 != 0) || a.year % 400 == 0);
    hide DaysBeforeYear;
    assert DaysBeforeMonth(b.year, 1) == 0;
  }

  /** From one day to the next is 24 hours, across months and years as well. */
  lemma NextDay(a: Instant, b: Instant)
    requires DayAfter(a, b)
    ensures Micros(b) == Micros(a) + 24 * 60 * 60 * 1_000_000
  {
    hide Micros, DaysBeforeYear;
    CalendarDays(a);
    CalendarDays(a.(day := a.day + 1));
    if a.year != b.year {
      NewYear(a, b);
    } else {
      SameYear(a, b);
      assert a.month != b.month ==> DaysBeforeMonth(a.year, b.month) == DaysBeforeMonth(a.year, a.month) + a.day;
    }
  }

  /** A year has 366 days if 4 divides it and 100 does not, or 400 does; otherwise 365. */
  lemma NextYear(a: Instant, b: Instant)
    requires a.month == 1 && a.day == 1 && b == a.(year := a.year + 1)
    ensures Micros(b) - Micros(a) ==
      (if (a.year % 4 == 0 && a.year % 100 != 0) || a.year % 400 == 0 then 366 else 365) * 86_400_000_000
  {
    hide Micros, DaysBeforeYear, DaysBeforeMonth;
    ElapsedTime(a);
    ElapsedTime(b);
    NextLeap(a.year - 1, (a.year % 4 == 0 && a.year % 100 != 0) || a.year % 400 == 0);
  }

  /** 400 years have 146097 days, and 1970 starts on day 719162. */
  lemma WholeEras(a: Instant, b: Instant)
    requires a.month == 1 && a.day == 1 && b == a.(year := a.year + 400)
    ensures Micros(b) - Micros(a) == 146_097 * 86_400_000_000
    ensures Micros(DateTime(1970, 1, 1, 0, 0, 0, 0)) == 719_162 * 86_400_000_000
  {
    hide Micros, DaysBeforeYear, DaysBeforeMonth;
    ElapsedTime(a);
    ElapsedTime(b);
    ElapsedTime(DateTime(1970, 1, 1, 0, 0, 0, 0));
    var y := a.year - 1;
    assert (y + 400) / 4 == y / 4 + 100 && (y + 400) / 100 == y / 100 + 4 && (y + 400) / 400 == y / 400 + 1;
  }

  // ---- Reading a string back ---------------------------------------------

  predicate IsDigit(c: char)
  {
    '0' <= c <= '9'
  }

  /** The number a string of digits stands for. */
  function Decimal(s: string): nat
    requires forall i :: 0 <= i < |s| ==> IsDigit(s[i])
  {
    if s == [] then 0
    else
      assert IsDigit(s[|s| - 1]);
      10 * Decimal(s[..|s| - 1]) + (s[|s| - 1] as int - '0' as int)
  }

  ghost predicate Reads(s: string, n: nat)
  {
    (forall i :: 0 <= i < |s| ==> IsDigit(s[i])) && Decimal(s) == n
  }

  lemma {:induction false} DigitsRead(n: nat, w: nat)
    requires n < Pow10(w)
    ensures Reads(Digits(n, w), n)
  {
    if w != 0 {
      DigitsRead(n / 10, w - 1);
      var s := Digits(n, w);
      assert s[..w - 1] == Digits(n / 10, w - 1);
    }
  }

  /** The stored string is `YYYY-MM-DDTHH:MM:SS`, then a point and six digits if there are
      microseconds, then `+00:00`; and its fields read back to those of the datetime. */
  lemma IsoReadsBack(d: Instant)
    ensures
      var s := Iso(d);
      && |s| == (if d.micro == 0 then 25 else 32) && s[|s| - 6..] == "+00:00"
      && Reads(s[..4], d.year) && s[4] == '-' && Reads(s[5..7], d.month) && s[7] == '-' && Reads(s[8..10], d.day)
      && s[10] == 'T' && Reads(s[11..13], d.hour) && s[13] == ':' && Reads(s[14..16], d.minute)
      && s[16] == ':' && Reads(s[17..19], d.second)
      && (d.micro != 0 ==> s[19] == '.' && Reads(s[20..26], d.micro))
  {
    hide Digits, Decimal;
    PowersOfTen();
    var year, month, day := Digits(d.year, 4), Digits(d.month, 2), Digits(d.day, 2);
    var hour, minute, second := Digits(d.hour, 2), Digits(d.minute, 2), Digits(d.second, 2);
    DigitsRead(d.year, 4);
    DigitsRead(d.month, 2);
    DigitsRead(d.day, 2);
    DigitsRead(d.hour, 2);
    DigitsRead(d.minute, 2);
    DigitsRead(d.second, 2);
    DigitsRead(d.micro, 6);
    var s := Iso(d);
    assert s == year + "-" + month + "-" + day + "T" + hour + ":" + minute + ":" + second + IsoFraction(d);
    assert s[..4] == year && s[5..7] == month && s[8..10] == day;
    assert s[11..13] == hour && s[14..16] == minute && s[17..19] == second;
    assert s[19..] == IsoFraction(d);
    if d.micro != 0 {
      assert s[20..26] == Digits(d.micro, 6);
    }
  }
}
