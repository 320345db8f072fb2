/**
 UTC datetimes, the ISO strings the hub stores as `approved_at`, and the proof
 that comparing those strings compares the instants.

 Python leaves the fraction out when the microseconds are zero, so two strings
 need not have the same number of digits and the sorting rule of section 5.1 of
 RFC 3339 does not apply. The order survives because '+' sorts before '.'.
 */
module Timestamps {

  // ---- String order ------------------------------------------------------

  /** Lexicographic order on strings, as the graph database compares them. */
  predicate StrLess(a: string, b: string)
  {
    && b != []
    && (a == [] || a[0] < b[0] || (a[0] == b[0] && StrLess(a[1..], b[1..])))
  }

  predicate StrLeq(a: string, b: string)
  {
    a == b || StrLess(a, b)
  }

  lemma {:induction false} StrLessIrreflexive(a: string)
    ensures !StrLess(a, a)
  {
    if a != [] {
      StrLessIrreflexive(a[1..]);
    }
  }

  lemma {:induction false} StrLessTransitive(a: string, b: string, c: string)
    requires StrLess(a, b) && StrLess(b, c)
    ensures StrLess(a, c)
  {
    if a != [] && a[0] == b[0] == c[0] {
      StrLessTransitive(a[1..], b[1..], c[1..]);
    }
  }

  lemma {:induction false} StrLessTotal(a: string, b: string)
    ensures StrLess(a, b) || a == b || StrLess(b, a)
  {
    if a != [] && b != [] && a[0] == b[0] {
      StrLessTotal(a[1..], b[1..]);
      assert a == [a[0]] + a[1..] && b == [b[0]] + b[1..];
    }
  }

  /** The mixed transitivity and antisymmetry facts, for three given strings. */
  lemma StrOrder(a: string, b: string, c: string)
    ensures StrLeq(a, b) && StrLess(b, c) ==> StrLess(a, c)
    ensures StrLess(a, b) && StrLeq(b, c) ==> StrLess(a, c)
    ensures StrLeq(a, b) && StrLeq(b, c) ==> StrLeq(a, c)
    ensures StrLess(a, b) <==> !StrLeq(b, a)
  {
    StrLessIrreflexive(a);
    StrLessTotal(a, b);
    if StrLess(a, b) && StrLess(b, c) {
      StrLessTransitive(a, b, c);
    }
    if StrLess(a, b) && StrLess(b, a) {
      StrLessTransitive(a, b, a);
    }
  }

  /** Heads of equal length are compared first, tails only on a tie. */
  lemma {:induction false} StrLessAppend(p: string, q: string, x: string, y: string)
    requires |p| == |q|
    ensures StrLess(p + x, q + y) <==> StrLess(p, q) || (p == q && StrLess(x, y))
  {
    if p == [] {
      assert p + x == x && q + y == y;
    } else {
      assert (p + x)[1..] == p[1..] + x && (q + y)[1..] == q[1..] + y;
      StrLessAppend(p[1..], q[1..], x, y);
      assert p == [p[0]] + p[1..] && q == [q[0]] + q[1..];
    }
  }

  // ---- Decimal fields ----------------------------------------------------

  function Pow10(w: nat): (p: nat)
  {
    if w == 0 then 1 else 10 * Pow10(w - 1)
  }

  function Digit(k: nat): char
    requires k < 10
  {
    ('0' as int + k) as char
  }

  /** n in decimal, zero-padded to w digits. */
  function Digits(n: nat, w: nat): (s: string)
    ensures |s| == w
  {
    if w == 0 then "" else Digits(n / 10, w - 1) + [Digit(n % 10)]
  }

  /** Zero-padded decimals of one width order like the numbers. */
  lemma {:induction false} DigitsOrder(n: nat, m: nat, w: nat)
    requires n < Pow10(w) && m < Pow10(w)
    ensures StrLess(Digits(n, w), Digits(m, w)) <==> n < m
    ensures Digits(n, w) == Digits(m, w) <==> n == m
  {
    if w != 0 {
      DigitsOrder(n / 10, m / 10, w - 1);
      var p, q := Digits(n / 10, w - 1), Digits(m / 10, w - 1);
      var x, y := [Digit(n % 10)], [Digit(m % 10)];
      StrLessAppend(p, q, x, y);
      assert StrLess(x, y) <==> n % 10 < m % 10;
      assert p == (p + x)[..w - 1] && q == (q + y)[..w - 1];
      assert x == (p + x)[w - 1..] && y == (q + y)[w - 1..];
      assert n == 10 * (n / 10) + n % 10 && m == 10 * (m / 10) + m % 10;
    }
  }

  /** A padded field decides the order of two strings unless it ties. */
  lemma FieldOrder(n: nat, m: nat, w: nat, x: string, y: string)
    requires n < Pow10(w) && m < Pow10(w)
    ensures StrLess(Digits(n, w) + x, Digits(m, w) + y) <==> n < m || (n == m && StrLess(x, y))
  {
    DigitsOrder(n, m, w);
    StrLessAppend(Digits(n, w), Digits(m, w), x, y);
  }

  // ---- Datetimes ---------------------------------------------------------

  predicate IsLeap(y: nat)
  {
    y % 4 == 0 && (y % 100 != 0 || y % 400 == 0)
  }

  function DaysInMonth(y: nat, m: nat): nat
  {
    if m == 2 then (if IsLeap(y) then 29 else 28)
    else if m == 4 || m == 6 || m == 9 || m == 11 then 30
    else 31
  }

  /** A UTC datetime, with the field ranges of Python's datetime. */
  datatype DateTime = DateTime(
    year: nat, month: nat, day: nat, hour: nat, minute: nat, second: nat, micro: nat)
  {
    predicate Valid()
    {
      && 1 <= year <= 9999
      && 1 <= month <= 12
      && 1 <= day <= DaysInMonth(year, month)
      && hour < 24 && minute < 60 && second < 60 && micro < 1_000_000
    }
  }

  type Instant = d: DateTime | d.Valid() witness DateTime(1, 1, 1, 0, 0, 0, 0)

  /** Days of the year that precede month m; month 13 gives the year's length. */
  function DaysBeforeMonth(y: nat, m: nat): nat
    requires 1 <= m
  {
    if m == 1 then 0 else DaysBeforeMonth(y, m - 1) + DaysInMonth(y, m - 1)
  }

  /** Days from 1 January of year 1 to 1 January of year y. */
  function DaysBeforeYear(y: nat): nat
    requires 1 <= y
  {
    if y == 1 then 0 else DaysBeforeYear(y - 1) + DaysBeforeMonth(y - 1, 13)
  }

  const MICROS_PER_SECOND: int := 1_000_000
  const MICROS_PER_DAY: int := 86_400_000_000

  function MicrosOfDay(d: DateTime): int
  {
    ((d.hour * 60 + d.minute) * 60 + d.second) * MICROS_PER_SECOND + d.micro
  }

  function DayOfYear(d: Instant): int
  {
    DaysBeforeMonth(d.year, d.month) + d.day
  }

  /** Microseconds from the start of year 1: the instant a datetime denotes. */
  function Micros(d: Instant): int
  {
    (DaysBeforeYear(d.year) + DayOfYear(d) - 1) * MICROS_PER_DAY + MicrosOfDay(d)
  }

  // ---- isoformat ---------------------------------------------------------

  function IsoFraction(d: Instant): string
  {
    (if d.micro == 0 then "" else "." + Digits(d.micro, 6)) + "+00:00"
  }

  function IsoTime(d: Instant): string
  {
    Digits(d.hour, 2) + (":" + (Digits(d.minute, 2) + (":" + (Digits(d.second, 2) + IsoFraction(d)))))
  }

  function IsoMonthDay(d: Instant): string
  {
    Digits(d.month, 2) + ("-" + (Digits(d.day, 2) + ("T" + IsoTime(d))))
  }

  /** Python's `isoformat()` of a UTC datetime. */
  function Iso(d: Instant): string
  {
    Digits(d.year, 4) + ("-" + IsoMonthDay(d))
  }

  lemma PowersOfTen()
    ensures Pow10(2) == 100 && Pow10(4) == 10_000 && Pow10(6) == 1_000_000
  {
    assert Pow10(3) == 1000;
    assert Pow10(5) == 100_000;
  }

  /** One separator in front of both strings does not change their order. */
  lemma SeparatorOrder(sep: string, x: string, y: string)
    ensures StrLess(sep + x, sep + y) <==> StrLess(x, y)
  {
    StrLessIrreflexive(sep);
    StrLessAppend(sep, sep, x, y);
  }

  /** A missing fraction sorts below any fraction, because '+' < '.'. */
  lemma FractionOrder(a: Instant, b: Instant)
    ensures StrLess(IsoFraction(a), IsoFraction(b)) <==> a.micro < b.micro
  {
    PowersOfTen();
    var zone := "+00:00";
    StrLessIrreflexive(zone);
    assert "" + zone == zone;
    if a.micro == 0 && b.micro == 0 {
    } else if a.micro == 0 {
      assert IsoFraction(b)[0] == '.' && IsoFraction(a)[0] == '+';
    } else if b.micro == 0 {
      assert IsoFraction(a)[0] == '.' && IsoFraction(b)[0] == '+';
    } else {
      assert IsoFraction(a) == "." + (Digits(a.micro, 6) + zone);
      assert IsoFraction(b) == "." + (Digits(b.micro, 6) + zone);
      SeparatorOrder(".", Digits(a.micro, 6) + zone, Digits(b.micro, 6) + zone);
      FieldOrder(a.micro, b.micro, 6, zone, zone);
    }
  }

  lemma TimeOrder(a: Instant, b: Instant)
    ensures StrLess(IsoTime(a), IsoTime(b)) <==> MicrosOfDay(a) < MicrosOfDay(b)
  {
    PowersOfTen();
    FractionOrder(a, b);
    var sa, sb := Digits(a.second, 2) + IsoFraction(a), Digits(b.second, 2) + IsoFraction(b);
    FieldOrder(a.second, b.second, 2, IsoFraction(a), IsoFraction(b));
    SeparatorOrder(":", sa, sb);
    var ma, mb := Digits(a.minute, 2) + (":" + sa), Digits(b.minute, 2) + (":" + sb);
    FieldOrder(a.minute, b.minute, 2, ":" + sa, ":" + sb);
    SeparatorOrder(":", ma, mb);
    FieldOrder(a.hour, b.hour, 2, ":" + ma, ":" + mb);
  }

  /** A later month starts after every day of an earlier one. */
  lemma {:induction false} MonthsInOrder(y: nat, m: nat, n: nat)
    requires 1 <= m < n
    ensures DaysBeforeMonth(y, m) + DaysInMonth(y, m) <= DaysBeforeMonth(y, n)
  {
    if n != m + 1 {
      MonthsInOrder(y, m, n - 1);
    }
  }

  lemma {:induction false} YearsInOrder(y: nat, z: nat)
    requires 1 <= y < z
    ensures DaysBeforeYear(y) + DaysBeforeMonth(y, 13) <= DaysBeforeYear(z)
  {
    if z != y + 1 {
      YearsInOrder(y, z - 1);
    }
  }

  lemma MicrosOfDayBound(d: Instant)
    ensures 0 <= MicrosOfDay(d) < MICROS_PER_DAY
  {
  }

  lemma MonthDayOrder(a: Instant, b: Instant)
    requires a.year == b.year
    ensures StrLess(IsoMonthDay(a), IsoMonthDay(b)) <==>
            DayOfYear(a) * MICROS_PER_DAY + MicrosOfDay(a) < DayOfYear(b) * MICROS_PER_DAY + MicrosOfDay(b)
  {
    PowersOfTen();
    TimeOrder(a, b);
    MicrosOfDayBound(a);
    MicrosOfDayBound(b);
    SeparatorOrder("T", IsoTime(a), IsoTime(b));
    var da, db := Digits(a.day, 2) + ("T" + IsoTime(a)), Digits(b.day, 2) + ("T" + IsoTime(b));
    FieldOrder(a.day, b.day, 2, "T" + IsoTime(a), "T" + IsoTime(b));
    SeparatorOrder("-", da, db);
    FieldOrder(a.month, b.month, 2, "-" + da, "-" + db);
    if a.month < b.month {
      MonthsInOrder(a.year, a.month, b.month);
    } else if b.month < a.month {
      MonthsInOrder(a.year, b.month, a.month);
    }
  }

  lemma EarlierYear(a: Instant, b: Instant)
    requires a.year < b.year
    ensures Micros(a) < Micros(b)
  {
    YearsInOrder(a.year, b.year);
    MonthsInOrder(a.year, a.month, 13);
    MicrosOfDayBound(a);
    MicrosOfDayBound(b);
  }

  /** String order on the stored timestamps is chronological order. */
  lemma IsoOrder(a: Instant, b: Instant)
    ensures StrLess(Iso(a), Iso(b)) <==> Micros(a) < Micros(b)
    ensures Iso(a) == Iso(b) <==> Micros(a) == Micros(b)
  {
    IsoLess(a, b);
    IsoLess(b, a);
    StrLessTotal(Iso(a), Iso(b));
    StrLessIrreflexive(Iso(a));
  }

  lemma IsoLess(a: Instant, b: Instant)
    ensures StrLess(Iso(a), Iso(b)) <==> Micros(a) < Micros(b)
  {
    PowersOfTen();
    SeparatorOrder("-", IsoMonthDay(a), IsoMonthDay(b));
    FieldOrder(a.year, b.year, 4, "-" + IsoMonthDay(a), "-" + IsoMonthDay(b));
    if a.year < b.year {
      EarlierYear(a, b);
    } else if b.year < a.year {
      EarlierYear(b, a);
    } else {
      MonthDayOrder(a, b);
    }
  }

  /** The lengths of two ISO strings can differ, so the equal-digits rule of
      RFC 3339 (section 5.1) is not what makes the order work. */
  lemma IsoLengthsDiffer()
    ensures exists a: Instant, b: Instant :: |Iso(a)| != |Iso(b)| && StrLess(Iso(a), Iso(b))
  {
    var a: Instant := DateTime(2026, 4, 22, 10, 0, 0, 0);
    var b: Instant := DateTime(2026, 4, 22, 10, 0, 0, 1);
    IsoLess(a, b);
    assert |Iso(a)| == 25 && |Iso(b)| == 32;
    assert Micros(a) < Micros(b);
  }
}
