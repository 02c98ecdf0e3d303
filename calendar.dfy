/** The part of Python's datetime the daily series relies on: the proleptic Gregorian calendar
    and strftime("%Y-%m-%d") on a time given in whole seconds since 1970-01-01T00:00:00. */
module Calendar {
  import opened Text

  /** Days from 0001-01-01 to 1970-01-01: date(1970, 1, 1).toordinal() - 1. */
  const EpochOrdinal := 719162

  const SecondsPerDay := 86400

  predicate IsLeapYear(y: int) {
    y % 4 == 0 && (y % 100 != 0 || y % 400 == 0)
  }

  function DaysInYear(y: int): nat {
    if IsLeapYear(y) then 366 else 365
  }

  function DaysInMonth(y: int, m: int): nat {
    if m == 2 then (if IsLeapYear(y) then 29 else 28)
    else if m == 4 || m == 6 || m == 9 || m == 11 then 30
    else 31
  }

  /** The days of year y before the first of month m; m == 13 gives the whole year. */
  function DaysBeforeMonth(y: int, m: int): nat
    requires 1 <= m <= 13
  {
    if m == 1 then 0 else DaysBeforeMonth(y, m - 1) + DaysInMonth(y, m - 1)
  }

  /** The twelve months make up the year. */
  lemma MonthsMakeYear(y: int)
    ensures DaysBeforeMonth(y, 13) == DaysInYear(y)
  {
    assert DaysBeforeMonth(y, 2) == 31;
    assert DaysBeforeMonth(y, 3) == 31 + DaysInMonth(y, 2);
    assert DaysBeforeMonth(y, 4) == 62 + DaysInMonth(y, 2);
    assert DaysBeforeMonth(y, 5) == 92 + DaysInMonth(y, 2);
    assert DaysBeforeMonth(y, 6) == 123 + DaysInMonth(y, 2);
    assert DaysBeforeMonth(y, 7) == 153 + DaysInMonth(y, 2);
    assert DaysBeforeMonth(y, 8) == 184 + DaysInMonth(y, 2);
    assert DaysBeforeMonth(y, 9) == 215 + DaysInMonth(y, 2);
    assert DaysBeforeMonth(y, 10) == 245 + DaysInMonth(y, 2);
    assert DaysBeforeMonth(y, 11) == 276 + DaysInMonth(y, 2);
    assert DaysBeforeMonth(y, 12) == 306 + DaysInMonth(y, 2);
  }

  lemma {:induction false} DaysBeforeMonthGrows(y: int, a: int, b: int)
    requires 1 <= a <= b <= 13
    ensures DaysBeforeMonth(y, a) <= DaysBeforeMonth(y, b)
    decreases b - a
  {
    if a < b {
      DaysBeforeMonthGrows(y, a, b - 1);
    }
  }

  /** The year, and the day within it counted from 0, of the day n days after 1 January of year y. */
  function YearFrom(y: int, n: nat): (r: (int, nat))
    ensures r.0 >= y && r.1 < DaysInYear(r.0)
    ensures n >= DaysInYear(y) ==> r.0 > y
    decreases n
  {
    if n < DaysInYear(y) then (y, n) else YearFrom(y + 1, n - DaysInYear(y))
  }

  /** The month of day doy (counted from 0) of year y, searching down from month m. */
  function MonthFrom(y: int, doy: nat, m: int): (r: int)
    requires 1 <= m <= 12
    ensures 1 <= r <= m && DaysBeforeMonth(y, r) <= doy
    ensures doy < DaysBeforeMonth(y, m + 1) ==> doy < DaysBeforeMonth(y, r + 1)
    decreases m
  {
    if m == 1 || DaysBeforeMonth(y, m) <= doy then m else MonthFrom(y, doy, m - 1)
  }

  /** The calendar date (year, month, day) of day number `days` counted from 1970-01-01. Days
      before 0001-01-01, which a datetime cannot hold, are taken as 0001-01-01. */
  function CivilFromDays(days: int): (r: (int, int, int))
    ensures r.0 >= 1 && 1 <= r.1 <= 12 && 1 <= r.2 <= DaysInMonth(r.0, r.1)
  {
    var n := if days + EpochOrdinal < 0 then 0 else days + EpochOrdinal;
    var (y, doy) := YearFrom(1, n);
    MonthsMakeYear(y);
    var m := MonthFrom(y, doy, 12);
    (y, m, doy - DaysBeforeMonth(y, m) + 1)
  }

  /** Lexicographic order on dates. */
  predicate Before(a: (int, int, int), b: (int, int, int)) {
    a.0 < b.0 || (a.0 == b.0 && (a.1 < b.1 || (a.1 == b.1 && a.2 < b.2)))
  }

  lemma {:induction false} YearFromOrder(y: int, n1: nat, n2: nat)
    requires n1 < n2
    ensures var (y1, d1) := YearFrom(y, n1); var (y2, d2) := YearFrom(y, n2);
      y1 < y2 || (y1 == y2 && d1 < d2)
    decreases n1
  {
    if n1 >= DaysInYear(y) {
      YearFromOrder(y + 1, n1 - DaysInYear(y), n2 - DaysInYear(y));
    }
  }

  lemma MonthDayOrder(y: int, doy1: nat, doy2: nat)
    requires doy1 < doy2 < DaysInYear(y)
    ensures var m1 := MonthFrom(y, doy1, 12); var m2 := MonthFrom(y, doy2, 12);
      m1 < m2 || (m1 == m2 && doy1 - DaysBeforeMonth(y, m1) < doy2 - DaysBeforeMonth(y, m2))
  {
    MonthsMakeYear(y);
    var m1 := MonthFrom(y, doy1, 12);
    var m2 := MonthFrom(y, doy2, 12);
    if m1 > m2 {
      DaysBeforeMonthGrows(y, m2 + 1, m1);
      assert false;
    }
  }

  /** Later days have later dates, from 0001-01-01 on. */
  lemma CivilOrder(days1: int, days2: int)
    requires -EpochOrdinal <= days1 < days2
    ensures Before(CivilFromDays(days1), CivilFromDays(days2))
  {
    var n1: nat := days1 + EpochOrdinal;
    var n2: nat := days2 + EpochOrdinal;
    YearFromOrder(1, n1, n2);
    var (y1, doy1) := YearFrom(1, n1);
    var (y2, doy2) := YearFrom(1, n2);
    if y1 == y2 {
      MonthDayOrder(y1, doy1, doy2);
    }
  }

  // ---------------------------------------------------------------- strftime

  function Pow10(w: nat): nat {
    if w == 0 then 1 else 10 * Pow10(w - 1)
  }

  /** `n` in decimal, left-padded with zeros to at least `width` digits (strftime's %Y, %m, %d). */
  function ZeroPad(n: nat, width: nat): (r: string)
    ensures |r| >= 1 && |r| >= width
    decreases n + width
  {
    if n < 10 && width <= 1 then [DigitChar(n)]
    else ZeroPad(n / 10, if width == 0 then 0 else width - 1) + [DigitChar(n % 10)]
  }

  lemma {:induction false} ZeroPadWidth(n: nat, width: nat)
    requires 1 <= width && n < Pow10(width)
    ensures |ZeroPad(n, width)| == width
  {
    if width > 1 {
      ZeroPadWidth(n / 10, width - 1);
    }
  }

  /** Below 10^width, zero padding to width digits keeps numeric order. */
  lemma {:induction false} ZeroPadOrder(a: nat, b: nat, width: nat)
    requires 1 <= width && a < b < Pow10(width)
    ensures LexLess(ZeroPad(a, width), ZeroPad(b, width))
  {
    if width == 1 {
      assert ZeroPad(a, 1) == [DigitChar(a)] && ZeroPad(b, 1) == [DigitChar(b)];
    } else {
      var pa := ZeroPad(a / 10, width - 1);
      var pb := ZeroPad(b / 10, width - 1);
      assert ZeroPad(a, width) == pa + [DigitChar(a % 10)];
      assert ZeroPad(b, width) == pb + [DigitChar(b % 10)];
      if a / 10 < b / 10 {
        ZeroPadOrder(a / 10, b / 10, width - 1);
        ZeroPadWidth(a / 10, width - 1);
        ZeroPadWidth(b / 10, width - 1);
        LexLessExtend(pa, pb, [DigitChar(a % 10)], [DigitChar(b % 10)]);
      } else {
        assert a % 10 < b % 10;
        LexLessPrefix(pa, [DigitChar(a % 10)], [DigitChar(b % 10)]);
      }
    }
  }

  /** The text of a date: four-digit year, two-digit month and day, separated by '-'; ten
      characters whenever the year has at most four digits and month and day at most two. */
  function DateText(date: (int, int, int)): (r: string)
    requires date.0 >= 0 && date.1 >= 0 && date.2 >= 0
    ensures date.0 < 10000 && date.1 < 100 && date.2 < 100 ==> |r| == 10 && r[4] == '-' && r[7] == '-'
  {
    var r := ZeroPad(date.0, 4) + "-" + ZeroPad(date.1, 2) + "-" + ZeroPad(date.2, 2);
    assert date.0 < 10000 && date.1 < 100 && date.2 < 100 ==> |r| == 10 && r[4] == '-' && r[7] == '-' by {
      if date.0 < 10000 && date.1 < 100 && date.2 < 100 {
        assert Pow10(2) == 100 && Pow10(4) == 10000 by {
          assert Pow10(1) == 10 && Pow10(3) == 1000;
        }
        ZeroPadWidth(date.0, 4);
        ZeroPadWidth(date.1, 2);
        ZeroPadWidth(date.2, 2);
      }
    }
    r
  }

  /** created_at.strftime("%Y-%m-%d") for a time given in seconds since 1970-01-01T00:00:00: the
      text of its day, "YYYY-MM-DD" for a time a datetime can hold. */
  function DateString(seconds: int): (r: string)
    ensures Representable(seconds) ==> |r| == 10 && r[4] == '-' && r[7] == '-'
  {
    DateText(CivilFromDays(seconds / SecondsPerDay))
  }

  /** Between the years 1 and 9999, text order of dates is date order. */
  lemma DateTextOrder(a: (int, int, int), b: (int, int, int))
    requires 1 <= a.0 <= 9999 && 1 <= b.0 <= 9999
    requires 1 <= a.1 <= 12 && 1 <= b.1 <= 12 && 1 <= a.2 <= 31 && 1 <= b.2 <= 31
    requires Before(a, b)
    ensures LexLess(DateText(a), DateText(b))
  {
    assert Pow10(2) == 100 && Pow10(4) == 10000 by {
      assert Pow10(1) == 10 && Pow10(3) == 1000;
    }
    ZeroPadWidth(a.0, 4);
    ZeroPadWidth(b.0, 4);
    ZeroPadWidth(a.1, 2);
    ZeroPadWidth(b.1, 2);
    var ya, yb := ZeroPad(a.0, 4), ZeroPad(b.0, 4);
    var ma, mb := ZeroPad(a.1, 2), ZeroPad(b.1, 2);
    var da, db := ZeroPad(a.2, 2), ZeroPad(b.2, 2);
    assert DateText(a) == ya + ("-" + ma + "-" + da);
    assert DateText(b) == yb + ("-" + mb + "-" + db);
    if a.0 < b.0 {
      ZeroPadOrder(a.0, b.0, 4);
      LexLessExtend(ya, yb, "-" + ma + "-" + da, "-" + mb + "-" + db);
    } else if a.1 < b.1 {
      ZeroPadOrder(a.1, b.1, 2);
      LexLessExtend(ma, mb, "-" + da, "-" + db);
      assert "-" + ma + "-" + da == "-" + (ma + ("-" + da));
      assert "-" + mb + "-" + db == "-" + (mb + ("-" + db));
      LexLessPrefix("-", ma + ("-" + da), mb + ("-" + db));
      LexLessPrefix(ya, "-" + ma + "-" + da, "-" + mb + "-" + db);
    } else {
      ZeroPadOrder(a.2, b.2, 2);
      assert DateText(a) == (ya + "-" + ma + "-") + da;
      assert DateText(b) == (ya + "-" + ma + "-") + db;
      LexLessPrefix(ya + "-" + ma + "-", da, db);
    }
  }

  /** A time a datetime can hold: its day falls in the years 1 to 9999. */
  predicate Representable(seconds: int) {
    seconds / SecondsPerDay >= -EpochOrdinal && CivilFromDays(seconds / SecondsPerDay).0 <= 9999
  }

  /** For times in the years 1 to 9999, two times have the same date text exactly when they fall
      on the same day, and text order is day order, so sorting the texts sorts the days. */
  lemma DateStringOrder(s1: int, s2: int)
    requires Representable(s1) && Representable(s2)
    ensures DateString(s1) == DateString(s2) <==> s1 / SecondsPerDay == s2 / SecondsPerDay
    ensures LexLess(DateString(s1), DateString(s2)) <==> s1 / SecondsPerDay < s2 / SecondsPerDay
  {
    var d1, d2 := s1 / SecondsPerDay, s2 / SecondsPerDay;
    if d1 < d2 {
      CivilOrder(d1, d2);
      DateTextOrder(CivilFromDays(d1), CivilFromDays(d2));
      LexLessIrreflexive(DateString(s1));
    } else if d2 < d1 {
      CivilOrder(d2, d1);
      DateTextOrder(CivilFromDays(d2), CivilFromDays(d1));
      LexLessAsymmetric(DateString(s2), DateString(s1));
      LexLessIrreflexive(DateString(s2));
    } else {
      LexLessIrreflexive(DateString(s1));
    }
  }
}
