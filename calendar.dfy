/**
 * Proleptic Gregorian calendar dates, the add-days step used to lay out the seven
 * days of a week, and the ISO 8601 calendar-date text (`YYYY-MM-DD`) in which
 * those dates are written to the daily-actuals table.
 */
module Calendar {
  import opened Wrappers

  datatype CivilDate = CivilDate(year: int, month: int, day: int)

  predicate IsLeapYear(y: int) {
    y % 4 == 0 && (y % 100 != 0 || y % 400 == 0)
  }

  function DaysInMonth(y: int, m: int): (n: int)
    requires 1 <= m <= 12
    ensures 28 <= n <= 31
    ensures m == 2 ==> (n == 29 <==> IsLeapYear(y))
  {
    if m == 2 then (if IsLeapYear(y) then 29 else 28)
    else if m == 4 || m == 6 || m == 9 || m == 11 then 30
    else 31
  }

  predicate IsValid(d: CivilDate) {
    1 <= d.month <= 12 && 1 <= d.day <= DaysInMonth(d.year, d.month)
  }

  /** A real calendar day: what a DATE column can hold. */
  type Date = d: CivilDate | IsValid(d) witness CivilDate(1, 1, 1)

  /** Chronological order: year, then month, then day. */
  predicate Before(a: CivilDate, b: CivilDate) {
    a.year < b.year || (a.year == b.year && (a.month < b.month || (a.month == b.month && a.day < b.day)))
  }

  predicate OnOrBefore(a: CivilDate, b: CivilDate) {
    a == b || Before(a, b)
  }

  /** The calendar day after `d`. */
  function NextDay(d: Date): (r: Date)
    ensures Before(d, r)
  {
    if d.day < DaysInMonth(d.year, d.month) then CivilDate(d.year, d.month, d.day + 1)
    else if d.month < 12 then CivilDate(d.year, d.month + 1, 1)
    else CivilDate(d.year + 1, 1, 1)
  }

  /** `d` moved `n` days forward, one day at a time; AddDaysNumber shows it moves exactly `n` days. */
  function AddDays(d: Date, n: nat): (r: Date)
    ensures OnOrBefore(d, r)
    ensures n > 0 ==> Before(d, r)
  {
    if n == 0 then d else NextDay(AddDays(d, n - 1))
  }

  /** Later offsets from the same start give strictly later days. */
  lemma {:induction false} AddDaysIncreasing(d: Date, i: nat, j: nat)
    requires i < j
    ensures Before(AddDays(d, i), AddDays(d, j))
  {
    if i < j - 1 {
      AddDaysIncreasing(d, i, j - 1);
    }
  }

  // An independent reference: the number of days since 0001-01-01.

  function DaysBeforeYear(y: int): int {
    365 * (y - 1) + (y - 1) / 4 - (y - 1) / 100 + (y - 1) / 400
  }

  function DaysBeforeMonth(y: int, m: int): int
    requires 1 <= m <= 12
  {
    [0, 31, 59, 90, 120, 151, 181, 212, 243, 273, 304, 334][m - 1] + (if m > 2 && IsLeapYear(y) then 1 else 0)
  }

  /** Days since 0001-01-01, which is day 0. */
  function DayNumber(d: Date): int {
    DaysBeforeYear(d.year) + DaysBeforeMonth(d.year, d.month) + d.day - 1
  }

  lemma YearLength(y: int)
    ensures DaysBeforeYear(y + 1) == DaysBeforeYear(y) + (if IsLeapYear(y) then 366 else 365)
  {
    LeapCount(y);
  }

  /** The leap days up to year y are those up to year y - 1, plus one when y is itself leap. */
  lemma LeapCount(y: int)
    ensures y / 4 - y / 100 + y / 400 == (y - 1) / 4 - (y - 1) / 100 + (y - 1) / 400 + (if IsLeapYear(y) then 1 else 0)
  {
    StepDiv4(y);
    StepDiv100(y);
    StepDiv400(y);
    CenturyDivisibility(y);
  }

  lemma CenturyDivisibility(y: int)
    ensures y % 100 == 0 ==> y % 4 == 0
    ensures y % 400 == 0 ==> y % 100 == 0
  {
    if y % 100 == 0 {
      FourDivides(y, 25 * (y / 100));
    }
    if y % 400 == 0 {
      HundredDivides(y, 4 * (y / 400));
    }
  }

  lemma FourDivides(y: int, j: int)
    requires y == 4 * j
    ensures y % 4 == 0
  {
  }

  lemma HundredDivides(y: int, j: int)
    requires y == 100 * j
    ensures y % 100 == 0
  {
  }

  lemma StepDiv4(y: int)
    ensures y / 4 == (y - 1) / 4 + (if y % 4 == 0 then 1 else 0)
  {
  }

  lemma StepDiv100(y: int)
    ensures y / 100 == (y - 1) / 100 + (if y % 100 == 0 then 1 else 0)
  {
  }

  lemma StepDiv400(y: int)
    ensures y / 400 == (y - 1) / 400 + (if y % 400 == 0 then 1 else 0)
  {
  }

  /** Stepping one day forward advances the day number by exactly one. */
  lemma NextDayNumber(d: Date)
    ensures DayNumber(NextDay(d)) == DayNumber(d) + 1
  {
    if d.day == DaysInMonth(d.year, d.month) && d.month == 12 {
      YearLength(d.year);
    }
  }

  /** AddDays is calendar arithmetic: it adds exactly `n` to the day number. */
  lemma {:induction false} AddDaysNumber(d: Date, n: nat)
    ensures DayNumber(AddDays(d, n)) == DayNumber(d) + n
  {
    if n > 0 {
      AddDaysNumber(d, n - 1);
      NextDayNumber(AddDays(d, n - 1));
    }
  }

  /** 0 = Monday … 6 = Sunday; 0001-01-01 of the proleptic Gregorian calendar was a Monday. */
  function WeekdayIndex(d: Date): (k: int)
    ensures 0 <= k < 7
  {
    DayNumber(d) % 7
  }

  /**
   * The anchor of WeekdayIndex against a known date: 2024-01-01 was a Monday and gets
   * index 0, so index 0 does name Monday and Days[WeekdayIndex(d)] is d's weekday.
   */
  lemma KnownMonday()
    ensures WeekdayIndex(CivilDate(2024, 1, 1)) == 0
  {
    assert DaysBeforeYear(2024) == 738885;
  }

  /** Counting from a Monday, offset `i` falls on weekday `i`. */
  lemma WeekFromMonday(weekStart: Date, i: nat)
    requires WeekdayIndex(weekStart) == 0
    requires i < 7
    ensures WeekdayIndex(AddDays(weekStart, i)) == i
  {
    AddDaysNumber(weekStart, i);
    ModShift(DayNumber(weekStart), i);
  }

  lemma ModShift(x: int, i: int)
    requires x % 7 == 0
    requires 0 <= i < 7
    ensures (x + i) % 7 == i
  {
    var q := x / 7;
    assert x == 7 * q;
  }

  // ISO 8601 calendar-date text, as written by `Date.prototype.toISOString`.

  predicate IsDigit(c: char) {
    '0' <= c <= '9'
  }

  function DigitChar(k: int): (c: char)
    requires 0 <= k < 10
    ensures IsDigit(c) && c as int == 48 + k
  {
    (48 + k) as char
  }

  function DigitValue(c: char): (k: int)
    requires IsDigit(c)
    ensures 0 <= k < 10
  {
    c as int - 48
  }

  function Pow10(w: nat): (p: nat)
    ensures p >= 1
  {
    if w == 0 then 1 else 10 * Pow10(w - 1)
  }

  /** Decimal digits of `n`, left-padded with zeros to at least `width` characters. */
  function Pad(n: nat, width: nat): (r: string)
    ensures |r| >= 1
    ensures forall i :: 0 <= i < |r| ==> IsDigit(r[i])
    decreases n, width
  {
    (if n >= 10 || width > 1 then Pad(n / 10, if width > 0 then width - 1 else 0) else "") + [DigitChar(n % 10)]
  }

  /** Value of a string of decimal digits. */
  function ParseNat(s: string): (n: nat)
    requires forall i :: 0 <= i < |s| ==> IsDigit(s[i])
    ensures n < Pow10(|s|)
  {
    if s == [] then 0 else 10 * ParseNat(s[..|s| - 1]) + DigitValue(s[|s| - 1])
  }

  lemma {:induction false} PadLength(n: nat, width: nat)
    requires 1 <= width
    requires n < Pow10(width)
    ensures |Pad(n, width)| == width
    decreases n, width
  {
    if n >= 10 || width > 1 {
      PadLength(n / 10, width - 1);
    }
  }

  lemma ParseNatSnoc(init: string, c: char)
    requires forall i :: 0 <= i < |init| ==> IsDigit(init[i])
    requires IsDigit(c)
    ensures forall i :: 0 <= i < |init + [c]| ==> IsDigit((init + [c])[i])
    ensures ParseNat(init + [c]) == 10 * ParseNat(init) + DigitValue(c)
  {
    var s := init + [c];
    assert s[..|s| - 1] == init;
  }

  lemma {:induction false} ParsePad(n: nat, width: nat)
    ensures ParseNat(Pad(n, width)) == n
    decreases n, width
  {
    var rest := if width > 0 then width - 1 else 0;
    var init := if n >= 10 || width > 1 then Pad(n / 10, rest) else "";
    var last := DigitChar(n % 10);
    assert Pad(n, width) == init + [last];
    ParseNatSnoc(init, last);
    if n >= 10 || width > 1 {
      ParsePad(n / 10, rest);
    }
    assert ParseNat(init) == n / 10;
    assert DigitValue(last) == n % 10;
  }

  lemma {:induction false} PadParse(s: string)
    requires 1 <= |s|
    requires forall i :: 0 <= i < |s| ==> IsDigit(s[i])
    ensures Pad(ParseNat(s), |s|) == s
  {
    var n := ParseNat(s);
    var last := s[|s| - 1];
    var init := s[..|s| - 1];
    var q := ParseNat(init);
    assert n == 10 * q + DigitValue(last);
    DivMod10(q, DigitValue(last));
    assert DigitChar(n % 10) == last;
    assert s == init + [last];
    if |s| > 1 {
      PadParse(init);
      assert Pad(n, |s|) == Pad(q, |s| - 1) + [last];
    } else {
      assert init == [];
      assert Pad(n, |s|) == [last];
    }
  }

  lemma DivMod10(q: nat, d: int)
    requires 0 <= d < 10
    ensures (10 * q + d) / 10 == q && (10 * q + d) % 10 == d
  {
  }

  /** The year as `toISOString` writes it: four digits, or a sign and six digits outside 0..9999. */
  function YearText(y: int): (t: string)
    ensures |t| >= 1
    ensures 0 <= y <= 9999 ==> |t| == 4 && (forall i :: 0 <= i < 4 ==> IsDigit(t[i])) && ParseNat(t) == y
    ensures !(0 <= y <= 9999) ==> t[0] == (if y < 0 then '-' else '+')
  {
    assert Pow10(4) == 10000;
    PadLength(if 0 <= y <= 9999 then y else 0, 4);
    ParsePad(if 0 <= y <= 9999 then y else 0, 4);
    if 0 <= y <= 9999 then Pad(y, 4)
    else (if y < 0 then "-" else "+") + Pad(if y < 0 then -y else y, 6)
  }

  /** `YYYY-MM-DD`, the date part of `toISOString`. */
  function IsoDate(d: Date): (s: string)
    ensures 0 <= d.year <= 9999 ==> |s| == 10 && s[4] == '-' && s[7] == '-'
  {
    PadLength(d.month, 2);
    PadLength(d.day, 2);
    YearText(d.year) + "-" + Pad(d.month, 2) + "-" + Pad(d.day, 2)
  }

  predicate IsIsoShape(s: string) {
    && |s| == 10 && s[4] == '-' && s[7] == '-'
    && (forall i :: 0 <= i < 4 ==> IsDigit(s[i]))
    && IsDigit(s[5]) && IsDigit(s[6]) && IsDigit(s[8]) && IsDigit(s[9])
  }

  /** Reads back a four-digit `YYYY-MM-DD` text; anything else, or a day that does not exist, is None. */
  function ParseIsoDate(s: string): Option<Date> {
    if !IsIsoShape(s) then None
    else
      var d := CivilDate(ParseNat(s[..4]), ParseNat(s[5..7]), ParseNat(s[8..]));
      if IsValid(d) then Some(d) else None
  }

  /** The text written for a date with a four-digit year reads back as that same date. */
  lemma IsoDateRoundTrip(d: Date)
    requires 0 <= d.year <= 9999
    ensures |IsoDate(d)| == 10
    ensures ParseIsoDate(IsoDate(d)) == Some(d)
  {
    var y, m, dd := Pad(d.year, 4), Pad(d.month, 2), Pad(d.day, 2);
    PadLength(d.year, 4);
    PadLength(d.month, 2);
    PadLength(d.day, 2);
    ParsePad(d.year, 4);
    ParsePad(d.month, 2);
    ParsePad(d.day, 2);
    var s := IsoDate(d);
    assert s == y + "-" + m + "-" + dd;
    assert s[..4] == y && s[5..7] == m && s[8..] == dd;
  }

  /** Every text that reads back as a date is exactly the text written for it. */
  lemma IsoDateCanonical(s: string)
    requires ParseIsoDate(s).Some?
    ensures IsoDate(ParseIsoDate(s).value) == s
  {
    var y, m, dd := s[..4], s[5..7], s[8..];
    assert ParseNat(y) < Pow10(4) == 10000;
    PadParse(y);
    PadParse(m);
    PadParse(dd);
    assert s == y + "-" + m + "-" + dd;
  }
}
