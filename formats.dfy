/** The three input formats the client checks: the phone pattern `^255\d{9}$`,
    the 24-hour time pattern `^([01][0-9]|2[0-3]):[0-5][0-9]$`, and
    `isValidDate`, which parses with `Y-m-d` and asks that formatting the parsed
    date gives back the same text. */
module Formats {
  import opened Php

  predicate IsDigit(c: char) {
    '0' <= c <= '9'
  }

  function DigitValue(c: char): (n: int)
    requires IsDigit(c)
    ensures 0 <= n <= 9
  {
    c as int - '0' as int
  }

  function DigitChar(n: int): (c: char)
    requires 0 <= n <= 9
    ensures IsDigit(c) && DigitValue(c) == n
  {
    ('0' as int + n) as char
  }

  // ---------------------------------------------------------------------------
  // Patterns

  /** PCRE's `$` without the `D` modifier: the end of the subject, or just
      before a line feed that ends it. */
  predicate EndAnchor(s: string, i: nat) {
    i == |s| || (i + 1 == |s| && s[i] == '\n')
  }

  /** `^255\d{9}$`, as `preg_match` reads it: `\d` is an ASCII digit, and the
      final `$` also matches before one trailing line feed. */
  predicate IsPhone(s: string) {
    && 12 <= |s|
    && s[0] == '2' && s[1] == '5' && s[2] == '5'
    && (forall k | 3 <= k < 12 :: IsDigit(s[k]))
    && EndAnchor(s, 12)
  }

  /** The numbers `255` followed by exactly nine digits, with nothing after. */
  predicate IsPlainPhone(s: string) {
    |s| == 12 && s[..3] == "255" && forall k | 3 <= k < 12 :: IsDigit(s[k])
  }

  /** The phone pattern accepts exactly the plain numbers, and those numbers
      followed by a single line feed. */
  lemma PhonePattern(s: string)
    ensures IsPhone(s) <==> IsPlainPhone(s) || (|s| == 13 && s[12] == '\n' && IsPlainPhone(s[..12]))
  {
    if |s| >= 12 {
      assert s[..3] == [s[0], s[1], s[2]];
      assert s[..12][..3] == s[..3];
    }
  }

  /** On text without a line feed, the pattern means "255 and nine digits". */
  lemma PhoneWithoutLineFeed(s: string)
    requires '\n' !in s
    ensures IsPhone(s) <==> IsPlainPhone(s)
  {
    PhonePattern(s);
    if |s| == 13 {
      assert s[12] in s;
    }
  }

  /** `^([01][0-9]|2[0-3]):[0-5][0-9]$`, trailing line feed included. */
  predicate IsTime(s: string) {
    && 5 <= |s|
    && (((s[0] == '0' || s[0] == '1') && IsDigit(s[1])) || (s[0] == '2' && '0' <= s[1] <= '3'))
    && s[2] == ':'
    && '0' <= s[3] <= '5' && IsDigit(s[4])
    && EndAnchor(s, 5)
  }

  /** The two-digit number written at `s[i]`, `s[i + 1]`. */
  function TwoDigits(s: string, i: nat): (n: int)
    requires i + 2 <= |s| && IsDigit(s[i]) && IsDigit(s[i + 1])
    ensures 0 <= n <= 99
  {
    10 * DigitValue(s[i]) + DigitValue(s[i + 1])
  }

  /** The time pattern accepts `HH:MM` exactly when the hour is at most 23 and
      the minute at most 59 (optionally followed by one line feed). */
  lemma TimePattern(s: string)
    ensures IsTime(s) <==>
      && (|s| == 5 || (|s| == 6 && s[5] == '\n'))
      && IsDigit(s[0]) && IsDigit(s[1]) && s[2] == ':' && IsDigit(s[3]) && IsDigit(s[4])
      && TwoDigits(s, 0) <= 23 && TwoDigits(s, 3) <= 59
  {
  }

  // ---------------------------------------------------------------------------
  // Calendar dates

  datatype Ymd = Ymd(year: int, month: int, day: int)

  /** Gregorian leap years, as PHP's proleptic calendar has them. */
  predicate IsLeapYear(y: int) {
    y % 4 == 0 && (y % 100 != 0 || y % 400 == 0)
  }

  function DaysInMonth(y: int, m: int): (n: int)
    requires 1 <= m <= 12
    ensures 28 <= n <= 31
    ensures n == 29 <==> m == 2 && IsLeapYear(y)
  {
    if m == 2 then (if IsLeapYear(y) then 29 else 28)
    else if m == 4 || m == 6 || m == 9 || m == 11 then 30
    else 31
  }

  predicate IsCalendarDate(d: Ymd) {
    1 <= d.month <= 12 && 1 <= d.day <= DaysInMonth(d.year, d.month)
  }

  /** The last day of the month before month `m` of year `y`. */
  function LastDayBefore(y: int, m: int): (r: Ymd)
    requires 1 <= m <= 12
    ensures IsCalendarDate(r)
    ensures r.year == if m == 1 then y - 1 else y
    ensures r.month == (if m == 1 then 12 else m - 1) && r.day == DaysInMonth(r.year, r.month)
  {
    if m == 1 then Ymd(y - 1, 12, 31) else Ymd(y, m - 1, DaysInMonth(y, m - 1))
  }

  /** Months counted from year 0: a later month has a larger index. */
  function MonthIndex(y: int, m: int): int {
    12 * y + m
  }

  /** The number of days from the first of month `m` of year `y` to the date
      `r`, counted whole month by whole month. */
  function DaysFromFirst(y: int, m: int, r: Ymd): int
    requires 1 <= m <= 12 && 1 <= r.month <= 12
    requires MonthIndex(y, m) <= MonthIndex(r.year, r.month)
    decreases MonthIndex(r.year, r.month) - MonthIndex(y, m)
  {
    if MonthIndex(y, m) == MonthIndex(r.year, r.month) then r.day - 1
    else if m == 12 then DaysInMonth(y, m) + DaysFromFirst(y + 1, 1, r)
    else DaysInMonth(y, m) + DaysFromFirst(y, m + 1, r)
  }

  /** Day `d` counted from the start of month `m`: days past the end of the
      month run on into the following months, so the result lies `d - 1`
      days after the first of month `m`, in a later month when `d` overflows. */
  function RollDays(y: int, m: int, d: int): (r: Ymd)
    requires 1 <= m <= 12 && 1 <= d
    ensures IsCalendarDate(r)
    ensures d <= DaysInMonth(y, m) ==> r == Ymd(y, m, d)
    ensures y <= r.year <= y + d
    ensures MonthIndex(y, m) <= MonthIndex(r.year, r.month)
    ensures DaysFromFirst(y, m, r) == d - 1
    ensures d > DaysInMonth(y, m) ==> r.year > y || (r.year == y && r.month > m)
    decreases d
  {
    if d <= DaysInMonth(y, m) then Ymd(y, m, d)
    else if m == 12 then RollDays(y + 1, 1, d - 31)
    else RollDays(y, m + 1, d - DaysInMonth(y, m))
  }

  /** Overflowing days move into the next months: 2024-02-30 is 2024-03-01,
      2023-12-32 is 2024-01-01, and day 60 of January 2024 is 2024-02-29. */
  lemma RollDaysExamples()
    ensures RollDays(2024, 2, 30) == Ymd(2024, 3, 1)
    ensures RollDays(2023, 12, 32) == Ymd(2024, 1, 1)
    ensures RollDays(2024, 1, 60) == Ymd(2024, 2, 29)
  {
  }

  /** The overflow PHP's date parser applies to out-of-range fields: month 0 is
      December of the year before and month 13 January of the next; day 0 is
      the last day of the month before; days past the end of a month run on. */
  function Normalize(y: int, m: int, d: int): (r: Ymd)
    requires 0 <= m && 0 <= d
    ensures IsCalendarDate(r)
    ensures IsCalendarDate(Ymd(y, m, d)) ==> r == Ymd(y, m, d)
    ensures y - 1 <= r.year <= y + m + d
  {
    var y1 := y + (m - 1) / 12;
    var m1 := (m - 1) % 12 + 1;
    if d == 0 then LastDayBefore(y1, m1) else RollDays(y1, m1, d)
  }

  function FourDigits(s: string, i: nat): (n: int)
    requires i + 4 <= |s| && IsDigit(s[i]) && IsDigit(s[i + 1]) && IsDigit(s[i + 2]) && IsDigit(s[i + 3])
    ensures 0 <= n <= 9999
  {
    1000 * DigitValue(s[i]) + 100 * DigitValue(s[i + 1]) + 10 * DigitValue(s[i + 2]) + DigitValue(s[i + 3])
  }

  /** Zero-padded two-digit text (`m` and `d` of PHP's date format). */
  function Pad2(n: int): (s: string)
    requires 0 <= n <= 99
    ensures |s| == 2 && IsDigit(s[0]) && IsDigit(s[1]) && TwoDigits(s, 0) == n
  {
    [DigitChar(n / 10), DigitChar(n % 10)]
  }

  /** Zero-padded four-digit text. */
  function Pad4(n: int): (s: string)
    requires 0 <= n <= 9999
    ensures |s| == 4 && IsDigit(s[0]) && IsDigit(s[1]) && IsDigit(s[2]) && IsDigit(s[3]) && FourDigits(s, 0) == n
  {
    Pad2(n / 100) + Pad2(n % 100)
  }

  /** `Y` of PHP's date format: at least four digits, `-` before the years
      before year 0. */
  function FormatYear(y: int): (s: string)
    requires -9999 <= y <= 99999
    ensures |s| >= 4
    ensures 0 <= y <= 9999 ==> s == Pad4(y)
    ensures y < 0 ==> s[0] == '-'
    ensures y > 9999 ==> |s| == 5
  {
    if y < 0 then "-" + Pad4(-y)
    else if y <= 9999 then Pad4(y)
    else Pad4(y / 10) + [DigitChar(y % 10)]
  }

  /** `format('Y-m-d')`. */
  function FormatYmd(d: Ymd): string
    requires -9999 <= d.year <= 99999 && IsCalendarDate(d)
  {
    FormatYear(d.year) + "-" + Pad2(d.month) + "-" + Pad2(d.day)
  }

  /** Text of the shape `DDDD-DD-DD`. */
  predicate DateShape(s: string) {
    && |s| == 10 && s[4] == '-' && s[7] == '-'
    && IsDigit(s[0]) && IsDigit(s[1]) && IsDigit(s[2]) && IsDigit(s[3])
    && IsDigit(s[5]) && IsDigit(s[6]) && IsDigit(s[8]) && IsDigit(s[9])
  }

  /** The year, month and day fields written in a `DDDD-DD-DD` text. */
  function Fields(s: string): Ymd
    requires DateShape(s)
  {
    Ymd(FourDigits(s, 0), TwoDigits(s, 5), TwoDigits(s, 8))
  }

  /** `DateTime::createFromFormat('Y-m-d', s)` on `DDDD-DD-DD` texts: the
      fields, with out-of-range months and days carried over. */
  function CreateFromFormat(s: string): (r: Option<Ymd>)
    ensures r.Some? ==> IsCalendarDate(r.value) && -1 <= r.value.year <= 10197
  {
    if DateShape(s) then
      var f := Fields(s);
      Some(Normalize(f.year, f.month, f.day))
    else None
  }

  /** `isValidDate(s)`: parsing succeeds and formatting gives back `s`. */
  predicate IsValidDate(s: string) {
    match CreateFromFormat(s)
    case Some(d) => FormatYmd(d) == s
    case None => false
  }

  lemma PadTwo(s: string, i: nat)
    requires i + 2 <= |s| && IsDigit(s[i]) && IsDigit(s[i + 1])
    ensures Pad2(TwoDigits(s, i)) == s[i..i + 2]
  {
    var a, b := DigitValue(s[i]), DigitValue(s[i + 1]);
    assert (10 * a + b) / 10 == a && (10 * a + b) % 10 == b;
  }

  lemma PadFour(s: string)
    requires 4 <= |s| && IsDigit(s[0]) && IsDigit(s[1]) && IsDigit(s[2]) && IsDigit(s[3])
    ensures Pad4(FourDigits(s, 0)) == s[..4]
  {
    var hi, lo := TwoDigits(s, 0), TwoDigits(s, 2);
    var n := FourDigits(s, 0);
    assert n == 100 * hi + lo;
    assert n / 100 == hi && n % 100 == lo;
    PadTwo(s, 0);
    PadTwo(s, 2);
    assert s[..4] == s[0..2] + s[2..4];
  }

  /** Reading back the digits of a `DDDD-DD-DD` text gives the text again. */
  lemma FormatFields(s: string)
    requires DateShape(s) && IsCalendarDate(Fields(s))
    ensures FormatYmd(Fields(s)) == s
  {
    var f := Fields(s);
    PadFour(s);
    PadTwo(s, 5);
    PadTwo(s, 8);
    assert s == s[..4] + "-" + s[5..7] + "-" + s[8..];
  }

  /** The formatted text of a date in years 0-9999 has that date's fields. */
  lemma FieldsOfFormat(d: Ymd)
    requires 0 <= d.year <= 9999 && IsCalendarDate(d)
    ensures DateShape(FormatYmd(d)) && Fields(FormatYmd(d)) == d
  {
    var s := FormatYmd(d);
    assert s[..4] == Pad4(d.year) && s[5..7] == Pad2(d.month) && s[8..] == Pad2(d.day);
  }

  /** `isValidDate` holds exactly for `DDDD-DD-DD` texts naming a real
      calendar date: month 01-12 and day 01 up to the length of that month,
      29 February only in leap years. */
  lemma {:induction false} ValidDateMeaning(s: string)
    ensures IsValidDate(s) <==> DateShape(s) && IsCalendarDate(Fields(s))
  {
    if DateShape(s) {
      var f := Fields(s);
      var g := Normalize(f.year, f.month, f.day);
      if IsCalendarDate(f) {
        FormatFields(s);
      } else if 0 <= g.year <= 9999 {
        if FormatYmd(g) == s {
          FieldsOfFormat(g);
        }
      }
    }
  }

  /** The order of two calendar dates (what comparing their `strtotime`
      timestamps amounts to). */
  predicate Before(a: Ymd, b: Ymd) {
    a.year < b.year || (a.year == b.year && (a.month < b.month || (a.month == b.month && a.day < b.day)))
  }

  /** A date-shaped text passes exactly when the date it spells exists. */
  lemma SpelledDate(s: string, d: Ymd)
    requires DateShape(s) && Fields(s) == d
    ensures IsValidDate(s) <==> IsCalendarDate(d)
  {
    ValidDateMeaning(s);
  }

  /** The twenty-ninth of February exists in Gregorian leap years, including
      the years divisible by 400. */
  lemma LeapDayExamples()
    ensures IsValidDate("2024-02-29") && IsValidDate("2000-02-29")
  {
    LeapYearLeapDay();
    QuadCenturyLeapDay();
  }

  lemma LeapYearLeapDay()
    ensures IsValidDate("2024-02-29")
  {
    SpelledDate("2024-02-29", Ymd(2024, 2, 29));
  }

  lemma QuadCenturyLeapDay()
    ensures IsValidDate("2000-02-29")
  {
    assert 2000 % 400 == 0;
    assert DaysInMonth(2000, 2) == 29;
    SpelledDate("2000-02-29", Ymd(2000, 2, 29));
  }

  /** It does not exist in other years, including the years divisible by
      100 but not by 400. */
  lemma NoLeapDayExamples()
    ensures !IsValidDate("2023-02-29") && !IsValidDate("1900-02-29")
  {
    CommonYearLeapDay();
    CenturyLeapDay();
  }

  lemma CommonYearLeapDay()
    ensures !IsValidDate("2023-02-29")
  {
    SpelledDate("2023-02-29", Ymd(2023, 2, 29));
  }

  lemma CenturyLeapDay()
    ensures !IsValidDate("1900-02-29")
  {
    assert 1900 % 100 == 0 && 1900 % 400 != 0;
    SpelledDate("1900-02-29", Ymd(1900, 2, 29));
  }

  /** Days past the end of their month fail. */
  lemma DayOutOfRangeExamples()
    ensures !IsValidDate("2024-02-30") && !IsValidDate("2024-04-31")
  {
    SpelledDate("2024-02-30", Ymd(2024, 2, 30));
    SpelledDate("2024-04-31", Ymd(2024, 4, 31));
  }

  /** Months 00 and 13, and a month written with one digit, fail. */
  lemma MonthOutOfRangeExamples()
    ensures !IsValidDate("2024-13-01") && !IsValidDate("2024-00-10") && !IsValidDate("2024-2-29")
  {
    SpelledDate("2024-13-01", Ymd(2024, 13, 1));
    SpelledDate("2024-00-10", Ymd(2024, 0, 10));
    ValidDateMeaning("2024-2-29");
  }
}
