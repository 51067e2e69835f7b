/**
 * The due-date string both handlers attach to a new task: the local calendar
 * date rendered as `${year}-${month}-${day}`, with month and day passed through
 * `String(n).padStart(2, "0")`. The clock itself is an input.
 */
module Dates {
  import opened Wrappers

  /** The calendar fields read from `new Date()`: `getFullYear()`, `getMonth()` (0-based) and `getDate()`. */
  datatype Today = Today(year: int, monthIndex: nat, date: nat)

  /** The ranges `getMonth()` and `getDate()` can return. */
  predicate ValidToday(t: Today) {
    t.monthIndex < 12 && 1 <= t.date <= 31
  }

  predicate IsDigit(c: char) {
    '0' <= c <= '9'
  }

  predicate AllDigits(s: string) {
    forall i :: 0 <= i < |s| ==> IsDigit(s[i])
  }

  function DigitValue(c: char): nat
    requires IsDigit(c)
  {
    c as int - '0' as int
  }

  function DigitChar(d: nat): (c: char)
    requires d < 10
    ensures IsDigit(c) && DigitValue(c) == d
  {
    "0123456789"[d]
  }

  function Pow10(k: nat): (p: nat)
    ensures p >= 1
  {
    if k == 0 then 1 else 10 * Pow10(k - 1)
  }

  /** `String(n)` for a non-negative integer: its decimal digits, without leading zeros. */
  function Decimal(n: nat): (s: string)
    ensures s != [] && AllDigits(s)
    ensures s[0] == '0' <==> n == 0
    decreases n
  {
    if n < 10 then [DigitChar(n)] else Decimal(n / 10) + [DigitChar(n % 10)]
  }

  /** The number a string of decimal digits denotes, most significant digit first. */
  function DigitsValue(s: string): nat
    requires AllDigits(s)
  {
    if s == [] then 0 else 10 * DigitsValue(s[..|s| - 1]) + DigitValue(s[|s| - 1])
  }

  /** Reading back the digits `Decimal` writes gives the original number. */
  lemma {:induction false} DecimalRoundTrip(n: nat)
    ensures DigitsValue(Decimal(n)) == n
  {
    if n >= 10 {
      DecimalRoundTrip(n / 10);
      var s := Decimal(n);
      assert s[..|s| - 1] == Decimal(n / 10);
    }
  }

  /** A number with exactly `k` significant digits is written with exactly `k` characters. */
  lemma {:induction false} DecimalLength(n: nat, k: nat)
    requires 1 <= k
    requires k == 1 || Pow10(k - 1) <= n
    requires n < Pow10(k)
    ensures |Decimal(n)| == k
  {
    if n >= 10 {
      assert k > 1;
      assert Pow10(k) == 10 * Pow10(k - 1);
      if k > 2 {
        assert Pow10(k - 1) == 10 * Pow10(k - 2);
      }
      DecimalLength(n / 10, k - 1);
    }
  }

  /** `String(y)` for an integer-valued number: a minus sign when negative, then the digits of |y|. */
  function IntString(y: int): (s: string)
    ensures s != []
    ensures y >= 0 ==> AllDigits(s)
    ensures y < 0 ==> s[0] == '-' && AllDigits(s[1..]) && |s| >= 2
  {
    if y < 0 then "-" + Decimal(-y) else Decimal(y)
  }

  /** Reads an optionally signed decimal integer; `None` for anything else. */
  function ParseInt(s: string): Option<int> {
    if |s| >= 2 && s[0] == '-' && AllDigits(s[1..]) then Some(0 - DigitsValue(s[1..]))
    else if s != [] && AllDigits(s) then Some(DigitsValue(s))
    else None
  }

  /** A sign followed by digits reads as the negated digits; digits alone read as themselves. */
  lemma ParseIntCases(digits: string)
    requires digits != [] && AllDigits(digits)
    ensures ParseInt("-" + digits) == Some(0 - DigitsValue(digits))
    ensures ParseInt(digits) == Some(DigitsValue(digits))
  {
    assert ("-" + digits)[1..] == digits;
    assert IsDigit(digits[0]);
  }

  /** The year string reads back as the year, sign included. */
  lemma IntStringRoundTrip(y: int)
    ensures ParseInt(IntString(y)) == Some(y)
  {
    var n: nat := if y < 0 then -y else y;
    var digits := Decimal(n);
    assert IntString(y) == if y < 0 then "-" + digits else digits;
    ParseIntCases(digits);
    DecimalRoundTrip(n);
  }

  /** `s.padStart(width, fill)`: `s` preceded by as many `fill` characters as it takes to reach `width`. */
  function PadStart(s: string, width: nat, fill: char): (r: string)
    ensures |r| == if |s| < width then width else |s|
    ensures r[|r| - |s|..] == s
    ensures forall i :: 0 <= i < |r| - |s| ==> r[i] == fill
  {
    if |s| < width then seq(width - |s|, _ => fill) + s else s
  }

  /** `String(n).padStart(2, "0")`. */
  function TwoDigits(n: nat): string {
    PadStart(Decimal(n), 2, '0')
  }

  /** Below one hundred, the padded form is exactly two digits and reads back as `n`. */
  lemma TwoDigitsRoundTrip(n: nat)
    ensures n < 100 ==> |TwoDigits(n)| == 2 && AllDigits(TwoDigits(n)) && DigitsValue(TwoDigits(n)) == n
  {
    var s := TwoDigits(n);
    if n >= 100 {
    } else if n < 10 {
      assert s == ['0', DigitChar(n)];
      assert s[..1] == ['0'];
      assert s[..1][..0] == [];
    } else {
      assert Decimal(n) == Decimal(n / 10) + [DigitChar(n % 10)];
      assert |Decimal(n)| == 2;
      DecimalRoundTrip(n);
    }
  }

  /** `${y}-${m}-${d}`. */
  function JoinDate(y: string, m: string, d: string): string {
    y + "-" + m + "-" + d
  }

  /** Where the pieces of a joined date sit, for two-character month and day. */
  lemma JoinDateParts(y: string, m: string, d: string)
    requires |m| == 2 && |d| == 2
    ensures var r := JoinDate(y, m, d);
      && |r| == |y| + 6
      && r[..|y|] == y && r[|y|] == '-' && r[|y| + 1..|y| + 3] == m && r[|y| + 3] == '-' && r[|y| + 4..] == d
  {
  }

  /** The due date string `${year}-${month}-${day}`, month and day padded to two digits. */
  function FormatDate(year: int, month: nat, day: nat): string {
    JoinDate(IntString(year), TwoDigits(month), TwoDigits(day))
  }

  /** The trailing `-MM-DD` of a date string, with a non-empty year before it. */
  predicate DateShaped(r: string) {
    && |r| >= 7
    && r[|r| - 6] == '-' && r[|r| - 3] == '-'
    && AllDigits(r[|r| - 5..|r| - 3]) && AllDigits(r[|r| - 2..])
  }

  /** Splits a date string into year, month and day, reading from the right. */
  function ParseDate(r: string): Option<(int, nat, nat)> {
    if DateShaped(r) then
      match ParseInt(r[..|r| - 6])
      case Some(y) => Some((y, DigitsValue(r[|r| - 5..|r| - 3]), DigitsValue(r[|r| - 2..])))
      case None => None
    else None
  }

  /** Parsing a formatted date gives back the year, month and day that were formatted. */
  lemma FormatDateRoundTrip(year: int, month: nat, day: nat)
    requires month < 100 && day < 100
    ensures DateShaped(FormatDate(year, month, day))
    ensures ParseDate(FormatDate(year, month, day)) == Some((year, month, day))
  {
    var y, m, d := IntString(year), TwoDigits(month), TwoDigits(day);
    TwoDigitsRoundTrip(month);
    TwoDigitsRoundTrip(day);
    JoinDateParts(y, m, d);
    IntStringRoundTrip(year);
  }

  /** The due-date string for the calendar date read from the clock. */
  function DueDate(t: Today): string {
    FormatDate(t.year, t.monthIndex + 1, t.date)
  }

  /** A year from 1000 to 9999 is written with four digits. */
  lemma FourDigitYear(year: int)
    requires 1000 <= year <= 9999
    ensures |IntString(year)| == 4 && AllDigits(IntString(year))
  {
    assert Pow10(3) == 1000 && Pow10(4) == 10000;
    DecimalLength(year, 4);
  }

  /** With a four-digit year, a clock reading renders as the ten-character `YYYY-MM-DD`. */
  lemma DueDateIsIso(t: Today)
    requires ValidToday(t) && 1000 <= t.year <= 9999
    ensures |DueDate(t)| == 10
    ensures DueDate(t)[4] == '-' && DueDate(t)[7] == '-'
    ensures AllDigits(DueDate(t)[..4]) && AllDigits(DueDate(t)[5..7]) && AllDigits(DueDate(t)[8..])
    ensures ParseDate(DueDate(t)) == Some((t.year, t.monthIndex + 1, t.date))
  {
    var y, m, d := IntString(t.year), TwoDigits(t.monthIndex + 1), TwoDigits(t.date);
    FourDigitYear(t.year);
    TwoDigitsRoundTrip(t.monthIndex + 1);
    TwoDigitsRoundTrip(t.date);
    JoinDateParts(y, m, d);
    assert DueDate(t) == JoinDate(y, m, d);
    FormatDateRoundTrip(t.year, t.monthIndex + 1, t.date);
  }
}
