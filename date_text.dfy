/**
 * The date pattern "dd.MM.yyyy" that the add screen uses to show the chosen
 * range, and a reader for it that serves as its inverse.
 */
module DateText {
  import opened Model
  import opened Options

  predicate IsDigit(c: char) {
    '0' <= c <= '9'
  }

  predicate AllDigits(s: string) {
    forall i :: 0 <= i < |s| ==> IsDigit(s[i])
  }

  function DigitChar(d: nat): (c: char)
    requires d < 10
    ensures IsDigit(c) && c as int - '0' as int == d
  {
    (48 + d) as char
  }

  function Pow10(n: nat): (p: nat)
    ensures p >= 1
  {
    if n == 0 then 1 else 10 * Pow10(n - 1)
  }

  /**
   * The decimal digits of `n`, left-padded with '0' to at least `width`
   * characters (a numeric field of fixed minimum width).
   */
  function Padded(n: nat, width: nat): (s: string)
    ensures |s| >= width && |s| >= 1
    ensures AllDigits(s)
    decreases n + width
  {
    if n < 10 && width <= 1 then [DigitChar(n)]
    else Padded(n / 10, if width == 0 then 0 else width - 1) + [DigitChar(n % 10)]
  }

  /** The number a string of decimal digits stands for. */
  function DigitsValue(s: string): nat
    requires AllDigits(s)
  {
    if s == [] then 0
    else DigitsValue(s[..|s| - 1]) * 10 + (s[|s| - 1] as int - '0' as int)
  }

  /** A number below 10^width fills exactly `width` characters. */
  lemma {:induction false} PaddedWidth(n: nat, width: nat)
    requires 1 <= width && n < Pow10(width)
    ensures |Padded(n, width)| == width
    decreases width
  {
    if width > 1 {
      PaddedWidth(n / 10, width - 1);
    }
  }

  /** Reading the padded digits back gives the number. */
  lemma {:induction false} PaddedValue(n: nat, width: nat)
    ensures DigitsValue(Padded(n, width)) == n
    decreases n + width
  {
    var s := Padded(n, width);
    if n < 10 && width <= 1 {
      assert s[..0] == [];
    } else {
      var w := if width == 0 then 0 else width - 1;
      PaddedValue(n / 10, w);
      assert s[..|s| - 1] == Padded(n / 10, w);
    }
  }

  /** The era-less year number that "yyyy" prints: 1 BC is year 1 again. */
  function YearOfEra(year: int): nat {
    if year >= 1 then year else 1 - year
  }

  /** "yyyy": at least four digits, and a '+' sign when more are needed. */
  function YearText(year: int): (t: string)
    ensures |t| >= 4
    ensures t[0] == '+' <==> YearOfEra(year) > 9999
    ensures YearOfEra(year) <= 9999 ==> |t| == 4
  {
    var y := YearOfEra(year);
    if y > 9999 then "+" + Padded(y, 4)
    else
      assert Pow10(4) == 10000;
      PaddedWidth(y, 4);
      Padded(y, 4)
  }

  /** A date shown as "dd.MM.yyyy". */
  function FormatDate(d: Date): (s: string)
    ensures |s| >= 10
  {
    Padded(d.day, 2) + "." + Padded(d.month, 2) + "." + YearText(d.year)
  }

  /** The dates whose "dd.MM.yyyy" text has exactly ten characters and no sign. */
  predicate FourDigitYear(d: Date) {
    1 <= d.year <= 9999 && d.month <= 99 && d.day <= 99
  }

  /** Reads a ten-character "dd.MM.yyyy" text back into a date. */
  function ParseDate(s: string): Option<Date> {
    if |s| == 10 && s[2] == '.' && s[5] == '.'
       && AllDigits(s[..2]) && AllDigits(s[3..5]) && AllDigits(s[6..])
    then Some(Date(DigitsValue(s[6..]), DigitsValue(s[3..5]), DigitsValue(s[..2])))
    else None
  }

  /** For dates of years 1 to 9999 the display pattern loses nothing. */
  lemma FormatDateRoundTrip(d: Date)
    requires FourDigitYear(d)
    ensures |FormatDate(d)| == 10
    ensures ParseDate(FormatDate(d)) == Some(d)
  {
    var dd, mm, yy := Padded(d.day, 2), Padded(d.month, 2), Padded(d.year, 4);
    PaddedWidth(d.day, 2);
    PaddedWidth(d.month, 2);
    assert Pow10(4) == 10000;
    PaddedWidth(d.year, 4);
    PaddedValue(d.day, 2);
    PaddedValue(d.month, 2);
    PaddedValue(d.year, 4);
    var s := FormatDate(d);
    assert s == dd + "." + mm + "." + yy;
    assert s[..2] == dd && s[3..5] == mm && s[6..] == yy;
  }

  /** Two dates of years 1 to 9999 that look the same are the same date. */
  lemma FormatDateInjective(a: Date, b: Date)
    requires FourDigitYear(a) && FourDigitYear(b)
    requires FormatDate(a) == FormatDate(b)
    ensures a == b
  {
    FormatDateRoundTrip(a);
    FormatDateRoundTrip(b);
  }
}
