/** `datetime()`: the name of a run directory, built from the local time as
    the year, then month, day, hour, minute and second, each of the last five
    written with two digits: `YYYY-MM-DD HHmmss`. */
module Timestamp {
  import opened Wrappers

  /** The components the Date getters return. `month0` is `getMonth()`,
      counted from 0. */
  datatype Clock = Clock(year: int, month0: int, day: int, hour: int, minute: int, second: int)

  /** The ranges the Date getters guarantee. */
  predicate ValidClock(c: Clock) {
    && 0 <= c.month0 <= 11
    && 1 <= c.day <= 31
    && 0 <= c.hour <= 23
    && 0 <= c.minute <= 59
    && 0 <= c.second <= 59
  }

  /** The year, month, day and time read back from a run-directory name. */
  datatype Stamp = Stamp(year: nat, month: nat, day: nat, hour: nat, minute: nat, second: nat)

  predicate IsDigit(c: char) {
    '0' <= c <= '9'
  }

  predicate AllDigits(s: string) {
    forall i :: 0 <= i < |s| ==> IsDigit(s[i])
  }

  function DigitChar(d: nat): (c: char)
    requires d < 10
    ensures IsDigit(c) && DigitValue(c) == d
  {
    ('0' as int + d) as char
  }

  function DigitValue(c: char): nat
    requires IsDigit(c)
  {
    c as int - '0' as int
  }

  /** `String(n)` for a natural number: its decimal digits, without leading zeros. */
  function NatText(n: nat): (r: string)
    ensures 1 <= |r| && AllDigits(r)
  {
    if n < 10 then [DigitChar(n)] else NatText(n / 10) + [DigitChar(n % 10)]
  }

  /** `String(n)` for an integer. */
  function IntText(n: int): string {
    if n < 0 then "-" + NatText(-n) else NatText(n)
  }

  /** `n` copies of `fill`. */
  function Fill(fill: char, n: nat): string {
    seq(n, _ => fill)
  }

  /** `s.padStart(width, fill)` with a one-character fill: `s` unchanged when
      it is already `width` long, otherwise `s` behind enough fill characters
      to make it `width` long. */
  function PadStart(s: string, width: nat, fill: char): (r: string)
    ensures |s| >= width ==> r == s
    ensures |s| < width ==> r == Fill(fill, width - |s|) + s
    decreases width - |s|
  {
    if |s| >= width then s
    else
      var r := PadStart([fill] + s, width, fill);
      assert |[fill] + s| < width ==> Fill(fill, width - |s| - 1) + ([fill] + s) == Fill(fill, width - |s|) + s;
      r
  }

  /** `String(n).padStart(2, '0')` */
  function TwoDigits(n: nat): string {
    PadStart(NatText(n), 2, '0')
  }

  /** `datetime()` at the instant `c`. With a four-digit year the name has
      the shape `DDDD-DD-DD DDDDDD` and reads back as the instant. */
  function Datetime(c: Clock): (r: string)
    requires ValidClock(c)
    ensures 1000 <= c.year <= 9999 ==>
      DecodeRunName(r) == Some(Stamp(c.year, c.month0 + 1, c.day, c.hour, c.minute, c.second))
  {
    var name := IntText(c.year) + "-" + TwoDigits(c.month0 + 1) + "-" + TwoDigits(c.day) + " "
      + TwoDigits(c.hour) + TwoDigits(c.minute) + TwoDigits(c.second);
    if 1000 <= c.year <= 9999 then
      NatTextLength(c.year);
      NatTextRoundTrip(c.year);
      TwoDigitsRoundTrip(c.month0 + 1);
      TwoDigitsRoundTrip(c.day);
      TwoDigitsRoundTrip(c.hour);
      TwoDigitsRoundTrip(c.minute);
      TwoDigitsRoundTrip(c.second);
      DecodeLayout(IntText(c.year), TwoDigits(c.month0 + 1), TwoDigits(c.day),
                   TwoDigits(c.hour), TwoDigits(c.minute), TwoDigits(c.second));
      name
    else
      name
  }

  /** The decimal value of a string of digits. */
  function ParseDigits(s: string): nat
    requires AllDigits(s)
  {
    if s == [] then 0 else ParseDigits(s[..|s| - 1]) * 10 + DigitValue(s[|s| - 1])
  }

  /** Reads a name of the shape `DDDD-DD-DD DDDDDD` (D a digit) back into its
      numbers; any other string gives None. */
  function DecodeRunName(s: string): Option<Stamp> {
    if |s| == 17 && s[4] == '-' && s[7] == '-' && s[10] == ' '
       && AllDigits(s[..4]) && AllDigits(s[5..7]) && AllDigits(s[8..10]) && AllDigits(s[11..])
    then
      Some(Stamp(ParseDigits(s[..4]), ParseDigits(s[5..7]), ParseDigits(s[8..10]),
                 ParseDigits(s[11..13]), ParseDigits(s[13..15]), ParseDigits(s[15..17])))
    else None
  }

  /** Reading the digits of a number back gives the number. */
  lemma {:induction false} NatTextRoundTrip(n: nat)
    ensures ParseDigits(NatText(n)) == n
  {
    if n >= 10 {
      var s := NatText(n);
      assert s == NatText(n / 10) + [DigitChar(n % 10)];
      assert s[..|s| - 1] == NatText(n / 10);
      NatTextRoundTrip(n / 10);
    }
  }

  /** How many digits `String(n)` has, for the sizes the clock produces. */
  lemma {:induction false} NatTextLength(n: nat)
    ensures n < 10 ==> |NatText(n)| == 1
    ensures 10 <= n < 100 ==> |NatText(n)| == 2
    ensures 100 <= n < 1000 ==> |NatText(n)| == 3
    ensures 1000 <= n < 10000 ==> |NatText(n)| == 4
  {
    if n >= 10 {
      NatTextLength(n / 10);
    }
  }

  /** A number below 100 becomes exactly two digits that read back as the number. */
  lemma TwoDigitsRoundTrip(n: nat)
    requires n < 100
    ensures |TwoDigits(n)| == 2 && AllDigits(TwoDigits(n))
    ensures ParseDigits(TwoDigits(n)) == n
  {
    NatTextLength(n);
    NatTextRoundTrip(n);
    var t := TwoDigits(n);
    if n < 10 {
      assert t == "0" + NatText(n);
      assert t[..1] == "0";
    }
  }

  /** With any year the name is the year's text and 13 more characters; with a
      four-digit year it is 17 characters long. */
  lemma DatetimeLength(c: Clock)
    requires ValidClock(c)
    ensures |Datetime(c)| == |IntText(c.year)| + 13
    ensures 1000 <= c.year <= 9999 ==> |Datetime(c)| == 17
  {
    TwoDigitsRoundTrip(c.month0 + 1);
    TwoDigitsRoundTrip(c.day);
    TwoDigitsRoundTrip(c.hour);
    TwoDigitsRoundTrip(c.minute);
    TwoDigitsRoundTrip(c.second);
    NatTextLength(if c.year < 0 then 0 else c.year);
  }

  /** Where the pieces of a name sit, given their lengths. */
  lemma NameLayout(y: string, mo: string, d: string, h: string, mi: string, s: string)
    requires |y| == 4 && |mo| == 2 && |d| == 2 && |h| == 2 && |mi| == 2 && |s| == 2
    ensures var name := y + "-" + mo + "-" + d + " " + h + mi + s;
      && |name| == 17 && name[4] == '-' && name[7] == '-' && name[10] == ' '
      && name[..4] == y && name[5..7] == mo && name[8..10] == d
      && name[11..] == h + mi + s
      && name[11..13] == h && name[13..15] == mi && name[15..17] == s
  {
    var time := h + mi + s;
    assert time[..2] == h && time[2..4] == mi && time[4..] == s;
    var date := y + "-" + mo + "-" + d;
    assert date[..4] == y && date[4] == '-' && date[5..7] == mo && date[7] == '-' && date[8..] == d;
    var name := y + "-" + mo + "-" + d + " " + h + mi + s;
    assert name == date + " " + time;
    assert name[..10] == date && name[11..] == time;
  }

  /** A name whose pieces are digit strings of the right lengths decodes to their values. */
  lemma DecodeLayout(y: string, mo: string, d: string, h: string, mi: string, s: string)
    requires |y| == 4 && |mo| == 2 && |d| == 2 && |h| == 2 && |mi| == 2 && |s| == 2
    requires AllDigits(y) && AllDigits(mo) && AllDigits(d) && AllDigits(h) && AllDigits(mi) && AllDigits(s)
    ensures DecodeRunName(y + "-" + mo + "-" + d + " " + h + mi + s)
            == Some(Stamp(ParseDigits(y), ParseDigits(mo), ParseDigits(d),
                          ParseDigits(h), ParseDigits(mi), ParseDigits(s)))
  {
    var name := y + "-" + mo + "-" + d + " " + h + mi + s;
    NameLayout(y, mo, d, h, mi, s);
    AllDigitsAppend(h, mi);
    AllDigitsAppend(h + mi, s);
    assert AllDigits(name[11..]);
  }

  lemma AllDigitsAppend(a: string, b: string)
    requires AllDigits(a) && AllDigits(b)
    ensures AllDigits(a + b)
  {
    forall i | 0 <= i < |a + b| ensures IsDigit((a + b)[i]) {
      if i >= |a| { assert (a + b)[i] == b[i - |a|]; }
    }
  }

  /** Two instants with four-digit years give the same name only when they
      fall in the same second. */
  lemma DatetimeInjective(c1: Clock, c2: Clock)
    requires ValidClock(c1) && 1000 <= c1.year <= 9999
    requires ValidClock(c2) && 1000 <= c2.year <= 9999
    requires Datetime(c1) == Datetime(c2)
    ensures c1 == c2
  {
  }

  /** A character a name can hold. */
  predicate NameChar(ch: char) {
    IsDigit(ch) || ch == '-' || ch == ' '
  }

  predicate AllNameChars(s: string) {
    forall i :: 0 <= i < |s| ==> NameChar(s[i])
  }

  lemma NameCharsAppend(a: string, b: string)
    requires AllNameChars(a) && AllNameChars(b)
    ensures AllNameChars(a + b)
  {
    forall i | 0 <= i < |a + b| ensures NameChar((a + b)[i]) {
      if i >= |a| { assert (a + b)[i] == b[i - |a|]; }
    }
  }

  /** A name built from pieces of name characters holds only name characters. */
  lemma NameCharsLayout(y: string, mo: string, d: string, h: string, mi: string, s: string)
    requires AllNameChars(y) && AllNameChars(mo) && AllNameChars(d)
    requires AllNameChars(h) && AllNameChars(mi) && AllNameChars(s)
    ensures AllNameChars(y + "-" + mo + "-" + d + " " + h + mi + s)
  {
    NameCharsAppend(y, "-");
    NameCharsAppend(y + "-", mo);
    NameCharsAppend(y + "-" + mo, "-");
    NameCharsAppend(y + "-" + mo + "-", d);
    NameCharsAppend(y + "-" + mo + "-" + d, " ");
    NameCharsAppend(y + "-" + mo + "-" + d + " ", h);
    NameCharsAppend(y + "-" + mo + "-" + d + " " + h, mi);
    NameCharsAppend(y + "-" + mo + "-" + d + " " + h + mi, s);
  }

  /** Every character of a name is a digit, '-' or a space. */
  lemma DatetimeCharacters(c: Clock)
    requires ValidClock(c)
    ensures AllNameChars(Datetime(c))
  {
    var y := IntText(c.year);
    assert AllNameChars(y) by {
      if c.year < 0 { NameCharsAppend("-", NatText(-c.year)); }
    }
    TwoDigitsRoundTrip(c.month0 + 1);
    TwoDigitsRoundTrip(c.day);
    TwoDigitsRoundTrip(c.hour);
    TwoDigitsRoundTrip(c.minute);
    TwoDigitsRoundTrip(c.second);
    NameCharsLayout(y, TwoDigits(c.month0 + 1), TwoDigits(c.day),
                    TwoDigits(c.hour), TwoDigits(c.minute), TwoDigits(c.second));
  }
}
