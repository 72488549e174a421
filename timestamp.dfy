/**
 * Timestamp normalisation of a trace record: the `hhmmss[.mmm]` time field
 * of a ULOG line becomes milliseconds since midnight.
 */
module Timestamp {

  predicate IsDigit(c: char) { '0' <= c <= '9' }

  predicate AllDigits(s: string) { forall i :: 0 <= i < |s| ==> IsDigit(s[i]) }

  function DigitValue(c: char): (d: nat)
    requires IsDigit(c)
    ensures d <= 9
  {
    c as int - '0' as int
  }

  function Pow10(n: nat): (p: nat)
    ensures p >= 1
  {
    if n == 0 then 1 else 10 * Pow10(n - 1)
  }

  /** What `int()` gives for a string of ASCII decimal digits (0 for the empty string). */
  function DigitsValue(s: string): (n: nat)
    requires AllDigits(s)
    ensures n < Pow10(|s|)
  {
    if s == [] then 0 else DigitsValue(s[..|s| - 1]) * 10 + DigitValue(s[|s| - 1])
  }

  /** A leading zero does not change the value: this is why `int('0' + frac)` is safe. */
  lemma {:induction false} LeadingZero(t: string)
    requires AllDigits(t)
    ensures AllDigits("0" + t) && DigitsValue("0" + t) == DigitsValue(t)
  {
    assert AllDigits("0" + t);
    if t == [] {
      assert ("0" + t)[..0] == [];
    } else {
      var init := t[..|t| - 1];
      LeadingZero(init);
      assert ("0" + t)[..|"0" + t| - 1] == "0" + init;
    }
  }

  /**
   * The first group of the trace-line pattern: six digits, optionally a dot
   * and three more digits.
   */
  predicate IsTimeField(s: string)
  {
    || (|s| == 6 && AllDigits(s))
    || (|s| == 10 && AllDigits(s[..6]) && s[6] == '.' && AllDigits(s[7..]))
  }

  function Hours(s: string): nat
    requires IsTimeField(s)
  {
    assert AllDigits(s[..2]) by { assert forall i :: 0 <= i < 2 ==> s[..2][i] == s[i]; }
    DigitsValue(s[..2])
  }

  function Minutes(s: string): nat
    requires IsTimeField(s)
  {
    assert AllDigits(s[2..4]) by { assert forall i :: 0 <= i < 2 ==> s[2..4][i] == s[i + 2]; }
    DigitsValue(s[2..4])
  }

  function Seconds(s: string): nat
    requires IsTimeField(s)
  {
    assert AllDigits(s[4..6]) by { assert forall i :: 0 <= i < 2 ==> s[4..6][i] == s[i + 4]; }
    DigitsValue(s[4..6])
  }

  /** The fraction after the dot, or 0 when the field has none. */
  function Millis(s: string): nat
    requires IsTimeField(s)
  {
    if |s| == 6 then 0 else DigitsValue(s[7..])
  }

  /** The text after the dot: Python's `seconds[7:]`, empty when the field is six digits. */
  function Fraction(s: string): (f: string)
    requires IsTimeField(s)
    ensures AllDigits(f)
  {
    if |s| == 6 then "" else s[7..]
  }

  /**
   * Milliseconds since midnight of a time field, computed as `read_tmtrace`
   * does, with the fraction read as `int('0' + seconds[7:])`.
   */
  function Msec(s: string): (ms: nat)
    requires IsTimeField(s)
    ensures ms == ((Hours(s) * 60 + Minutes(s)) * 60 + Seconds(s)) * 1000 + Millis(s)
    ensures |s| == 6 ==> ms % 1000 == 0
    ensures Millis(s) <= 999
  {
    LeadingZero(Fraction(s));
    ((Hours(s) * 60 * 60) + (Minutes(s) * 60) + Seconds(s)) * 1000 + DigitsValue("0" + Fraction(s))
  }

  /** A field whose hours, minutes and seconds are on the clock lands inside one day. */
  lemma MsecWithinDay(s: string)
    requires IsTimeField(s)
    requires Hours(s) < 24 && Minutes(s) < 60 && Seconds(s) < 60
    ensures 0 <= Msec(s) <= 86399999
  {
  }

  lemma MidnightIsZero()
    ensures IsTimeField("000000") && Msec("000000") == 0
  {
    var s := "000000";
    assert s[..2] == "00" && s[2..4] == "00" && s[4..6] == "00";
    assert DigitsValue("00") == 0 by { assert "00"[..1] == "0"; assert "0"[..0] == ""; }
  }

  lemma LastMillisecondOfDay()
    ensures IsTimeField("235959.999") && Msec("235959.999") == 86399999
  {
    var s := "235959.999";
    assert AllDigits(s[..6]) by { assert s[..6] == "235959"; }
    assert s[..2] == "23" && s[2..4] == "59" && s[4..6] == "59" && s[7..] == "999";
    TwoDigitValue('2', '3');
    TwoDigitValue('5', '9');
    ThreeDigitValue('9', '9', '9');
  }

  // ---- the inverse: formatting milliseconds back into a time field ----

  function DigitChar(d: nat): (c: char)
    requires d <= 9
    ensures IsDigit(c) && DigitValue(c) == d
  {
    ('0' as int + d) as char
  }

  lemma TwoDigitValue(a: char, b: char)
    requires IsDigit(a) && IsDigit(b)
    ensures AllDigits([a, b]) && DigitsValue([a, b]) == DigitValue(a) * 10 + DigitValue(b)
  {
    assert [a, b][..1] == [a];
    assert [a][..0] == [];
  }

  lemma ThreeDigitValue(a: char, b: char, c: char)
    requires IsDigit(a) && IsDigit(b) && IsDigit(c)
    ensures AllDigits([a, b, c])
    ensures DigitsValue([a, b, c]) == (DigitValue(a) * 10 + DigitValue(b)) * 10 + DigitValue(c)
  {
    assert [a, b, c][..2] == [a, b];
    TwoDigitValue(a, b);
  }

  function TwoDigits(n: nat): (s: string)
    requires n < 100
    ensures |s| == 2 && AllDigits(s) && DigitsValue(s) == n
  {
    TwoDigitValue(DigitChar(n / 10), DigitChar(n % 10));
    [DigitChar(n / 10), DigitChar(n % 10)]
  }

  function ThreeDigits(n: nat): (s: string)
    requires n < 1000
    ensures |s| == 3 && AllDigits(s) && DigitsValue(s) == n
  {
    ThreeDigitValue(DigitChar(n / 100), DigitChar(n / 10 % 10), DigitChar(n % 10));
    [DigitChar(n / 100), DigitChar(n / 10 % 10), DigitChar(n % 10)]
  }

  /** The `hhmmss.mmm` field that denotes a millisecond of the day. */
  function Format(ms: nat): (s: string)
    requires ms < 86400000
    ensures IsTimeField(s) && |s| == 10
  {
    var sec := ms / 1000;
    var r := TwoDigits(sec / 60 / 60) + TwoDigits(sec / 60 % 60) + TwoDigits(sec % 60) + "." + ThreeDigits(ms % 1000);
    assert r[..6] == TwoDigits(sec / 60 / 60) + TwoDigits(sec / 60 % 60) + TwoDigits(sec % 60);
    assert r[7..] == ThreeDigits(ms % 1000);
    r
  }

  /** Normalising a formatted millisecond gives that millisecond back. */
  lemma MsecOfFormat(ms: nat)
    requires ms < 86400000
    ensures Msec(Format(ms)) == ms
  {
    var s := Format(ms);
    var sec := ms / 1000;
    assert s[..2] == TwoDigits(sec / 60 / 60);
    assert s[2..4] == TwoDigits(sec / 60 % 60);
    assert s[4..6] == TwoDigits(sec % 60);
    assert s[7..] == ThreeDigits(ms % 1000);
  }

  /** Formatting the normalised value of an on-the-clock field with a fraction gives the field back. */
  lemma FormatOfMsec(s: string)
    requires IsTimeField(s) && |s| == 10
    requires Hours(s) < 24 && Minutes(s) < 60 && Seconds(s) < 60
    ensures Format(Msec(s)) == s
  {
    var h, m, sc, f := Hours(s), Minutes(s), Seconds(s), Millis(s);
    var ms := Msec(s);
    var sec := (h * 60 + m) * 60 + sc;
    assert ms / 1000 == sec && ms % 1000 == f;
    assert sec / 60 == h * 60 + m && sec % 60 == sc;
    assert sec / 60 / 60 == h && sec / 60 % 60 == m;
    var t := Format(ms);
    assert t[..2] == s[..2] by { TwoDigitsOf(s[..2]); }
    assert t[2..4] == s[2..4] by { TwoDigitsOf(s[2..4]); }
    assert t[4..6] == s[4..6] by { TwoDigitsOf(s[4..6]); }
    assert t[7..] == s[7..] by { ThreeDigitsOf(s[7..]); }
    assert t == t[..2] + t[2..4] + t[4..6] + [t[6]] + t[7..];
    assert s == s[..2] + s[2..4] + s[4..6] + [s[6]] + s[7..];
  }

  lemma TwoDigitsOf(d: string)
    requires |d| == 2 && AllDigits(d)
    ensures TwoDigits(DigitsValue(d)) == d
  {
    assert d == [d[0], d[1]];
    TwoDigitValue(d[0], d[1]);
    var n := DigitsValue(d);
    assert n / 10 == DigitValue(d[0]) && n % 10 == DigitValue(d[1]);
  }

  lemma ThreeDigitsOf(d: string)
    requires |d| == 3 && AllDigits(d)
    ensures ThreeDigits(DigitsValue(d)) == d
  {
    assert d == [d[0], d[1], d[2]];
    ThreeDigitValue(d[0], d[1], d[2]);
    var n := DigitsValue(d);
    assert n / 100 == DigitValue(d[0]) && n / 10 % 10 == DigitValue(d[1]) && n % 10 == DigitValue(d[2]);
  }
}
