/**
 * The "MM:SS" formatter of the timer display: whole minutes and the remaining
 * seconds, each rendered in decimal and left-padded with '0' to two
 * characters. A parser for the same text is the formatter's partner: every
 * formatted duration reads back as the duration it came from.
 */
module TimeFormat {

  datatype Option<T> = None | Some(value: T)

  predicate IsDigit(c: char) {
    '0' <= c <= '9'
  }

  predicate AllDigits(s: string) {
    forall i :: 0 <= i < |s| ==> IsDigit(s[i])
  }

  function DigitValue(c: char): nat
    requires IsDigit(c)
  {
    c as int - '0' as int
  }

  /** The decimal digit character for `d`. */
  function Digit(d: nat): (c: char)
    requires d < 10
    ensures IsDigit(c) && DigitValue(c) == d
  {
    "0123456789"[d]
  }

  /** The value of a string of decimal digits, most significant first; leading zeros count for nothing. */
  function ParseDigits(s: string): nat
    requires AllDigits(s)
  {
    if |s| == 0 then 0 else ParseDigits(s[..|s| - 1]) * 10 + DigitValue(s[|s| - 1])
  }

  /** The decimal rendering of a non-negative integer, without leading zeros. */
  function DecimalString(n: nat): (r: string)
    ensures AllDigits(r) && ParseDigits(r) == n
    ensures 1 <= |r|
    ensures n < 10 ==> |r| == 1
    ensures n < 100 ==> |r| <= 2
    ensures 1 < |r| ==> r[0] != '0'
    decreases n
  {
    if n < 10 then [Digit(n)]
    else
      var high := DecimalString(n / 10);
      var r := high + [Digit(n % 10)];
      assert r[..|r| - 1] == high;
      r
  }

  /** `width - |s|` copies of `fill` before `s`, when `s` is shorter than `width`. */
  function PadStart(s: string, width: nat, fill: char): (r: string)
    ensures |r| == if |s| >= width then |s| else width
    ensures r[|r| - |s|..] == s
    ensures forall i :: 0 <= i < |r| - |s| ==> r[i] == fill
  {
    if |s| >= width then s else seq(width - |s|, _ => fill) + s
  }

  /** Two digits, tens first. */
  function TwoDigits(n: nat): string
    requires n < 100
  {
    [Digit(n / 10), Digit(n % 10)]
  }

  /**
   * The field of the display for `n`: at least two digits, reading back as
   * `n`; below 100 exactly the tens digit and the units digit.
   */
  function Field(n: nat): (r: string)
    ensures 2 <= |r| && AllDigits(r) && ParseDigits(r) == n
    ensures n < 100 ==> r == TwoDigits(n)
  {
    var d := DecimalString(n);
    var r := PadStart(d, 2, '0');
    if |d| < 2 then
      assert r == seq(2 - |d|, _ => '0') + d;
      LeadingZeros(2 - |d|, d);
      assert d == [Digit(n)];
      r
    else
      assert n < 100 ==> DecimalString(n / 10) == [Digit(n / 10)];
      r
  }

  /**
   * The display text for `t` seconds. It reads back as `t`; below 100
   * minutes it is the minutes' two digits, ':', the seconds' two digits.
   */
  function FormatTime(t: nat): (r: string)
    ensures ParseTime(r) == Some(t)
    ensures 5 <= |r|
    ensures t < 6000 ==> r == TwoDigits(t / 60) + ":" + TwoDigits(t % 60)
  {
    var mm := Field(t / 60);
    var ss := Field(t % 60);
    ParseFields(t, mm, ss);
    Join(mm, ss)
  }

  /** `a` and `b` separated by a ':'. */
  function Join(a: string, b: string): (r: string)
    ensures |r| == |a| + 1 + |b|
    ensures r[..|a|] == a && r[|a|] == ':' && r[|a| + 1..] == b
  {
    a + ":" + b
  }

  /** The index of the first `c` in `s`, if any. */
  function IndexOf(s: string, c: char): (r: Option<nat>)
    ensures r.Some? ==> r.value < |s| && s[r.value] == c && c !in s[..r.value]
    ensures r.None? ==> c !in s
  {
    if |s| == 0 then None
    else if s[0] == c then Some(0)
    else match IndexOf(s[1..], c)
      case None => None
      case Some(i) =>
        assert s[..i + 1] == [s[0]] + s[1..][..i];
        Some(i + 1)
  }

  /**
   * Reads display text back: digits, one ':', digits below 60. Yields the
   * number of seconds it shows, or None when the text is not of that shape.
   */
  function ParseTime(text: string): Option<nat> {
    match IndexOf(text, ':')
    case None => None
    case Some(i) =>
      var mm := text[..i];
      var ss := text[i + 1..];
      if |mm| == 0 || |ss| == 0 || !AllDigits(mm) || !AllDigits(ss) || ParseDigits(ss) >= 60
      then None
      else Some(ParseDigits(mm) * 60 + ParseDigits(ss))
  }

  /** Leading zeros do not change the value of a digit string. */
  lemma {:induction false} LeadingZeros(k: nat, s: string)
    requires AllDigits(s)
    ensures AllDigits(seq(k, _ => '0') + s)
    ensures ParseDigits(seq(k, _ => '0') + s) == ParseDigits(s)
    decreases |s|
  {
    var z := seq(k, _ => '0') + s;
    assert AllDigits(z) by {
      forall i | 0 <= i < |z| ensures IsDigit(z[i]) {
        if i >= k { assert z[i] == s[i - k]; }
      }
    }
    if |s| == 0 {
      LeadingZerosOnly(k);
      assert z == seq(k, _ => '0');
    } else {
      var p := s[..|s| - 1];
      assert z[..|z| - 1] == seq(k, _ => '0') + p;
      LeadingZeros(k, p);
    }
  }

  /** A string of zeros reads as 0. */
  lemma {:induction false} LeadingZerosOnly(k: nat)
    ensures AllDigits(seq(k, _ => '0'))
    ensures ParseDigits(seq(k, _ => '0')) == 0
  {
    if k > 0 {
      assert seq(k, _ => '0')[..k - 1] == seq(k - 1, _ => '0');
      LeadingZerosOnly(k - 1);
    }
  }

  /** The first ':' after a run of digits is the one that ends it. */
  lemma {:induction false} ColonAfterDigits(a: string, b: string)
    requires AllDigits(a)
    ensures IndexOf(Join(a, b), ':') == Some(|a|)
  {
    if |a| > 0 {
      assert Join(a, b)[1..] == Join(a[1..], b);
      ColonAfterDigits(a[1..], b);
    }
  }

  /** Digit runs for the minutes and the seconds of `t`, joined by ':', read as `t`. */
  lemma ParseFields(t: nat, mm: string, ss: string)
    requires 0 < |mm| && AllDigits(mm) && ParseDigits(mm) == t / 60
    requires 0 < |ss| && AllDigits(ss) && ParseDigits(ss) == t % 60
    ensures ParseTime(Join(mm, ss)) == Some(t)
  {
    ParseJoin(mm, ss);
  }

  /** Two non-empty digit runs joined by ':' read as minutes and seconds. */
  lemma ParseJoin(a: string, b: string)
    requires 0 < |a| && AllDigits(a)
    requires 0 < |b| && AllDigits(b) && ParseDigits(b) < 60
    ensures ParseTime(Join(a, b)) == Some(ParseDigits(a) * 60 + ParseDigits(b))
  {
    ColonAfterDigits(a, b);
  }

  /** Two durations that show the same text are equal. */
  lemma FormatTimeInjective(a: nat, b: nat)
    ensures FormatTime(a) == FormatTime(b) ==> a == b
  {
  }
}
