/**
 * Decimal text for non-negative integers, as JavaScript's `Number#toString()`
 * (below 10^21, where it switches to exponent form) and `String#padStart`
 * produce it, and a reader for it. The reader is the
 * partner of every formatter in the model: each formatter is proved to be
 * read back to the numbers it was given.
 */
module Text {
  import opened Wrappers

  predicate IsDigit(c: char) {
    '0' <= c <= '9'
  }

  predicate AllDigits(s: string) {
    forall i :: 0 <= i < |s| ==> IsDigit(s[i])
  }

  function DigitChar(d: nat): (c: char)
    requires d < 10
    ensures IsDigit(c) && (c as int) - ('0' as int) == d
  {
    (('0' as int) + d) as char
  }

  /** The value of a string of decimal digits, most significant first. */
  function DigitsValue(s: string): nat
    requires AllDigits(s)
  {
    if s == [] then 0
    else DigitsValue(s[..|s| - 1]) * 10 + ((s[|s| - 1] as int) - ('0' as int))
  }

  /** `n.toString()` for a non-negative integer: no sign, no leading zero. */
  function NatToString(n: nat): (s: string)
    ensures |s| >= 1 && AllDigits(s)
    ensures |s| > 1 ==> s[0] != '0'
    ensures n < 10 <==> |s| == 1
    ensures 10 <= n < 100 ==> |s| == 2
  {
    if n < 10 then [DigitChar(n)] else NatToString(n / 10) + [DigitChar(n % 10)]
  }

  lemma {:induction false} NatToStringValue(n: nat)
    ensures DigitsValue(NatToString(n)) == n
  {
    if n >= 10 {
      NatToStringValue(n / 10);
      var s := NatToString(n);
      assert s[..|s| - 1] == NatToString(n / 10);
    }
  }

  /** `s.padStart(width, pad)` for a one-character `pad`. */
  function PadStart(s: string, width: nat, pad: char): (r: string)
    ensures |r| == if |s| < width then width else |s|
    ensures r[|r| - |s|..] == s
    ensures forall i :: 0 <= i < |r| - |s| ==> r[i] == pad
  {
    if |s| < width then seq(width - |s|, _ => pad) + s else s
  }

  lemma {:induction false} ZerosValue(z: string)
    requires forall i :: 0 <= i < |z| ==> z[i] == '0'
    ensures AllDigits(z) && DigitsValue(z) == 0
  {
    if z != [] {
      ZerosValue(z[..|z| - 1]);
    }
  }

  lemma {:induction false} LeadingZeros(z: string, s: string)
    requires forall i :: 0 <= i < |z| ==> z[i] == '0'
    requires AllDigits(s)
    ensures AllDigits(z + s) && DigitsValue(z + s) == DigitsValue(s)
  {
    ZerosValue(z);
    if s == [] {
      assert z + s == z;
    } else {
      LeadingZeros(z, s[..|s| - 1]);
      assert (z + s)[..|z + s| - 1] == z + s[..|s| - 1];
    }
  }

  /**
   * The clock field used by both time formatters: one leading zero for a
   * single digit (`Pad2IsPadStart`: this is `n.toString().padStart(2, "0")`).
   */
  function Pad2(n: nat): (r: string)
    ensures |r| >= 2 && AllDigits(r) && DigitsValue(r) == n
    ensures n < 100 ==> |r| == 2
  {
    var s := NatToString(n);
    NatToStringValue(n);
    if n < 10 then
      LeadingZeros("0", s);
      "0" + s
    else s
  }

  lemma Pad2IsPadStart(n: nat)
    ensures Pad2(n) == PadStart(NatToString(n), 2, '0')
  {
    var s := NatToString(n);
    if n < 10 {
      var r := PadStart(s, 2, '0');
      assert r == [r[0]] + r[1..];
    }
  }

  /** Length of the longest prefix of `s` made of decimal digits. */
  function SpanDigits(s: string): (k: nat)
    ensures k <= |s| && AllDigits(s[..k])
    ensures k < |s| ==> !IsDigit(s[k])
  {
    if s == [] || !IsDigit(s[0]) then 0
    else
      var k := 1 + SpanDigits(s[1..]);
      assert forall i :: 1 <= i < k ==> s[..k][i] == s[1..][..k - 1][i - 1];
      k
  }

  /**
   * Reads the decimal number at the start of `s` and returns it with the
   * rest of the string; None when `s` does not start with a digit.
   */
  function ReadNat(s: string): Option<(nat, string)>
  {
    var k := SpanDigits(s);
    if k == 0 then None else Some((DigitsValue(s[..k]), s[k..]))
  }

  lemma {:induction false} SpanDigitsPrefix(d: string, rest: string)
    requires AllDigits(d)
    requires rest == [] || !IsDigit(rest[0])
    ensures SpanDigits(d + rest) == |d|
  {
    if d == [] {
      assert d + rest == rest;
    } else {
      assert (d + rest)[1..] == d[1..] + rest;
      SpanDigitsPrefix(d[1..], rest);
    }
  }

  /** A run of digits followed by a non-digit is read back as its value. */
  lemma ReadNatDigits(d: string, rest: string)
    requires |d| > 0 && AllDigits(d)
    requires rest == [] || !IsDigit(rest[0])
    ensures ReadNat(d + rest) == Some((DigitsValue(d), rest))
  {
    SpanDigitsPrefix(d, rest);
    assert (d + rest)[..|d|] == d;
    assert (d + rest)[|d|..] == rest;
  }

  /** What a formatter emits for `n`, followed by a separator, reads back as `n`. */
  lemma ReadNatToString(n: nat, rest: string)
    requires rest == [] || !IsDigit(rest[0])
    ensures ReadNat(NatToString(n) + rest) == Some((n, rest))
  {
    NatToStringValue(n);
    ReadNatDigits(NatToString(n), rest);
  }

  lemma ReadPad2(n: nat, rest: string)
    requires rest == [] || !IsDigit(rest[0])
    ensures ReadNat(Pad2(n) + rest) == Some((n, rest))
  {
    ReadNatDigits(Pad2(n), rest);
  }

  /** Reads decimal fields separated by `:`, as a clock shows them; None for any other shape. */
  function ReadClockFields(s: string): Option<seq<nat>>
    decreases |s|
  {
    var k := SpanDigits(s);
    if k == 0 then None
    else if k == |s| then Some([DigitsValue(s)])
    else if s[k] != ':' then None
    else
      match ReadClockFields(s[k + 1..])
      case None => None
      case Some(rest) => Some([DigitsValue(s[..k])] + rest)
  }

  /** A lone run of digits is one field. */
  lemma ClockFieldsOne(d: string)
    requires |d| > 0 && AllDigits(d)
    ensures ReadClockFields(d) == Some([DigitsValue(d)])
  {
    SpanDigitsPrefix(d, []);
    assert d + [] == d;
  }

  /** A run of digits, a `:` and more fields: one more field in front. */
  lemma ClockFieldsCons(d: string, tail: string, fields: seq<nat>)
    requires |d| > 0 && AllDigits(d)
    requires ReadClockFields(tail) == Some(fields)
    ensures ReadClockFields(d + (":" + tail)) == Some([DigitsValue(d)] + fields)
  {
    var s := d + (":" + tail);
    SpanDigitsPrefix(d, ":" + tail);
    assert s[..|d|] == d;
    assert s[|d| + 1..] == tail;
  }
}
