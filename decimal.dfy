/**
 * Decimal text of whole numbers as Python's `str(n)` and `f"{n:0Wd}"` write it, and the
 * reading back that shows the text names the number.
 */
module Decimal {

  predicate IsAsciiDigit(c: char) {
    '0' <= c <= '9'
  }

  predicate AllAsciiDigits(s: string) {
    forall i :: 0 <= i < |s| ==> IsAsciiDigit(s[i])
  }

  function DigitChar(d: nat): (c: char)
    requires d < 10
    ensures IsAsciiDigit(c) && c as int - '0' as int == d
  {
    (d + '0' as int) as char
  }

  /** `str(n)` for n >= 0: no sign, no leading zero. */
  function NatToString(n: nat): (s: string)
    ensures |s| >= 1 && AllAsciiDigits(s)
    ensures |s| > 1 ==> s[0] != '0'
    ensures n < 10 <==> |s| == 1
    decreases n
  {
    if n < 10 then [DigitChar(n)] else NatToString(n / 10) + [DigitChar(n % 10)]
  }

  /** The value of a string of ASCII digits (the empty string reads as 0). */
  function StringToNat(s: string): nat
    requires AllAsciiDigits(s)
    decreases |s|
  {
    if s == [] then 0
    else StringToNat(s[..|s| - 1]) * 10 + (s[|s| - 1] as int - '0' as int)
  }

  lemma {:induction false} StringToNatOfNatToString(n: nat)
    ensures StringToNat(NatToString(n)) == n
    decreases n
  {
    if n >= 10 {
      StringToNatOfNatToString(n / 10);
      var s := NatToString(n);
      assert s[..|s| - 1] == NatToString(n / 10);
    }
  }

  /** Leading zeros do not change the value. */
  lemma {:induction false} StringToNatLeadingZeros(z: string, s: string)
    requires AllAsciiDigits(s) && forall i :: 0 <= i < |z| ==> z[i] == '0'
    ensures AllAsciiDigits(z + s) && StringToNat(z + s) == StringToNat(s)
    decreases |s|
  {
    if s == [] {
      assert z + s == z;
      ZerosReadAsZero(z);
    } else {
      var s' := s[..|s| - 1];
      assert (z + s)[..|z + s| - 1] == z + s';
      StringToNatLeadingZeros(z, s');
    }
  }

  lemma {:induction false} ZerosReadAsZero(z: string)
    requires forall i :: 0 <= i < |z| ==> z[i] == '0'
    ensures AllAsciiDigits(z) && StringToNat(z) == 0
    decreases |z|
  {
    if z != [] {
      ZerosReadAsZero(z[..|z| - 1]);
    }
  }

  function Zeros(k: nat): (z: string)
    ensures |z| == k && forall i :: 0 <= i < k ==> z[i] == '0'
  {
    seq(k, _ => '0')
  }

  /** Left-pads with '0' to at least `width` characters; a longer text is kept whole. */
  function ZeroPad(s: string, width: nat): (r: string)
    ensures |r| == (if |s| >= width then |s| else width)
    ensures r == Zeros(|r| - |s|) + s
  {
    if |s| >= width then s else Zeros(width - |s|) + s
  }

  /** `f"{n:0{width}d}"`: a minus sign counts towards the width. */
  function FormatPadded(n: int, width: nat): string {
    if n < 0 then "-" + ZeroPad(NatToString(-n), if width > 0 then width - 1 else 0)
    else ZeroPad(NatToString(n), width)
  }

  lemma ZerosThenDigits(k: nat, s: string)
    requires AllAsciiDigits(s)
    ensures AllAsciiDigits(Zeros(k) + s)
  {
    var r := Zeros(k) + s;
    forall i | 0 <= i < |r|
      ensures IsAsciiDigit(r[i])
    {
      if i >= k {
        assert r[i] == s[i - k];
      }
    }
  }

  /** A number below 100 padded to two places is exactly two digits. */
  lemma TwoDigits(n: nat)
    requires n < 100
    ensures |FormatPadded(n, 2)| == 2 && AllAsciiDigits(FormatPadded(n, 2))
  {
    var s := NatToString(n);
    if n >= 10 {
      assert |NatToString(n / 10)| == 1;
    }
    ZerosThenDigits(2 - |s|, s);
  }

  /** Padded text of a non-negative number reads back as that number and is never truncated. */
  lemma FormatPaddedRoundTrip(n: nat, width: nat)
    ensures AllAsciiDigits(FormatPadded(n, width))
    ensures StringToNat(FormatPadded(n, width)) == n
    ensures |FormatPadded(n, width)| >= width && |FormatPadded(n, width)| >= |NatToString(n)|
  {
    var s := NatToString(n);
    var r := ZeroPad(s, width);
    assert FormatPadded(n, width) == r;
    var k := |r| - |s|;
    assert r == Zeros(k) + s;
    StringToNatOfNatToString(n);
    ZerosThenDigits(k, s);
    StringToNatLeadingZeros(Zeros(k), s);
  }

  /** Different non-negative numbers get different padded texts. */
  lemma FormatPaddedInjective(m: nat, n: nat, width: nat)
    requires FormatPadded(m, width) == FormatPadded(n, width)
    ensures m == n
  {
    FormatPaddedRoundTrip(m, width);
    FormatPaddedRoundTrip(n, width);
  }
}
