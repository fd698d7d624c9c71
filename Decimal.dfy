/** Decimal digit strings: JavaScript's `String(n)` and `Number(s)` on
    non-negative integers, and the left padding done by JavaScript's
    `padStart` and PHP's `str_pad(..., STR_PAD_LEFT)`. */
module Decimal {

  predicate IsDigit(c: char) {
    '0' <= c <= '9'
  }

  predicate AllDigits(s: string) {
    forall i :: 0 <= i < |s| ==> IsDigit(s[i])
  }

  function DigitValue(c: char): (d: nat)
    requires IsDigit(c)
    ensures d < 10
  {
    c as int - '0' as int
  }

  function DigitChar(d: nat): (c: char)
    requires d < 10
    ensures IsDigit(c) && DigitValue(c) == d
  {
    ('0' as int + d) as char
  }

  function Pow10(k: nat): (p: nat)
    ensures p >= 1
  {
    if k == 0 then 1 else 10 * Pow10(k - 1)
  }

  /** The value of a string of decimal digits; the empty string reads as 0, as `Number("")` does. */
  function ParseDigits(s: string): (n: nat)
    requires AllDigits(s)
    decreases |s|
  {
    if s == [] then 0 else ParseDigits(s[..|s| - 1]) * 10 + DigitValue(s[|s| - 1])
  }

  /** `String(n)`: the shortest decimal spelling of `n`. */
  function NatToString(n: nat): (r: string)
    ensures AllDigits(r) && 1 <= |r|
    ensures |r| > 1 ==> r[0] != '0'
  {
    if n < 10 then [DigitChar(n)] else NatToString(n / 10) + [DigitChar(n % 10)]
  }

  /** Left-pads `s` with `fill` up to `width` characters; a longer `s` is kept as it is. */
  function PadStart(s: string, width: nat, fill: char): (r: string)
    ensures |r| == if |s| >= width then |s| else width
  {
    if |s| >= width then s else seq(width - |s|, _ => fill) + s
  }

  /** The padded string ends with `s` and starts with nothing but `fill`. */
  lemma PadStartSpec(s: string, width: nat, fill: char)
    ensures var r := PadStart(s, width, fill);
            r[|r| - |s|..] == s && forall i :: 0 <= i < |r| - |s| ==> r[i] == fill
  {
  }

  lemma {:induction false} ParseNatToString(n: nat)
    ensures ParseDigits(NatToString(n)) == n
  {
    var r := NatToString(n);
    if n >= 10 {
      ParseNatToString(n / 10);
      assert r[..|r| - 1] == NatToString(n / 10);
    }
  }

  lemma {:induction false} NatToStringLength(n: nat, k: nat)
    requires n < Pow10(k)
    ensures |NatToString(n)| <= if k == 0 then 1 else k
  {
    if k == 0 {
    } else if k == 1 {
      assert Pow10(1) == 10;
    } else if n >= 10 {
      NatToStringLength(n / 10, k - 1);
    }
  }

  lemma {:induction false} ParseBound(s: string)
    requires AllDigits(s)
    ensures ParseDigits(s) < Pow10(|s|)
    decreases |s|
  {
    if s != [] {
      ParseBound(s[..|s| - 1]);
    }
  }

  lemma {:induction false} ParseConcat(a: string, b: string)
    requires AllDigits(a) && AllDigits(b)
    ensures AllDigits(a + b)
    ensures ParseDigits(a + b) == ParseDigits(a) * Pow10(|b|) + ParseDigits(b)
    decreases |b|
  {
    if b == [] {
      assert a + b == a;
    } else {
      var b' := b[..|b| - 1];
      assert (a + b)[..|a + b| - 1] == a + b';
      assert (a + b)[|a + b| - 1] == b[|b| - 1];
      ParseConcat(a, b');
      ShiftDigit(ParseDigits(a), ParseDigits(b'), Pow10(|b'|), DigitValue(b[|b| - 1]));
      assert Pow10(|b|) == Pow10(|b'|) * 10;
    }
  }

  lemma ShiftDigit(p: int, q: int, w: int, d: int)
    ensures (p * w + q) * 10 + d == p * (w * 10) + (q * 10 + d)
  {
  }

  /** Leading zeros do not change a digit string's value. */
  lemma LeadingZeros(z: string, s: string)
    requires forall i :: 0 <= i < |z| ==> z[i] == '0'
    requires AllDigits(s)
    ensures AllDigits(z + s) && ParseDigits(z + s) == ParseDigits(s)
  {
    ZerosParseToZero(z);
    ParseConcat(z, s);
  }

  lemma {:induction false} ZerosParseToZero(z: string)
    requires forall i :: 0 <= i < |z| ==> z[i] == '0'
    ensures AllDigits(z) && ParseDigits(z) == 0
    decreases |z|
  {
    if z != [] {
      ZerosParseToZero(z[..|z| - 1]);
    }
  }

  /** `padStart(String(n), width, '0')` is a digit string that still reads as `n`. */
  lemma PaddedNatParses(n: nat, width: nat)
    ensures AllDigits(PadStart(NatToString(n), width, '0'))
    ensures ParseDigits(PadStart(NatToString(n), width, '0')) == n
  {
    var s := NatToString(n);
    var r := PadStart(s, width, '0');
    ParseNatToString(n);
    if |s| < width {
      var z := r[..|r| - |s|];
      assert r == z + s;
      LeadingZeros(z, s);
    }
  }

  lemma DivModTen(hi: nat, lo: nat)
    requires lo < 10
    ensures (hi * 10 + lo) / 10 == hi && (hi * 10 + lo) % 10 == lo
  {
    var n := hi * 10 + lo;
    var q, r := n / 10, n % 10;
    assert n == q * 10 + r && 0 <= r < 10;
    assert (q - hi) * 10 == lo - r;
  }

  lemma NatToStringTwoDigits(hi: nat, lo: nat)
    requires 1 <= hi < 10 && lo < 10
    ensures NatToString(hi * 10 + lo) == [DigitChar(hi), DigitChar(lo)]
  {
    DivModTen(hi, lo);
  }

  lemma DigitRoundTrip(c: char)
    requires IsDigit(c)
    ensures DigitChar(DigitValue(c)) == c
  {
  }

  lemma ParseTwoDigits(d: string)
    requires |d| == 2 && AllDigits(d)
    ensures ParseDigits(d) == DigitValue(d[0]) * 10 + DigitValue(d[1])
  {
    var first := d[..1];
    assert first[..0] == [] && first[0] == d[0];
    assert ParseDigits(first) == DigitValue(d[0]);
    assert d[..|d| - 1] == first;
  }

  /** Padding the shortest spelling of a two-digit string's value to width 2 gives the string back. */
  lemma TwoDigitsCanonical(d: string)
    requires |d| == 2 && AllDigits(d)
    ensures PadStart(NatToString(ParseDigits(d)), 2, '0') == d
  {
    var hi, lo := DigitValue(d[0]), DigitValue(d[1]);
    ParseTwoDigits(d);
    DigitRoundTrip(d[0]);
    DigitRoundTrip(d[1]);
    var n := ParseDigits(d);
    if hi == 0 {
      assert n == lo;
      assert NatToString(n) == [d[1]];
      assert PadStart([d[1]], 2, '0') == ['0'] + [d[1]];
      assert ['0'] + [d[1]] == d;
    } else {
      NatToStringTwoDigits(hi, lo);
      assert [DigitChar(hi), DigitChar(lo)] == d;
    }
  }
}
