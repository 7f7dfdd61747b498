/** Decimal rendering of naturals as Go's `%0Nd` verb does it: the minimal
    decimal digits, left-padded with '0' up to the requested width and never
    truncated. The rotated-file suffixes `.001`..`.999` and `.0001`..`.9999`
    and the `YYYY-MM-DD` date suffix are built from it. */
module Decimal {

  /** 10^k */
  function Pow10(k: nat): (r: nat)
    ensures r >= 1
  {
    if k == 0 then 1 else 10 * Pow10(k - 1)
  }

  function DigitChar(d: nat): (c: char)
    requires d < 10
    ensures '0' <= c <= '9'
  {
    "0123456789"[d]
  }

  function DigitValue(c: char): nat
  {
    if '0' <= c <= '9' then c as int - '0' as int else 0
  }

  /** The minimal decimal representation of n ("0" for zero). */
  function Digits(n: nat): (s: string)
    ensures |s| >= 1
    decreases n
  {
    if n < 10 then [DigitChar(n)] else Digits(n / 10) + [DigitChar(n % 10)]
  }

  function Zeros(k: nat): string
  {
    if k == 0 then "" else "0" + Zeros(k - 1)
  }

  /** Go's fmt.Sprintf("%0*d", width, n) for a non-negative n. */
  function Pad(n: nat, width: nat): string
  {
    var d := Digits(n);
    if |d| < width then Zeros(width - |d|) + d else d
  }

  /** Reading a string of decimal digits back as a number. */
  function Decimal(s: string): nat
  {
    if s == [] then 0 else Decimal(s[..|s| - 1]) * 10 + DigitValue(s[|s| - 1])
  }

  predicate AllDigits(s: string)
  {
    forall i :: 0 <= i < |s| ==> '0' <= s[i] <= '9'
  }

  lemma {:induction false} DecimalOfDigits(n: nat)
    ensures Decimal(Digits(n)) == n
    ensures AllDigits(Digits(n))
    decreases n
  {
    var d := Digits(n);
    if n >= 10 {
      DecimalOfDigits(n / 10);
      assert d[..|d| - 1] == Digits(n / 10);
    }
  }

  lemma {:induction false} DecimalIgnoresLeadingZero(s: string)
    ensures Decimal("0" + s) == Decimal(s)
    decreases |s|
  {
    if s != [] {
      var t := "0" + s;
      assert t[..|t| - 1] == "0" + s[..|s| - 1];
      DecimalIgnoresLeadingZero(s[..|s| - 1]);
    }
  }

  lemma {:induction false} DecimalIgnoresLeadingZeros(k: nat, s: string)
    ensures Decimal(Zeros(k) + s) == Decimal(s)
    decreases k
  {
    if k == 0 {
      assert Zeros(k) + s == s;
    } else {
      assert Zeros(k) + s == "0" + (Zeros(k - 1) + s);
      DecimalIgnoresLeadingZero(Zeros(k - 1) + s);
      DecimalIgnoresLeadingZeros(k - 1, s);
    }
  }

  lemma {:induction false} ZerosShape(k: nat)
    ensures |Zeros(k)| == k && AllDigits(Zeros(k))
    decreases k
  {
    if k > 0 {
      ZerosShape(k - 1);
    }
  }

  /** Left-padding a digit string with zeros keeps its value and its
      digits-only shape. */
  lemma ZeroPadded(k: nat, d: string)
    requires AllDigits(d)
    ensures Decimal(Zeros(k) + d) == Decimal(d)
    ensures AllDigits(Zeros(k) + d)
  {
    DecimalIgnoresLeadingZeros(k, d);
    ZerosShape(k);
    var z := Zeros(k) + d;
    forall i | 0 <= i < |z|
      ensures '0' <= z[i] <= '9'
    {
      if i < k {
        assert z[i] == Zeros(k)[i];
      } else {
        assert z[i] == d[i - k];
      }
    }
  }

  /** Round trip: the padded rendering reads back as the number it renders,
      whatever the width. */
  lemma PadRoundTrip(n: nat, width: nat)
    ensures Decimal(Pad(n, width)) == n
    ensures AllDigits(Pad(n, width))
  {
    var d := Digits(n);
    DecimalOfDigits(n);
    if |d| < width {
      ZeroPadded(width - |d|, d);
      assert Pad(n, width) == Zeros(width - |d|) + d;
    } else {
      assert Pad(n, width) == d;
    }
  }

  lemma {:induction false} DigitsFit(n: nat, width: nat)
    requires 1 <= width && n < Pow10(width)
    ensures |Digits(n)| <= width
    decreases width
  {
    if n >= 10 {
      assert n / 10 < Pow10(width - 1);
      DigitsFit(n / 10, width - 1);
    }
  }

  /** A number below 10^width renders with exactly `width` characters. */
  lemma PadLength(n: nat, width: nat)
    requires 1 <= width && n < Pow10(width)
    ensures |Pad(n, width)| == width
  {
    DigitsFit(n, width);
    var d := Digits(n);
    if |d| < width {
      ZerosShape(width - |d|);
    }
  }

  /** Distinct numbers render to distinct strings at any width. */
  lemma PadInjective(m: nat, n: nat, width: nat)
    requires Pad(m, width) == Pad(n, width)
    ensures m == n
  {
    PadRoundTrip(m, width);
    PadRoundTrip(n, width);
  }
}
