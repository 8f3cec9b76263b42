/** Decimal renderings used by the SVG emitter: the `%d` verb (integers)
    and the `%.2f` verb (pixel values with two decimals). */
module Fmt {

  /** The character of a decimal digit. */
  function Digit(d: int): (c: char)
    requires 0 <= d < 10
    ensures '0' <= c <= '9' && c as int - '0' as int == d
  {
    ('0' as int + d) as char
  }

  predicate IsDigits(s: string) {
    forall i :: 0 <= i < |s| ==> '0' <= s[i] <= '9'
  }

  /** Decimal digits of a natural number, most significant first, no leading zero. */
  function FormatNat(n: nat): (s: string)
    ensures |s| > 0 && IsDigits(s)
    ensures |s| > 1 ==> s[0] != '0'
    decreases n
  {
    if n < 10 then [Digit(n)] else FormatNat(n / 10) + [Digit(n % 10)]
  }

  /** Value of a string of decimal digits. */
  function ParseDigits(s: string): nat
    requires IsDigits(s)
  {
    if |s| == 0 then 0
    else ParseDigits(s[..|s| - 1]) * 10 + (s[|s| - 1] as int - '0' as int)
  }

  lemma {:induction false} ParseFormatNat(n: nat)
    ensures ParseDigits(FormatNat(n)) == n
    decreases n
  {
    if n >= 10 {
      var s := FormatNat(n);
      assert s[..|s| - 1] == FormatNat(n / 10);
      ParseFormatNat(n / 10);
    }
  }

  /** The `%d` verb: optional minus sign, then the digits of the magnitude. */
  function FormatInt(i: int): string {
    if i < 0 then "-" + FormatNat(-i) else FormatNat(i)
  }

  /** Reads back what `FormatInt` writes. */
  function ParseInt(s: string): int {
    if |s| > 0 && s[0] == '-' && IsDigits(s[1..]) then -(ParseDigits(s[1..]) as int)
    else if IsDigits(s) then ParseDigits(s)
    else 0
  }

  /** `%d` loses nothing: every integer is recovered from its rendering. */
  lemma ParseFormatInt(i: int)
    ensures ParseInt(FormatInt(i)) == i
  {
    if i < 0 {
      var s := FormatInt(i);
      assert s[1..] == FormatNat(-i);
      ParseFormatNat(-i);
    } else {
      ParseFormatNat(i);
    }
  }

  /** Nearest integer to a non-negative real, ties to the even neighbour
      (the rounding of Go's fixed-precision float formatting). */
  function RoundHalfEven(t: real): nat
    requires t >= 0.0
  {
    var f := t.Floor;
    var d := t - f as real;
    if d > 0.5 then f + 1
    else if d < 0.5 then f
    else if f % 2 == 0 then f
    else f + 1
  }

  /** A count of hundredths as "units.tenths hundredths". */
  function FormatCents(n: nat): string {
    FormatNat(n / 100) + "." + [Digit(n / 10 % 10), Digit(n % 10)]
  }

  /** The `%.2f` verb over exact reals: sign, integer part, '.', two decimals. */
  function FormatFixed2(r: real): string {
    if r < 0.0 then "-" + FormatCents(RoundHalfEven(-r * 100.0))
    else FormatCents(RoundHalfEven(r * 100.0))
  }

  /** Hundreds of a whole number: no tens, no units. */
  lemma WholeHundreds(k: nat)
    ensures (k * 100) / 100 == k && (k * 100) / 10 % 10 == 0 && (k * 100) % 10 == 0
  {
    var n := k * 100;
    assert n == 10 * (10 * k);
    assert n / 10 == 10 * k;
    assert n / 100 == k;
  }

  lemma WholeCents(k: nat)
    ensures RoundHalfEven(k as real * 100.0) == k * 100
  {
    var t := k as real * 100.0;
    assert t == (k * 100) as real;
    assert t.Floor == k * 100;
  }

  /** A whole pixel value renders as its digits and ".00". */
  lemma FormatFixed2Whole(k: nat)
    ensures FormatFixed2(k as real) == FormatNat(k) + ".00"
  {
    WholeCents(k);
    WholeHundreds(k);
    assert FormatFixed2(k as real) == FormatCents(k * 100);
    assert [Digit(0), Digit(0)] == "00";
  }
}
