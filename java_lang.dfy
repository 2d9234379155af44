/**
 * The few pieces of java.lang the client relies on: the 32-bit `int`
 * (with the wrap-around of `++`) and `Integer.toString`, the decimal text a
 * boxed int becomes when it is put in a JSON object and later rendered.
 */
module JavaLang {
  import opened Wrappers

  /** Java's `int`. */
  newtype int32 = x: int | -0x8000_0000 <= x < 0x8000_0000

  const MaxInt: int32 := 0x7fff_ffff
  const MinInt: int32 := -0x8000_0000

  /** Two's-complement reduction of a mathematical integer into the `int` range. */
  function Wrap(n: int): int {
    (n + 0x8000_0000) % 0x1_0000_0000 - 0x8000_0000
  }

  /** `++x` on an `int`: the successor, wrapping from MaxInt to MinInt. */
  function Increment(x: int32): (r: int32)
    ensures r as int == Wrap(x as int + 1)
  {
    if x == MaxInt then MinInt else x + 1
  }

  predicate IsDigit(c: char) {
    '0' <= c <= '9'
  }

  function DigitChar(d: nat): (c: char)
    requires d < 10
    ensures IsDigit(c)
  {
    ('0' as int + d) as char
  }

  function DigitValue(c: char): nat
    requires IsDigit(c)
  {
    c as int - '0' as int
  }

  /** The decimal digits of `n`, most significant first, without leading zeros. */
  function NatToDecimal(n: nat): (s: string)
    ensures |s| >= 1
    ensures forall i :: 0 <= i < |s| ==> IsDigit(s[i])
    ensures s[0] == '0' ==> n == 0
    decreases n
  {
    if n < 10 then [DigitChar(n)] else NatToDecimal(n / 10) + [DigitChar(n % 10)]
  }

  /** `Integer.toString(x)`: an optional minus sign followed by the decimal digits. */
  function IntToString(x: int32): (s: string)
    ensures |s| >= 1
    ensures forall i :: 0 <= i < |s| ==> IsDigit(s[i]) || (i == 0 && s[i] == '-')
    ensures s[0] == '-' <==> x < 0
  {
    if x < 0 then "-" + NatToDecimal(-(x as int)) else NatToDecimal(x as int)
  }

  /** Reads back an all-digit string as a number (the inverse of NatToDecimal). */
  function ParseDigits(s: string): nat
    requires forall i :: 0 <= i < |s| ==> IsDigit(s[i])
  {
    if s == [] then 0 else ParseDigits(s[..|s| - 1]) * 10 + DigitValue(s[|s| - 1])
  }

  /** Reads back a decimal integer with an optional leading minus sign. */
  function ParseInt(s: string): Option<int> {
    if |s| >= 2 && s[0] == '-' && forall i :: 1 <= i < |s| ==> IsDigit(s[i]) then
      Some(-(ParseDigits(s[1..]) as int))
    else if |s| >= 1 && forall i :: 0 <= i < |s| ==> IsDigit(s[i]) then
      Some(ParseDigits(s))
    else
      None
  }

  lemma {:induction false} ParseNatToDecimal(n: nat)
    ensures ParseDigits(NatToDecimal(n)) == n
    decreases n
  {
    if n >= 10 {
      var s := NatToDecimal(n);
      assert s[..|s| - 1] == NatToDecimal(n / 10);
      ParseNatToDecimal(n / 10);
    }
  }

  /** The decimal text of an `int` reads back as that `int`: no two values share a text. */
  lemma IntToStringRoundTrip(x: int32)
    ensures ParseInt(IntToString(x)) == Some(x as int)
  {
    var s := IntToString(x);
    if x < 0 {
      assert s[1..] == NatToDecimal(-(x as int));
      ParseNatToDecimal(-(x as int));
    } else {
      ParseNatToDecimal(x as int);
    }
  }

  lemma IntToStringInjective(x: int32, y: int32)
    ensures IntToString(x) == IntToString(y) <==> x == y
  {
    IntToStringRoundTrip(x);
    IntToStringRoundTrip(y);
  }
}
