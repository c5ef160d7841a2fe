/**
 * Java's fixed-width integers and their decimal text: `Long.toString`, `Integer.toString`
 * and string concatenation `"" + n` all write the same signed decimal form.
 */
module Decimal {
  import opened Wrappers

  /** Java `long`. */
  type Long = x: int | -0x8000_0000_0000_0000 <= x < 0x8000_0000_0000_0000

  /** Java `int`. */
  type Int = x: int | -0x8000_0000 <= x < 0x8000_0000

  /** `Number.intValue()` on a `Long`: keeps the low 32 bits, read as two's complement. */
  function IntValue(n: Long): (r: Int)
    ensures (r - n) % 0x1_0000_0000 == 0
    ensures -0x8000_0000 <= n < 0x8000_0000 ==> r == n
  {
    var low := n % 0x1_0000_0000;
    if low < 0x8000_0000 then low else low - 0x1_0000_0000
  }

  predicate IsDigit(c: char) {
    '0' <= c <= '9'
  }

  function Digit(d: nat): (c: char)
    requires d < 10
    ensures IsDigit(c)
  {
    (48 + d) as char
  }

  function DigitValue(c: char): (d: nat)
    requires IsDigit(c)
    ensures d < 10 && Digit(d) == c
  {
    (c as int - 48) as nat
  }

  /** The decimal digits of `n`, most significant first, with no leading zero. */
  function NatText(n: nat): (s: string)
    ensures |s| > 0 && forall i :: 0 <= i < |s| ==> IsDigit(s[i])
    ensures |s| > 1 ==> s[0] != '0'
  {
    if n < 10 then [Digit(n)] else NatText(n / 10) + [Digit(n % 10)]
  }

  /** `Long.toString(n)`: a minus sign for negative values, then the digits of the magnitude. */
  function LongText(n: int): (s: string)
    ensures |s| > 0
    ensures forall i :: 0 <= i < |s| ==> IsDigit(s[i]) || (i == 0 && s[i] == '-')
    ensures s[0] == '-' <==> n < 0
  {
    if n < 0 then "-" + NatText(-n) else NatText(n)
  }

  /** Reads a non-empty run of decimal digits. */
  function ParseNat(s: string): (r: Option<nat>)
    ensures r.Some? <==> |s| > 0 && forall i :: 0 <= i < |s| ==> IsDigit(s[i])
  {
    if |s| == 0 || !IsDigit(s[|s| - 1]) then None
    else if |s| == 1 then Some(DigitValue(s[0]))
    else match ParseNat(s[..|s| - 1])
      case None => None
      case Some(m) => Some(10 * m + DigitValue(s[|s| - 1]))
  }

  /** Reads an optional minus sign followed by decimal digits (the inverse of `LongText`). */
  function ParseDecimal(s: string): Option<int> {
    if |s| > 0 && s[0] == '-' then
      match ParseNat(s[1..])
      case None => None
      case Some(m) => Some(-(m as int))
    else
      match ParseNat(s)
      case None => None
      case Some(m) => Some(m as int)
  }

  lemma {:induction false} ParseNatText(n: nat)
    ensures ParseNat(NatText(n)) == Some(n)
  {
    if n >= 10 {
      ParseNatText(n / 10);
      var s := NatText(n);
      assert s[..|s| - 1] == NatText(n / 10);
    }
  }

  /** Reading back the text `Long.toString` writes gives the number. */
  lemma ParseLongText(n: int)
    ensures ParseDecimal(LongText(n)) == Some(n)
  {
    var s := LongText(n);
    if n < 0 {
      ParseNatText(-n);
      assert s[0] == '-' && s[1..] == NatText(-n);
    } else {
      ParseNatText(n);
      assert s == NatText(n) && IsDigit(s[0]);
    }
  }

  /** Distinct numbers have distinct decimal texts. */
  lemma LongTextInjective(m: int, n: int)
    requires LongText(m) == LongText(n)
    ensures m == n
  {
    ParseLongText(m);
    ParseLongText(n);
  }

  /** A decimal text identifies its number: it reads back as it, and two texts are equal exactly when the numbers are. */
  lemma LongTextIdentifies(m: int, n: int)
    ensures ParseDecimal(LongText(m)) == Some(m)
    ensures LongText(m) == LongText(n) <==> m == n
  {
    ParseLongText(m);
    if LongText(m) == LongText(n) {
      LongTextInjective(m, n);
    }
  }
}
