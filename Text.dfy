/**
  Decimal rendering of integers, as Java's string concatenation renders an
  `int` (`"Invalid productId: " + productId`, `"/product/" + productId`), and
  the parse that undoes it. The round trip shows that every message and URL
  built from an id determines that id.
 */
module Text {

  predicate IsDigit(c: char)
  {
    '0' <= c <= '9'
  }

  function DigitChar(d: nat): (c: char)
    requires d < 10
    ensures IsDigit(c)
    ensures c == '0' <==> d == 0
  {
    ['0', '1', '2', '3', '4', '5', '6', '7', '8', '9'][d]
  }

  function DigitValue(c: char): (d: nat)
    requires IsDigit(c)
    ensures d < 10
  {
    c as int - '0' as int
  }

  lemma DigitValueOfChar(d: nat)
    requires d < 10
    ensures DigitValue(DigitChar(d)) == d
  {
  }

  /** The decimal digits of `n`, most significant first, without leading zeros. */
  function NatToString(n: nat): (s: string)
    ensures |s| > 0
    ensures forall i :: 0 <= i < |s| ==> IsDigit(s[i])
    ensures s[0] == '0' <==> n == 0
    ensures |s| > 1 ==> s[0] != '0'
  {
    if n < 10 then [DigitChar(n)] else NatToString(n / 10) + [DigitChar(n % 10)]
  }

  /** Java's `Integer.toString`: a minus sign before the digits of a negative value. */
  function IntToString(i: int): (s: string)
    ensures |s| > 0
    ensures i >= 0 <==> IsDigit(s[0])
    ensures i < 0 <==> s[0] == '-'
    ensures i >= 0 && |s| > 1 ==> s[0] != '0'
    ensures i < 0 ==> |s| > 1 && IsDigit(s[1]) && s[1] != '0'
  {
    if i < 0 then "-" + NatToString(-i) else NatToString(i)
  }

  /** The value of a string of decimal digits. */
  function ParseNat(s: string): nat
    requires forall i :: 0 <= i < |s| ==> IsDigit(s[i])
  {
    if |s| == 0 then 0 else ParseNat(s[..|s| - 1]) * 10 + DigitValue(s[|s| - 1])
  }

  /** The value of an optionally signed string of decimal digits. */
  function ParseInt(s: string): int
    requires |s| > 0
    requires s[0] == '-' || IsDigit(s[0])
    requires forall i :: 1 <= i < |s| ==> IsDigit(s[i])
  {
    if s[0] == '-' then -(ParseNat(s[1..]) as int) else ParseNat(s)
  }

  lemma {:induction false} ParseNatToString(n: nat)
    ensures ParseNat(NatToString(n)) == n
  {
    var s := NatToString(n);
    if n < 10 {
      DigitValueOfChar(n);
    } else {
      var prefix := NatToString(n / 10);
      assert s == prefix + [DigitChar(n % 10)];
      assert s[..|s| - 1] == prefix;
      ParseNatToString(n / 10);
      DigitValueOfChar(n % 10);
    }
  }

  /** Parsing undoes rendering, for every `int`. */
  lemma ParseIntToString(i: int)
    ensures ParseInt(IntToString(i)) == i
  {
    var s := IntToString(i);
    if i < 0 {
      assert s[1..] == NatToString(-i);
      ParseNatToString(-i);
    } else {
      ParseNatToString(i);
    }
  }

  /** Two ids render the same only if they are equal. */
  lemma IntToStringInjective(a: int, b: int)
    ensures IntToString(a) == IntToString(b) ==> a == b
  {
    ParseIntToString(a);
    ParseIntToString(b);
  }

  /** A fixed prefix followed by a rendered id determines the id. */
  lemma PrefixedIdInjective(prefix: string, a: int, b: int)
    ensures prefix + IntToString(a) == prefix + IntToString(b) ==> a == b
  {
    if prefix + IntToString(a) == prefix + IntToString(b) {
      assert IntToString(a) == (prefix + IntToString(a))[|prefix|..];
      assert IntToString(b) == (prefix + IntToString(b))[|prefix|..];
      IntToStringInjective(a, b);
    }
  }
}
