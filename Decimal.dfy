/**
 * Decimal rendering of Java integers, as produced by string concatenation
 * with an `Integer` (`"..." + port`), and its inverse.
 */
module Decimal {
  import opened Wrappers

  predicate IsDigit(c: char) {
    '0' <= c <= '9'
  }

  predicate AllDigits(s: string) {
    forall i :: 0 <= i < |s| ==> IsDigit(s[i])
  }

  function DigitChar(d: nat): (c: char)
    requires d < 10
    ensures IsDigit(c) && c as int - '0' as int == d
  {
    ('0' as int + d) as char
  }

  function DigitValue(c: char): (d: nat)
    requires IsDigit(c)
    ensures d < 10
  {
    c as int - '0' as int
  }

  /** The shortest decimal digit string of `n`. */
  function NatToString(n: nat): (s: string)
    ensures |s| > 0 && AllDigits(s)
    ensures |s| > 1 ==> s[0] != '0'
    decreases n
  {
    if n < 10 then [DigitChar(n)] else NatToString(n / 10) + [DigitChar(n % 10)]
  }

  /** Java's `Integer.toString`: a minus sign before the digits of a negative number. */
  function IntToString(i: int): (s: string)
    ensures ':' !in s && '%' !in s
  {
    if i < 0 then "-" + NatToString(-i) else NatToString(i)
  }

  /** The value of a digit string, most significant digit first. */
  function ParseNat(s: string): nat
    requires AllDigits(s)
    decreases |s|
  {
    if s == [] then 0 else ParseNat(s[..|s| - 1]) * 10 + DigitValue(s[|s| - 1])
  }

  /** A digit string as `NatToString` writes it: no leading zero unless it is "0". */
  predicate CanonicalDigits(s: string) {
    |s| > 0 && AllDigits(s) && (|s| > 1 ==> s[0] != '0')
  }

  /**
   * Reads exactly the texts `IntToString` writes: canonical digits, or a minus
   * sign followed by canonical digits other than "0".
   */
  function ParseInt(s: string): Option<int> {
    if |s| > 0 && s[0] == '-' then
      if CanonicalDigits(s[1..]) && s[1..] != "0" then Some(-(ParseNat(s[1..]) as int)) else None
    else if CanonicalDigits(s) then Some(ParseNat(s))
    else None
  }

  lemma {:induction false} ParseNatToString(n: nat)
    ensures ParseNat(NatToString(n)) == n
  {
    var s := NatToString(n);
    if n < 10 {
      assert s[..|s| - 1] == [];
    } else {
      assert s[..|s| - 1] == NatToString(n / 10);
      ParseNatToString(n / 10);
    }
  }

  lemma ParseIntToString(i: int)
    ensures ParseInt(IntToString(i)) == Some(i)
  {
    if i < 0 {
      var s := IntToString(i);
      assert s[1..] == NatToString(-i);
      ParseNatToString(-i);
      assert ParseNat("0") == 0;
    } else {
      ParseNatToString(i);
    }
  }

  lemma {:induction false} ParseNatPositive(s: string)
    requires CanonicalDigits(s) && s[0] != '0'
    ensures ParseNat(s) >= 1
    decreases |s|
  {
    var front := s[..|s| - 1];
    if |s| > 1 {
      assert front[0] == s[0];
      ParseNatPositive(front);
    }
  }

  /** Canonical digits are written back exactly by `NatToString`. */
  lemma {:induction false} NatToStringParseNat(s: string)
    requires CanonicalDigits(s)
    ensures NatToString(ParseNat(s)) == s
    decreases |s|
  {
    var front := s[..|s| - 1];
    var n := ParseNat(s);
    if |s| == 1 {
      assert front == [] && ParseNat(front) == 0;
      assert n == DigitValue(s[0]);
      assert NatToString(n) == [DigitChar(n)];
    } else {
      assert front[0] == s[0];
      ParseNatPositive(front);
      NatToStringParseNat(front);
      assert n / 10 == ParseNat(front) && n % 10 == DigitValue(s[|s| - 1]);
      assert NatToString(n) == NatToString(n / 10) + [DigitChar(n % 10)];
      assert s == front + [s[|s| - 1]];
    }
  }

  /** Whatever `ParseInt` accepts is the text `IntToString` writes for the value read. */
  lemma IntToStringParseInt(s: string, i: int)
    requires ParseInt(s) == Some(i)
    ensures IntToString(i) == s
  {
    if |s| > 0 && s[0] == '-' {
      var digits := s[1..];
      NatToStringParseNat(digits);
      assert s == "-" + digits;
    } else {
      NatToStringParseNat(s);
    }
  }
}
