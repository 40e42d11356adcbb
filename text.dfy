/**
 * The two pieces of the Java string library the user interface renders
 * with: `String.valueOf(Integer)` (decimal, a leading '-' for negatives)
 * and `String.join(separator, parts)`. `ReadInt` reads a rendered number
 * back and is the partner that makes the rendering injective.
 */
module Text {

  predicate IsDigit(c: char)
  {
    '0' <= c <= '9'
  }

  /** The characters a rendered integer is made of. */
  predicate IsNumeralChar(c: char)
  {
    IsDigit(c) || c == '-'
  }

  predicate IsDigits(s: string)
  {
    forall i :: 0 <= i < |s| ==> IsDigit(s[i])
  }

  predicate IsNumeral(s: string)
  {
    forall i :: 0 <= i < |s| ==> IsNumeralChar(s[i])
  }

  function DigitChar(d: nat): (c: char)
    requires d < 10
    ensures IsDigit(c)
    ensures c as int - '0' as int == d
  {
    ('0' as int + d) as char
  }

  function DigitValue(c: char): (d: nat)
    requires IsDigit(c)
    ensures d < 10
    ensures DigitChar(d) == c
  {
    c as int - '0' as int
  }

  /** The decimal digits of `n`, most significant first, without leading zeros. */
  function NatToString(n: nat): (s: string)
    ensures |s| > 0 && IsDigits(s)
    ensures |s| > 1 ==> s[0] != '0'
  {
    if n < 10 then [DigitChar(n)] else NatToString(n / 10) + [DigitChar(n % 10)]
  }

  /** The number a string of decimal digits denotes. */
  function ReadDigits(s: string): (n: nat)
    requires IsDigits(s)
  {
    if s == [] then 0 else ReadDigits(s[..|s| - 1]) * 10 + DigitValue(s[|s| - 1])
  }

  /** Reading the digits of `n` gives back `n`. */
  lemma {:induction false} NatToStringRoundTrip(n: nat)
    ensures ReadDigits(NatToString(n)) == n
  {
    if n >= 10 {
      NatToStringRoundTrip(n / 10);
      var s := NatToString(n);
      assert s[..|s| - 1] == NatToString(n / 10);
    }
  }

  /** `String.valueOf(i)` for an `Integer` that is present. */
  function IntToString(i: int): (s: string)
    ensures |s| > 0 && IsNumeral(s)
    ensures s[0] == '-' <==> i < 0
  {
    if i < 0 then "-" + NatToString(-i) else NatToString(i)
  }

  /** Reads a rendered integer back: an optional '-', then digits. */
  function ReadInt(s: string): (i: int)
    requires |s| > 0
    requires if s[0] == '-' then IsDigits(s[1..]) else IsDigits(s)
  {
    if s[0] == '-' then -(ReadDigits(s[1..]) as int) else ReadDigits(s)
  }

  /** Reading a rendered integer gives it back. */
  lemma IntToStringRoundTrip(i: int)
    ensures var s := IntToString(i); (if s[0] == '-' then IsDigits(s[1..]) else IsDigits(s)) && ReadInt(s) == i
  {
    if i < 0 {
      assert IntToString(i)[1..] == NatToString(-i);
      NatToStringRoundTrip(-i);
    } else {
      NatToStringRoundTrip(i);
    }
  }

  /** Distinct integers render differently. */
  lemma IntToStringInjective(a: int, b: int)
    requires IntToString(a) == IntToString(b)
    ensures a == b
  {
    IntToStringRoundTrip(a);
    IntToStringRoundTrip(b);
  }

  /**
   * Where a numeral is followed by nothing or by a character that cannot
   * continue it, the numeral is determined: two such splittings of one
   * string cut at the same place.
   */
  lemma {:induction false} NumeralPrefixUnique(x1: string, rest1: string, x2: string, rest2: string)
    requires IsNumeral(x1) && IsNumeral(x2)
    requires rest1 == [] || !IsNumeralChar(rest1[0])
    requires rest2 == [] || !IsNumeralChar(rest2[0])
    requires x1 + rest1 == x2 + rest2
    ensures x1 == x2 && rest1 == rest2
  {
    if x1 == [] && x2 == [] {
      assert x1 + rest1 == rest1 && x2 + rest2 == rest2;
    } else if x1 != [] && x2 != [] {
      assert x1[0] == (x1 + rest1)[0] == (x2 + rest2)[0] == x2[0];
      assert x1[1..] + rest1 == (x1 + rest1)[1..];
      assert x2[1..] + rest2 == (x2 + rest2)[1..];
      NumeralPrefixUnique(x1[1..], rest1, x2[1..], rest2);
      assert x1 == [x1[0]] + x1[1..];
      assert x2 == [x2[0]] + x2[1..];
    }
  }

  /** The same holds after a common prefix. */
  lemma PrefixedNumeralUnique(prefix: string, x1: string, rest1: string, x2: string, rest2: string)
    requires IsNumeral(x1) && IsNumeral(x2)
    requires rest1 == [] || !IsNumeralChar(rest1[0])
    requires rest2 == [] || !IsNumeralChar(rest2[0])
    requires prefix + x1 + rest1 == prefix + x2 + rest2
    ensures x1 == x2 && rest1 == rest2
  {
    assert x1 + rest1 == (prefix + x1 + rest1)[|prefix|..];
    assert x2 + rest2 == (prefix + x2 + rest2)[|prefix|..];
    NumeralPrefixUnique(x1, rest1, x2, rest2);
  }

  /**
   * Three numerals, each introduced by a fixed label that does not begin
   * with a numeral character, can be read back from their concatenation.
   */
  lemma LabelledNumeralsUnique(p1: string, p2: string, p3: string,
                               a1: string, b1: string, c1: string,
                               a2: string, b2: string, c2: string)
    requires p2 != [] && !IsNumeralChar(p2[0])
    requires p3 != [] && !IsNumeralChar(p3[0])
    requires IsNumeral(a1) && IsNumeral(b1) && IsNumeral(c1)
    requires IsNumeral(a2) && IsNumeral(b2) && IsNumeral(c2)
    requires p1 + a1 + p2 + b1 + p3 + c1 == p1 + a2 + p2 + b2 + p3 + c2
    ensures a1 == a2 && b1 == b2 && c1 == c2
  {
    var rest1, rest2 := p2 + b1 + p3 + c1, p2 + b2 + p3 + c2;
    assert p1 + a1 + rest1 == p1 + a1 + p2 + b1 + p3 + c1;
    assert p1 + a2 + rest2 == p1 + a2 + p2 + b2 + p3 + c2;
    PrefixedNumeralUnique(p1, a1, rest1, a2, rest2);
    var last1, last2 := p3 + c1, p3 + c2;
    assert p2 + b1 + last1 == rest1;
    assert p2 + b2 + last2 == rest2;
    PrefixedNumeralUnique(p2, b1, last1, b2, last2);
    assert p3 + c1 + [] == last1;
    assert p3 + c2 + [] == last2;
    PrefixedNumeralUnique(p3, c1, [], c2, []);
  }

  /** `String.join(sep, parts)`: the parts in order with `sep` between neighbours. */
  function Join(sep: string, parts: seq<string>): (r: string)
    ensures |parts| == 0 ==> r == ""
    ensures |parts| == 1 ==> r == parts[0]
  {
    if |parts| == 0 then ""
    else if |parts| == 1 then parts[0]
    else Join(sep, parts[..|parts| - 1]) + sep + parts[|parts| - 1]
  }

  /** Joining three parts puts the separator exactly twice, between them. */
  lemma JoinThree(sep: string, a: string, b: string, c: string)
    ensures Join(sep, [a, b, c]) == a + sep + b + sep + c
  {
    assert [a, b, c][..2] == [a, b];
    assert [a, b][..1] == [a];
  }
}
