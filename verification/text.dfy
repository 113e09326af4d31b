/** The string operations the pipeline uses: ASCII lower-casing, single-character
    replacement and decimal rendering of integers. Strings are `seq<char>`. */
module Text {

  predicate IsUpper(c: char) {
    'A' <= c <= 'Z'
  }

  /** Lower-case a single ASCII letter; every other character is unchanged. */
  function LowerChar(c: char): char {
    if IsUpper(c) then (c as int + 32) as char else c
  }

  /** `str.lower()` restricted to ASCII letters. */
  function AsciiLower(s: string): (r: string)
    ensures |r| == |s|
    ensures forall i :: 0 <= i < |s| ==> r[i] == LowerChar(s[i])
    ensures forall i :: 0 <= i < |r| ==> !IsUpper(r[i])
  {
    seq(|s|, i requires 0 <= i < |s| => LowerChar(s[i]))
  }

  /** `s.replace(from, to)` for single characters: every occurrence of `from` becomes `to`. */
  function ReplaceChar(s: string, from: char, to: char): (r: string)
    ensures |r| == |s|
    ensures forall i :: 0 <= i < |s| ==> r[i] == (if s[i] == from then to else s[i])
    ensures from != to ==> from !in r
  {
    seq(|s|, i requires 0 <= i < |s| => if s[i] == from then to else s[i])
  }

  function DigitChar(d: nat): char
    requires d < 10
  {
    ('0' as int + d) as char
  }

  predicate IsDigit(c: char) {
    '0' <= c <= '9'
  }

  /** The value of a decimal digit character. */
  function DigitValue(c: char): nat
    requires IsDigit(c)
  {
    c as int - '0' as int
  }

  predicate AllDigits(s: string) {
    forall i :: 0 <= i < |s| ==> IsDigit(s[i])
  }

  /** The number a string of decimal digits denotes, most significant digit first. */
  function DigitsValue(s: string): nat
    requires AllDigits(s)
    decreases |s|
  {
    if |s| == 0 then 0 else DigitsValue(s[..|s| - 1]) * 10 + DigitValue(s[|s| - 1])
  }

  /** Decimal digits of a natural number, most significant first, without leading zeros:
      the digits read back as `n`. */
  function NatToString(n: nat): (r: string)
    ensures |r| > 0 && AllDigits(r)
    ensures DigitsValue(r) == n
    ensures |r| > 1 ==> r[0] != '0'
    decreases n
  {
    if n < 10 then [DigitChar(n)]
    else
      var prefix := NatToString(n / 10);
      var r := prefix + [DigitChar(n % 10)];
      assert r[..|r| - 1] == prefix;
      r
  }

  /** Python's `str(i)` for an `int`: a minus sign exactly for negative values, followed
      by the digits of `|i|`. */
  function IntToString(i: int): (r: string)
    ensures |r| > 0
    ensures r[0] == '-' <==> i < 0
    ensures i >= 0 ==> AllDigits(r) && DigitsValue(r) == i && (|r| > 1 ==> r[0] != '0')
    ensures i < 0 ==> && |r| > 1 && AllDigits(r[1..]) && DigitsValue(r[1..]) == -i
                      && (|r| > 2 ==> r[1] != '0')
  {
    if i < 0 then
      var digits := NatToString(-i);
      assert ("-" + digits)[1..] == digits;
      "-" + digits
    else NatToString(i)
  }

  /** Different numbers render differently. */
  lemma {:induction false} NatToStringInjective(a: nat, b: nat)
    requires NatToString(a) == NatToString(b)
    ensures a == b
  {
    assert DigitsValue(NatToString(a)) == DigitsValue(NatToString(b));
  }

  /** Different integers render differently, whatever their signs. */
  lemma {:induction false} IntToStringInjective(a: int, b: int)
    requires IntToString(a) == IntToString(b)
    ensures a == b
  {
    var r := IntToString(a);
    if a < 0 {
      assert DigitsValue(r[1..]) == -a == -b;
    } else {
      assert DigitsValue(r) == a == b;
    }
  }

  /** A string built as `prefix + middle + suffix` determines its middle: two paths
      derived from the same template collide only when their inserted parts do. */
  lemma TemplateInjective(prefix: string, a: string, b: string, suffix: string)
    requires prefix + a + suffix == prefix + b + suffix
    ensures a == b
  {
    var s := prefix + a + suffix;
    assert |a| == |b|;
    assert a == s[|prefix|..|prefix| + |a|];
    assert b == (prefix + b + suffix)[|prefix|..|prefix| + |b|];
  }
}
