/** Decimal digit text: rendering of naturals (`String(n)`, `str(n)`), zero padding
    (`padStart(2, '0')`, `%02d`, `%Y`) and JavaScript's `parseInt`. */
module Decimal {
  import opened Wrappers

  predicate IsDigit(c: char)
  {
    '0' <= c <= '9'
  }

  predicate AllDigits(s: string)
  {
    forall i :: 0 <= i < |s| ==> IsDigit(s[i])
  }

  function DigitChar(d: nat): (c: char)
    requires d < 10
    ensures IsDigit(c) && c as int - '0' as int == d
  {
    ('0' as int + d) as char
  }

  function DigitValue(c: char): (d: nat)
    requires IsDigit(c)
    ensures d < 10 && DigitChar(d) == c
  {
    c as int - '0' as int
  }

  /** The number a string of digits denotes (most significant digit first). */
  function DigitsValue(s: string): nat
    requires AllDigits(s)
  {
    if s == [] then 0 else 10 * DigitsValue(s[..|s| - 1]) + DigitValue(s[|s| - 1])
  }

  /** Shortest decimal rendering of a natural number. */
  function NatText(n: nat): (s: string)
    ensures AllDigits(s)
    ensures n < 10 <==> |s| == 1
    ensures |s| > 1 ==> s[0] != '0'
  {
    if n < 10 then [DigitChar(n)] else NatText(n / 10) + [DigitChar(n % 10)]
  }

  lemma {:induction false} NatTextRoundTrip(n: nat)
    ensures DigitsValue(NatText(n)) == n
  {
    if n >= 10 {
      NatTextRoundTrip(n / 10);
      var s := NatText(n);
      assert s[..|s| - 1] == NatText(n / 10);
    }
  }

  lemma NatTextInjective(a: nat, b: nat)
    ensures NatText(a) == NatText(b) <==> a == b
  {
    NatTextRoundTrip(a);
    NatTextRoundTrip(b);
  }

  /** Two-digit zero padding of a value below 100. */
  function Pad2(n: nat): (s: string)
    requires n < 100
    ensures |s| == 2 && AllDigits(s) && DigitsValue(s) == n
    ensures s[0] == DigitChar(n / 10) && s[1] == DigitChar(n % 10)
  {
    var s := [DigitChar(n / 10), DigitChar(n % 10)];
    assert s[..1] == [s[0]] && s[..1][..0] == [];
    assert DigitsValue(s[..1]) == n / 10;
    s
  }

  /** Four-digit zero padding of a value below 10000. */
  function Pad4(n: nat): (s: string)
    requires n < 10000
    ensures |s| == 4 && AllDigits(s) && DigitsValue(s) == n
  {
    var s := [DigitChar(n / 1000), DigitChar(n / 100 % 10), DigitChar(n / 10 % 10), DigitChar(n % 10)];
    assert s[..3][..2][..1] == [s[0]] && s[..3][..2][..1][..0] == [];
    assert s[..3][..2] == [s[0], s[1]];
    assert s[..3] == [s[0], s[1], s[2]];
    assert DigitsValue(s[..3][..2][..1]) == n / 1000;
    assert DigitsValue(s[..3][..2]) == n / 100;
    assert DigitsValue(s[..3]) == n / 10;
    s
  }

  /** Digit strings of one length that denote the same number are equal. */
  lemma {:induction false} DigitsEqual(a: string, b: string)
    requires AllDigits(a) && AllDigits(b) && |a| == |b|
    requires DigitsValue(a) == DigitsValue(b)
    ensures a == b
  {
    if a != [] {
      var k := |a| - 1;
      LastDigitEqual(DigitsValue(a[..k]), DigitValue(a[k]), DigitsValue(b[..k]), DigitValue(b[k]));
      DigitsEqual(a[..k], b[..k]);
      assert a == a[..k] + [a[k]];
    }
  }

  /** A numeral's last digit and the rest are determined by its value. */
  lemma LastDigitEqual(m: nat, x: nat, n: nat, y: nat)
    requires x < 10 && y < 10 && 10 * m + x == 10 * n + y
    ensures x == y && m == n
  {
  }

  /** A four-digit year is written the same by `String(n)` and by `%Y`. */
  lemma FourDigitText(n: nat)
    requires 1000 <= n < 10000
    ensures NatText(n) == Pad4(n)
  {
    assert |NatText(n / 1000)| == 1;
    assert |NatText(n / 100)| == 2;
    assert |NatText(n / 10)| == 3;
    NatTextRoundTrip(n);
    DigitsEqual(NatText(n), Pad4(n));
  }

  /** The length of the longest prefix of `s` made of digits. */
  function LeadingDigits(s: string): (k: nat)
    ensures k <= |s| && AllDigits(s[..k])
    ensures k < |s| ==> !IsDigit(s[k])
  {
    if s == [] || !IsDigit(s[0]) then 0
    else
      var k := 1 + LeadingDigits(s[1..]);
      assert s[..k] == [s[0]] + s[1..][..k - 1];
      k
  }

  /** JavaScript `parseInt(s)` on text that starts with its digits: the value of the
      leading run of digits, or NaN (`None`) when there is none. */
  function ParseInt(s: string): (r: Option<nat>)
    ensures r.None? <==> s == [] || !IsDigit(s[0])
  {
    var k := LeadingDigits(s);
    if k == 0 then None else Some(DigitsValue(s[..k]))
  }

  lemma {:induction false} LeadingDigitsOfNatText(n: nat, rest: string)
    requires rest == [] || !IsDigit(rest[0])
    ensures LeadingDigits(NatText(n) + rest) == |NatText(n)|
  {
    var s := NatText(n);
    LeadingDigitsOfDigits(s, rest);
  }

  lemma {:induction false} LeadingDigitsOfDigits(s: string, rest: string)
    requires AllDigits(s)
    requires rest == [] || !IsDigit(rest[0])
    ensures LeadingDigits(s + rest) == |s|
  {
    if s != [] {
      assert (s + rest)[1..] == s[1..] + rest;
      LeadingDigitsOfDigits(s[1..], rest);
    } else {
      assert s + rest == rest;
    }
  }

  /** `parseInt` reads back the number `String(n)` wrote, whatever non-digit text follows. */
  lemma ParseIntOfNatText(n: nat, rest: string)
    requires rest == [] || !IsDigit(rest[0])
    ensures ParseInt(NatText(n) + rest) == Some(n)
  {
    var s := NatText(n);
    LeadingDigitsOfNatText(n, rest);
    assert (s + rest)[..|s|] == s;
    NatTextRoundTrip(n);
  }
}
