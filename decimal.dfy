/** Decimal text of non-negative integers, as JavaScript prints an integral
    number inside a template literal (`${n}`), together with a reader that
    undoes it. */
module Decimal {

  import opened Wrappers

  predicate IsDigit(ch: char) {
    '0' <= ch <= '9'
  }

  predicate AllDigits(s: string) {
    forall i :: 0 <= i < |s| ==> IsDigit(s[i])
  }

  function DigitChar(d: int): (ch: char)
    requires 0 <= d < 10
    ensures IsDigit(ch)
    ensures ch as int - '0' as int == d
  {
    ('0' as int + d) as char
  }

  /** The shortest decimal numeral for n: digits only, no leading zero. */
  function NatToString(n: nat): (s: string)
    ensures |s| >= 1
    ensures AllDigits(s)
    ensures s[0] == '0' ==> n == 0
    decreases n
  {
    if n < 10 then [DigitChar(n)] else NatToString(n / 10) + [DigitChar(n % 10)]
  }

  /** The value of a string of decimal digits, most significant first. */
  function DigitsValue(s: string): nat
    requires AllDigits(s)
    decreases |s|
  {
    if s == [] then 0
    else 10 * DigitsValue(s[..|s| - 1]) + (s[|s| - 1] as int - '0' as int)
  }

  /** Number of decimal digits at the front of s. */
  function LeadingDigits(s: string): (k: nat)
    ensures k <= |s|
    ensures AllDigits(s[..k])
    ensures k < |s| ==> !IsDigit(s[k])
    decreases |s|
  {
    if s == [] || !IsDigit(s[0]) then 0 else 1 + LeadingDigits(s[1..])
  }

  /** A numeral as NatToString writes it: digits, and a leading zero only
      in "0" itself. */
  predicate Canonical(d: string) {
    |d| >= 1 && AllDigits(d) && (d[0] == '0' ==> |d| == 1)
  }

  /** Reads the decimal numeral at the front of s. None when s does not
      start with a digit, or when the numeral has a leading zero, so that
      only the spelling NatToString writes is accepted. */
  function ReadNat(s: string): (r: Option<(nat, string)>)
    ensures r.Some? ==> |r.value.1| < |s| && r.value.1 == s[|s| - |r.value.1|..]
  {
    var k := LeadingDigits(s);
    if k == 0 || !Canonical(s[..k]) then None else Some((DigitsValue(s[..k]), s[k..]))
  }

  lemma {:induction false} DigitsValueOfNatToString(n: nat)
    ensures DigitsValue(NatToString(n)) == n
    decreases n
  {
    var s := NatToString(n);
    if n >= 10 {
      DigitsValueOfNatToString(n / 10);
      assert s[..|s| - 1] == NatToString(n / 10);
    }
  }

  lemma {:induction false} LeadingDigitsOfDigitsThen(d: string, t: string)
    requires AllDigits(d)
    requires t == [] || !IsDigit(t[0])
    ensures LeadingDigits(d + t) == |d|
    decreases |d|
  {
    if d != [] {
      assert (d + t)[1..] == d[1..] + t;
      LeadingDigitsOfDigitsThen(d[1..], t);
    } else {
      assert d + t == t;
    }
  }

  /** Reading back a printed number gives the number and the text after it. */
  lemma ReadNatOfNatToString(n: nat, t: string)
    requires t == [] || !IsDigit(t[0])
    ensures ReadNat(NatToString(n) + t) == Some((n, t))
  {
    var d := NatToString(n);
    LeadingDigitsOfDigitsThen(d, t);
    assert (d + t)[..|d|] == d;
    assert (d + t)[|d|..] == t;
    DigitsValueOfNatToString(n);
    assert (d + t)[..|d|][0] == d[0];
  }

  /** A numeral without a leading zero has a value of at least 1. */
  lemma {:induction false} DigitsValuePositive(d: string)
    requires |d| >= 1 && AllDigits(d) && d[0] != '0'
    ensures DigitsValue(d) >= 1
    decreases |d|
  {
    if |d| > 1 {
      DigitsValuePositive(d[..|d| - 1]);
    }
  }

  /** Printing the value of a canonical numeral gives the numeral back. */
  lemma {:induction false} NatToStringOfDigitsValue(d: string)
    requires Canonical(d)
    ensures NatToString(DigitsValue(d)) == d
    decreases |d|
  {
    var v := DigitsValue(d);
    if |d| == 1 {
      assert d == [d[0]];
    } else {
      var front := d[..|d| - 1];
      assert front[0] == d[0];
      DigitsValuePositive(front);
      NatToStringOfDigitsValue(front);
      assert v / 10 == DigitsValue(front);
      assert v % 10 == d[|d| - 1] as int - '0' as int;
      assert d == front + [d[|d| - 1]];
    }
  }

  /** Whatever ReadNat accepts is a printed number followed by text that
      does not start with a digit. */
  lemma ReadNatIsNatToString(s: string)
    ensures ReadNat(s).Some? ==>
      var (n, t) := ReadNat(s).value;
      s == NatToString(n) + t && (t == [] || !IsDigit(t[0]))
  {
    var k := LeadingDigits(s);
    if ReadNat(s).Some? {
      NatToStringOfDigitsValue(s[..k]);
      assert s == s[..k] + s[k..];
    }
  }

  /** Two numbers print the same only if they are equal. */
  lemma NatToStringInjective(m: nat, n: nat)
    requires NatToString(m) == NatToString(n)
    ensures m == n
  {
    DigitsValueOfNatToString(m);
    DigitsValueOfNatToString(n);
  }
}
