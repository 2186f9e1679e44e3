/**
 * Decimal rendering of integers (Go's strconv.FormatInt / fmt "%d") and of
 * thousandths with exactly three fractional digits (fmt "%.3f" on a value
 * that is already a whole number of thousandths), together with the
 * parsers that undo them.
 */
module Decimal {
  import opened Wrappers

  /** Go's int64. */
  type int64 = x: int | -0x8000_0000_0000_0000 <= x < 0x8000_0000_0000_0000

  predicate IsDigit(c: char)
  {
    '0' <= c <= '9'
  }

  function DigitChar(d: nat): (c: char)
    requires d < 10
    ensures IsDigit(c)
  {
    (('0' as int) + d) as char
  }

  function DigitValue(c: char): (d: nat)
    requires IsDigit(c)
    ensures d < 10 && DigitChar(d) == c
  {
    (c as int) - ('0' as int)
  }

  predicate AllDigits(s: string)
  {
    forall k :: 0 <= k < |s| ==> IsDigit(s[k])
  }

  /** The decimal digits of n, most significant first, without leading zeros. */
  function NatToString(n: nat): (r: string)
    ensures |r| >= 1 && AllDigits(r)
    ensures r[0] == '0' ==> n == 0 && |r| == 1
  {
    if n < 10 then [DigitChar(n)] else NatToString(n / 10) + [DigitChar(n % 10)]
  }

  /** The value of a string of decimal digits, read most significant first. */
  function DigitsValue(s: string): nat
    requires AllDigits(s)
  {
    if |s| == 0 then 0 else 10 * DigitsValue(s[..|s| - 1]) + DigitValue(s[|s| - 1])
  }

  function ParseNat(s: string): Option<nat>
  {
    if |s| > 0 && AllDigits(s) then Some(DigitsValue(s)) else None
  }

  /** Reading the rendered digits gives the number back. */
  lemma {:induction false} ParseNatToString(n: nat)
    ensures ParseNat(NatToString(n)) == Some(n)
  {
    var r := NatToString(n);
    if n >= 10 {
      ParseNatToString(n / 10);
      assert r[..|r| - 1] == NatToString(n / 10);
      assert DigitsValue(r[..|r| - 1]) == n / 10;
      assert DigitValue(r[|r| - 1]) == n % 10;
    } else {
      assert r[..0] == [];
      assert r[0] == DigitChar(n);
      assert DigitValue(r[0]) == n;
      assert DigitsValue(r) == n;
    }
  }

  /** The decimal rendering of a number n >= 2 is shorter than n. */
  lemma {:induction false} NatToStringShort(n: nat)
    requires n >= 2
    ensures |NatToString(n)| <= n - 1
  {
    if n >= 20 {
      NatToStringShort(n / 10);
    }
  }

  /** strconv.FormatInt(i, 10): a minus sign for negatives, then the digits. */
  function IntToString(i: int): (r: string)
  {
    if i < 0 then "-" + NatToString(-i) else NatToString(i)
  }

  function ParseInt(s: string): Option<int>
  {
    if |s| > 0 && s[0] == '-' then
      match ParseNat(s[1..])
      case Some(n) => Some(0 - n)
      case None => None
    else
      match ParseNat(s)
      case Some(n) => Some(n)
      case None => None
  }

  /** The characters an integer's rendering can contain. */
  predicate IsNumeral(c: char)
  {
    IsDigit(c) || c == '-' || c == '.'
  }

  predicate AllNumeral(s: string)
  {
    forall k :: 0 <= k < |s| ==> IsNumeral(s[k])
  }

  lemma IntToStringNumeral(i: int)
    ensures |IntToString(i)| >= 1 && AllNumeral(IntToString(i))
  {
  }

  /** Reading the rendered integer gives it back. */
  lemma {:induction false} ParseIntToString(i: int)
    ensures ParseInt(IntToString(i)) == Some(i)
  {
    var r := IntToString(i);
    if i < 0 {
      ParseNatToString(-i);
      assert r[1..] == NatToString(-i);
    } else {
      ParseNatToString(i);
    }
  }

  /** Three digits, with leading zeros, for a number below 1000. */
  function Pad3(x: nat): (r: string)
    requires x < 1000
    ensures |r| == 3 && AllDigits(r)
  {
    [DigitChar(x / 100), DigitChar(x / 10 % 10), DigitChar(x % 10)]
  }

  lemma Pad3Value(x: nat)
    requires x < 1000
    ensures DigitsValue(Pad3(x)) == x
  {
    var r := Pad3(x);
    var a, b, c := x / 100, x / 10 % 10, x % 10;
    assert r[..1] == [r[0]] && r[..2][..1] == r[..1];
    assert DigitsValue(r[..1]) == a by { assert r[..1][..0] == []; }
    assert DigitsValue(r[..2]) == 10 * a + b;
    assert DigitsValue(r) == 100 * a + 10 * b + c;
    assert x == 100 * a + 10 * b + c;
  }

  function Abs(m: int): nat
  {
    if m < 0 then -m else m
  }

  /**
   * A gauge held as a whole number m of thousandths, rendered the way
   * "%.3f" renders m / 1000: sign, integer part, '.', three digits.
   */
  function FormatMilli(m: int): (r: string)
    ensures AllNumeral(r)
  {
    (if m < 0 then "-" else "") + NatToString(Abs(m) / 1000) + "." + Pad3(Abs(m) % 1000)
  }

  /** Reads sign, integer part, '.' and exactly three fractional digits. */
  function ParseMilli(s: string): Option<int>
  {
    var neg := |s| > 0 && s[0] == '-';
    var t := if neg then s[1..] else s;
    if |t| < 5 || t[|t| - 4] != '.' then None
    else
      match (ParseNat(t[..|t| - 4]), ParseNat(t[|t| - 3..]))
      case (Some(w), Some(f)) =>
        var v: int := 1000 * w + f;
        if neg then Some(0 - v) else Some(v)
      case _ => None
  }

  /** Reading a rendered gauge gives the thousandths back. */
  lemma ParseFormatMilli(m: int)
    ensures ParseMilli(FormatMilli(m)) == Some(m)
  {
    var a := Abs(m);
    var w, f := a / 1000, a % 1000;
    assert 1000 * w + f == a;
    var t := NatToString(w) + "." + Pad3(f);
    UnsignedMilli(w, f);
    var s := FormatMilli(m);
    if m < 0 {
      assert s == "-" + t;
      NegatedMilli(t, a);
    } else {
      assert s == t;
    }
  }

  lemma UnsignedMilli(w: nat, f: nat)
    requires f < 1000
    ensures var t := NatToString(w) + "." + Pad3(f);
      |t| > 0 && t[0] != '-' && ParseMilli(t) == Some(1000 * w + f)
  {
    var a, p := NatToString(w), Pad3(f);
    var t := a + "." + p;
    assert |t| == |a| + 4;
    assert t[0] == a[0] && IsDigit(a[0]);
    assert t[|a|] == '.';
    assert t[..|a|] == a;
    assert t[|a| + 1..] == p;
    ParseNatToString(w);
    Pad3Value(f);
  }

  /** A leading '-' negates what the rest reads as. */
  lemma NegatedMilli(t: string, v: int)
    requires |t| > 0 && t[0] != '-' && ParseMilli(t) == Some(v)
    ensures ParseMilli("-" + t) == Some(0 - v)
  {
    assert ("-" + t)[1..] == t;
  }
}
