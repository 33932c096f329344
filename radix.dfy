/**
 * JavaScript's rendering of an integer in a radix (`n.toString(16)`, the
 * decimal rendering of a bigint in a template string) and a parser that
 * inverts it. Digits above 9 are the lower-case letters `a`..`f`; no leading
 * zeros; a negative value is the rendering of its magnitude after a `-`.
 */
module Radix {
  import opened Options

  predicate ValidBase(base: nat) { 2 <= base <= 16 }

  /** The character JavaScript prints for a digit value below 16. */
  function DigitChar(d: nat): (c: char)
    requires d < 16
    ensures '0' <= c <= '9' || 'a' <= c <= 'f'
  {
    if d < 10 then ('0' as int + d) as char else ('a' as int + d - 10) as char
  }

  /** The value of a digit character in the given base, if it is one. */
  function DigitValue(c: char, base: nat): (r: Option<nat>)
    requires ValidBase(base)
    ensures r.Some? ==> r.value < base
  {
    if '0' <= c <= '9' && (c as int - '0' as int) < base then Some(c as int - '0' as int)
    else if 'a' <= c <= 'f' && (c as int - 'a' as int + 10) < base then Some(c as int - 'a' as int + 10)
    else None
  }

  lemma DigitRoundTrip(d: nat, base: nat)
    requires ValidBase(base) && d < base
    ensures DigitValue(DigitChar(d), base) == Some(d)
  {
  }

  predicate IsDigits(s: string, base: nat)
    requires ValidBase(base)
  {
    forall i :: 0 <= i < |s| ==> DigitValue(s[i], base).Some?
  }

  lemma DivMod(n: nat, base: nat)
    requires ValidBase(base)
    ensures n == (n / base) * base + n % base && n % base < base
    ensures n >= base ==> 0 < n / base < n
  {
  }

  /** `n.toString(base)` for a non-negative integer: canonical digits, most significant first. */
  function NatToString(n: nat, base: nat): (r: string)
    requires ValidBase(base)
    ensures |r| >= 1 && IsDigits(r, base)
    ensures r[0] == '0' <==> n == 0
    decreases n
  {
    if n < base then [DigitChar(n)]
    else
      DivMod(n, base);
      var high := NatToString(n / base, base);
      DigitRoundTrip(n % base, base);
      var r := high + [DigitChar(n % base)];
      assert r[0] == high[0];
      r
  }

  /** `n.toString(base)` for any integer: a `-` before the magnitude when negative. */
  function IntToString(n: int, base: nat): (r: string)
    requires ValidBase(base)
    ensures |r| >= 1
    ensures r[0] == '-' <==> n < 0
    ensures n < 0 ==> |r| >= 2 && IsDigits(r[1..], base)
    ensures n >= 0 ==> IsDigits(r, base)
  {
    if n < 0 then "-" + NatToString(-n, base) else NatToString(n, base)
  }

  /** The value of a (possibly empty) digit string, most significant digit first. */
  function DigitsValue(s: string, base: nat): Option<nat>
    requires ValidBase(base)
    decreases |s|
  {
    if |s| == 0 then Some(0)
    else
      match (DigitsValue(s[..|s| - 1], base), DigitValue(s[|s| - 1], base))
      case (Some(high), Some(low)) => Some(high * base + low)
      case _ => None
  }

  /** Parses a non-empty digit string. */
  function ParseNat(s: string, base: nat): Option<nat>
    requires ValidBase(base)
  {
    if |s| == 0 then None else DigitsValue(s, base)
  }

  /** Parses an optional `-` followed by a non-empty digit string. */
  function ParseInt(s: string, base: nat): Option<int>
    requires ValidBase(base)
  {
    if |s| > 0 && s[0] == '-' then
      match ParseNat(s[1..], base)
      case Some(v) => Some(-(v as int))
      case None => None
    else
      match ParseNat(s, base)
      case Some(v) => Some(v)
      case None => None
  }

  lemma {:induction false} ParseNatRoundTrip(n: nat, base: nat)
    requires ValidBase(base)
    ensures ParseNat(NatToString(n, base), base) == Some(n)
  {
    var s := NatToString(n, base);
    if n < base {
      DigitRoundTrip(n, base);
      assert s == [DigitChar(n)];
      assert s[..|s| - 1] == [];
      assert DigitsValue(s, base) == Some(0 * base + n);
    } else {
      DivMod(n, base);
      var high := NatToString(n / base, base);
      assert s == high + [DigitChar(n % base)];
      assert s[..|s| - 1] == high;
      assert s[|s| - 1] == DigitChar(n % base);
      ParseNatRoundTrip(n / base, base);
      DigitRoundTrip(n % base, base);
    }
  }

  /** Parsing inverts rendering, for every integer and base: the rendering loses nothing. */
  lemma ParseIntRoundTrip(n: int, base: nat)
    requires ValidBase(base)
    ensures ParseInt(IntToString(n, base), base) == Some(n)
  {
    if n < 0 {
      var s := IntToString(n, base);
      assert s[1..] == NatToString(-n, base);
      ParseNatRoundTrip(-n, base);
    } else {
      ParseNatRoundTrip(n, base);
    }
  }

  /** Two integers render alike only when they are equal. */
  lemma IntToStringInjective(m: int, n: int, base: nat)
    requires ValidBase(base)
    ensures IntToString(m, base) == IntToString(n, base) <==> m == n
  {
    if IntToString(m, base) == IntToString(n, base) {
      ParseIntRoundTrip(m, base);
      ParseIntRoundTrip(n, base);
    }
  }
}
