/**
 * The text forms the backend writes with `format!`: an `i64` as `{}` (in the
 * mutation error messages) and a decimal as `{:.1}` (the seeded reading values),
 * with parsers that read them back. A one-decimal value is carried as an integer
 * count of tenths, so `22.5` is 225.
 */
module Format {
  import opened Wrappers

  predicate IsDigit(c: char) {
    '0' <= c <= '9'
  }

  predicate AllDigits(s: string) {
    forall i :: 0 <= i < |s| ==> IsDigit(s[i])
  }

  function DigitChar(d: nat): (c: char)
    requires d < 10
    ensures IsDigit(c)
  {
    ('0' as int + d) as char
  }

  function DigitValue(c: char): (d: nat)
    requires IsDigit(c)
    ensures d < 10
  {
    c as int - '0' as int
  }

  /** The decimal digits of `n`, most significant first, without leading zeros. */
  function NatText(n: nat): (s: string)
    ensures s != [] && AllDigits(s)
  {
    if n < 10 then [DigitChar(n)] else NatText(n / 10) + [DigitChar(n % 10)]
  }

  function DigitsValue(s: string): nat
    requires AllDigits(s)
  {
    if s == [] then 0 else DigitsValue(s[..|s| - 1]) * 10 + DigitValue(s[|s| - 1])
  }

  function ParseNat(s: string): (r: Option<nat>)
    ensures r.Some? <==> s != [] && AllDigits(s)
  {
    if s != [] && AllDigits(s) then Some(DigitsValue(s)) else None
  }

  lemma {:induction false} NatTextRoundTrip(n: nat)
    ensures ParseNat(NatText(n)) == Some(n)
  {
    var s := NatText(n);
    if n < 10 {
      assert s[..|s| - 1] == [];
    } else {
      NatTextRoundTrip(n / 10);
      assert s[..|s| - 1] == NatText(n / 10);
      assert DigitsValue(s) == (n / 10) * 10 + n % 10;
    }
  }

  /** An `i64` formatted with `{}`: a leading '-' for negative values, then the digits. */
  function IntText(n: int): (s: string)
    ensures s != [] && (s[0] == '-' <==> n < 0)
    ensures n < 0 ==> |s| >= 2 && AllDigits(s[1..])
    ensures n >= 0 ==> AllDigits(s)
  {
    if n < 0 then "-" + NatText(-n) else NatText(n)
  }

  function ParseInt(s: string): Option<int>
  {
    if s != [] && s[0] == '-' then
      match ParseNat(s[1..])
      case Some(m) => Some(-(m as int))
      case None => None
    else
      match ParseNat(s)
      case Some(m) => Some(m)
      case None => None
  }

  lemma IntTextRoundTrip(n: int)
    ensures ParseInt(IntText(n)) == Some(n)
  {
    if n < 0 {
      NatTextRoundTrip(-n);
      assert ("-" + NatText(-n))[1..] == NatText(-n);
    } else {
      NatTextRoundTrip(n);
    }
  }

  /** Distinct integers are written differently, so the text names its integer. */
  lemma IntTextInjective(a: int, b: int)
    ensures IntText(a) == IntText(b) ==> a == b
  {
    IntTextRoundTrip(a);
    IntTextRoundTrip(b);
  }

  /** `t` tenths formatted with `{:.1}`: sign, whole part, '.', one decimal digit. */
  function TenthsText(t: int): (s: string)
    ensures |s| >= 3 && (s[0] == '-' <==> t < 0)
    ensures s[|s| - 2] == '.' && IsDigit(s[|s| - 1])
  {
    var m := if t < 0 then -t else t;
    (if t < 0 then "-" else "") + NatText(m / 10) + "." + [DigitChar(m % 10)]
  }

  /** Reads `digits '.' digit` as a count of tenths. */
  function ParseUnsignedTenths(s: string): (r: Option<nat>)
    ensures r.Some? <==> |s| >= 3 && AllDigits(s[..|s| - 2]) && s[|s| - 2] == '.' && IsDigit(s[|s| - 1])
  {
    if |s| >= 3 && s[|s| - 2] == '.' && IsDigit(s[|s| - 1]) then
      match ParseNat(s[..|s| - 2])
      case Some(w) => Some(w * 10 + DigitValue(s[|s| - 1]))
      case None => None
    else None
  }

  /** Reads an optionally signed one-decimal number as a count of tenths. */
  function ParseTenths(s: string): (r: Option<int>)
    ensures var u := if s != [] && s[0] == '-' then s[1..] else s;
      r.Some? <==> |u| >= 3 && AllDigits(u[..|u| - 2]) && u[|u| - 2] == '.' && IsDigit(u[|u| - 1])
    ensures r.Some? && s[0] == '-' ==> r.value <= 0
    ensures r.Some? && s[0] != '-' ==> r.value >= 0
  {
    if s != [] && s[0] == '-' then
      match ParseUnsignedTenths(s[1..])
      case Some(m) => Some(-(m as int))
      case None => None
    else
      match ParseUnsignedTenths(s)
      case Some(m) => Some(m)
      case None => None
  }

  lemma UnsignedTenthsParts(w: string, d: nat)
    requires w != [] && AllDigits(w) && d < 10
    ensures ParseUnsignedTenths(w + "." + [DigitChar(d)]) == Some(DigitsValue(w) * 10 + d)
  {
    var s := w + "." + [DigitChar(d)];
    assert s[|s| - 2] == '.' && s[|s| - 1] == DigitChar(d);
    assert s[..|s| - 2] == w;
  }

  lemma UnsignedTenthsRoundTrip(m: nat)
    ensures ParseUnsignedTenths(NatText(m / 10) + "." + [DigitChar(m % 10)]) == Some(m)
  {
    NatTextRoundTrip(m / 10);
    UnsignedTenthsParts(NatText(m / 10), m % 10);
  }

  lemma TenthsTextRoundTrip(t: int)
    ensures ParseTenths(TenthsText(t)) == Some(t)
  {
    var m := if t < 0 then -t else t;
    var u := NatText(m / 10) + "." + [DigitChar(m % 10)];
    UnsignedTenthsRoundTrip(m);
    if t < 0 {
      assert TenthsText(t) == "-" + u;
      assert ("-" + u)[1..] == u;
    } else {
      assert TenthsText(t) == u;
      assert u[0] == NatText(m / 10)[0];
    }
  }

  /**
   * `TenthsTextRoundTrip` for every number at once: the quantified form that
   * `Seed.Baseline`'s contract relies on.
   */
  lemma TenthsTextParses()
    ensures forall t :: ParseTenths(TenthsText(t)) == Some(t)
  {
    forall t ensures ParseTenths(TenthsText(t)) == Some(t) {
      TenthsTextRoundTrip(t);
    }
  }
}
