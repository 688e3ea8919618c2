/** Decimal integers as Swift's `Int(_: String)` reads them: an optional
    sign, at least one ASCII digit and nothing else, within the 64-bit range. */
module Numbers {
  import opened Base
  import opened Text

  const INT_MIN: int := -0x8000_0000_0000_0000
  const INT_MAX: int := 0x7FFF_FFFF_FFFF_FFFF

  function DigitValue(c: char): (n: nat)
    requires IsDigit(c)
    ensures n < 10
  {
    (c as int) - ('0' as int)
  }

  function DigitChar(n: nat): (c: char)
    requires n < 10
    ensures IsDigit(c) && DigitValue(c) == n
  {
    (('0' as int) + n) as char
  }

  /** The value of a digit string, most significant digit first. */
  function DigitsValue(s: string): nat
    requires AllDigits(s)
    decreases |s|
  {
    if s == [] then 0 else DigitsValue(s[..|s| - 1]) * 10 + DigitValue(s[|s| - 1])
  }

  /** Swift's `Int(_: String)`; `None` is `nil`. */
  function ParseInt(s: string): (r: Option<int>)
    ensures r.Some? ==> INT_MIN <= r.value <= INT_MAX
    ensures s == [] ==> r == None
  {
    var signed := |s| > 0 && (s[0] == '-' || s[0] == '+');
    var body := if signed then s[1..] else s;
    if body == [] || !AllDigits(body) then None
    else
      var v: int := if signed && s[0] == '-' then -(DigitsValue(body) as int) else DigitsValue(body);
      if INT_MIN <= v <= INT_MAX then Some(v) else None
  }

  /** The decimal digits of `n`, without leading zeros. */
  function NatToString(n: nat): (s: string)
    ensures s != [] && AllDigits(s)
  {
    if n < 10 then [DigitChar(n)] else NatToString(n / 10) + [DigitChar(n % 10)]
  }

  lemma {:induction false} DigitsValueOfNatToString(n: nat)
    ensures DigitsValue(NatToString(n)) == n
  {
    if n >= 10 {
      var s := NatToString(n);
      assert s[..|s| - 1] == NatToString(n / 10);
      DigitsValueOfNatToString(n / 10);
    }
  }

  /** What `NatToString` writes, `ParseInt` reads back, with or without a sign. */
  lemma ParseIntRoundTrip(n: nat)
    ensures n <= INT_MAX ==> ParseInt(NatToString(n)) == Some(n)
    ensures n <= INT_MAX ==> ParseInt("+" + NatToString(n)) == Some(n)
    ensures n <= -INT_MIN ==> ParseInt("-" + NatToString(n)) == Some(-(n as int))
  {
    DigitsValueOfNatToString(n);
    var s := NatToString(n);
    assert s[0] != '-' && s[0] != '+' by { assert IsDigit(s[0]); }
    assert ("+" + s)[1..] == s;
    assert ("-" + s)[1..] == s;
  }

  /** A character that is neither a digit nor a leading sign makes the parse fail. */
  lemma ParseIntRejectsStray(s: string, i: int)
    requires 0 <= i < |s| && !IsDigit(s[i])
    requires i > 0 || (s[0] != '-' && s[0] != '+')
    ensures ParseInt(s) == None
  {
    var signed := |s| > 0 && (s[0] == '-' || s[0] == '+');
    if signed {
      assert s[1..][i - 1] == s[i];
    }
  }
}
