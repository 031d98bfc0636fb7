/** Python's `int(s)` on text, restricted to ASCII decimal literals: an
    optional `+` or `-` sign followed by one or more digits `0`-`9`
    (leading zeros allowed). */
module PyInt {
  import opened Wrappers

  predicate IsDigit(c: char)
  {
    '0' <= c <= '9'
  }

  /** A non-empty run of ASCII digits. */
  predicate IsDigits(s: string)
  {
    |s| >= 1 && forall k :: 0 <= k < |s| ==> IsDigit(s[k])
  }

  predicate IsSign(c: char)
  {
    c == '+' || c == '-'
  }

  /** The text `int()` accepts in this model. */
  predicate IsIntLiteral(s: string)
  {
    IsDigits(s) || (|s| >= 2 && IsSign(s[0]) && IsDigits(s[1..]))
  }

  /** The value of a digit string, most significant digit first. */
  function DigitsValue(s: string): nat
    requires forall k :: 0 <= k < |s| ==> IsDigit(s[k])
    decreases |s|
  {
    if |s| == 0 then 0
    else
      assert IsDigit(s[|s| - 1]);
      DigitsValue(s[..|s| - 1]) * 10 + (s[|s| - 1] as int - '0' as int)
  }

  /** `int(s)`: `None` where Python raises `ValueError`. */
  function ParseInt(s: string): (r: Option<int>)
    ensures r.Some? <==> IsIntLiteral(s)
    ensures r.Some? && IsDigits(s) ==> r.value >= 0
    ensures r.Some? && s[0] == '-' ==> r.value <= 0
  {
    if IsDigits(s) then Some(DigitsValue(s))
    else if |s| >= 2 && IsSign(s[0]) && IsDigits(s[1..]) then
      var magnitude: int := DigitsValue(s[1..]);
      Some(if s[0] == '-' then -magnitude else magnitude)
    else None
  }

  function DigitChar(d: nat): (c: char)
    requires d < 10
    ensures IsDigit(c) && c as int - '0' as int == d
  {
    ('0' as int + d) as char
  }

  /** Decimal text of a natural number, without leading zeros. */
  function FormatNat(n: nat): (s: string)
    ensures IsDigits(s)
    ensures DigitsValue(s) == n
    ensures s[0] == '0' ==> n == 0
  {
    if n < 10 then [DigitChar(n)]
    else
      var s := FormatNat(n / 10) + [DigitChar(n % 10)];
      assert s[..|s| - 1] == FormatNat(n / 10);
      s
  }

  /** Python's `str(n)` for an integer. */
  function FormatInt(n: int): (s: string)
    ensures IsIntLiteral(s)
    ensures n < 0 <==> s[0] == '-'
  {
    if n < 0 then "-" + FormatNat(-n) else FormatNat(n)
  }

  /** `int(str(n)) == n` for every integer `n`. */
  lemma ParseFormat(n: int)
    ensures ParseInt(FormatInt(n)) == Some(n)
  {
    if n < 0 {
      var s := FormatInt(n);
      assert s[1..] == FormatNat(-n);
    }
  }

  /** A leading `0` adds nothing to the value of a digit string. */
  lemma {:induction false} DigitsValueLeadingZero(d: string)
    requires forall k :: 0 <= k < |d| ==> IsDigit(d[k])
    ensures DigitsValue("0" + d) == DigitsValue(d)
    decreases |d|
  {
    if |d| > 0 {
      var s := "0" + d;
      assert s[..|s| - 1] == "0" + d[..|d| - 1];
      assert s[|s| - 1] == d[|d| - 1];
      DigitsValueLeadingZero(d[..|d| - 1]);
    }
  }

  /** Leading zeros do not change the value: `int('007') == int('7')`. */
  lemma ParseLeadingZero(d: string)
    requires IsDigits(d)
    ensures ParseInt("0" + d) == ParseInt(d)
  {
    DigitsValueLeadingZero(d);
    assert IsDigits("0" + d) by {
      assert forall k :: 1 <= k < |"0" + d| ==> ("0" + d)[k] == d[k - 1];
    }
  }

  /** A `+` sign does not change the value: `int('+5') == int('5')`. */
  lemma ParsePlus(d: string)
    requires IsDigits(d)
    ensures ParseInt("+" + d) == ParseInt(d)
  {
    assert ("+" + d)[1..] == d;
    assert !IsDigit(("+" + d)[0]);
  }

  /** A `-` sign negates the value: `int('-5') == -int('5')`. */
  lemma ParseMinus(d: string)
    requires IsDigits(d)
    ensures ParseInt("-" + d) == Some(-ParseInt(d).value)
  {
    assert ("-" + d)[1..] == d;
    assert !IsDigit(("-" + d)[0]);
  }
}
