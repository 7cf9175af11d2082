/** Python's `int()` applied to a timestamp token taken from a trace line. */
module Decimal {
  import opened Wrappers

  predicate IsDigit(c: char) {
    '0' <= c <= '9'
  }

  predicate IsSign(c: char) {
    c == '+' || c == '-'
  }

  predicate AllDigits(s: string) {
    forall i :: 0 <= i < |s| ==> IsDigit(s[i])
  }

  function DigitValue(c: char): (d: nat)
    requires IsDigit(c)
    ensures d < 10
  {
    c as int - '0' as int
  }

  function DigitChar(d: nat): (c: char)
    requires d < 10
    ensures IsDigit(c) && DigitValue(c) == d
  {
    ('0' as int + d) as char
  }

  /** The value of a non-empty string of decimal digits, most significant first; None if it is empty or holds another character. */
  function DigitsValue(s: string): (r: Option<nat>)
    decreases |s|
  {
    if s == [] || !IsDigit(s[|s| - 1]) then None
    else if |s| == 1 then Some(DigitValue(s[0]))
    else
      match DigitsValue(s[..|s| - 1])
      case None => None
      case Some(v) => Some(v * 10 + DigitValue(s[|s| - 1]))
  }

  /** The decimal spelling of a natural number, without sign or leading zeros. */
  function NatToDigits(n: nat): (s: string)
    ensures |s| > 0 && AllDigits(s)
    ensures n > 0 ==> s[0] != '0'
  {
    if n < 10 then [DigitChar(n)] else NatToDigits(n / 10) + [DigitChar(n % 10)]
  }

  /**
   * `int(s)` for a token without whitespace: an optional sign followed by at
   * least one ASCII digit; anything else is the source's ValueError (None).
   */
  function ParseInt(s: string): Option<int> {
    if s != [] && IsSign(s[0]) then
      match DigitsValue(s[1..])
      case None => None
      case Some(v) => Some(if s[0] == '-' then -(v as int) else v as int)
    else
      match DigitsValue(s)
      case None => None
      case Some(v) => Some(v as int)
  }

  /** DigitsValue accepts exactly the non-empty strings of digits. */
  lemma {:induction false} DigitsValueAccepts(s: string)
    ensures DigitsValue(s).Some? <==> s != [] && AllDigits(s)
    decreases |s|
  {
    if |s| > 1 {
      DigitsValueAccepts(s[..|s| - 1]);
      if AllDigits(s) {
        assert AllDigits(s[..|s| - 1]);
      }
    }
  }

  /**
   * `int()` accepts a token exactly when it is an optional sign followed by
   * digits; a leading '-' gives a value at most zero, otherwise at least zero.
   */
  lemma ParseIntAccepts(s: string)
    ensures ParseInt(s).Some? <==>
      (|s| > 0 && !(|s| == 1 && IsSign(s[0])) &&
       forall i :: 0 <= i < |s| ==> IsDigit(s[i]) || (i == 0 && IsSign(s[i])))
    ensures ParseInt(s).Some? && s[0] == '-' ==> ParseInt(s).value <= 0
    ensures ParseInt(s).Some? && s[0] != '-' ==> ParseInt(s).value >= 0
  {
    if s != [] && IsSign(s[0]) {
      DigitsValueAccepts(s[1..]);
      assert forall i :: 1 <= i < |s| ==> s[i] == s[1..][i - 1];
    } else {
      DigitsValueAccepts(s);
    }
  }

  /** Reading back the spelling of a number gives the number. */
  lemma {:induction false} DigitsRoundTrip(n: nat)
    ensures DigitsValue(NatToDigits(n)) == Some(n)
  {
    if n >= 10 {
      DigitsRoundTrip(n / 10);
      var s := NatToDigits(n);
      assert s[..|s| - 1] == NatToDigits(n / 10);
    }
  }

  /** `int(str(n))` gives back `n`, also with a leading minus sign. */
  lemma ParseIntRoundTrip(n: nat)
    ensures ParseInt(NatToDigits(n)) == Some(n as int)
    ensures ParseInt("-" + NatToDigits(n)) == Some(-(n as int))
  {
    DigitsRoundTrip(n);
    var s := NatToDigits(n);
    assert ("-" + s)[1..] == s;
  }
}
