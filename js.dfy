/**
 * JavaScript numbers as the screens produce them from text: a `parseInt` result is
 * either an integer or `NaN`, and arithmetic on `NaN` stays `NaN`.
 */
module Js {
  import opened Text

  datatype Number = Num(v: int) | NaN {

    /** Truthiness of a number: `0` and `NaN` are falsy. */
    predicate Truthy()
    {
      Num? && v != 0
    }
  }

  /** `a + b`. */
  function Plus(a: Number, b: Number): Number
  {
    if a.Num? && b.Num? then Num(a.v + b.v) else NaN
  }

  /** `a * b`. */
  function Times(a: Number, b: Number): Number
  {
    if a.Num? && b.Num? then Num(a.v * b.v) else NaN
  }

  /** The number of decimal digits at the start of `s`. */
  function LeadingDigits(s: string): (n: nat)
    ensures n <= |s|
    ensures forall k :: 0 <= k < n ==> IsDigit(s[k])
    ensures n == |s| || !IsDigit(s[n])
  {
    if s != [] && IsDigit(s[0]) then 1 + LeadingDigits(s[1..]) else 0
  }

  /** The value of a string of decimal digits, most significant first. */
  function DigitsValue(s: string): nat
    requires forall k :: 0 <= k < |s| ==> IsDigit(s[k])
  {
    if s == [] then 0
    else
      assert IsDigit(s[|s| - 1]);
      10 * DigitsValue(s[..|s| - 1]) + (s[|s| - 1] as int - '0' as int) as nat
  }

  /**
   * `parseInt(s)` with no radix: leading white space is skipped, one optional sign
   * is read, then the longest run of decimal digits; no digits gives `NaN`.
   */
  function ParseInt(s: string): Number
  {
    var t := TrimStart(s);
    var negative := |t| > 0 && t[0] == '-';
    var u := if |t| > 0 && (t[0] == '-' || t[0] == '+') then t[1..] else t;
    var n := LeadingDigits(u);
    if n == 0 then NaN
    else if negative then Num(-(DigitsValue(u[..n]) as int))
    else Num(DigitsValue(u[..n]))
  }

  /** Reading back the decimal digits of `n` gives `n`. */
  lemma {:induction false} DigitsValueOfNatToString(n: nat)
    ensures DigitsValue(NatToString(n)) == n
  {
    if n >= 10 {
      var s := NatToString(n);
      assert s[..|s| - 1] == NatToString(n / 10);
      DigitsValueOfNatToString(n / 10);
    }
  }

  /** `parseInt(String(i)) == i` for every integer `i`. */
  lemma ParseIntOfIntToString(i: int)
    ensures ParseInt(IntToString(i)) == Num(i)
  {
    var d := NatToString(if i < 0 then -i else i);
    DigitsValueOfNatToString(if i < 0 then -i else i);
    var s := IntToString(i);
    assert !IsSpace(s[0]);
    assert TrimStart(s) == s;
    var u := if i < 0 then s[1..] else s;
    assert u == d;
    assert LeadingDigits(u) == |d|;
    assert u[..|d|] == d;
  }

  /** Text with no digit after the optional sign reads as `NaN`; in particular the empty field. */
  lemma ParseIntEmpty()
    ensures ParseInt("") == NaN
    ensures ParseInt("abc") == NaN
  {
    assert LeadingSpaces("abc") == 0;
    assert LeadingDigits("abc") == 0;
  }
}
