/**
 * The part of PHP's value semantics that the session storage relies on:
 * the kinds of value a session entry can hold, `isset`, conversion to
 * boolean, and the loose comparison `==` / `!=` between two strings.
 */
module Php {

  /** A PHP value, restricted to the kinds the session storage inspects. */
  datatype Value =
    | Null
    | Bool(b: bool)
    | Int(i: int)
    | Str(s: string)
    | Arr(elems: map<string, Value>)
    | Obj  // any object instance; only its truthiness matters here

  /** `isset` of an existing entry: true for every value but `null`. */
  predicate IsSetValue(v: Value)
  {
    !v.Null?
  }

  /** PHP's conversion of a value to boolean; `null` is falsy. */
  predicate Truthy(v: Value)
    ensures Truthy(v) ==> IsSetValue(v)
    ensures v == Bool(true) ==> Truthy(v)
  {
    match v
    case Null => false
    case Bool(b) => b
    case Int(i) => i != 0
    case Str(s) => s != "" && s != "0"
    case Arr(elems) => elems != map[]
    case Obj => true
  }

  predicate IsDigit(c: char)
  {
    '0' <= c <= '9'
  }

  predicate AllDigits(s: string)
  {
    forall i :: 0 <= i < |s| ==> IsDigit(s[i])
  }

  /**
   * An integer numeric string: an optional sign followed by at least one
   * decimal digit, and nothing else.
   */
  predicate IsIntegerString(s: string)
  {
    if |s| > 0 && (s[0] == '+' || s[0] == '-') then |s| > 1 && AllDigits(s[1..])
    else |s| > 0 && AllDigits(s)
  }

  /** The value of a string of decimal digits, read from left to right. */
  function DigitsValue(s: string): nat
    requires AllDigits(s)
  {
    if s == [] then 0
    else DigitsValue(s[..|s| - 1]) * 10 + (s[|s| - 1] as int - '0' as int)
  }

  function IntegerValue(s: string): int
    requires IsIntegerString(s)
  {
    if s[0] == '-' then -(DigitsValue(s[1..]) as int)
    else if s[0] == '+' then DigitsValue(s[1..])
    else DigitsValue(s)
  }

  /**
   * PHP's loose `==` between two strings: two numeric strings compare as
   * numbers, any other pair compares byte by byte.
   */
  function LooseEqualStrings(a: string, b: string): (r: bool)
    ensures a == b ==> r
    ensures r && a != b ==> IsIntegerString(a) && IsIntegerString(b)
  {
    if IsIntegerString(a) && IsIntegerString(b) then IntegerValue(a) == IntegerValue(b)
    else a == b
  }

  /** The string of `k` zero digits. */
  function Zeros(k: nat): (z: string)
    ensures |z| == k
  {
    if k == 0 then "" else Zeros(k - 1) + "0"
  }

  lemma {:induction false} ZerosValue(k: nat)
    ensures AllDigits(Zeros(k)) && DigitsValue(Zeros(k)) == 0
  {
    if k > 0 {
      ZerosValue(k - 1);
      assert Zeros(k)[..k - 1] == Zeros(k - 1);
    }
  }

  /** Leading zeros do not change the value of a digit string. */
  lemma {:induction false} LeadingZerosKeepValue(k: nat, d: string)
    requires AllDigits(d)
    ensures AllDigits(Zeros(k) + d) && DigitsValue(Zeros(k) + d) == DigitsValue(d)
    decreases |d|
  {
    ZerosValue(k);
    var z := Zeros(k) + d;
    assert AllDigits(z) by {
      forall i | 0 <= i < |z| ensures IsDigit(z[i]) {
        if i < k { assert z[i] == Zeros(k)[i]; } else { assert z[i] == d[i - k]; }
      }
    }
    if d == [] {
      assert z == Zeros(k);
    } else {
      var init := d[..|d| - 1];
      LeadingZerosKeepValue(k, init);
      assert z[..|z| - 1] == Zeros(k) + init;
    }
  }

  /**
   * Two spellings of one number are loosely equal: a digit string and the
   * same digits behind one or more zeros. Stated for at most 18 digits,
   * which always stay below `PHP_INT_MAX`; beyond it PHP compares such
   * strings as floats, which this model does not cover.
   */
  lemma LeadingZerosLooselyEqual(k: nat, d: string)
    requires 0 < |d| <= 18 && AllDigits(d)
    ensures Zeros(k) + d != d <==> k > 0
    ensures LooseEqualStrings(Zeros(k) + d, d)
  {
    LeadingZerosKeepValue(k, d);
    var z := Zeros(k) + d;
    assert IsDigit(d[0]);
    assert IsDigit(z[0]) by { assert z[0] == if k > 0 then Zeros(k)[0] else d[0]; }
    if k > 0 {
      assert |z| != |d|;
    }
  }
}
