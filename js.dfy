/**
 * JavaScript number values as the carousel sees them, the `||` and `*`
 * operators on them, and the text a template literal such as `${n}px`
 * makes of them.
 */
module Js {
  import opened Wrappers

  /**
   * A JavaScript number: an integer, `undefined` (a prop or a key that is
   * not set) or `NaN` (what arithmetic on `undefined` gives).
   * Fractional numbers are not modelled.
   */
  datatype Num = Undefined | NaN | Int(value: int)

  /** JavaScript truthiness of a number: `undefined`, `NaN` and `0` are falsy. */
  predicate Truthy(n: Num)
    ensures Truthy(n) <==> !(n == Undefined || n == NaN || n == Int(0))
  {
    n.Int? && n.value != 0
  }

  /** `a || b`: the first operand when it is truthy, otherwise the second. */
  function Or(a: Num, b: Num): (r: Num)
    ensures r == a || r == b
    ensures Truthy(r) <==> Truthy(a) || Truthy(b)
    ensures Truthy(a) ==> r == a
    ensures !Truthy(a) ==> r == b
  {
    if Truthy(a) then a else b
  }

  /** `a * n` for an integer `n`: `undefined` and `NaN` both give `NaN`. */
  function Times(a: Num, n: int): (r: Num)
    ensures r.Int? <==> a.Int?
    ensures a.Int? ==> r.value == a.value * n
    ensures !a.Int? ==> r == NaN
  {
    match a
    case Int(v) => Int(v * n)
    case _ => NaN
  }

  predicate IsDigit(c: char) {
    '0' <= c <= '9'
  }

  predicate AllDigits(s: string) {
    forall i :: 0 <= i < |s| ==> IsDigit(s[i])
  }

  function Digit(d: nat): (c: char)
    requires d < 10
    ensures IsDigit(c) && c as int - '0' as int == d
  {
    ('0' as int + d) as char
  }

  function DigitValue(c: char): nat
    requires IsDigit(c)
  {
    c as int - '0' as int
  }

  /** The decimal digits of `n`, most significant first, without leading zeros. */
  function NatToString(n: nat): (s: string)
    ensures 1 <= |s| && AllDigits(s)
    ensures n > 0 ==> s[0] != '0'
    ensures n == 0 ==> s == "0"
    decreases n
  {
    if n < 10 then [Digit(n)] else NatToString(n / 10) + [Digit(n % 10)]
  }

  /** The value of a string of decimal digits, most significant first. */
  function DigitsValue(s: string): nat
    requires AllDigits(s)
  {
    if s == [] then 0 else 10 * DigitsValue(s[..|s| - 1]) + DigitValue(s[|s| - 1])
  }

  /**
   * How JavaScript prints an integer below 10^21 in magnitude: a minus sign
   * for negative values, then the decimal digits. Larger magnitudes are
   * printed in exponent form, which this model does not cover.
   */
  function IntToString(v: int): string {
    if v < 0 then "-" + NatToString(-v) else NatToString(v)
  }

  /**
   * What `${n}` in a template literal produces: the words `undefined` and
   * `NaN`, or the integer's decimal text, which reads back as the integer.
   */
  function Show(n: Num): (r: string)
    ensures n == Undefined ==> r == "undefined"
    ensures n == NaN ==> r == "NaN"
    ensures n.Int? ==> ReadInt(r) == Some(n.value)
    ensures n.Int? && n.value == 0 ==> r == "0"
    ensures n.Int? && n.value > 0 ==> 1 <= |r| && AllDigits(r) && r[0] != '0'
    ensures n.Int? && n.value < 0 ==> 2 <= |r| && r[0] == '-' && AllDigits(r[1..]) && r[1] != '0'
  {
    match n
    case Undefined => "undefined"
    case NaN => "NaN"
    case Int(v) => ReadIntToString(v); IntToString(v)
  }

  /** Reads an integer in the form IntToString produces. */
  function ReadInt(s: string): Option<int> {
    if |s| > 1 && s[0] == '-' && AllDigits(s[1..]) then Some(-(DigitsValue(s[1..]) as int))
    else if |s| > 0 && AllDigits(s) then Some(DigitsValue(s))
    else None
  }

  /** Reads an integer followed by a unit such as `px` or `ms`. */
  function ReadWithUnit(s: string, unit: string): Option<int> {
    if |unit| <= |s| && s[|s| - |unit|..] == unit then ReadInt(s[..|s| - |unit|]) else None
  }

  lemma {:induction false} DigitsOfNat(n: nat)
    ensures DigitsValue(NatToString(n)) == n
    decreases n
  {
    var s := NatToString(n);
    if n >= 10 {
      DigitsOfNat(n / 10);
      assert s[..|s| - 1] == NatToString(n / 10);
    }
  }

  /** Printing an integer loses nothing: reading the text back gives the integer. */
  lemma ReadIntToString(v: int)
    ensures ReadInt(IntToString(v)) == Some(v)
  {
    var s := IntToString(v);
    if v < 0 {
      assert s[1..] == NatToString(-v);
      DigitsOfNat(-v);
    } else {
      DigitsOfNat(v);
    }
  }

  /** An integer printed with a unit after it reads back as that integer. */
  lemma ReadShownWithUnit(v: int, unit: string)
    ensures ReadWithUnit(Show(Int(v)) + unit, unit) == Some(v)
  {
    var s := Show(Int(v)) + unit;
    assert s[|s| - |unit|..] == unit;
    assert s[..|s| - |unit|] == IntToString(v);
    ReadIntToString(v);
  }
}
