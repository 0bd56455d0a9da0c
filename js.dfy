/**
 * The few JavaScript value semantics the editor code relies on: `Number(...)`
 * conversion of attribute text, NaN-propagating arithmetic, truthiness used by
 * `x || default`, and the loosely typed values read and written through the
 * property pane and element attributes.
 */
module Js {
  import opened Wrappers

  /** A JavaScript number as this code meets it: a finite value, or NaN. */
  datatype Number = Finite(value: real) | NaN {
    /** Truthiness (`if (n)`, `n || d`): neither 0 nor NaN. */
    predicate Truthy() {
      Finite? && value != 0.0
    }
  }

  /** A JavaScript value stored in an attribute or shown in the property pane. */
  datatype Value = VNull | VStr(s: string) | VNum(n: Number) | VBool(b: bool) {
    /** Truthiness as `v || d` tests it: not null, not "", not 0 or NaN, not false. */
    predicate Truthy() {
      match this
      case VNull => false
      case VStr(t) => t != ""
      case VNum(n) => n.Truthy()
      case VBool(b) => b
    }
  }

  /**
   * `String(v)`: the text an element attribute holds once `v` is written into
   * it. `numberText` is `String` on numbers, which this model does not define.
   */
  function ToText(v: Value, numberText: Number -> string): string {
    match v
    case VNull => "null"
    case VStr(t) => t
    case VNum(n) => numberText(n)
    case VBool(b) => if b then "true" else "false"
  }

  /** `a + b` */
  function Add(a: Number, b: Number): Number {
    if a.Finite? && b.Finite? then Finite(a.value + b.value) else NaN
  }

  /** `a - b` */
  function Sub(a: Number, b: Number): Number {
    if a.Finite? && b.Finite? then Finite(a.value - b.value) else NaN
  }

  /** `-a` */
  function Neg(a: Number): Number {
    if a.Finite? then Finite(-a.value) else NaN
  }

  /** `a / 2` */
  function Half(a: Number): Number {
    if a.Finite? then Finite(a.value / 2.0) else NaN
  }

  /** `n || 0`: a falsy number (0 or NaN) becomes 0. */
  function OrZero(n: Number): (r: Number)
    ensures r.Finite?
    ensures n.Finite? ==> r == n
    ensures n.NaN? ==> r == Finite(0.0)
  {
    if n.Truthy() then n else Finite(0.0)
  }

  predicate IsDigit(c: char) {
    '0' <= c <= '9'
  }

  predicate AllDigits(s: string) {
    forall i :: 0 <= i < |s| ==> IsDigit(s[i])
  }

  function DigitValue(c: char): nat
    requires IsDigit(c)
  {
    (c as int) - ('0' as int)
  }

  /** The value of a string of decimal digits, read left to right. */
  function DigitsValue(s: string): nat
    requires AllDigits(s)
    decreases |s|
  {
    if s == [] then 0 else 10 * DigitsValue(s[..|s| - 1]) + DigitValue(s[|s| - 1])
  }

  /** The value of the digits after a decimal point: `d rest` is (d + value of rest) / 10. */
  function FractionValue(s: string): real
    requires AllDigits(s)
    decreases |s|
  {
    if s == [] then 0.0 else (DigitValue(s[0]) as real + FractionValue(s[1..])) / 10.0
  }

  /** The white space `Number(...)` ignores around its argument (ASCII part only). */
  predicate IsWhiteSpace(c: char) {
    c == ' ' || c == '\t' || c == '\n' || c == '\r'
  }

  function TrimStart(s: string): string
    decreases |s|
  {
    if s != [] && IsWhiteSpace(s[0]) then TrimStart(s[1..]) else s
  }

  function TrimEnd(s: string): string
    decreases |s|
  {
    if s != [] && IsWhiteSpace(s[|s| - 1]) then TrimEnd(s[..|s| - 1]) else s
  }

  /** Index of the first `c` in `s`, or `|s|` when there is none. */
  function IndexOf(s: string, c: char): (k: nat)
    ensures k <= |s|
    ensures k < |s| ==> s[k] == c
    ensures forall j :: 0 <= j < k ==> s[j] != c
    decreases |s|
  {
    if s == [] then 0 else if s[0] == c then 0 else 1 + IndexOf(s[1..], c)
  }

  /** `digits[.digits]` with at least one digit on some side of the point. */
  function UnsignedDecimal(s: string): Number {
    var k := IndexOf(s, '.');
    var whole := s[..k];
    var fraction := if k < |s| then s[k + 1..] else "";
    if (whole == "" && fraction == "") || !AllDigits(whole) || !AllDigits(fraction) then NaN
    else Finite(DigitsValue(whole) as real + FractionValue(fraction))
  }

  /** A decimal literal with an optional sign. */
  function SignedDecimal(s: string): Number {
    if s != [] && s[0] == '-' then Neg(UnsignedDecimal(s[1..]))
    else if s != [] && s[0] == '+' then UnsignedDecimal(s[1..])
    else UnsignedDecimal(s)
  }

  /** `Number(s)` for a string: blank text is 0, a decimal literal its value, anything else NaN. */
  function StringToNumber(s: string): Number {
    var t := TrimEnd(TrimStart(s));
    if t == "" then Finite(0.0) else SignedDecimal(t)
  }

  /** `Number(element.getAttribute(name))`: a missing attribute (`null`) converts to 0. */
  function NumberOf(attribute: Option<string>): Number {
    match attribute
    case None => Finite(0.0)
    case Some(s) => StringToNumber(s)
  }

  function DigitChar(d: nat): char
    requires d < 10
  {
    ('0' as int + d) as char
  }

  /** The decimal text of a natural number, as `String(n)` writes it. */
  function NatToString(n: nat): string
    decreases n
  {
    if n < 10 then [DigitChar(n)] else NatToString(n / 10) + [DigitChar(n % 10)]
  }

  /** The decimal text of an integer, as `String(i)` writes it. */
  function IntToString(i: int): string {
    if i < 0 then "-" + NatToString(-i) else NatToString(i)
  }

  lemma {:induction false} NatToStringDigits(n: nat)
    ensures NatToString(n) != []
    ensures AllDigits(NatToString(n))
    ensures DigitsValue(NatToString(n)) == n
    decreases n
  {
    if n >= 10 {
      NatToStringDigits(n / 10);
      var s := NatToString(n);
      assert s[..|s| - 1] == NatToString(n / 10);
    }
  }

  lemma AllDigitsUntrimmed(s: string)
    requires AllDigits(s)
    ensures TrimStart(s) == s && TrimEnd(s) == s
  {
  }

  lemma AllDigitsNoPoint(s: string)
    requires AllDigits(s)
    ensures IndexOf(s, '.') == |s|
  {
  }

  /** The decimal text of a natural number reads back as an unsigned decimal. */
  lemma NatToStringUnsigned(n: nat)
    ensures UnsignedDecimal(NatToString(n)) == Finite(n as real)
  {
    var digits := NatToString(n);
    NatToStringDigits(n);
    AllDigitsNoPoint(digits);
    assert digits[..IndexOf(digits, '.')] == digits;
    assert FractionValue("") == 0.0;
  }

  /** The text of a negative integer has no surrounding whitespace. */
  lemma NegativeUntrimmed(n: nat)
    ensures TrimStart("-" + NatToString(n)) == "-" + NatToString(n)
    ensures TrimEnd("-" + NatToString(n)) == "-" + NatToString(n)
  {
    var digits := NatToString(n);
    NatToStringDigits(n);
    var s := "-" + digits;
    assert s[|s| - 1] == digits[|digits| - 1];
  }

  /** `Number(String(i)) == i`: the conversion reads back every integer's decimal text. */
  lemma IntToStringRoundTrip(i: int)
    ensures StringToNumber(IntToString(i)) == Finite(i as real)
  {
    var n: nat := if i < 0 then -i else i;
    var digits := NatToString(n);
    NatToStringDigits(n);
    AllDigitsUntrimmed(digits);
    NatToStringUnsigned(n);
    if i < 0 {
      var s := IntToString(i);
      assert s[1..] == digits;
      NegativeUntrimmed(n);
    }
  }
}
