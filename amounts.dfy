/**
 * The values the screens keep in numeric fields (stock quantities, prices, counts) and the
 * JavaScript coercions the validators and sale arithmetic apply to them. The store holds
 * untyped JSON and the forms hold the text of their inputs, so a numeric field is either not
 * a number at all (`undefined`, `NaN`, a text that does not read as a number), the empty
 * text of a cleared input, or a number. Numbers are ideal reals: floating-point rounding is
 * not modelled.
 */
module Amounts {
  import Text

  datatype Amount = NaN | Empty | Num(x: real)

  /** `Number(a)`: the empty text reads as 0. */
  function ToNumber(a: Amount): (r: real)
    requires !a.NaN?
  {
    match a
    case Empty => 0.0
    case Num(x) => x
  }

  /** `isNaN(a)`: only the empty text and numbers read as numbers. */
  predicate IsNaN(a: Amount) { a.NaN? }

  /** `a < y` for a number `y`: false whenever `a` is not a number. */
  predicate Below(a: Amount, y: real) { !a.NaN? && ToNumber(a) < y }

  /** `a <= y` for a number `y`. */
  predicate AtMost(a: Amount, y: real) { !a.NaN? && ToNumber(a) <= y }

  /** `a > y` for a number `y`. */
  predicate Above(a: Amount, y: real) { !a.NaN? && ToNumber(a) > y }

  /** `a - y`: not-a-number stays so, the empty text reads as 0. */
  function Minus(a: Amount, y: real): (r: Amount)
    ensures a.NaN? <==> r.NaN?
    ensures !a.NaN? ==> r == Num(ToNumber(a) - y)
  {
    match a
    case NaN => NaN
    case Empty => Num(-y)
    case Num(x) => Num(x - y)
  }

  /** `a + y`: on the empty text JavaScript concatenates, giving the text of `y`, which
      reads as `y`; the text/number distinction is dropped. */
  function Plus(a: Amount, y: real): (r: Amount)
    ensures a.NaN? <==> r.NaN?
    ensures !a.NaN? ==> r == Num(ToNumber(a) + y)
  {
    match a
    case NaN => NaN
    case Empty => Num(y)
    case Num(x) => Num(x + y)
  }

  /** Truthiness of the text of a form field: every non-empty text is truthy, "0" included. */
  predicate Truthy(a: Amount) { a.Num? }

  /** `parseInt(text)` of a form field: the empty text and non-numbers give NaN, a number
      is truncated toward zero. */
  function ParseInt(a: Amount): (r: Amount)
    ensures r.NaN? <==> !a.Num?
    ensures a.Num? && a.x >= 0.0 ==> r.Num? && r.x <= a.x < r.x + 1.0
    ensures r.Num? ==> r.x.Floor as real == r.x
  {
    match a
    case Num(x) =>
      var n: int := if x >= 0.0 then x.Floor else -((-x).Floor);
      Num(n as real)
    case _ => NaN
  }

  /** `parseFloat(text)` of a form field: the empty text gives NaN, a number itself. */
  function ParseFloat(a: Amount): (r: Amount)
    ensures r.NaN? <==> !a.Num?
    ensures a.Num? ==> r == a
  {
    if a.Num? then a else NaN
  }

  /**
   * `Number(t)` for the texts the screens' price filters let through: the empty text stays
   * the empty text; leading digits, optionally followed by '.' and more digits, with at least
   * one digit in all, read as that decimal number; anything else, "." alone or a ',' or '|'
   * separator among them, is not a number.
   */
  function ReadDecimal(t: string): (r: Amount)
    ensures r.Empty? <==> t == ""
    ensures Text.AllDigits(t) && t != "" ==> r == Num(Text.DigitsValue(t) as real)
    ensures r.Num? ==> r.x >= 0.0
  {
    var n := Text.DigitRun(t);
    if t == "" then Empty
    else if n == |t| then Num(Text.DigitsValue(t) as real)
    else if t[n] == '.' && Text.AllDigits(t[n + 1..]) && (n > 0 || n + 1 < |t|) then
      Num(Text.DigitsValue(t[..n]) as real + Text.FractionValue(t[n + 1..]))
    else NaN
  }

  /** A filtered price text never reads as a negative number. */
  lemma ReadDecimalNeverNegative(t: string)
    ensures !Below(ReadDecimal(t), 0.0)
  {
  }
}
