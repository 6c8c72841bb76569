/**
 * JavaScript number values and loosely typed JSON fields.
 * Finite numbers are exact reals: floating-point rounding is not modelled.
 */
module Js {

  /** A JavaScript `number`. */
  datatype JsNumber = Finite(value: real) | NaN | PosInf | NegInf {
    /** `Number.isFinite(n)` for a value known to be a number. */
    predicate IsFinite() { Finite? }
  }

  /**
   * A field read from a parsed JSON object: a number, a string, or absent
   * (`undefined` or `null`, both of which `??` replaces).
   */
  datatype Field = Number(num: JsNumber) | Text(text: string) | Missing

  /** `Number(s)` for a string `s`: the conversion is not modelled and is given as a parameter. */
  type StringToNumber = string -> JsNumber

  /** `Number.isFinite(v)`, which does not coerce: a string is never finite. */
  predicate IsFiniteNumber(v: Field) {
    v.Number? && v.num.Finite?
  }

  /** `v ?? 0`. */
  function OrZero(v: Field): (r: Field)
    ensures !r.Missing?
    ensures !v.Missing? ==> r == v
    ensures v.Missing? ==> r == Number(Finite(0.0))
  {
    if v.Missing? then Number(Finite(0.0)) else v
  }

  /** `Math.round(x)`: the nearest integer, halves rounded up (towards +Infinity). */
  function Round(x: real): (r: int)
    ensures (r as real) - 0.5 <= x < (r as real) + 0.5
  {
    (x + 0.5).Floor
  }

  lemma {:induction false} RoundOfInteger(n: int)
    ensures Round(n as real) == n
  {
    var r := Round(n as real);
    assert (r as real) - 0.5 <= n as real < (r as real) + 0.5;
  }

  /** IEEE addition on the number line extended with the infinities and NaN (exact on finite values). */
  function Add(a: JsNumber, b: JsNumber): (r: JsNumber)
    ensures r.Finite? <==> a.Finite? && b.Finite?
    ensures r.Finite? ==> r.value == a.value + b.value
    ensures a.NaN? || b.NaN? ==> r.NaN?
  {
    match (a, b)
    case (Finite(x), Finite(y)) => Finite(x + y)
    case (NaN, _) => NaN
    case (_, NaN) => NaN
    case (PosInf, NegInf) => NaN
    case (NegInf, PosInf) => NaN
    case (PosInf, _) => PosInf
    case (_, PosInf) => PosInf
    case (NegInf, _) => NegInf
    case (_, NegInf) => NegInf
  }

  /** Unary minus. */
  function Neg(a: JsNumber): (r: JsNumber)
    ensures r.Finite? <==> a.Finite?
    ensures r.Finite? ==> r.value == -a.value
    ensures r.NaN? <==> a.NaN?
  {
    match a
    case Finite(x) => Finite(-x)
    case NaN => NaN
    case PosInf => NegInf
    case NegInf => PosInf
  }

  /** IEEE subtraction `a - b`: `Infinity - Infinity` is NaN. */
  function Sub(a: JsNumber, b: JsNumber): JsNumber {
    Add(a, Neg(b))
  }

  /** `a > b` between a number and a finite bound; false whenever `a` is NaN. */
  predicate GreaterThan(a: JsNumber, b: real) {
    match a
    case Finite(x) => x > b
    case PosInf => true
    case NegInf => false
    case NaN => false
  }
}
