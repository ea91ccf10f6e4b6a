/** Small value types shared by the whole model. */
module Basics {

  datatype Option<T> = None | Some(value: T)

  /** A JavaScript number as the source's unguarded divisions can produce it. */
  datatype JsNumber = Finite(value: real) | NaN | PosInfinity | NegInfinity

  /** IEEE division as JavaScript performs it on finite operands. */
  function JsDivide(a: real, b: real): (r: JsNumber)
    ensures b != 0.0 ==> r == Finite(a / b)
    ensures b == 0.0 ==> !r.Finite?
    ensures b == 0.0 && a == 0.0 ==> r == NaN
  {
    if b != 0.0 then Finite(a / b)
    else if a > 0.0 then PosInfinity
    else if a < 0.0 then NegInfinity
    else NaN
  }

  /** Multiplication of a JavaScript number by a positive finite constant. */
  function JsScale(x: JsNumber, k: real): JsNumber
    requires k > 0.0
  {
    match x
    case Finite(v) => Finite(v * k)
    case _ => x
  }

  /** `x > t` on JavaScript numbers: NaN compares false, the infinities compare as expected. */
  predicate JsGreater(x: JsNumber, t: real) {
    match x
    case Finite(v) => v > t
    case PosInfinity => true
    case _ => false
  }

  function Max(a: int, b: int): int { if a >= b then a else b }

  function MinInt(a: int, b: int): int { if a <= b then a else b }

  function MaxReal(a: real, b: real): real { if a >= b then a else b }

  function MinReal(a: real, b: real): real { if a <= b then a else b }

  /** JavaScript truthiness of an optional string: absent and '' are both false. */
  predicate Truthy(s: Option<string>) {
    s.Some? && s.value != ""
  }

  /** JavaScript truthiness of an optional timestamp: null and 0 are both false. */
  predicate TruthyTime(t: Option<int>) {
    t.Some? && t.value != 0
  }

  /** Appending one element after a concatenation is the same as appending it to the second part. */
  lemma AppendAssoc<T>(a: seq<T>, b: seq<T>, x: T)
    ensures (a + b) + [x] == a + (b + [x])
  {
  }
}
