/** The part of JavaScript number semantics the progress bar relies on.
    A finite double is modelled by an exact `real`; the special values NaN and
    the two infinities are kept, because `x / 0` produces them. */
module JsNumber {

  datatype Num = Finite(v: real) | NaN | PosInf | NegInf

  /** An integer or one of the infinities: the result of ToIntegerOrInfinity. */
  datatype IntOrInf = Int(i: int) | PlusInfinity | MinusInfinity

  /** `a / b` for integer-valued operands. */
  function Divide(a: int, b: int): (r: Num)
    ensures r.Finite? <==> b != 0
    ensures r.Finite? ==> r.v * (b as real) == a as real
    ensures r.NaN? <==> a == 0 && b == 0
    ensures b == 0 && a > 0 ==> r == PosInf
    ensures b == 0 && a < 0 ==> r == NegInf
  {
    if b != 0 then Finite(a as real / b as real)
    else if a > 0 then PosInf
    else if a < 0 then NegInf
    else NaN
  }

  /** `x * k` for an integer constant `k`. */
  function Times(x: Num, k: int): Num
  {
    match x
    case Finite(v) => Finite(v * k as real)
    case NaN => NaN
    case PosInf => if k > 0 then PosInf else if k < 0 then NegInf else NaN
    case NegInf => if k > 0 then NegInf else if k < 0 then PosInf else NaN
  }

  /** `k - x` for an integer constant `k`. */
  function Subtract(k: int, x: Num): Num
  {
    match x
    case Finite(v) => Finite(k as real - v)
    case NaN => NaN
    case PosInf => NegInf
    case NegInf => PosInf
  }

  ghost predicate IsIntegral(v: real) {
    v == v.Floor as real
  }

  /** Rounding down: the greatest integral value not above `x`. */
  function Floor(x: Num): (r: Num)
    ensures x.Finite? ==> r.Finite? && IsIntegral(r.v) && r.v <= x.v < r.v + 1.0
    ensures !x.Finite? ==> r == x
  {
    if x.Finite? then Finite(x.v.Floor as real) else x
  }

  /** Rounding toward zero. */
  function Truncate(v: real): (r: int)
    ensures v >= 0.0 ==> r as real <= v < r as real + 1.0
    ensures v < 0.0 ==> r as real - 1.0 < v <= r as real
  {
    if v >= 0.0 then v.Floor else -((-v).Floor)
  }

  /** ToIntegerOrInfinity: NaN becomes 0, finite values are truncated, and
      the infinities are kept. */
  function ToIntegerOrInfinity(x: Num): (r: IntOrInf)
    ensures x.NaN? ==> r == Int(0)
    ensures x.Finite? ==> r.Int? && (r.i >= 0 <==> x.v > -1.0)
    ensures x.Finite? && x.v >= 0.0 ==> r.Int? && r.i as real <= x.v < r.i as real + 1.0
    ensures x.Finite? && x.v < 0.0 ==> r.Int? && r.i as real - 1.0 < x.v <= r.i as real
    ensures x.Finite? && IsIntegral(x.v) ==> r == Int(x.v.Floor)
    ensures x == PosInf ==> r == PlusInfinity
    ensures x == NegInf ==> r == MinusInfinity
  {
    match x
    case Finite(v) => Int(Truncate(v))
    case NaN => Int(0)
    case PosInf => PlusInfinity
    case NegInf => MinusInfinity
  }
}
