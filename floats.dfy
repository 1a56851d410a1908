/** IEEE-style floating-point values as exact reals extended with NaN and
    the two infinities. Rounding and signed zeros are not modelled. */
module Floats {

  datatype Float = Finite(v: real) | NaN | PosInf | NegInf

  predicate IsNaN(x: Float) {
    x.NaN?
  }

  function Neg(x: Float): Float {
    match x
    case Finite(a) => Finite(-a)
    case NaN => NaN
    case PosInf => NegInf
    case NegInf => PosInf
  }

  /** `x + y`: infinities of opposite sign give NaN. */
  function Add(x: Float, y: Float): (r: Float)
    ensures (x.NaN? || y.NaN?) ==> r.NaN?
    ensures x.Finite? && y.Finite? ==> r == Finite(x.v + y.v)
  {
    match (x, y)
    case (NaN, _) => NaN
    case (_, NaN) => NaN
    case (PosInf, NegInf) => NaN
    case (NegInf, PosInf) => NaN
    case (PosInf, _) => PosInf
    case (_, PosInf) => PosInf
    case (NegInf, _) => NegInf
    case (_, NegInf) => NegInf
    case (Finite(a), Finite(b)) => Finite(a + b)
  }

  function Sub(x: Float, y: Float): Float {
    Add(x, Neg(y))
  }

  /** The sign of a non-NaN value: -1, 0 or 1. */
  function Sign(x: Float): int
    requires !x.NaN?
  {
    match x
    case PosInf => 1
    case NegInf => -1
    case Finite(a) => if a > 0.0 then 1 else if a < 0.0 then -1 else 0
  }

  function InfOfSign(s: int): Float {
    if s > 0 then PosInf else NegInf
  }

  /** `x * y`: zero times an infinity gives NaN. */
  function Mul(x: Float, y: Float): (r: Float)
    ensures (x.NaN? || y.NaN?) ==> r.NaN?
    ensures x.Finite? && y.Finite? ==> r == Finite(x.v * y.v)
  {
    if x.NaN? || y.NaN? then NaN
    else if x.Finite? && y.Finite? then Finite(x.v * y.v)
    else if Sign(x) == 0 || Sign(y) == 0 then NaN
    else InfOfSign(Sign(x) * Sign(y))
  }

  /** `x / y`: 0/0 and inf/inf give NaN, a non-zero value over zero gives an
      infinity of its sign, and a finite value over an infinity gives 0. */
  function Div(x: Float, y: Float): (r: Float)
    ensures (x.NaN? || y.NaN?) ==> r.NaN?
    ensures x.Finite? && y.Finite? && y.v != 0.0 ==> r == Finite(x.v / y.v)
    ensures x == Finite(0.0) && y == Finite(0.0) ==> r.NaN?
  {
    if x.NaN? || y.NaN? then NaN
    else if x.Finite? && y.Finite? then
      if y.v != 0.0 then Finite(x.v / y.v)
      else if x.v == 0.0 then NaN
      else InfOfSign(Sign(x))
    else if x.Finite? then Finite(0.0)
    else if y.Finite? then InfOfSign(Sign(x) * (if y.v < 0.0 then -1 else 1))
    else NaN
  }

  /** `x < y` on the extended reals; any comparison with NaN is false. */
  predicate Less(x: Float, y: Float) {
    match (x, y)
    case (NaN, _) => false
    case (_, NaN) => false
    case (Finite(a), Finite(b)) => a < b
    case (NegInf, NegInf) => false
    case (NegInf, _) => true
    case (PosInf, _) => false
    case (Finite(_), PosInf) => true
    case (Finite(_), NegInf) => false
  }

  predicate LessEq(x: Float, y: Float) {
    !x.NaN? && !y.NaN? && !Less(y, x)
  }

  /** `np.maximum`: NaN if either operand is NaN, else the larger. */
  function Max(x: Float, y: Float): (r: Float)
    ensures (x.NaN? || y.NaN?) <==> r.NaN?
    ensures !r.NaN? ==> LessEq(x, r) && LessEq(y, r) && (r == x || r == y)
  {
    if x.NaN? || y.NaN? then NaN else if Less(x, y) then y else x
  }

  /** `np.minimum`: NaN if either operand is NaN, else the smaller. */
  function Min(x: Float, y: Float): (r: Float)
    ensures (x.NaN? || y.NaN?) <==> r.NaN?
    ensures !r.NaN? ==> LessEq(r, x) && LessEq(r, y) && (r == x || r == y)
  {
    if x.NaN? || y.NaN? then NaN else if Less(y, x) then y else x
  }

  function Abs(x: Float): (r: Float)
    ensures !x.NaN? ==> !r.NaN? && !Less(r, Finite(0.0))
  {
    match x
    case Finite(a) => Finite(if a < 0.0 then -a else a)
    case NaN => NaN
    case _ => PosInf
  }
}
