/**
 * JavaScript numbers as the detectors use them: a finite value, one of the two
 * infinities, or NaN. Finite values are exact reals: rounding is not modelled.
 */
module ExtNum {

  datatype Num = NegInf | Fin(v: real) | PosInf | NaN

  /** `x > t` for a finite `t`; false whenever `x` is NaN. */
  predicate Gt(x: Num, t: real)
  {
    match x
    case Fin(v) => v > t
    case PosInf => true
    case _ => false
  }

  /** `x <= t` for a finite `t`; false whenever `x` is NaN. */
  predicate Le(x: Num, t: real)
  {
    match x
    case Fin(v) => v <= t
    case NegInf => true
    case _ => false
  }

  /** `x * c` for a finite `c`: an infinity times zero is NaN. */
  function Scale(x: Num, c: real): Num
  {
    match x
    case Fin(v) => Fin(v * c)
    case NaN => NaN
    case PosInf => if c > 0.0 then PosInf else if c < 0.0 then NegInf else NaN
    case NegInf => if c > 0.0 then NegInf else if c < 0.0 then PosInf else NaN
  }

  /** `x + y`: opposite infinities add up to NaN. */
  function Add(x: Num, y: Num): Num
  {
    if x == NaN || y == NaN then NaN
    else if x.Fin? && y.Fin? then Fin(x.v + y.v)
    else if (x == PosInf && y == NegInf) || (x == NegInf && y == PosInf) then NaN
    else if x == PosInf || y == PosInf then PosInf
    else NegInf
  }

  /** Away from NaN, `<=` is the negation of `>`. */
  lemma LeIsNotGt(x: Num, t: real)
    requires x != NaN
    ensures Le(x, t) <==> !Gt(x, t)
  {
  }
}
