/**
 * Floating-point values as the pipeline sees them: a finite real, one of the
 * two infinities, or NaN. Arithmetic follows IEEE 754 on the special values;
 * finite results are exact reals (no rounding, no overflow, no signed zero).
 */
module Numeric {

  datatype Option<+T> = None | Some(value: T)

  datatype Result<+T> = Ok(value: T) | Err(error: string)

  datatype Num = Fin(v: real) | PosInf | NegInf | NaN {
    predicate IsFinite() { Fin? }
  }

  /** Sign of a non-NaN value: -1, 0 or 1. */
  function Sign(a: Num): int
    requires !a.NaN?
  {
    match a
    case PosInf => 1
    case NegInf => -1
    case Fin(x) => if x > 0.0 then 1 else if x < 0.0 then -1 else 0
  }

  function InfOfSign(s: int): Num {
    if s > 0 then PosInf else NegInf
  }

  function Neg(a: Num): Num {
    match a
    case Fin(x) => Fin(-x)
    case PosInf => NegInf
    case NegInf => PosInf
    case NaN => NaN
  }

  function Add(a: Num, b: Num): (r: Num)
    ensures a.Fin? && b.Fin? ==> r == Fin(a.v + b.v)
    ensures r.NaN? <==> a.NaN? || b.NaN? || (a.PosInf? && b.NegInf?) || (a.NegInf? && b.PosInf?)
  {
    if a.NaN? || b.NaN? then NaN
    else if (a.PosInf? && b.NegInf?) || (a.NegInf? && b.PosInf?) then NaN
    else if a.PosInf? || b.PosInf? then PosInf
    else if a.NegInf? || b.NegInf? then NegInf
    else Fin(a.v + b.v)
  }

  function Sub(a: Num, b: Num): Num {
    Add(a, Neg(b))
  }

  function Mul(a: Num, b: Num): (r: Num)
    ensures a.Fin? && b.Fin? ==> r == Fin(a.v * b.v)
  {
    if a.NaN? || b.NaN? then NaN
    else if a.Fin? && b.Fin? then Fin(a.v * b.v)
    else if Sign(a) == 0 || Sign(b) == 0 then NaN   // infinity times zero
    else InfOfSign(Sign(a) * Sign(b))
  }

  function Div(a: Num, b: Num): (r: Num)
    ensures a.Fin? && b.Fin? && b.v != 0.0 ==> r == Fin(a.v / b.v)
  {
    if a.NaN? || b.NaN? then NaN
    else if !a.Fin? && !b.Fin? then NaN
    else if a.Fin? && !b.Fin? then Fin(0.0)
    else if !a.Fin? then InfOfSign(Sign(a) * (if b.v < 0.0 then -1 else 1))
    else if b.v != 0.0 then Fin(a.v / b.v)
    else if a.v == 0.0 then NaN
    else InfOfSign(Sign(a))
  }

  /** `a > b` as a float comparison: false whenever either side is NaN. */
  predicate Gt(a: Num, b: Num) {
    match (a, b)
    case (NaN, _) => false
    case (_, NaN) => false
    case (PosInf, PosInf) => false
    case (PosInf, _) => true
    case (_, PosInf) => false
    case (NegInf, _) => false
    case (_, NegInf) => true
    case (Fin(x), Fin(y)) => x > y
  }

  predicate Lt(a: Num, b: Num) { Gt(b, a) }

  predicate Ge(a: Num, b: Num) { !a.NaN? && !b.NaN? && !Lt(a, b) }

  predicate Le(a: Num, b: Num) { Ge(b, a) }

  /** Float order is transitive: anything at most b is at most a when a exceeds b. */
  lemma GtTrans(a: Num, b: Num, c: Num)
    requires Gt(a, b) && Le(c, b)
    ensures Le(c, a)
  {
  }

  /** The larger of two values that are not NaN. */
  function Max(a: Num, b: Num): Num { if Ge(a, b) then a else b }

  function Min(a: Num, b: Num): Num { if Le(a, b) then a else b }

  /** numpy's nan_to_num(nan=0, posinf=0, neginf=0). */
  function ZeroNonFinite(a: Num): (r: real)
    ensures a.Fin? ==> r == a.v
    ensures !a.Fin? ==> r == 0.0
  {
    if a.Fin? then a.v else 0.0
  }

  function SumReals(s: seq<real>): real {
    if s == [] then 0.0 else s[0] + SumReals(s[1..])
  }

  /** Python's int(x) for a non-negative real: truncation toward zero. */
  function TruncNat(x: real): nat
    requires x >= 0.0
  {
    x.Floor
  }
}
