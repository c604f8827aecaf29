/** Option and Result, for values the code may lack and operations that raise. */
module Wrappers {
  datatype Option<+T> = None | Some(value: T)

  datatype Result<+T, +E> = Ok(value: T) | Err(error: E)
}

/** Double-precision values as the Python code sees them: a finite real, one of the
    two infinities, or NaN. Rounding is not modelled (finite values are exact reals).
    The numerical library routines the code calls (square root, exponential, the
    standard normal CDF, the chi-squared CDF, Benjamini-Hochberg adjustment) are not
    defined here: they are fields of a `Numerics` record that the caller supplies,
    and `Sound` lists the only facts the proofs rely on. */
module Floats {

  datatype Float = Finite(v: real) | PosInf | NegInf | NaN {
    predicate IsNaN() { NaN? }
  }

  /** IEEE negation. */
  function Neg(a: Float): Float {
    match a
    case Finite(x) => Finite(-x)
    case PosInf => NegInf
    case NegInf => PosInf
    case NaN => NaN
  }

  /** IEEE addition on the extended reals: inf + (-inf) and anything with NaN is NaN. */
  function Add(a: Float, b: Float): (r: Float)
    ensures (a.NaN? || b.NaN?) ==> r.NaN?
    ensures a.Finite? && b.Finite? ==> r == Finite(a.v + b.v)
  {
    match (a, b)
    case (NaN, _) => NaN
    case (_, NaN) => NaN
    case (Finite(x), Finite(y)) => Finite(x + y)
    case (PosInf, NegInf) => NaN
    case (NegInf, PosInf) => NaN
    case (PosInf, _) => PosInf
    case (_, PosInf) => PosInf
    case (NegInf, _) => NegInf
    case (_, NegInf) => NegInf
  }

  function Sub(a: Float, b: Float): Float {
    Add(a, Neg(b))
  }

  /** Multiplication by a positive constant (`2.0 * x`, `x * m`). */
  function Scale(k: real, a: Float): (r: Float)
    requires k > 0.0
    ensures r.Finite? <==> a.Finite?
  {
    match a
    case Finite(x) => Finite(k * x)
    case _ => a
  }

  function Abs(a: Float): Float {
    match a
    case Finite(x) => Finite(if x < 0.0 then -x else x)
    case NegInf => PosInf
    case _ => a
  }

  /** `a / b` for a finite numerator, as numpy divides: a zero denominator gives an
      infinity of the numerator's sign, or NaN for 0/0. Signed zeros are not modelled. */
  function DivBy(a: real, b: Float): (r: Float)
    ensures b.Finite? && b.v != 0.0 ==> r == Finite(a / b.v)
    ensures b.NaN? ==> r.NaN?
  {
    match b
    case Finite(y) =>
      if y != 0.0 then Finite(a / y)
      else if a > 0.0 then PosInf
      else if a < 0.0 then NegInf
      else NaN
    case PosInf => Finite(0.0)
    case NegInf => Finite(0.0)
    case NaN => NaN
  }

  /** `x < c` for a finite constant c; every comparison with NaN is false. */
  predicate LessThan(a: Float, c: real) {
    match a
    case Finite(x) => x < c
    case NegInf => true
    case _ => false
  }

  /** `x <= c` for a finite constant c. */
  predicate AtMost(a: Float, c: real) {
    match a
    case Finite(x) => x <= c
    case NegInf => true
    case _ => false
  }

  /** `np.minimum(a, c)`: NaN propagates. */
  function MinWith(a: Float, c: real): Float {
    match a
    case Finite(x) => Finite(if x < c then x else c)
    case PosInf => Finite(c)
    case NegInf => NegInf
    case NaN => NaN
  }

  /** The library routines the code calls, supplied by the caller. */
  datatype Numerics = Numerics(
    sqrt: real -> real,
    exp: real -> real,
    normCdf: real -> real,
    chi2Cdf: (real, int) -> real,
    fdrBh: seq<Float> -> seq<Float>)

  /** The facts about those routines that the proofs use, all true of the real ones:
      a square root is non-negative and zero only at zero, the CDFs lie in [0, 1],
      the standard normal CDF is at least 1/2 on the non-negative half-line, and
      Benjamini-Hochberg returns one adjusted value per input. Nothing is assumed
      about `exp` (it underflows to 0 for large negative arguments). */
  ghost predicate Sound(num: Numerics) {
    && (forall x :: x >= 0.0 ==> num.sqrt(x) >= 0.0 && (num.sqrt(x) == 0.0 <==> x == 0.0))
    && (forall x :: 0.0 <= num.normCdf(x) <= 1.0)
    && (forall x :: x >= 0.0 ==> 0.5 <= num.normCdf(x))
    && (forall x, d :: 0.0 <= num.chi2Cdf(x, d) <= 1.0)
    && (forall ps :: |num.fdrBh(ps)| == |ps|)
  }

  /** `np.sqrt`: NaN for a negative argument. */
  function Sqrt(num: Numerics, x: real): (r: Float)
    requires Sound(num)
    ensures x < 0.0 ==> r.NaN?
    ensures x >= 0.0 ==> r.Finite? && r.v >= 0.0 && (r.v > 0.0 <==> x > 0.0)
  {
    if x < 0.0 then NaN else Finite(num.sqrt(x))
  }

  /** `2 * (1 - norm.cdf(abs(z)))`, the two-sided normal p-value; the normal CDF of
      an infinity is exactly 1, so an infinite statistic gives p = 0. */
  function TwoSidedP(num: Numerics, z: Float): (p: Float)
    requires Sound(num)
    ensures p.NaN? <==> z.NaN?
    ensures !z.NaN? ==> p.Finite? && 0.0 <= p.v <= 1.0
    ensures (z.PosInf? || z.NegInf?) ==> p == Finite(0.0)
  {
    match Abs(z)
    case Finite(a) => Finite(2.0 * (1.0 - num.normCdf(a)))
    case NaN => NaN
    case _ => Finite(0.0)
  }
}
