/** IEEE 754 doubles as the monitor's C# and JavaScript code uses them:
    a finite value (kept exact, so rounding and overflow are not modelled),
    NaN, or an infinity. Comparisons with NaN are false. */
module Numbers {

  datatype Double = Finite(value: real) | NaN | PosInf | NegInf
  {
    /** `double.IsFinite` / `Number.isFinite`. */
    predicate IsFinite() { this.Finite? }

    predicate IsInfinity() { this.PosInf? || this.NegInf? }
  }

  /** The value ordering of the non-NaN doubles. */
  predicate Below(a: Double, b: Double)
    requires !a.NaN? && !b.NaN?
  {
    match a
    case NegInf => !b.NegInf?
    case Finite(x) => b.PosInf? || (b.Finite? && x < b.value)
    case PosInf => false
  }

  /** `a < b`. */
  predicate Lt(a: Double, b: Double)
  {
    !a.NaN? && !b.NaN? && Below(a, b)
  }

  /** `a <= b`. */
  predicate Le(a: Double, b: Double)
  {
    !a.NaN? && !b.NaN? && (a == b || Below(a, b))
  }

  /** `a < c` for a literal c. */
  predicate LtR(a: Double, c: real) { Lt(a, Finite(c)) }

  /** `a <= c` for a literal c. */
  predicate LeR(a: Double, c: real) { Le(a, Finite(c)) }

  function Neg(a: Double): Double
  {
    match a
    case Finite(x) => Finite(-x)
    case NaN => NaN
    case PosInf => NegInf
    case NegInf => PosInf
  }

  function Add(a: Double, b: Double): (r: Double)
  {
    if a.NaN? || b.NaN? then NaN
    else if (a.PosInf? && b.NegInf?) || (a.NegInf? && b.PosInf?) then NaN
    else if a.IsInfinity() then a
    else if b.IsInfinity() then b
    else Finite(a.value + b.value)
  }

  function Sub(a: Double, b: Double): Double { Add(a, Neg(b)) }

  /** The sign of a non-NaN double: -1, 0 or 1. */
  function Sign(a: Double): int
    requires !a.NaN?
  {
    match a
    case NegInf => -1
    case PosInf => 1
    case Finite(x) => if x < 0.0 then -1 else if x > 0.0 then 1 else 0
  }

  function InfinityOfSign(s: int): Double
  {
    if s < 0 then NegInf else PosInf
  }

  function Mul(a: Double, b: Double): (r: Double)
  {
    if a.NaN? || b.NaN? then NaN
    else if a.Finite? && b.Finite? then Finite(a.value * b.value)
    else if Sign(a) == 0 || Sign(b) == 0 then NaN
    else InfinityOfSign(Sign(a) * Sign(b))
  }

  /** Division; a zero divisor counts as +0 (signed zeros are not modelled). */
  function Div(a: Double, b: Double): (r: Double)
  {
    if a.NaN? || b.NaN? then NaN
    else if a.IsInfinity() && b.IsInfinity() then NaN
    else if a.IsInfinity() then InfinityOfSign(Sign(a) * (if Sign(b) < 0 then -1 else 1))
    else if b.IsInfinity() then Finite(0.0)
    else if b.value == 0.0 then (if a.value == 0.0 then NaN else InfinityOfSign(Sign(a)))
    else Finite(a.value / b.value)
  }

  /** `Math.Clamp(value, lo, hi)` for lo <= hi: NaN stays NaN. */
  function Clamp(a: Double, lo: real, hi: real): (r: Double)
    requires lo <= hi
    ensures a.NaN? <==> r.NaN?
    ensures !r.NaN? ==> r.Finite? && lo <= r.value <= hi
  {
    if LtR(a, lo) then Finite(lo)
    else if Lt(Finite(hi), a) then Finite(hi)
    else a
  }

  function ClampReal(x: real, lo: real, hi: real): (r: real)
    requires lo <= hi
    ensures lo <= r <= hi
    ensures lo <= x <= hi ==> r == x
  {
    if x < lo then lo else if x > hi then hi else x
  }

  function MaxReal(a: real, b: real): real { if a >= b then a else b }

  function MinReal(a: real, b: real): real { if a <= b then a else b }

  function Abs(x: real): real { if x < 0.0 then -x else x }

  /** `Math.Round(x, MidpointRounding.AwayFromZero)`. */
  function RoundAwayFromZero(x: real): (n: int)
    ensures Abs(x - n as real) <= 0.5
  {
    if x >= 0.0 then (x + 0.5).Floor else -((-x + 0.5).Floor)
  }

  /** `Math.Ceiling` / `Math.ceil`: the least integer not below x. */
  function Ceiling(x: real): (n: int)
    ensures x <= n as real < x + 1.0
  {
    -((-x).Floor)
  }

  /** JavaScript `Math.round`: halves go towards +infinity. */
  function RoundHalfUp(x: real): (n: int)
    ensures Abs(x - n as real) <= 0.5
  {
    (x + 0.5).Floor
  }

  /** `Math.Round(x)` with the default midpoint rule: halves go to the
      even neighbour. */
  function RoundHalfEven(x: real): (n: int)
    ensures Abs(x - n as real) <= 0.5
  {
    var f := x.Floor;
    var frac := x - f as real;
    if frac < 0.5 then f
    else if frac > 0.5 then f + 1
    else if f % 2 == 0 then f else f + 1
  }

  /** `Math.Round(d, 1)`: one decimal, halves to even; NaN and the
      infinities are returned as they are. */
  function Round1(d: Double): (r: Double)
    ensures r.Finite? <==> d.Finite?
    ensures !d.Finite? ==> r == d
    ensures d.Finite? ==> Abs(d.value - r.value) <= 0.05
  {
    if d.Finite? then Finite(RoundHalfEven(d.value * 10.0) as real / 10.0) else d
  }

  // ---------------------------------------------------------------------
  // Properties

  /** The ordering is a strict total order on the non-NaN doubles. */
  lemma LtTotal(a: Double, b: Double)
    requires !a.NaN? && !b.NaN?
    ensures Lt(a, b) || a == b || Lt(b, a)
    ensures !(Lt(a, b) && Lt(b, a))
  {
  }

  lemma LtTransitive(a: Double, b: Double, c: Double)
    requires Lt(a, b) && Lt(b, c)
    ensures Lt(a, c)
  {
  }

  /** Every comparison with NaN is false. */
  lemma NaNIsUnordered(a: Double)
    ensures !Lt(NaN, a) && !Lt(a, NaN) && !Le(NaN, a) && !Le(a, NaN)
  {
  }

  /** On finite values the operations are the exact real ones. */
  lemma FiniteArithmetic(x: real, y: real)
    ensures Add(Finite(x), Finite(y)) == Finite(x + y)
    ensures Mul(Finite(x), Finite(y)) == Finite(x * y)
    ensures y != 0.0 ==> Div(Finite(x), Finite(y)) == Finite(x / y)
    ensures Lt(Finite(x), Finite(y)) <==> x < y
    ensures Le(Finite(x), Finite(y)) <==> x <= y
  {
  }

  /** NaN propagates through every operation. */
  lemma NaNPropagates(a: Double)
    ensures Add(a, NaN).NaN? && Add(NaN, a).NaN?
    ensures Mul(a, NaN).NaN? && Mul(NaN, a).NaN?
    ensures Div(a, NaN).NaN? && Div(NaN, a).NaN?
  {
  }
}
