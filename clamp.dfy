/** The clamp utility the regulator uses for anti-windup and output saturation,
    over the reals extended with two infinities (the regulator's default bounds). */
module Clamping {

  /** A bound: a real number, or one of the two infinities that `Init` installs. */
  datatype ExtReal = NegInf | Fin(v: real) | PosInf

  /** `x < b` in the extended reals. */
  predicate Below(x: real, b: ExtReal) {
    match b
    case NegInf => false
    case Fin(v) => x < v
    case PosInf => true
  }

  /** `x > b` in the extended reals. */
  predicate Above(x: real, b: ExtReal) {
    match b
    case NegInf => true
    case Fin(v) => x > v
    case PosInf => false
  }

  /** `a <= b` in the extended reals. */
  predicate AtMost(a: ExtReal, b: ExtReal) {
    a.NegInf? || b.PosInf? || (a.Fin? && b.Fin? && a.v <= b.v)
  }

  /** `lo <= x <= hi` in the extended reals. */
  predicate Within(x: real, lo: ExtReal, hi: ExtReal) {
    !Below(x, lo) && !Above(x, hi)
  }

  /** A bound pair of the shape the regulator can hold: a lower bound that is a
      number or -inf, an upper bound that is a number or +inf. Nothing is said
      about their order: the setters store whatever they are given. */
  predicate Admissible(lo: ExtReal, hi: ExtReal) {
    !lo.PosInf? && !hi.NegInf?
  }

  /** Raise `num` to `lo` when below it, then lower the result to `hi` when
      above it, in that order. With ordered bounds the result lies in the range
      and a value already in range is left alone; with inverted finite bounds
      every value comes out as `hi`. */
  function Clamp(num: real, lo: ExtReal, hi: ExtReal): (r: real)
    requires Admissible(lo, hi)
    ensures AtMost(lo, hi) ==> Within(r, lo, hi)
    ensures Within(num, lo, hi) ==> r == num
    ensures lo.Fin? && hi.Fin? && lo.v > hi.v ==> r == hi.v
    ensures lo == NegInf && hi == PosInf ==> r == num
  {
    var t := if Below(num, lo) then lo.v else num;
    if Above(t, hi) then hi.v else t
  }

  function Distance(x: real, y: real): (r: real) {
    if x <= y then y - x else x - y
  }

  /** Independent characterisation: with ordered bounds, the clamped value is a
      point of the range nearest to `num`. */
  lemma ClampIsNearest(num: real, lo: ExtReal, hi: ExtReal, y: real)
    requires Admissible(lo, hi) && AtMost(lo, hi)
    requires Within(y, lo, hi)
    ensures Within(Clamp(num, lo, hi), lo, hi)
    ensures Distance(Clamp(num, lo, hi), num) <= Distance(y, num)
  {
  }

  /** Clamping never reverses the order of two values, whatever the bounds. */
  lemma ClampMonotone(x: real, y: real, lo: ExtReal, hi: ExtReal)
    requires Admissible(lo, hi)
    requires x <= y
    ensures Clamp(x, lo, hi) <= Clamp(y, lo, hi)
  {
  }

  /** Clamping twice with ordered bounds is clamping once. */
  lemma ClampIdempotent(x: real, lo: ExtReal, hi: ExtReal)
    requires Admissible(lo, hi) && AtMost(lo, hi)
    ensures Clamp(Clamp(x, lo, hi), lo, hi) == Clamp(x, lo, hi)
  {
  }
}
