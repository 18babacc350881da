/** Numeric helpers of the ROI engine: quotients that may be undefined, the absolute
    value, and the two-decimal rounding applied to the recorded cash-flow series. */
module Numeric {

  /** The outcome of a division. The engine divides without guarding against a zero
      divisor; where JavaScript would produce Infinity or NaN this model says so. */
  datatype Ratio = Defined(value: real) | DivisionByZero {

    /** `k + this`: an undefined quotient stays undefined. */
    function Plus(k: real): Ratio {
      match this
      case Defined(v) => Defined(k + v)
      case DivisionByZero => DivisionByZero
    }

    /** `this * k`: an undefined quotient stays undefined. */
    function Times(k: real): Ratio {
      match this
      case Defined(v) => Defined(v * k)
      case DivisionByZero => DivisionByZero
    }
  }

  /** `n / d`, undefined exactly when the divisor is zero; a defined quotient times the
      divisor gives back the numerator. */
  function Divide(n: real, d: real): (q: Ratio)
    ensures q.Defined? <==> d != 0.0
    ensures q.Defined? ==> q.value * d == n
  {
    if d == 0.0 then DivisionByZero else Defined(n / d)
  }

  /** Taking c whole divisors off the numerator takes c off the quotient. */
  lemma DivideShift(a: real, c: real, d: real)
    requires d != 0.0
    ensures (a - c * d) / d == a / d - c
  {
    var q, r := (a - c * d) / d, a / d;
    assert q * d == a - c * d;
    assert r * d == a;
    assert (q - (r - c)) * d == 0.0;
  }

  /** Dividing by a positive number keeps the order. */
  lemma DivideMonotone(a: real, b: real, d: real)
    requires a <= b && d > 0.0
    ensures a / d <= b / d
  {
    var q, r := a / d, b / d;
    assert q * d == a && r * d == b;
    assert (r - q) * d == b - a;
  }

  /** A numerator between lo * d and hi * d, for a positive d, has a quotient between lo
      and hi. */
  lemma DivideBetween(a: real, d: real, lo: real, hi: real)
    requires d > 0.0 && lo * d <= a <= hi * d
    ensures lo <= a / d <= hi
  {
    DivideMonotone(lo * d, a, d);
    DivideMonotone(a, hi * d, d);
  }

  /** A numerator above c * d, for a positive d, has a quotient above c. */
  lemma DivideAbove(a: real, d: real, c: real)
    requires d > 0.0 && c * d < a
    ensures c < a / d
  {
    var q := a / d;
    assert q * d == a;
    assert (q - c) * d == a - c * d;
  }

  /** `Math.abs`. */
  function Abs(x: real): real {
    if x < 0.0 then -x else x
  }

  /** Magnitudes from 10^21 on are printed by `toFixed` in exponent form, unrounded. */
  const ToFixedLimit: real := 1.0e21

  /** x is a whole number of hundredths. */
  predicate WholeCents(x: real) {
    (x * 100.0).Floor as real == x * 100.0
  }

  lemma WholeCentsNegate(x: real)
    requires WholeCents(x)
    ensures WholeCents(-x)
  {
    var n := (x * 100.0).Floor;
    assert -x * 100.0 == (-n) as real;
  }

  /** `parseFloat(x.toFixed(2))` on a non-negative x: the nearest multiple of 0.01, the
      larger one on a tie. */
  function RoundMagnitude(x: real): (r: real)
    requires x >= 0.0
    ensures -0.005 < r - x <= 0.005 && r >= 0.0
    ensures WholeCents(r)
  {
    var n := (x * 100.0 + 0.5).Floor;
    assert n as real <= x * 100.0 + 0.5 < n as real + 1.0;
    n as real / 100.0
  }

  /** `parseFloat(x.toFixed(2))`: the sign is split off, the magnitude rounded to two
      decimals (ties away from zero), and magnitudes at or above 10^21 left as they are.
      The result is never more than half a cent away from x, and a tie at exactly half a
      cent goes to the larger magnitude. */
  function RoundToCents(x: real): (r: real)
    ensures -0.005 <= r - x <= 0.005
    ensures Abs(x) < ToFixedLimit ==> -0.005 < Abs(r) - Abs(x) <= 0.005
    ensures Abs(x) >= ToFixedLimit ==> r == x
    ensures Abs(x) < ToFixedLimit ==> WholeCents(r)
  {
    if Abs(x) >= ToFixedLimit then x
    else if x < 0.0 then
      var m := RoundMagnitude(-x);
      WholeCentsNegate(m);
      -m
    else RoundMagnitude(x)
  }

  /** Rounding a value that is already rounded changes nothing. */
  lemma RoundToCentsIdempotent(x: real)
    ensures RoundToCents(RoundToCents(x)) == RoundToCents(x)
  {
    var r := RoundToCents(x);
    if Abs(x) < ToFixedLimit && Abs(r) < ToFixedLimit {
      var n := (r * 100.0).Floor;
      assert r == n as real / 100.0;
      if r < 0.0 {
        assert (-r * 100.0 + 0.5).Floor == -n;
      } else {
        assert (r * 100.0 + 0.5).Floor == n;
      }
    }
  }
}
