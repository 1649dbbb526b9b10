/** Small arithmetic helpers shared by the calculator modules, standing in
    for `Math.min`, `Math.max` and `Math.abs` on exact rationals. */
module Numeric {

  function Min(a: real, b: real): (r: real)
    ensures r <= a && r <= b
    ensures r == a || r == b
  {
    if a <= b then a else b
  }

  function Max(a: real, b: real): (r: real)
    ensures a <= r && b <= r
    ensures r == a || r == b
  {
    if a <= b then b else a
  }

  function Abs(a: real): (r: real)
    ensures 0.0 <= r
    ensures r == a || r == -a
  {
    if a < 0.0 then -a else a
  }

  /** Exact division: the quotient times the divisor gives back the
      dividend. */
  function Ratio(a: real, b: real): (q: real)
    requires b != 0.0
    ensures q * b == a
    ensures q == 0.0 <==> a == 0.0
  {
    a / b
  }

  /** `part` as a percentage of a positive `whole`. */
  function Percent(part: real, whole: real): (p: real)
    requires 0.0 < whole
    ensures p * whole == part * 100.0
  {
    var q := Ratio(part, whole);
    assert (q * 100.0) * whole == (q * whole) * 100.0;
    q * 100.0
  }

  lemma MulMonotone(r: real, a: real, b: real)
    requires 0.0 <= r && a <= b
    ensures r * a <= r * b
  {
  }

  lemma MulStrict(r: real, a: real, b: real)
    requires 0.0 < r && a < b
    ensures r * a < r * b
  {
  }

  /** A part strictly between 0 and the whole is a fraction strictly
      between 0 and 1 of it. */
  lemma RatioBetween(a: real, b: real)
    requires 0.0 < a < b
    ensures 0.0 < Ratio(a, b) < 1.0
  {
    var q := Ratio(a, b);
    if q <= 0.0 {
    } else if q >= 1.0 {
      MulMonotone(b, 1.0, q);
    }
  }
}
