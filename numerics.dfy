/** Python's numeric primitives used by the calculators, stated on exact reals:
    floor division, math.ceil, int() truncation and round(x, 2). */
module Numerics {

  /** `a // b` of two Python floats: the largest integer q with q * b <= a. */
  function FloorDiv(a: real, b: real): (q: int)
    requires b > 0.0
    ensures q as real * b <= a < (q + 1) as real * b
  {
    var t := a / b;
    var f := t.Floor;
    assert t < (f + 1) as real;
    MulMono(t, (f + 1) as real, b);
    MulMono(f as real, t, b);
    assert t * b == a;
    assert a < (f + 1) as real * b;
    f
  }

  /** Multiplying by a positive factor preserves and reflects strict order. */
  lemma MulMono(x: real, y: real, b: real)
    requires b > 0.0 && x <= y
    ensures x * b <= y * b
    ensures x < y ==> x * b < y * b
  {
  }

  /** If x·b <= a < y·b for a positive b, then x < y. */
  lemma MulPin(x: real, y: real, b: real, a: real)
    requires b > 0.0 && x * b <= a < y * b
    ensures x < y
  {
    if y <= x {
      MulMono(y, x, b);
    }
  }

  /** The floor characterisation determines the quotient uniquely. */
  lemma FloorDivUnique(a: real, b: real, q: int)
    requires b > 0.0
    requires q as real * b <= a < (q + 1) as real * b
    ensures FloorDiv(a, b) == q
  {
    var f := FloorDiv(a, b);
    MulPin(q as real, (f + 1) as real, b, a);
    MulPin(f as real, (q + 1) as real, b, a);
  }

  /** math.ceil(x): the least integer not below x. */
  function Ceil(x: real): (r: int)
    ensures x <= r as real < x + 1.0
  {
    -((-x).Floor)
  }

  /** int(x) for a float: truncation toward zero. */
  function Trunc(x: real): (r: int)
    ensures 0.0 <= x ==> r as real <= x < r as real + 1.0
    ensures x < 0.0 ==> r as real - 1.0 < x <= r as real
  {
    if x >= 0.0 then x.Floor else -((-x).Floor)
  }

  /** round(x, 2), ties resolved upward: an integer number of hundredths
      within half a hundredth of x. */
  function Round2(x: real): (r: real)
    ensures (r * 100.0).Floor as real == r * 100.0
    ensures -0.005 < r - x <= 0.005
  {
    (x * 100.0 + 0.5).Floor as real / 100.0
  }

  /** x lies exactly halfway between two hundredths, the only inputs on which
      rounding half up and rounding half to even disagree. */
  predicate IsHundredthTie(x: real)
  {
    (x * 100.0 + 0.5).Floor as real == x * 100.0 + 0.5
  }

  function Max(a: int, b: int): (m: int)
    ensures m >= a && m >= b && (m == a || m == b)
  {
    if a >= b then a else b
  }
}
