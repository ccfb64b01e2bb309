/**
 * The numeric primitives the animation code takes from the JavaScript host.
 *
 * Numbers are exact reals. `Math.pow(2, x)`, `Math.sin`, `Math.cos`, `Math.PI` and the
 * `noise2D` field of src/utils/noise are not defined here: a `MathLib` value carries them
 * as uninterpreted function values, and `Sound` lists the only facts about them that the
 * proofs use. `Math.pow` with exponent 2 or 3 is plain multiplication (`Square`, `Cube`),
 * and JavaScript's `%` and `Math.ceil` are written out.
 */
module MathModel {

  /** The host's transcendental functions. */
  datatype MathLib = MathLib(
    exp2: real -> real,              // x |-> Math.pow(2, x)
    sin: real -> real,               // Math.sin
    cos: real -> real,               // Math.cos
    pi: real,                        // Math.PI
    noise2D: (real, real) -> real)   // noise2D from src/utils/noise

  /** The facts about the host functions that the proofs rely on: 2^0 = 1, 2^x is positive and
      at most 1 for x <= 0, pi > 0, |sin| <= 1. */
  ghost predicate Sound(m: MathLib) {
    && m.exp2(0.0) == 1.0
    && (forall x :: 0.0 < m.exp2(x))
    && (forall x :: x <= 0.0 ==> m.exp2(x) <= 1.0)
    && m.pi > 0.0
    && (forall x :: -1.0 <= m.sin(x) <= 1.0)
  }

  /** `sin(x)^2 + cos(x)^2 = 1`: what the launch speed of a particle needs of the host's
      trigonometry. */
  ghost predicate UnitCircle(m: MathLib) {
    forall x :: Mul(m.sin(x), m.sin(x)) + Mul(m.cos(x), m.cos(x)) == 1.0
  }

  /** The values `Math.random()` returns, one per call, in call order: a total map from the call
      number to the value. */
  type Stream = s: imap<nat, real> | forall k: nat :: k in s
    ghost witness imap k: nat :: 0.0

  /** `Math.pow(b, 2)`. */
  function Square(b: real): real {
    b * b
  }

  /** `Math.pow(b, 3)`. */
  function Cube(b: real): real {
    b * b * b
  }

  /** The product of two quantities that are both unknown ahead of time (a draw and a width,
      a cosine and a speed), kept as one term: the bounds proved about it below carry over to
      every place that uses it, and the solver is not asked to reason about products it needs
      no facts about. */
  function Mul(r: real, w: real): real {
    r * w
  }

  /** A draw in [0, 1) scaled by a positive width stays in [0, w). */
  lemma {:induction false} MulBelow(r: real, w: real)
    requires 0.0 <= r < 1.0 && w > 0.0
    ensures 0.0 <= Mul(r, w) < w
  {
    assert (1.0 - r) * w > 0.0;
  }

  lemma {:induction false} MulNonNegative(x: real, y: real)
    requires x >= 0.0 && y >= 0.0
    ensures Mul(x, y) >= 0.0
  {
  }

  lemma {:induction false} PositiveFactor(x: real, y: real)
    requires y > 0.0 && Mul(x, y) > 0.0
    ensures x > 0.0
  {
  }

  /** The quotient of two quantities that are both unknown ahead of time, kept as one term. */
  function Div(a: real, b: real): real
    requires b != 0.0
  {
    a / b
  }

  /** A positive part of a positive whole is a fraction in (0, 1]. */
  lemma {:induction false} FractionInUnit(a: real, b: real)
    requires 0.0 < a <= b
    ensures 0.0 < Div(a, b) <= 1.0
  {
    var q := a / b;
    assert q * b == a;
    assert (1.0 - q) * b == b - a;
  }

  /** Shifting the dividend by one divisor shifts the quotient by one. */
  lemma {:induction false} DivShift(a: real, b: real)
    requires b != 0.0
    ensures Div(a + b, b) == Div(a, b) + 1.0
  {
    var q := a / b;
    var q2 := (a + b) / b;
    assert q * b == a;
    assert q2 * b == a + b;
    assert Mul(q2 - q - 1.0, b) == 0.0;
    ZeroFactor(q2 - q - 1.0, b);
  }

  lemma MulPositive(x: real, y: real)
    requires x > 0.0 && y > 0.0
    ensures Mul(x, y) > 0.0
  {
  }

  /** A non-negative number divided by a positive one is non-negative. */
  lemma {:induction false} DivNonNegative(a: real, b: real)
    requires a >= 0.0 && b > 0.0
    ensures Div(a, b) >= 0.0
  {
    var q := a / b;
    assert Mul(q, b) == a;
    if a > 0.0 {
      PositiveFactor(q, b);
    }
  }

  /** A product with a non-zero factor is zero only when the other factor is. */
  lemma {:induction false} ZeroFactor(x: real, b: real)
    requires b != 0.0 && Mul(x, b) == 0.0
    ensures x == 0.0
  {
    assert x == Mul(x, b) / b;
  }

  /** `Math.floor`. */
  function Floor(x: real): (k: int)
    ensures k as real <= x < k as real + 1.0
  {
    x.Floor
  }

  /** `Math.ceil`. */
  function Ceil(x: real): (k: int)
    ensures k as real - 1.0 < x <= k as real
  {
    -((-x).Floor)
  }

  /** Rounding toward zero, as JavaScript's `%` uses for its quotient. */
  function Trunc(q: real): (k: int)
    ensures q >= 0.0 ==> 0 <= k && k as real <= q < k as real + 1.0
  {
    if q >= 0.0 then q.Floor else -((-q).Floor)
  }

  /** JavaScript's `a % b` on numbers: the remainder takes the sign of `a`. */
  function JsRem(a: real, b: real): (r: real)
    requires b != 0.0
    ensures a >= 0.0 && b > 0.0 ==> 0.0 <= r < b
    ensures 0.0 <= a < b ==> r == a
  {
    var k := Trunc(a / b);
    RemainderFacts(a, b, k);
    a - Mul(k as real, b)
  }

  /** Adding one divisor to a non-negative dividend leaves the remainder unchanged. */
  lemma {:induction false} RemainderRepeats(a: real, b: real)
    requires a >= 0.0 && b > 0.0
    ensures JsRem(a + b, b) == JsRem(a, b)
  {
    DivShift(a, b);
    var k := Trunc(a / b);
    assert Trunc((a + b) / b) == k + 1;
    assert Mul((k + 1) as real, b) == Mul(k as real, b) + b;
  }

  lemma RemainderFacts(a: real, b: real, k: int)
    requires b != 0.0 && k == Trunc(a / b)
    ensures a >= 0.0 && b > 0.0 ==> 0.0 <= a - Mul(k as real, b) < b
    ensures 0.0 <= a < b ==> k == 0
  {
    if a >= 0.0 && b > 0.0 {
      var q := a / b;
      assert q * b == a;
      var u := q - k as real;
      assert 0.0 <= u < 1.0;
      MulBelow(u, b);
      assert Mul(u, b) == q * b - Mul(k as real, b);
      if a < b {
        assert Mul(1.0 - q, b) == b - a;
        PositiveFactor(1.0 - q, b);
      }
    }
  }
}
