/**
 * Scalar arithmetic shared by the whole model.
 *
 * Element values are mathematical reals: single-precision rounding is not modelled.
 * The C math library (expf, tanhf, logf, sqrtf) is not given a definition here: it
 * is passed around as a record of function values, and the only facts the proofs use
 * about it are the laws collected in `Lawful`.  `powf` is only ever applied to a
 * whole-number exponent (the optimizer step counter), so it is defined exactly.
 */
module Numeric {

  /** The C math library functions the core calls. */
  datatype Libm = Libm(exp: real -> real, tanh: real -> real, log: real -> real, sqrt: real -> real)

  /** The facts about the math library that the proofs rely on, and nothing more. */
  ghost predicate Lawful(lm: Libm)
  {
    && (forall x :: lm.exp(x) > 0.0)
    && (forall x :: x >= 0.0 ==> lm.sqrt(x) >= 0.0 && lm.sqrt(x) * lm.sqrt(x) == x)
  }

  function Abs(x: real): (r: real)
    ensures r >= 0.0 && (r == x || r == -x)
  {
    if x < 0.0 then -x else x
  }

  /** x·x */
  function Square(x: real): real
  {
    x * x
  }

  /** A square is never negative, and it is 0 only at 0. */
  lemma SquareSign(x: real)
    ensures Square(x) >= 0.0
    ensures Square(x) == 0.0 <==> x == 0.0
  {
    if x > 0.0 {
      calc { Square(x); == x * x; > 0.0; }
    } else if x < 0.0 {
      calc { Square(x); == (-x) * (-x); > 0.0; }
    }
  }

  /**
   * powf(b, n) for a whole-number exponent n.  A rate in [0, 1) raised to a positive
   * power stays in [0, 1), so the Adam bias corrections 1 − β^t are never zero.
   */
  function Pow(b: real, n: nat): (r: real)
    ensures 0.0 <= b ==> 0.0 <= r
    ensures 0.0 <= b < 1.0 ==> r <= 1.0
    ensures 0.0 <= b < 1.0 && n >= 1 ==> r < 1.0
  {
    if n == 0 then 1.0
    else
      var rest := Pow(b, n - 1);
      assert 0.0 <= b < 1.0 ==> b * rest <= b * 1.0;
      b * rest
  }

  /** The first power is the base itself. */
  lemma PowOne(b: real)
    ensures Pow(b, 1) == b
  {
    assert Pow(b, 0) == 1.0;
  }

  /** Multiplying by a positive number keeps the order. */
  lemma ScaleMonotone(a: real, b: real, c: real)
    requires a <= b && c > 0.0
    ensures a * c <= b * c
  {
  }

  /** Two non-negative numbers with the same square are equal. */
  lemma NonNegSquareUnique(x: real, y: real)
    requires x >= 0.0 && y >= 0.0 && x * x == y * y
    ensures x == y
  {
    assert (x - y) * (x + y) == x * x - y * y;
    if x + y != 0.0 {
      assert x - y == (x * x - y * y) / (x + y);
    }
  }

  /** The square root of a positive number is positive, and squares back to it. */
  lemma SqrtOfPositive(lm: Libm, c: real)
    requires Lawful(lm) && c > 0.0
    ensures lm.sqrt(c) > 0.0 && lm.sqrt(c) * lm.sqrt(c) == c
  {
    SquareSign(lm.sqrt(c));
    assert Square(lm.sqrt(c)) == c;
  }

  /** sqrt(g²·c) = |g|·sqrt(c) for c >= 0, from the square-root law alone. */
  lemma SqrtOfScaledSquare(lm: Libm, y: real, c: real, g: real)
    requires Lawful(lm) && c >= 0.0 && y == (g * g) * c
    ensures lm.sqrt(y) == Abs(g) * lm.sqrt(c)
  {
    var s := lm.sqrt(c);
    var q := lm.sqrt(y);
    assert s >= 0.0 && s * s == c;
    assert (g * g) * c >= 0.0;
    assert q >= 0.0 && q * q == (g * g) * c;
    var p := Abs(g) * s;
    assert p >= 0.0;
    assert p * p == (Abs(g) * Abs(g)) * (s * s);
    assert Abs(g) * Abs(g) == g * g;
    NonNegSquareUnique(q, p);
  }
}
