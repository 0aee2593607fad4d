/** Small facts of real arithmetic that the solver does not find unaided. */
module RealFacts {

  lemma DivByRatio(x: real, a: real, b: real)
    requires a > 0.0 && b > 0.0
    ensures x / (a / b) == x * (b / a)
  {
    var q := a / b;
    assert q * b == a;
    assert (x / q) * q == x;
    assert (b / a) * q == 1.0;
  }

  lemma DivThenMul(x: real, a: real, b: real)
    requires a != 0.0
    ensures (x / a) * b == x * (b / a)
  {
    assert (x / a) * a == x;
    assert (b / a) * a == b;
  }

  lemma DivCompare(f: real, u: real, c: real)
    requires u > 0.0
    ensures f / u > c <==> f > c * u
    ensures f / u < c <==> f < c * u
    ensures f / u == c <==> f == c * u
  {
    assert (f / u) * u == f;
  }

  lemma RatioOfRatio(a: real, b: real)
    requires a > 0.0 && b > 0.0
    ensures a / (a / b) == b
    ensures 1.0 / (a / b) == b / a
  {
    DivByRatio(a, a, b);
    DivByRatio(1.0, a, b);
  }

  lemma RatioSquared(a: real, b: real)
    requires a > 0.0
    ensures b * (b / a) / a == (b / a) * (b / a)
  {
    DivThenMul(b * (b / a), a, 1.0);
  }

  lemma RelativeDifference(a: real, b: real)
    requires b != 0.0
    ensures (a - b) / b == a / b - 1.0
  {
    var x, y := (a - b) / b, a / b - 1.0;
    assert x * b == a - b;
    assert y * b == a - b;
    var d := x - y;
    assert d * b == 0.0;
  }
}
