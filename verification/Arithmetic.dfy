/** Small facts about products, quotients and reals that the solver does not find on its own. */
module Arithmetic {

  lemma MulMonotone(a: int, b: int, c: int)
    requires a <= b && c >= 0
    ensures a * c <= b * c
  {
  }

  lemma SmallProductIsZero(d: int, m: int)
    requires m >= 1 && -m < d * m < m
    ensures d == 0
  {
    if d >= 1 {
      MulMonotone(1, d, m);
    } else if d <= -1 {
      MulMonotone(d, -1, m);
    }
  }

  lemma DivModUnique(a: int, m: int, q: int, r: int)
    requires m >= 1 && a == q * m + r && 0 <= r < m
    ensures a / m == q && a % m == r
  {
    var q', r' := a / m, a % m;
    assert a == q' * m + r';
    assert (q' - q) * m == r - r';
    SmallProductIsZero(q' - q, m);
  }

  lemma MultipleDivides(k: int, m: int)
    requires m >= 1
    ensures (k * m) % m == 0 && (k * m) / m == k
  {
    DivModUnique(k * m, m, k, 0);
  }

  lemma QuotientTimes(a: int, m: int)
    requires m >= 1 && a % m == 0
    ensures a == (a / m) * m
  {
  }

  lemma DivisorOfDivisor(x: int, a: int, b: int)
    requires a >= 1 && b >= 1 && x % a == 0 && a % b == 0
    ensures x % b == 0
  {
    var p, q := x / a, a / b;
    QuotientTimes(x, a);
    QuotientTimes(a, b);
    assert x == p * (q * b);
    assert p * (q * b) == (p * q) * b;
    MultipleDivides(p * q, b);
  }

  lemma SumOfMultiples(x: int, y: int, m: int)
    requires m >= 1 && x % m == 0 && y % m == 0
    ensures (x + y) % m == 0 && (x - y) % m == 0
  {
    var p, q := x / m, y / m;
    QuotientTimes(x, m);
    QuotientTimes(y, m);
    assert x + y == (p + q) * m;
    assert x - y == (p - q) * m;
    MultipleDivides(p + q, m);
    MultipleDivides(p - q, m);
  }

  lemma QuotientSmaller(u: int, m: int)
    requires m >= 1 && u % m == 0
    ensures u >= 0 ==> 0 <= u / m <= u
    ensures u <= 0 ==> u <= u / m <= 0
  {
    var k := u / m;
    QuotientTimes(u, m);
    if k >= 0 {
      MulMonotone(1, m, k);
    } else {
      MulMonotone(1, m, -k);
      assert (-k) * m == -(k * m);
    }
  }

  lemma HalfOrLess(a: int, d: int)
    requires a >= 1 && d >= 2
    ensures 0 <= a / d < a
  {
    var q := a / d;
    assert a == q * d + a % d;
    if q >= 1 {
      MulMonotone(2, d, q);
    } else if q <= -1 {
      MulMonotone(q, -1, d);
    }
  }

  // ---------------------------------------------------------------- reals

  lemma MulNonNegative(a: real, b: real)
    requires a >= 0.0 && b >= 0.0
    ensures a * b >= 0.0
  {
  }

  lemma MulPositive(a: real, b: real)
    requires a > 0.0 && b > 0.0
    ensures a * b > 0.0
  {
  }

  lemma MulMonotoneReal(a: real, b: real, c: real)
    requires a <= b && c >= 0.0
    ensures a * c <= b * c
  {
    MulNonNegative(b - a, c);
  }

  lemma Inverse(a: real)
    requires a != 0.0
    ensures a * (1.0 / a) == 1.0
  {
  }

  lemma DivTimes(a: real, b: real)
    requires b != 0.0
    ensures (a / b) * b == a
  {
  }

  lemma TimesDiv(a: real, b: real)
    requires b != 0.0
    ensures (a * b) / b == a
  {
  }

  lemma SubTimes(a: real, b: real, c: real)
    ensures (a - b) * c == a * c - b * c
  {
  }

  lemma MulAssoc(a: real, b: real, c: real)
    ensures (a * b) * c == a * (b * c)
  {
  }

  function Pow(b: nat, k: nat): nat {
    if k == 0 then 1 else b * Pow(b, k - 1)
  }

  lemma SquareNonNegative(d: real)
    ensures d * d >= 0.0
  {
    if d >= 0.0 {
      MulNonNegative(d, d);
    } else {
      MulNonNegative(-d, -d);
    }
  }

  ghost predicate IsSqrt(sqrt: real -> real) {
    forall y: real :: y >= 0.0 ==> sqrt(y) >= 0.0 && sqrt(y) * sqrt(y) == y
  }

  lemma DifferenceOfSquares(a: real, b: real)
    ensures (a - b) * (a + b) == a * a - b * b && (-a - b) * (b - a) == a * a - b * b
  {
  }

  lemma SquareOrder(a: real, b: real)
    requires b >= 0.0 && a * a <= b * b
    ensures -b <= a <= b
  {
    DifferenceOfSquares(a, b);
    if a > b {
      MulPositive(a - b, a + b);
    } else if a < -b {
      MulPositive(-a - b, b - a);
    }
  }

  lemma ZeroProduct(a: real, b: real)
    requires a != 0.0 && a * b == 0.0
    ensures b == 0.0
  {
  }
}
