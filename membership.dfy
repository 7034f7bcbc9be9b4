/**
 * Membership functions of the fuzzy engine: the triangular and trapezoidal
 * shapes, as one closed variant with a single evaluation function.
 */
module Membership {
  import opened Base

  /** A named fuzzy set of one linguistic variable. */
  datatype MembershipFunction =
    | Triangular(name: string, a: real, b: real, c: real)
    | Trapezoidal(name: string, a: real, b: real, c: real, d: real)

  /**
   * The degree of membership of `x`. The tests run in the same order as the
   * source, so the "outside the support" test comes first: with a == b the
   * value at x == b is 0, not 1. No branch divides by zero, whatever the
   * breakpoints are, and the degree is always in [0, 1].
   */
  function Degree(mf: MembershipFunction, x: real): (r: real)
    ensures 0.0 <= r <= 1.0
  {
    match mf
    case Triangular(_, a, b, c) =>
      if x <= a || x >= c then 0.0
      else if a < x < b then Ratio(x - a, b - a)
      else Ratio(c - x, c - b)
    case Trapezoidal(_, a, b, c, d) =>
      if x <= a || x >= d then 0.0
      else if a < x < b then Ratio(x - a, b - a)
      else if b <= x <= c then 1.0
      else Ratio(d - x, d - c)
  }

  /** A ramp value n / d on a positive denominator; it is in [0, 1] when 0 <= n <= d. */
  function Ratio(n: real, d: real): (r: real)
    requires d > 0.0
    ensures r * d == n
    ensures 0.0 <= n <= d ==> 0.0 <= r <= 1.0
  {
    QuotientFacts(n, d);
    n / d
  }

  /** How a quotient on a positive denominator compares with 0 and 1. */
  lemma QuotientFacts(n: real, d: real)
    requires d > 0.0
    ensures (n / d) * d == n
    ensures n <= 0.0 <==> n / d <= 0.0
    ensures n >= 0.0 <==> n / d >= 0.0
    ensures n < d <==> n / d < 1.0
    ensures n <= d <==> n / d <= 1.0
    ensures n > d <==> n / d > 1.0
  {
    var q := n / d;
    assert q * d == n;
    if q < 0.0 { assert q * d < 0.0; }
    if q > 0.0 { assert q * d > 0.0; }
    if q < 1.0 { assert (1.0 - q) * d > 0.0; }
    if q > 1.0 { assert (q - 1.0) * d > 0.0; }
    if q == 1.0 { assert q * d == d; }
    if q == 0.0 { assert q * d == 0.0; }
  }

  /** The usual closed form of a triangle, defined only when a < b < c. */
  function TriangleClosedForm(a: real, b: real, c: real, x: real): real
    requires a < b < c
  {
    Max(0.0, Min((x - a) / (b - a), (c - x) / (c - b)))
  }

  /** The usual closed form of a trapezoid, defined only when a < b and c < d. */
  function TrapezoidClosedForm(a: real, b: real, c: real, d: real, x: real): real
    requires a < b <= c < d
  {
    Max(0.0, Min(Min((x - a) / (b - a), 1.0), (d - x) / (d - c)))
  }

  /** For a proper triangle the branching definition agrees with the closed form everywhere. */
  lemma TriangularMatchesClosedForm(name: string, a: real, b: real, c: real, x: real)
    requires a < b < c
    ensures Degree(Triangular(name, a, b, c), x) == TriangleClosedForm(a, b, c, x)
  {
    QuotientFacts(x - a, b - a);
    QuotientFacts(c - x, c - b);
  }

  /** For a proper trapezoid the branching definition agrees with the closed form everywhere. */
  lemma TrapezoidalMatchesClosedForm(name: string, a: real, b: real, c: real, d: real, x: real)
    requires a < b <= c < d
    ensures Degree(Trapezoidal(name, a, b, c, d), x) == TrapezoidClosedForm(a, b, c, d, x)
  {
    QuotientFacts(x - a, b - a);
    QuotientFacts(d - x, d - c);
  }

  /** A triangle is the trapezoid whose plateau is the single point b, for any breakpoints. */
  lemma TriangleIsPointPlateauTrapezoid(name: string, a: real, b: real, c: real, x: real)
    ensures Degree(Triangular(name, a, b, c), x) == Degree(Trapezoidal(name, a, b, b, c), x)
  {
    if a < x < c && x == b {
      QuotientFacts(c - x, c - b);
    }
  }

  /** The rising ramp of a triangle or trapezoid never decreases. */
  lemma RisingRampMonotone(mf: MembershipFunction, x: real, y: real)
    requires mf.a < mf.b
    requires mf.a <= x <= y <= mf.b
    requires mf.Triangular? ==> mf.b < mf.c
    requires mf.Trapezoidal? ==> mf.b <= mf.c < mf.d
    ensures Degree(mf, x) <= Degree(mf, y)
  {
    var a, b := mf.a, mf.b;
    QuotientFacts(y - x, b - a);
    assert (y - a) / (b - a) - (x - a) / (b - a) == (y - x) / (b - a);
    if mf.Triangular? {
      QuotientFacts(mf.c - y, mf.c - b);
    } else {
      QuotientFacts(mf.d - y, mf.d - mf.c);
    }
    QuotientFacts(x - a, b - a);
  }

  /** The falling ramp of a triangle never increases. */
  lemma TriangleFallingMonotone(name: string, a: real, b: real, c: real, x: real, y: real)
    requires a < b < c
    requires b <= x <= y <= c
    ensures Degree(Triangular(name, a, b, c), y) <= Degree(Triangular(name, a, b, c), x)
  {
    QuotientFacts(y - x, c - b);
    assert (c - x) / (c - b) - (c - y) / (c - b) == (y - x) / (c - b);
    QuotientFacts(c - y, c - b);
  }

  /** Peak and base points of a proper triangle: 1 at b, 0 at a and c and beyond them. */
  lemma TriangleBreakpoints(name: string, a: real, b: real, c: real, x: real)
    requires a < b < c
    ensures Degree(Triangular(name, a, b, c), b) == 1.0
    ensures x <= a || x >= c ==> Degree(Triangular(name, a, b, c), x) == 0.0
  {
    QuotientFacts(c - b, c - b);
  }

  /** The trapezoid is exactly 1 on its plateau whenever the point is strictly inside (a, d). */
  lemma TrapezoidPlateau(name: string, a: real, b: real, c: real, d: real, x: real)
    requires b <= x <= c && a < x < d
    ensures Degree(Trapezoidal(name, a, b, c, d), x) == 1.0
  {
  }

  /**
   * The degenerate-left quirk: with a == b the peak is never reached, so the
   * set "short" (0, 0, 40) gives 0 at 0 and (40 - x) / 40 just after it.
   */
  lemma LeftDegenerateTriangle(name: string, a: real, c: real, x: real)
    requires a < x < c
    ensures Degree(Triangular(name, a, a, c), a) == 0.0
    ensures Degree(Triangular(name, a, a, c), x) == (c - x) / (c - a)
  {
  }

  /** The values the unit tests expect from Triangular(0, 5, 10) and Trapezoidal(0, 3, 7, 10). */
  lemma UnitTestValues()
    ensures Degree(Triangular("test", 0.0, 5.0, 10.0), 5.0) == 1.0
    ensures Degree(Triangular("test", 0.0, 5.0, 10.0), 2.5) == 0.5
    ensures Degree(Triangular("test", 0.0, 5.0, 10.0), 7.5) == 0.5
    ensures Degree(Triangular("test", 0.0, 5.0, 10.0), 0.0) == 0.0
    ensures Degree(Triangular("test", 0.0, 5.0, 10.0), 10.0) == 0.0
    ensures Degree(Triangular("test", 0.0, 5.0, 10.0), -1.0) == 0.0
    ensures Degree(Triangular("test", 0.0, 5.0, 10.0), 11.0) == 0.0
    ensures Degree(Trapezoidal("test", 0.0, 3.0, 7.0, 10.0), 3.0) == 1.0
    ensures Degree(Trapezoidal("test", 0.0, 3.0, 7.0, 10.0), 5.0) == 1.0
    ensures Degree(Trapezoidal("test", 0.0, 3.0, 7.0, 10.0), 7.0) == 1.0
    ensures Degree(Trapezoidal("test", 0.0, 3.0, 7.0, 10.0), 0.0) == 0.0
    ensures Degree(Trapezoidal("test", 0.0, 3.0, 7.0, 10.0), 10.0) == 0.0
  {
  }
}
