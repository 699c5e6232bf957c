/** The math engine: the memoised discriminant, vertex, real roots and
    evaluation of f(x) = a*x^2 + b*x + c, over exact reals.

    Math.sqrt is code this model cannot see; the value it returns for the
    discriminant is passed in as `sqrtD`, and `SqrtOfDisc` states the only
    facts the engine relies on: it is non-negative and squares to D. */
module Quadratic {

  datatype Coefficients = Coefficients(a: real, b: real, c: real)

  datatype Point = Point(x: real, y: real)

  /** f(x), the `yAtX` memo. The graph meets the y axis at height c. */
  function Eval(q: Coefficients, x: real): (y: real)
    ensures x == 0.0 ==> y == q.c
  {
    q.a * x * x + q.b * x + q.c
  }

  /** The `disc` memo, b^2 - 4ac. It is never negative when a and c
      differ in sign (or one is zero), so such a parabola has a real root. */
  function Discriminant(q: Coefficients): (d: real)
    ensures q.a * q.c <= 0.0 ==> d >= 0.0
  {
    q.b * q.b - 4.0 * q.a * q.c
  }

  /** The vertex memo: x = -b/(2a) and y computed from it as the vertex
      memo writes it. It is the stationary point of f and its height is -D/(4a). */
  function Vertex(q: Coefficients): (v: Point)
    requires q.a != 0.0
    ensures 2.0 * q.a * v.x + q.b == 0.0
    ensures v.y == Eval(q, v.x)
    ensures 4.0 * q.a * v.y == -Discriminant(q)
  {
    var xv := -q.b / (2.0 * q.a);
    var yv := q.a * xv * xv + q.b * xv + q.c;
    assert q.b == -2.0 * q.a * xv;
    Point(xv, yv)
  }

  /** What Math.sqrt is trusted to return for the discriminant. It is
      only consulted when D > 0. */
  predicate SqrtOfDisc(q: Coefficients, sqrtD: real)
  {
    Discriminant(q) > 0.0 ==> sqrtD >= 0.0 && sqrtD * sqrtD == Discriminant(q)
  }

  /** The `roots` memo: no root, the double root, or the two roots in the
      order the formula lists them, (-b - sqrt D)/(2a) first. */
  function Roots(q: Coefficients, sqrtD: real): (r: seq<real>)
    requires q.a != 0.0
    requires SqrtOfDisc(q, sqrtD)
    ensures Discriminant(q) < 0.0 <==> |r| == 0
    ensures Discriminant(q) == 0.0 <==> |r| == 1
    ensures Discriminant(q) > 0.0 <==> |r| == 2
  {
    var d := Discriminant(q);
    if d < 0.0 then []
    else if d == 0.0 then [-q.b / (2.0 * q.a)]
    else [(-q.b - sqrtD) / (2.0 * q.a), (-q.b + sqrtD) / (2.0 * q.a)]
  }

  /** Completing the square: 4a f(x) = (2ax + b)^2 - D. */
  lemma CompletedSquare(q: Coefficients, x: real)
    ensures 4.0 * q.a * Eval(q, x) == (2.0 * q.a * x + q.b) * (2.0 * q.a * x + q.b) - Discriminant(q)
  {
  }

  /** Vertex form: f(x) = a (x - xv)^2 + yv. */
  lemma VertexForm(q: Coefficients, x: real)
    requires q.a != 0.0
    ensures Eval(q, x) == q.a * (x - Vertex(q).x) * (x - Vertex(q).x) + Vertex(q).y
  {
  }

  /** x = xv is the axis of symmetry of the parabola. */
  lemma AxisOfSymmetry(q: Coefficients, t: real)
    requires q.a != 0.0
    ensures Eval(q, Vertex(q).x + t) == Eval(q, Vertex(q).x - t)
  {
  }

  /** The vertex is the minimum when the parabola opens up (a > 0) and the
      maximum when it opens down (a < 0); no other point reaches its height. */
  lemma VertexIsExtremum(q: Coefficients, x: real)
    requires q.a != 0.0
    ensures q.a > 0.0 ==> Vertex(q).y <= Eval(q, x)
    ensures q.a < 0.0 ==> Vertex(q).y >= Eval(q, x)
    ensures x != Vertex(q).x && q.a > 0.0 ==> Vertex(q).y < Eval(q, x)
    ensures x != Vertex(q).x && q.a < 0.0 ==> Vertex(q).y > Eval(q, x)
  {
    var v := Vertex(q);
    var u := 2.0 * q.a * x + q.b;
    CompletedSquare(q, x);
    assert 4.0 * q.a * (Eval(q, x) - v.y) == u * u;
    assert u == 2.0 * q.a * (x - v.x);
    if x != v.x {
      NonzeroProduct(2.0 * q.a, x - v.x);
      PositiveSquare(u);
    }
    SignFromScaled(4.0 * q.a, Eval(q, x) - v.y, u * u);
  }

  /** If m * e is a square s, e has the sign of m (strictly when s > 0). */
  lemma SignFromScaled(m: real, e: real, s: real)
    requires m != 0.0 && m * e == s && s >= 0.0
    ensures m > 0.0 ==> e >= 0.0
    ensures m < 0.0 ==> e <= 0.0
    ensures s > 0.0 && m > 0.0 ==> e > 0.0
    ensures s > 0.0 && m < 0.0 ==> e < 0.0
  {
  }

  /** Every listed root is a zero of f, and every real zero of f is listed. */
  lemma RootsAreExactlyTheZeros(q: Coefficients, sqrtD: real, x: real)
    requires q.a != 0.0
    requires SqrtOfDisc(q, sqrtD)
    ensures Eval(q, x) == 0.0 <==> x in Roots(q, sqrtD)
  {
    var d := Discriminant(q);
    var u := 2.0 * q.a * x + q.b;
    CompletedSquare(q, x);
    if d < 0.0 {
      assert u * u >= 0.0;
    } else if d == 0.0 {
      DoubleRootCase(q, sqrtD, x);
    } else {
      if Eval(q, x) == 0.0 {
        assert u * u == d;
      } else {
        NonzeroProduct(4.0 * q.a, Eval(q, x));
        assert u * u != d;
      }
      TwoRootCase(q, sqrtD, x);
    }
  }

  lemma DoubleRootCase(q: Coefficients, sqrtD: real, x: real)
    requires q.a != 0.0 && Discriminant(q) == 0.0
    ensures Eval(q, x) == 0.0 <==> x in Roots(q, sqrtD)
  {
    var v := Vertex(q);
    assert Roots(q, sqrtD) == [v.x];
    if v.y != 0.0 {
      NonzeroProduct(4.0 * q.a, v.y);
    }
    VertexIsExtremum(q, x);
  }

  lemma TwoRootCase(q: Coefficients, sqrtD: real, x: real)
    requires q.a != 0.0 && Discriminant(q) > 0.0
    requires SqrtOfDisc(q, sqrtD)
    ensures var u := 2.0 * q.a * x + q.b;
      u * u == Discriminant(q) <==> x in Roots(q, sqrtD)
  {
    var u := 2.0 * q.a * x + q.b;
    var s := sqrtD;
    var r1 := (-q.b - s) / (2.0 * q.a);
    var r2 := (-q.b + s) / (2.0 * q.a);
    assert Roots(q, sqrtD) == [r1, r2];
    EqualSquares(u, s);
    OnQuotient(2.0 * q.a, -q.b - s, x);
    OnQuotient(2.0 * q.a, -q.b + s, x);
  }

  /** Two numbers have the same square exactly when they are equal or
      opposite. */
  lemma EqualSquares(u: real, s: real)
    ensures u * u == s * s <==> u == s || u == -s
  {
    assert u * u - s * s == (u - s) * (u + s);
    if u != s && u != -s {
      NonzeroProduct(u - s, u + s);
    }
  }

  /** x is n / m exactly when m x - n vanishes. */
  lemma OnQuotient(m: real, n: real, x: real)
    requires m != 0.0
    ensures x == n / m <==> m * x - n == 0.0
  {
    assert m * (n / m) == n;
    assert m * x - n == m * (x - n / m);
    if x != n / m {
      NonzeroProduct(m, x - n / m);
    }
  }

  lemma NonzeroProduct(m: real, n: real)
    requires m != 0.0 && n != 0.0
    ensures m * n != 0.0
  {
  }

  lemma PositiveSquare(u: real)
    requires u != 0.0
    ensures u * u > 0.0
  {
  }

  /** With two roots they are distinct, and the first is the smaller one
      exactly when the parabola opens up: for a < 0 the formula order lists
      the larger root first. */
  lemma RootOrder(q: Coefficients, sqrtD: real)
    requires q.a != 0.0
    requires SqrtOfDisc(q, sqrtD)
    requires Discriminant(q) > 0.0
    ensures Roots(q, sqrtD)[0] != Roots(q, sqrtD)[1]
    ensures Roots(q, sqrtD)[0] < Roots(q, sqrtD)[1] <==> q.a > 0.0
  {
  }

  /** A double root sits at the vertex, which then lies on the x-axis. */
  lemma DoubleRootIsVertex(q: Coefficients, sqrtD: real)
    requires q.a != 0.0
    requires SqrtOfDisc(q, sqrtD)
    requires Discriminant(q) == 0.0
    ensures Roots(q, sqrtD) == [Vertex(q).x]
    ensures Vertex(q).y == 0.0
  {
  }

  /** The roots depend only on the coefficients, not on which admissible
      value the square root supplies: the non-negative square root is unique. */
  lemma RootsIndependentOfSqrt(q: Coefficients, s1: real, s2: real)
    requires q.a != 0.0
    requires SqrtOfDisc(q, s1) && SqrtOfDisc(q, s2)
    ensures Roots(q, s1) == Roots(q, s2)
  {
    if Discriminant(q) > 0.0 {
      assert (s1 - s2) * (s1 + s2) == 0.0;
      assert s1 + s2 > 0.0;
      assert s1 == s2;
    }
  }

  /** a = 2, b = -8, c = 6: vertex (2, -2), D = 16, roots 1 then 3,
      y-intercept 6. */
  lemma ExampleOpensUp()
    ensures var q := Coefficients(2.0, -8.0, 6.0);
      && Vertex(q) == Point(2.0, -2.0) && Discriminant(q) == 16.0
      && Roots(q, 4.0) == [1.0, 3.0] && Eval(q, 0.0) == 6.0
  {
  }

  /** a = -1, b = 0, c = 1: D = 4 and the formula lists the root 1 before
      the root -1. */
  lemma ExampleOpensDown()
    ensures var q := Coefficients(-1.0, 0.0, 1.0);
      && Discriminant(q) == 4.0 && Roots(q, 2.0) == [1.0, -1.0]
  {
  }
}
