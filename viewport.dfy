/** The view window of the draw routine: eleven sample abscissae one unit
    apart around the vertex, the x range they span widened by one unit on
    each side, and the y range of the sampled heights and of c widened by
    two units on each side. */
module ViewWindow {
  import opened Quadratic

  datatype Viewport = Viewport(minX: real, maxX: real, minY: real, maxY: real)

  /** Neither axis of the window is degenerate, so both screen maps are
      well defined. */
  predicate WellFormed(v: Viewport)
  {
    v.minX < v.maxX && v.minY < v.maxY
  }

  /** The smallest element of a non-empty list, as Math.min spreads it. */
  function MinOf(s: seq<real>): (m: real)
    requires |s| > 0
    ensures m in s
    ensures forall i :: 0 <= i < |s| ==> m <= s[i]
  {
    if |s| == 1 then s[0]
    else
      var rest := MinOf(s[1..]);
      if s[0] <= rest then s[0] else rest
  }

  /** The largest element of a non-empty list, as Math.max spreads it. */
  function MaxOf(s: seq<real>): (m: real)
    requires |s| > 0
    ensures m in s
    ensures forall i :: 0 <= i < |s| ==> s[i] <= m
  {
    if |s| == 1 then s[0]
    else
      var rest := MaxOf(s[1..]);
      if s[0] >= rest then s[0] else rest
  }

  /** The sample abscissae xv - 5, ..., xv + 5, in the order they are pushed. */
  function Samples(xv: real): seq<real>
  {
    seq(11, k requires 0 <= k < 11 => xv + (k - 5) as real)
  }

  /** The loop that pushes the samples, i running from -5 to 5. */
  method SampleXs(xv: real) returns (xs: seq<real>)
    ensures xs == Samples(xv)
  {
    xs := [];
    var i := -5;
    while i <= 5
      invariant -5 <= i <= 6
      invariant |xs| == i + 5
      invariant forall k :: 0 <= k < |xs| ==> xs[k] == xv + (k - 5) as real
    {
      xs := xs + [i as real + xv];
      i := i + 1;
    }
  }

  /** The heights f(x) of the samples. */
  function SampleHeights(q: Coefficients, xs: seq<real>): seq<real>
  {
    seq(|xs|, k requires 0 <= k < |xs| => Eval(q, xs[k]))
  }

  /** The window the draw routine computes from the coefficients. */
  function Window(q: Coefficients): Viewport
    requires q.a != 0.0
  {
    var xv := Vertex(q).x;
    var xs := Samples(xv);
    var ys := SampleHeights(q, xs);
    Viewport(MinOf([-5.0 + xv] + xs) - 1.0, MaxOf([5.0 + xv] + xs) + 1.0,
             MinOf(ys + [q.c]) - 2.0, MaxOf(ys + [q.c]) + 2.0)
  }

  /** The window computation of the draw routine, from the vertex
      abscissa it is handed. */
  method ComputeWindow(q: Coefficients, xv: real) returns (v: Viewport)
    requires q.a != 0.0 && xv == Vertex(q).x
    ensures v == Window(q)
  {
    var xs := SampleXs(xv);
    var ys := SampleHeights(q, xs);
    v := Viewport(MinOf([-5.0 + xv] + xs) - 1.0, MaxOf([5.0 + xv] + xs) + 1.0,
                  MinOf(ys + [q.c]) - 2.0, MaxOf(ys + [q.c]) + 2.0);
  }

  /** The x range is the twelve units centred on the vertex. */
  lemma WindowX(q: Coefficients)
    requires q.a != 0.0
    ensures Window(q).minX == Vertex(q).x - 6.0
    ensures Window(q).maxX == Vertex(q).x + 6.0
  {
  }

  /** The y range holds the y-intercept height c and the vertex height with
      at least two units to spare on each side, and its ends lie exactly two
      units beyond a sampled height or c. */
  lemma WindowY(q: Coefficients)
    requires q.a != 0.0
    ensures Window(q).minY <= q.c - 2.0 && q.c + 2.0 <= Window(q).maxY
    ensures Window(q).minY <= Vertex(q).y - 2.0 && Vertex(q).y + 2.0 <= Window(q).maxY
    ensures Window(q).minY + 2.0 in SampleHeights(q, Samples(Vertex(q).x)) + [q.c]
    ensures Window(q).maxY - 2.0 in SampleHeights(q, Samples(Vertex(q).x)) + [q.c]
  {
    var v := Vertex(q);
    var ys := SampleHeights(q, Samples(v.x)) + [q.c];
    var lo := MinOf(ys);
    var hi := MaxOf(ys);
    assert Window(q).minY == lo - 2.0 && Window(q).maxY == hi + 2.0;
    assert ys[11] == q.c;
    assert Samples(v.x)[5] == v.x;
    assert ys[5] == v.y;
    assert lo <= ys[5] && lo <= ys[11];
    assert ys[5] <= hi && ys[11] <= hi;
  }

  /** The window computed for any coefficients is well formed: twelve units
      wide and at least four units tall. */
  lemma WindowWellFormed(q: Coefficients)
    requires q.a != 0.0
    ensures WellFormed(Window(q))
    ensures Window(q).maxX - Window(q).minX == 12.0
    ensures Window(q).maxY - Window(q).minY >= 4.0
  {
  }

  /** Sample k sits k - 5 units from the axis, so its height is
      yv + a (k - 5)^2; the outermost samples are the highest when the
      parabola opens up and the lowest when it opens down. */
  lemma SampleHeight(q: Coefficients, k: int)
    requires q.a != 0.0 && 0 <= k < 11
    ensures Eval(q, Samples(Vertex(q).x)[k]) - Vertex(q).y == q.a * ((k - 5) * (k - 5)) as real
    ensures q.a > 0.0 ==> Eval(q, Samples(Vertex(q).x)[k]) <= Vertex(q).y + 25.0 * q.a
    ensures q.a < 0.0 ==> Eval(q, Samples(Vertex(q).x)[k]) >= Vertex(q).y + 25.0 * q.a
  {
    if k <= 5 {
      LeftSampleHeight(q, k);
    } else {
      RightSampleHeight(q, k);
    }
  }

  /** SampleHeight for the samples left of the axis and the axis itself. */
  lemma LeftSampleHeight(q: Coefficients, k: int)
    requires q.a != 0.0 && 0 <= k <= 5
    ensures Eval(q, Samples(Vertex(q).x)[k]) - Vertex(q).y == q.a * ((k - 5) * (k - 5)) as real
    ensures q.a > 0.0 ==> Eval(q, Samples(Vertex(q).x)[k]) <= Vertex(q).y + 25.0 * q.a
    ensures q.a < 0.0 ==> Eval(q, Samples(Vertex(q).x)[k]) >= Vertex(q).y + 25.0 * q.a
  {
    var v := Vertex(q);
    assert Samples(v.x)[k] == v.x + (k - 5) as real;
    if k == 0 { VertexForm(q, v.x - 5.0); }
    else if k == 1 { VertexForm(q, v.x - 4.0); }
    else if k == 2 { VertexForm(q, v.x - 3.0); }
    else if k == 3 { VertexForm(q, v.x - 2.0); }
    else if k == 4 { VertexForm(q, v.x - 1.0); }
    else { VertexForm(q, v.x); }
  }

  /** SampleHeight for the samples right of the axis. */
  lemma RightSampleHeight(q: Coefficients, k: int)
    requires q.a != 0.0 && 5 < k < 11
    ensures Eval(q, Samples(Vertex(q).x)[k]) - Vertex(q).y == q.a * ((k - 5) * (k - 5)) as real
    ensures q.a > 0.0 ==> Eval(q, Samples(Vertex(q).x)[k]) <= Vertex(q).y + 25.0 * q.a
    ensures q.a < 0.0 ==> Eval(q, Samples(Vertex(q).x)[k]) >= Vertex(q).y + 25.0 * q.a
  {
    var v := Vertex(q);
    assert Samples(v.x)[k] == v.x + (k - 5) as real;
    if k == 6 { VertexForm(q, v.x + 1.0); }
    else if k == 7 { VertexForm(q, v.x + 2.0); }
    else if k == 8 { VertexForm(q, v.x + 3.0); }
    else if k == 9 { VertexForm(q, v.x + 4.0); }
    else { VertexForm(q, v.x + 5.0); }
  }

  /** Every sampled height lies between the vertex height and the height
      of the outermost samples. */
  lemma HeightsBetween(q: Coefficients)
    requires q.a != 0.0
    ensures var v := Vertex(q); var ys := SampleHeights(q, Samples(v.x));
      && ys[5] == v.y && ys[0] == v.y + 25.0 * q.a
      && forall k :: 0 <= k < |ys| ==>
           && (q.a > 0.0 ==> v.y <= ys[k] <= v.y + 25.0 * q.a)
           && (q.a < 0.0 ==> v.y + 25.0 * q.a <= ys[k] <= v.y)
  {
    var v := Vertex(q);
    var xs := Samples(v.x);
    assert xs[5] == v.x;
    SampleHeight(q, 0);
    forall k | 0 <= k < 11
      ensures q.a > 0.0 ==> v.y <= Eval(q, xs[k]) <= v.y + 25.0 * q.a
      ensures q.a < 0.0 ==> v.y + 25.0 * q.a <= Eval(q, xs[k]) <= v.y
    {
      SampleHeight(q, k);
      VertexIsExtremum(q, xs[k]);
    }
  }

  /** Appending c to a list whose values span [lo, hi], both attained,
      gives a list whose extremes are min(lo, c) and max(hi, c). */
  lemma ExtremesWithIntercept(hs: seq<real>, c: real, lo: real, hi: real)
    requires lo in hs && hi in hs
    requires forall k :: 0 <= k < |hs| ==> lo <= hs[k] <= hi
    ensures MinOf(hs + [c]) == if lo <= c then lo else c
    ensures MaxOf(hs + [c]) == if hi >= c then hi else c
  {
    var ys := hs + [c];
    var m := MinOf(ys);
    var n := MaxOf(ys);
    assert ys[|hs|] == c;
    assert forall k :: 0 <= k < |hs| ==> ys[k] == hs[k];
    assert lo in ys && hi in ys;
  }

  /** The y range in closed form. Opening up, it runs from the lower of
      the vertex and c to the higher of the outermost samples and c;
      opening down, the other way round. */
  lemma WindowYClosedForm(q: Coefficients)
    requires q.a != 0.0
    ensures var v := Vertex(q); var w := Window(q); var e := v.y + 25.0 * q.a;
      && (q.a > 0.0 ==>
            w.minY == (if v.y <= q.c then v.y else q.c) - 2.0 &&
            w.maxY == (if e >= q.c then e else q.c) + 2.0)
      && (q.a < 0.0 ==>
            w.minY == (if e <= q.c then e else q.c) - 2.0 &&
            w.maxY == (if v.y >= q.c then v.y else q.c) + 2.0)
  {
    var v := Vertex(q);
    var e := v.y + 25.0 * q.a;
    var hs := SampleHeights(q, Samples(v.x));
    HeightsBetween(q);
    assert v.y == hs[5] && e == hs[0];
    if q.a > 0.0 {
      ExtremesWithIntercept(hs, q.c, v.y, e);
    } else {
      ExtremesWithIntercept(hs, q.c, e, v.y);
    }
  }

  /** The window only follows the vertex: for f(x) = x^2/2 - 10x, which
      the sliders can set, the window spans x in [4, 16], so the
      y-intercept at x = 0 and both roots, 0 and 20, are outside it. */
  lemma InterceptMayLeaveWindow()
    ensures var q := Coefficients(0.5, -10.0, 0.0);
      && Window(q).minX == 4.0 && Window(q).maxX == 16.0
      && Roots(q, 10.0) == [0.0, 20.0]
  {
    var q := Coefficients(0.5, -10.0, 0.0);
    assert Discriminant(q) == 100.0;
    assert Roots(q, 10.0) == [0.0 / 1.0, 20.0 / 1.0];
    assert Vertex(q).x == 10.0 / 1.0;
    WindowX(q);
  }
}
