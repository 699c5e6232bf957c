/** The draw routine of the interactive graph, with the canvas calls
    replaced by a list of abstract draw commands in the order they are
    issued: clear, white background, grid lines, the two axes, the
    parabola as one polyline and the labelled key points. Colours, line
    widths, fonts and the radius of the point markers are left to the
    canvas and are not modelled. */
module Render {
  import opened Quadratic
  import opened ViewWindow
  import opened Mapper

  /** The stroke a straight line belongs to. */
  datatype Layer = GridLayer | AxisLayer

  datatype PointKind = VertexPoint | RootPoint | InterceptPoint

  datatype Cmd =
    | Clear
    | Background
      /** A moveTo/lineTo pair of the grid or axis path, in pixels. */
    | Line(layer: Layer, x0: real, y0: real, x1: real, y1: real)
      /** The start of the parabola's path, in pixels. */
    | MoveTo(x: real, y: real)
      /** The next vertex of the parabola's path, in pixels. */
    | LineTo(x: real, y: real)
      /** A filled marker with its label, at a pixel position. */
    | Dot(kind: PointKind, x: real, y: real, text: string)

  /** The four label strings a draw routine writes beside its markers. */
  datatype Labels = Labels(vertex: string, first: string, second: string, intercept: string)

  /** The live page's canvas. */
  const LiveWidth: nat := 600
  const LiveHeight: nat := 300

  const LiveLabels := Labels("Vertex", "x\U{2081}", "x\U{2082}", "y-intercept")

  /** A key point in graph coordinates. */
  datatype KeyPoint = KeyPoint(kind: PointKind, x: real, y: real, text: string)

  /** Math.ceil on reals. */
  function Ceil(r: real): (n: int)
    ensures r <= n as real < r + 1.0
  {
    -((-r).Floor)
  }

  /** The integers the grid loop visits, from ceil(lo) to floor(hi). */
  function GridValues(lo: real, hi: real): seq<int>
  {
    var first := Ceil(lo);
    var last := hi.Floor;
    if last < first then [] else seq(last - first + 1, k requires 0 <= k <= last - first => first + k)
  }

  /** The vertical grid lines, one per integer abscissa of the window. */
  function Columns(v: Viewport, w: nat, h: nat): seq<Cmd>
    requires WellFormed(v)
  {
    var gs := GridValues(v.minX, v.maxX);
    seq(|gs|, k requires 0 <= k < |gs| =>
      Line(GridLayer, ToScreenX(v, w, gs[k] as real), 0.0, ToScreenX(v, w, gs[k] as real), h as real))
  }

  /** The horizontal grid lines, one per integer ordinate of the window. */
  function Rows(v: Viewport, w: nat, h: nat): seq<Cmd>
    requires WellFormed(v)
  {
    var gs := GridValues(v.minY, v.maxY);
    seq(|gs|, k requires 0 <= k < |gs| =>
      Line(GridLayer, 0.0, ToScreenY(v, h, gs[k] as real), w as real, ToScreenY(v, h, gs[k] as real)))
  }

  /** The y axis at x = 0 and then the x axis at y = 0. */
  function Axes(v: Viewport, w: nat, h: nat): seq<Cmd>
    requires WellFormed(v)
  {
    [Line(AxisLayer, ToScreenX(v, w, 0.0), 0.0, ToScreenX(v, w, 0.0), h as real),
     Line(AxisLayer, 0.0, ToScreenY(v, h, 0.0), w as real, ToScreenY(v, h, 0.0))]
  }

  /** The abscissa of the i-th of the w + 1 curve samples. */
  function CurveX(v: Viewport, w: nat, i: int): real
    requires w > 0
  {
    v.minX + (i as real / w as real) * (v.maxX - v.minX)
  }

  /** The command for the i-th curve sample: the first moves, the others draw. */
  function CurveStep(q: Coefficients, v: Viewport, w: nat, h: nat, i: int): Cmd
    requires WellFormed(v) && w > 0
  {
    var x := CurveX(v, w, i);
    var sx := ToScreenX(v, w, x);
    var sy := ToScreenY(v, h, Eval(q, x));
    if i == 0 then MoveTo(sx, sy) else LineTo(sx, sy)
  }

  /** The parabola, sampled once per pixel column i = 0..w. */
  function Curve(q: Coefficients, v: Viewport, w: nat, h: nat): seq<Cmd>
    requires WellFormed(v) && w > 0
  {
    seq(w + 1, i requires 0 <= i <= w => CurveStep(q, v, w, h, i))
  }

  /** The root markers, labelled by their index in the root list. */
  function RootPoints(roots: seq<real>, labels: Labels): seq<KeyPoint>
  {
    seq(|roots|, k requires 0 <= k < |roots| =>
      KeyPoint(RootPoint, roots[k], 0.0, if k == 0 then labels.first else labels.second))
  }

  /** The key points in the order they are drawn: vertex, roots, y-intercept. */
  function KeyPoints(vx: real, vy: real, roots: seq<real>, c: real, labels: Labels): seq<KeyPoint>
  {
    [KeyPoint(VertexPoint, vx, vy, labels.vertex)]
      + RootPoints(roots, labels)
      + [KeyPoint(InterceptPoint, 0.0, c, labels.intercept)]
  }

  /** The markers, each key point mapped to the canvas. */
  function Dots(v: Viewport, w: nat, h: nat, ps: seq<KeyPoint>): seq<Cmd>
    requires WellFormed(v)
  {
    seq(|ps|, k requires 0 <= k < |ps| =>
      Dot(ps[k].kind, ToScreenX(v, w, ps[k].x), ToScreenY(v, h, ps[k].y), ps[k].text))
  }

  /** What the draw routine issues once it has a window and the key
      points: clear, background, grid, axes, curve, markers. */
  function Picture(q: Coefficients, v: Viewport, w: nat, h: nat, ps: seq<KeyPoint>): seq<Cmd>
    requires WellFormed(v) && w > 0
  {
    [Clear, Background] + Columns(v, w, h) + Rows(v, w, h) + Axes(v, w, h) + Curve(q, v, w, h)
      + Dots(v, w, h, ps)
  }

  /** Everything one run of the draw routine issues, on a w by h canvas. */
  function Scene(q: Coefficients, sqrtD: real, w: nat, h: nat, labels: Labels): seq<Cmd>
    requires q.a != 0.0 && SqrtOfDisc(q, sqrtD) && w > 0
  {
    WindowWellFormed(q);
    var vertex := Vertex(q);
    Picture(q, Window(q), w, h, KeyPoints(vertex.x, vertex.y, Roots(q, sqrtD), q.c, labels))
  }

  // ---------------------------------------------------------------------
  // What the drawn picture shows.
  // ---------------------------------------------------------------------

  /** The grid loop visits exactly the integers of [lo, hi], in ascending
      order, one unit apart. */
  lemma {:induction false} GridValuesExact(lo: real, hi: real)
    ensures forall g :: g in GridValues(lo, hi) <==> lo <= g as real <= hi
    ensures forall i :: 0 <= i < |GridValues(lo, hi)| - 1 ==>
      GridValues(lo, hi)[i + 1] == GridValues(lo, hi)[i] + 1
  {
    var gs := GridValues(lo, hi);
    var first := Ceil(lo);
    forall g | lo <= g as real <= hi
      ensures g in gs
    {
      assert first <= g;
      assert g <= hi.Floor;
      assert gs[g - first] == g;
    }
  }

  /** The vertical grid lines run left to right across the canvas and the
      horizontal ones from the bottom of the canvas to its top, all of them
      on the canvas. */
  lemma GridLinesOrdered(v: Viewport, w: nat, h: nat)
    requires WellFormed(v) && w > 0 && h > 0
    ensures var cs := Columns(v, w, h);
      && (forall i, j :: 0 <= i < j < |cs| ==> cs[i].x0 < cs[j].x0)
      && (forall i :: 0 <= i < |cs| ==> 0.0 <= cs[i].x0 <= w as real)
    ensures var rs := Rows(v, w, h);
      && (forall i, j :: 0 <= i < j < |rs| ==> rs[i].y0 > rs[j].y0)
      && (forall i :: 0 <= i < |rs| ==> 0.0 <= rs[i].y0 <= h as real)
  {
    var gx := GridValues(v.minX, v.maxX);
    var gy := GridValues(v.minY, v.maxY);
    GridValuesExact(v.minX, v.maxX);
    GridValuesExact(v.minY, v.maxY);
    forall i, j | 0 <= i < j < |gx|
      ensures Columns(v, w, h)[i].x0 < Columns(v, w, h)[j].x0
    {
      assert gx[j] - gx[i] == j - i by { GridStep(v.minX, v.maxX, i, j); }
      ToScreenXIncreasing(v, w, gx[i] as real, gx[j] as real);
    }
    forall i | 0 <= i < |gx|
      ensures 0.0 <= Columns(v, w, h)[i].x0 <= w as real
    {
      assert gx[i] in gx;
      InsideWindowIsOnCanvas(v, w, h, gx[i] as real, v.minY);
    }
    forall i, j | 0 <= i < j < |gy|
      ensures Rows(v, w, h)[i].y0 > Rows(v, w, h)[j].y0
    {
      assert gy[j] - gy[i] == j - i by { GridStep(v.minY, v.maxY, i, j); }
      ToScreenYDecreasing(v, h, gy[i] as real, gy[j] as real);
    }
    forall i | 0 <= i < |gy|
      ensures 0.0 <= Rows(v, w, h)[i].y0 <= h as real
    {
      assert gy[i] in gy;
      InsideWindowIsOnCanvas(v, w, h, v.minX, gy[i] as real);
    }
  }

  lemma GridStep(lo: real, hi: real, i: int, j: int)
    requires 0 <= i <= j < |GridValues(lo, hi)|
    ensures GridValues(lo, hi)[j] - GridValues(lo, hi)[i] == j - i
  {
  }

  /** Sample i of the curve sits on pixel column i, so the curve has w + 1
      samples running from minX to maxX; the first starts the path, every
      other one extends it, and each is drawn at the height f(x). */
  lemma CurveShape(q: Coefficients, v: Viewport, w: nat, h: nat)
    requires WellFormed(v) && w > 0
    ensures |Curve(q, v, w, h)| == w + 1
    ensures CurveX(v, w, 0) == v.minX && CurveX(v, w, w) == v.maxX
    ensures Curve(q, v, w, h)[0].MoveTo?
    ensures forall i :: 1 <= i <= w ==> Curve(q, v, w, h)[i].LineTo?
    ensures forall i :: 0 <= i <= w ==>
      && Curve(q, v, w, h)[i].x == i as real
      && Curve(q, v, w, h)[i].y == ToScreenY(v, h, Eval(q, CurveX(v, w, i)))
  {
  }

  lemma SampleColumn(v: Viewport, w: nat, i: int)
    requires v.minX < v.maxX && w > 0
    ensures ToScreenX(v, w, CurveX(v, w, i)) == i as real
  {
  }

  /** The key points come in the order vertex, roots, y-intercept: 2 + |roots|
      of them, each root on the x-axis at its place in the list and labelled
      with the first label only when it is the first root, the y-intercept
      at (0, c). */
  lemma KeyPointsShape(vx: real, vy: real, roots: seq<real>, c: real, labels: Labels)
    ensures var ps := KeyPoints(vx, vy, roots, c, labels);
      && |ps| == 2 + |roots|
      && ps[0] == KeyPoint(VertexPoint, vx, vy, labels.vertex)
      && ps[|ps| - 1] == KeyPoint(InterceptPoint, 0.0, c, labels.intercept)
      && forall k :: 1 <= k <= |roots| ==>
           && ps[k].kind == RootPoint && ps[k].x == roots[k - 1] && ps[k].y == 0.0
           && ps[k].text == (if k == 1 then labels.first else labels.second)
  {
  }

  /** The y axis is the vertical line at screen x of 0 and the x axis the
      horizontal line at screen y of 0, each spanning the canvas. Each is
      drawn whether or not it is in view: it lands on the canvas exactly
      when 0 lies in the window's range on its axis. */
  lemma AxesPlacement(v: Viewport, w: nat, h: nat)
    requires WellFormed(v) && w > 0 && h > 0
    ensures var ax := Axes(v, w, h);
      && |ax| == 2
      && ax[0] == Line(AxisLayer, ToScreenX(v, w, 0.0), 0.0, ToScreenX(v, w, 0.0), h as real)
      && ax[1] == Line(AxisLayer, 0.0, ToScreenY(v, h, 0.0), w as real, ToScreenY(v, h, 0.0))
      && (0.0 <= ax[0].x0 <= w as real <==> v.minX <= 0.0 <= v.maxX)
      && (0.0 <= ax[1].y0 <= h as real <==> v.minY <= 0.0 <= v.maxY)
  {
    if 0.0 < v.minX {
      ToScreenXIncreasing(v, w, 0.0, v.minX);
    } else if v.maxX < 0.0 {
      ToScreenXIncreasing(v, w, v.maxX, 0.0);
    } else {
      InsideWindowIsOnCanvas(v, w, h, 0.0, v.minY);
    }
    if 0.0 < v.minY {
      ToScreenYDecreasing(v, h, 0.0, v.minY);
    } else if v.maxY < 0.0 {
      ToScreenYDecreasing(v, h, v.maxY, 0.0);
    } else {
      InsideWindowIsOnCanvas(v, w, h, v.minX, 0.0);
    }
  }

  /** Every key point of the picture lies on the parabola: the vertex, each
      listed root and the y-intercept. */
  lemma KeyPointsOnCurve(q: Coefficients, sqrtD: real, labels: Labels)
    requires q.a != 0.0 && SqrtOfDisc(q, sqrtD)
    ensures var vertex := Vertex(q);
      forall p :: p in KeyPoints(vertex.x, vertex.y, Roots(q, sqrtD), q.c, labels) ==>
        Eval(q, p.x) == p.y
  {
  }

  // ---------------------------------------------------------------------
  // The loops of the draw routine.
  // ---------------------------------------------------------------------

  /** The first grid loop, gx from ceil(minX) to floor(maxX). */
  method DrawColumns(v: Viewport, w: nat, h: nat) returns (cmds: seq<Cmd>)
    requires WellFormed(v)
    ensures cmds == Columns(v, w, h)
  {
    var first := Ceil(v.minX);
    var gx := first;
    cmds := [];
    while gx <= v.maxX.Floor
      invariant first <= gx
      invariant gx <= v.maxX.Floor + 1 || gx == first
      invariant cmds == Columns(v, w, h)[..gx - first]
    {
      var sx := ToScreenX(v, w, gx as real);
      cmds := cmds + [Line(GridLayer, sx, 0.0, sx, h as real)];
      gx := gx + 1;
    }
  }

  /** The second grid loop, gy from ceil(minY) to floor(maxY). */
  method DrawRows(v: Viewport, w: nat, h: nat) returns (cmds: seq<Cmd>)
    requires WellFormed(v)
    ensures cmds == Rows(v, w, h)
  {
    var first := Ceil(v.minY);
    var gy := first;
    cmds := [];
    while gy <= v.maxY.Floor
      invariant first <= gy
      invariant gy <= v.maxY.Floor + 1 || gy == first
      invariant cmds == Rows(v, w, h)[..gy - first]
    {
      var sy := ToScreenY(v, h, gy as real);
      cmds := cmds + [Line(GridLayer, 0.0, sy, w as real, sy)];
      gy := gy + 1;
    }
  }

  /** The curve loop, i from 0 to w, with its `first` flag choosing between
      starting the path and extending it. */
  method DrawCurve(q: Coefficients, v: Viewport, w: nat, h: nat) returns (cmds: seq<Cmd>)
    requires WellFormed(v) && w > 0
    ensures cmds == Curve(q, v, w, h)
  {
    cmds := [];
    var first := true;
    var i := 0;
    while i <= w
      invariant 0 <= i <= w + 1
      invariant first <==> i == 0
      invariant cmds == Curve(q, v, w, h)[..i]
    {
      var x := v.minX + (i as real / w as real) * (v.maxX - v.minX);
      var y := q.a * x * x + q.b * x + q.c;
      var sx := ToScreenX(v, w, x);
      var sy := ToScreenY(v, h, y);
      assert x == CurveX(v, w, i) && y == Eval(q, x);
      assert Curve(q, v, w, h)[i] == if i == 0 then MoveTo(sx, sy) else LineTo(sx, sy);
      if first {
        cmds := cmds + [MoveTo(sx, sy)];
        first := false;
      } else {
        cmds := cmds + [LineTo(sx, sy)];
      }
      i := i + 1;
    }
  }

  /** The key-point calls: the vertex, each root in list order, then the
      y-intercept. */
  method DrawKeyPoints(v: Viewport, w: nat, h: nat, vx: real, vy: real, roots: seq<real>,
                       c: real, labels: Labels)
    returns (cmds: seq<Cmd>)
    requires WellFormed(v)
    ensures cmds == Dots(v, w, h, KeyPoints(vx, vy, roots, c, labels))
  {
    ghost var ps := KeyPoints(vx, vy, roots, c, labels);
    cmds := [Dot(VertexPoint, ToScreenX(v, w, vx), ToScreenY(v, h, vy), labels.vertex)];
    var idx := 0;
    while idx < |roots|
      invariant 0 <= idx <= |roots|
      invariant cmds == Dots(v, w, h, ps)[..idx + 1]
    {
      var text := if idx == 0 then labels.first else labels.second;
      cmds := cmds + [Dot(RootPoint, ToScreenX(v, w, roots[idx]), ToScreenY(v, h, 0.0), text)];
      idx := idx + 1;
    }
    cmds := cmds + [Dot(InterceptPoint, ToScreenX(v, w, 0.0), ToScreenY(v, h, c), labels.intercept)];
  }

  /** The drawing calls of the draw routine, from the window and the key
      points it is handed, in the order it issues them. */
  method DrawPicture(q: Coefficients, v: Viewport, w: nat, h: nat,
                     vx: real, vy: real, roots: seq<real>, c: real, labels: Labels)
    returns (cmds: seq<Cmd>)
    requires WellFormed(v) && w > 0
    ensures cmds == Picture(q, v, w, h, KeyPoints(vx, vy, roots, c, labels))
  {
    cmds := [Clear, Background];
    var columns := DrawColumns(v, w, h);
    var rows := DrawRows(v, w, h);
    var curve := DrawCurve(q, v, w, h);
    var dots := DrawKeyPoints(v, w, h, vx, vy, roots, c, labels);
    cmds := cmds + columns + rows + Axes(v, w, h) + curve + dots;
  }

  /** One run of the live draw routine on a w by h canvas: the window from
      the sample loop, then the grid, axes, curve and key points. */
  method Draw(q: Coefficients, sqrtD: real, w: nat, h: nat) returns (cmds: seq<Cmd>)
    requires q.a != 0.0 && SqrtOfDisc(q, sqrtD) && w > 0
    ensures cmds == Scene(q, sqrtD, w, h, LiveLabels)
  {
    var vertex := Vertex(q);
    var roots := Roots(q, sqrtD);
    var v := ComputeWindow(q, vertex.x);
    WindowWellFormed(q);
    cmds := DrawPicture(q, v, w, h, vertex.x, vertex.y, roots, q.c, LiveLabels);
  }

  /** The draw routine on the live page's own 600 by 300 canvas. */
  method DrawLive(q: Coefficients, sqrtD: real) returns (cmds: seq<Cmd>)
    requires q.a != 0.0 && SqrtOfDisc(q, sqrtD)
    ensures cmds == Scene(q, sqrtD, LiveWidth, LiveHeight, LiveLabels)
  {
    cmds := Draw(q, sqrtD, LiveWidth, LiveHeight);
  }
}
