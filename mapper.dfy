/** The affine maps from graph coordinates to canvas pixels. The canvas is
    w by h pixels with its origin at the top left, so the y axis is flipped. */
module Mapper {
  import opened ViewWindow

  /** `toScreenX`: minX goes to the left edge and maxX to the right edge. */
  function ToScreenX(v: Viewport, w: nat, x: real): (sx: real)
    requires v.minX < v.maxX
    ensures x == v.minX ==> sx == 0.0
    ensures x == v.maxX ==> sx == w as real
  {
    assert (v.maxX - v.minX) / (v.maxX - v.minX) == 1.0;
    ((x - v.minX) / (v.maxX - v.minX)) * w as real
  }

  /** `toScreenY`: minY goes to the bottom edge and maxY to the top edge. */
  function ToScreenY(v: Viewport, h: nat, y: real): (sy: real)
    requires v.minY < v.maxY
    ensures y == v.minY ==> sy == h as real
    ensures y == v.maxY ==> sy == 0.0
  {
    assert (v.maxY - v.minY) / (v.maxY - v.minY) == 1.0;
    h as real - ((y - v.minY) / (v.maxY - v.minY)) * h as real
  }

  /** x' = (p / k) * w is strictly increasing in p for k, w > 0. */
  lemma ScaleIncreasing(p1: real, p2: real, k: real, w: real)
    requires k > 0.0 && w > 0.0 && p1 < p2
    ensures (p1 / k) * w < (p2 / k) * w
  {
  }

  /** A point further right lands further right on the canvas. */
  lemma ToScreenXIncreasing(v: Viewport, w: nat, x1: real, x2: real)
    requires v.minX < v.maxX && w > 0
    requires x1 < x2
    ensures ToScreenX(v, w, x1) < ToScreenX(v, w, x2)
  {
    ScaleIncreasing(x1 - v.minX, x2 - v.minX, v.maxX - v.minX, w as real);
  }

  /** A higher point lands higher on the canvas, that is at a smaller
      pixel row. */
  lemma ToScreenYDecreasing(v: Viewport, h: nat, y1: real, y2: real)
    requires v.minY < v.maxY && h > 0
    requires y1 < y2
    ensures ToScreenY(v, h, y1) > ToScreenY(v, h, y2)
  {
    ScaleIncreasing(y1 - v.minY, y2 - v.minY, v.maxY - v.minY, h as real);
  }

  /** Points inside the window land on the canvas. */
  lemma InsideWindowIsOnCanvas(v: Viewport, w: nat, h: nat, x: real, y: real)
    requires WellFormed(v)
    requires v.minX <= x <= v.maxX && v.minY <= y <= v.maxY
    ensures 0.0 <= ToScreenX(v, w, x) <= w as real
    ensures 0.0 <= ToScreenY(v, h, y) <= h as real
  {
    ShareOfLength(x - v.minX, v.maxX - v.minX, w as real);
    ShareOfLength(y - v.minY, v.maxY - v.minY, h as real);
  }

  /** A part p of a length k, scaled to w, lies between 0 and w. */
  lemma ShareOfLength(p: real, k: real, w: real)
    requires 0.0 <= p <= k && k > 0.0 && w >= 0.0
    ensures 0.0 <= (p / k) * w <= w
  {
    var f := p / k;
    assert f * k == p && (1.0 - f) * k == k - p;
    assert 0.0 <= f <= 1.0;
    assert 0.0 <= f * w && (1.0 - f) * w >= 0.0;
  }

  /** Screen x is linear: equal steps in x are equal steps in pixels. */
  lemma ToScreenXAffine(v: Viewport, w: nat, x: real, t: real)
    requires v.minX < v.maxX
    ensures ToScreenX(v, w, x + t) - ToScreenX(v, w, x)
         == (t / (v.maxX - v.minX)) * w as real
  {
  }

  /** Screen y is linear too, and flipped: a step up of t in y is a step
      of the same scaled size towards the top of the canvas. */
  lemma ToScreenYAffine(v: Viewport, h: nat, y: real, t: real)
    requires v.minY < v.maxY
    ensures ToScreenY(v, h, y + t) - ToScreenY(v, h, y)
         == -((t / (v.maxY - v.minY)) * h as real)
  {
  }
}
