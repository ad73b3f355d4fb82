/**
 * Plane geometry used by the spinner: rectangles with margins taken off, and
 * the affine part of Qt's 3x3 `QTransform` (row-vector convention, so that in
 * `a * b` the map `a` is applied first).
 */
module Geometry {

  datatype Point = Point(x: real, y: real)

  /** A `QRectF`: top-left corner and size. */
  datatype Rect = Rect(x: real, y: real, width: real, height: real)
  {
    function Right(): real { x + width }
    function Bottom(): real { y + height }
  }

  /** Side of the normalised square all outlines are built in. */
  const NormWidth: real := 1000.0

  /** The normalised square, centred at the origin. */
  const NormRect: Rect := Rect(-NormWidth / 2.0, -NormWidth / 2.0, NormWidth, NormWidth)

  /** `rect - QMarginsF(m, m, m, m)`: the rectangle shrunk by `m` on every side. */
  function Shrink(r: Rect, m: real): (s: Rect)
    ensures s.Right() == r.Right() - m && s.Bottom() == r.Bottom() - m
    ensures s.x == r.x + m && s.y == r.y + m
    ensures s.x + s.Right() == r.x + r.Right() && s.y + s.Bottom() == r.y + r.Bottom()
  {
    Rect(r.x + m, r.y + m, r.width - 2.0 * m, r.height - 2.0 * m)
  }

  /** The affine part of a `QTransform`. */
  datatype Transform = Transform(m11: real, m12: real, m21: real, m22: real, dx: real, dy: real)

  /** `QTransform.map` of a point. */
  function Map(t: Transform, p: Point): Point {
    Point(t.m11 * p.x + t.m21 * p.y + t.dx, t.m12 * p.x + t.m22 * p.y + t.dy)
  }

  /** `QTransform().scale(sx, sy)`. */
  function Scaling(sx: real, sy: real): Transform {
    Transform(sx, 0.0, 0.0, sy, 0.0, 0.0)
  }

  /** `QTransform().translate(tx, ty)`. */
  function Translation(tx: real, ty: real): Transform {
    Transform(1.0, 0.0, 0.0, 1.0, tx, ty)
  }

  /** `a * b`: the matrix product, which maps through `a` and then through `b`. */
  function Compose(a: Transform, b: Transform): Transform {
    Transform(a.m11 * b.m11 + a.m12 * b.m21, a.m11 * b.m12 + a.m12 * b.m22,
              a.m21 * b.m11 + a.m22 * b.m21, a.m21 * b.m12 + a.m22 * b.m22,
              a.dx * b.m11 + a.dy * b.m21 + b.dx, a.dx * b.m12 + a.dy * b.m22 + b.dy)
  }

  /** The product of two transforms maps a point through the first, then the second. */
  lemma ComposeMap(a: Transform, b: Transform, p: Point)
    ensures Map(Compose(a, b), p) == Map(b, Map(a, p))
  {
    var c, q := Compose(a, b), Map(a, p);
    assert Map(c, p).x == Map(b, q).x by {
      LinearCombination(b.m11, b.m21, b.dx, a.m11, a.m21, a.dx, a.m12, a.m22, a.dy, p);
    }
    assert Map(c, p).y == Map(b, q).y by {
      LinearCombination(b.m12, b.m22, b.dy, a.m11, a.m21, a.dx, a.m12, a.m22, a.dy, p);
    }
  }

  /** `u * (a1 x + a2 y + a3) + v * (b1 x + b2 y + b3) + c`, regrouped by `x` and `y`. */
  lemma LinearCombination(u: real, v: real, c: real, a1: real, a2: real, a3: real,
                          b1: real, b2: real, b3: real, p: Point)
    ensures u * (a1 * p.x + a2 * p.y + a3) + v * (b1 * p.x + b2 * p.y + b3) + c
         == (a1 * u + b1 * v) * p.x + (a2 * u + b2 * v) * p.y + (a3 * u + b3 * v + c)
  {
    Distribute(u, a1 * p.x, a2 * p.y, a3);
    Distribute(v, b1 * p.x, b2 * p.y, b3);
    assert u * (a1 * p.x) + v * (b1 * p.x) == (a1 * u + b1 * v) * p.x by {
      Regroup(u, a1, v, b1, p.x);
    }
    assert u * (a2 * p.y) + v * (b2 * p.y) == (a2 * u + b2 * v) * p.y by {
      Regroup(u, a2, v, b2, p.y);
    }
  }

  lemma Regroup(u: real, a: real, v: real, b: real, x: real)
    ensures u * (a * x) + v * (b * x) == (a * u + b * v) * x
  {
  }

  lemma ScaleCancels(a: real, W: real)
    requires W != 0.0
    ensures a * (W / 1000.0) * 1000.0 / W == a
  {
    assert a * (W / 1000.0) * 1000.0 == a * W;
    assert a * W / W == a;
  }

  lemma Distribute(k: real, u: real, v: real, w: real)
    ensures k * (u + v + w) == k * u + k * v + k * w
  {
  }

  /** `QWidget.rect()`: the widget's own rectangle, always at the origin. */
  function WidgetRect(w: int, h: int): Rect {
    Rect(0.0, 0.0, w as real, h as real)
  }

  /** The scale part of the viewport transform: normalised square size to widget size. */
  function ScaleTransform(rect: Rect): Transform {
    Scaling(rect.width / NormRect.width, rect.height / NormRect.height)
  }

  /** The translate part: moves the normalised square's corner onto the widget's corner. */
  function TranslateTransform(rect: Rect): Transform {
    Translation(rect.x - NormRect.x, rect.y - NormRect.y)
  }

  /** The transform the paths are painted through: translate first, then scale. */
  function ViewportTransform(w: int, h: int): Transform {
    Compose(TranslateTransform(WidgetRect(w, h)), ScaleTransform(WidgetRect(w, h)))
  }

  /** What the viewport transform does to a normalised point. */
  lemma ViewportMap(w: int, h: int, p: Point)
    ensures Map(ViewportTransform(w, h), p)
         == Point((p.x + 500.0) * (w as real / 1000.0), (p.y + 500.0) * (h as real / 1000.0))
  {
    var r := WidgetRect(w, h);
    ComposeMap(TranslateTransform(r), ScaleTransform(r), p);
    assert TranslateTransform(r) == Translation(500.0, 500.0);
    assert ScaleTransform(r) == Scaling(w as real / 1000.0, h as real / 1000.0);
    var t := Map(Translation(500.0, 500.0), p);
    assert t == Point(p.x + 500.0, p.y + 500.0);
  }

  /** The normalised square's corners land on the widget's corners. */
  lemma ViewportCorners(w: int, h: int)
    ensures Map(ViewportTransform(w, h), Point(-500.0, -500.0)) == Point(0.0, 0.0)
    ensures Map(ViewportTransform(w, h), Point(500.0, 500.0)) == Point(w as real, h as real)
    ensures Map(ViewportTransform(w, h), Point(0.0, 0.0)) == Point(w as real / 2.0, h as real / 2.0)
  {
    ViewportMap(w, h, Point(-500.0, -500.0));
    ViewportMap(w, h, Point(500.0, 500.0));
    ViewportMap(w, h, Point(0.0, 0.0));
  }

  /** Every point of the normalised square lands inside the widget rectangle. */
  lemma ViewportInside(w: nat, h: nat, p: Point)
    requires -500.0 <= p.x <= 500.0 && -500.0 <= p.y <= 500.0
    ensures var q := Map(ViewportTransform(w, h), p);
      0.0 <= q.x <= w as real && 0.0 <= q.y <= h as real
  {
    ViewportMap(w, h, p);
    var fx, fy := (p.x + 500.0) / 1000.0, (p.y + 500.0) / 1000.0;
    assert 0.0 <= fx <= 1.0 && 0.0 <= fy <= 1.0;
    assert (p.x + 500.0) * (w as real / 1000.0) == fx * w as real;
    assert (p.y + 500.0) * (h as real / 1000.0) == fy * h as real;
  }

  /** From widget coordinates back to normalised ones (the inverse of the viewport transform). */
  function Normalise(w: int, h: int, q: Point): Point
    requires w != 0 && h != 0
  {
    Point(q.x * 1000.0 / w as real - 500.0, q.y * 1000.0 / h as real - 500.0)
  }

  /** For a non-empty widget the viewport transform is invertible, in both directions. */
  lemma ViewportRoundTrip(w: int, h: int, p: Point, q: Point)
    requires w != 0 && h != 0
    ensures Normalise(w, h, Map(ViewportTransform(w, h), p)) == p
    ensures Map(ViewportTransform(w, h), Normalise(w, h, q)) == q
  {
    ViewportMap(w, h, p);
    ViewportMap(w, h, Normalise(w, h, q));
    var W, H := w as real, h as real;
    ScaleCancels(p.x + 500.0, W);
    ScaleCancels(p.y + 500.0, H);
    assert (q.x * 1000.0 / W - 500.0 + 500.0) * (W / 1000.0) == q.x;
    assert (q.y * 1000.0 / H - 500.0 + 500.0) * (H / 1000.0) == q.y;
  }
}
