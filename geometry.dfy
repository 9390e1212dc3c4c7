/**
 * Points, the view rotation and the orthographic projection of the renderer.
 * Dafny has no trigonometry: the cosine and sine of each angle are passed in
 * as real values, the numbers `Math.cos` and `Math.sin` would return.
 */
module Geometry {

  datatype Point3 = Point3(x: real, y: real, z: real)

  /** A point on the canvas, in pixels. */
  datatype Point2 = Point2(x: real, y: real)

  /** The drawing surface, sized to the window. */
  datatype Canvas = Canvas(width: real, height: real)

  /** `{ x: canvas.width / 2, y: canvas.height / 2 }`, the origin of the projection. */
  function Center(c: Canvas): Point2 {
    Point2(c.width / 2.0, c.height / 2.0)
  }

  /** The cosine and sine of one angle. */
  datatype Trig = Trig(cos: real, sin: real)

  /** Cosine and sine of a real angle satisfy `cos^2 + sin^2 = 1`. */
  predicate IsUnit(t: Trig) {
    t.cos * t.cos + t.sin * t.sin == 1.0
  }

  /**
   * The trigonometric values of the accumulated rotation: `rx` of
   * `rotation.x` (horizontal drag) and `ry` of `rotation.y` (vertical drag).
   */
  datatype ViewTrig = ViewTrig(rx: Trig, ry: Trig)

  /** The values for the rotation {x: 0, y: 0} the page starts with. */
  const AtRest := ViewTrig(Trig(1.0, 0.0), Trig(1.0, 0.0))

  /**
   * `rotatePoint`: a turn about the x axis by `rotation.y`, then a turn about
   * the y axis by `rotation.x`, then x and y (not z) are multiplied by `zoom`.
   */
  function RotatePoint(p: Point3, v: ViewTrig, zoom: real): Point3 {
    var y := p.y * v.ry.cos - p.z * v.ry.sin;
    var z := p.y * v.ry.sin + p.z * v.ry.cos;
    var x := p.x * v.rx.cos - z * v.rx.sin;
    var z' := p.x * v.rx.sin + z * v.rx.cos;
    Point3(x * zoom, y * zoom, z')
  }

  /** `points.map(point => rotatePoint(point, rotation, zoom))`. */
  function RotateAll(ps: seq<Point3>, v: ViewTrig, zoom: real): (r: seq<Point3>)
    ensures |r| == |ps|
    ensures forall i :: 0 <= i < |ps| ==> r[i] == RotatePoint(ps[i], v, zoom)
  {
    seq(|ps|, i requires 0 <= i < |ps| => RotatePoint(ps[i], v, zoom))
  }

  /** The screen position of a rotated point: `(centerX + x, centerY - y)`; depth is dropped. */
  function Project(p: Point3, center: Point2): Point2 {
    Point2(center.x + p.x, center.y - p.y)
  }

  /** Undoes the rotation (zoom 1) by turning back about y, then back about x. */
  function Unrotate(p: Point3, v: ViewTrig): Point3 {
    var x := p.x * v.rx.cos + p.z * v.rx.sin;
    var z := p.z * v.rx.cos - p.x * v.rx.sin;
    var y := p.y * v.ry.cos + z * v.ry.sin;
    var z' := z * v.ry.cos - p.y * v.ry.sin;
    Point3(x, y, z')
  }

  function NormSquared(p: Point3): real {
    p.x * p.x + p.y * p.y + p.z * p.z
  }

  // ---------------------------------------------------------------------------
  // Properties of the rotation
  // ---------------------------------------------------------------------------

  /** No rotation and zoom 1 leave every point where it is. */
  lemma RotateAtRestIsIdentity(p: Point3)
    ensures RotatePoint(p, AtRest, 1.0) == p
  {
  }

  /** Zoom scales x and y of the zoom-1 result and leaves z alone. */
  lemma RotateZoomLinear(p: Point3, v: ViewTrig, zoom: real)
    ensures RotatePoint(p, v, zoom).x == zoom * RotatePoint(p, v, 1.0).x
    ensures RotatePoint(p, v, zoom).y == zoom * RotatePoint(p, v, 1.0).y
    ensures RotatePoint(p, v, zoom).z == RotatePoint(p, v, 1.0).z
  {
  }

  /** Turning a pair `(a, b)` by a unit cosine/sine pair keeps `a^2 + b^2`. */
  lemma TurnKeepsLength(a: real, b: real, t: Trig)
    requires IsUnit(t)
    ensures var a' := a * t.cos - b * t.sin; var b' := a * t.sin + b * t.cos;
      a' * a' + b' * b' == a * a + b * b
  {
    var c, s := t.cos, t.sin;
    calc {
      (a * c - b * s) * (a * c - b * s) + (a * s + b * c) * (a * s + b * c);
      a * a * (c * c + s * s) + b * b * (c * c + s * s);
      { assert c * c + s * s == 1.0; }
      a * a + b * b;
    }
  }

  /** At zoom 1 the rotation is rigid: it keeps the distance from the origin. */
  lemma RotateKeepsLength(p: Point3, v: ViewTrig)
    requires IsUnit(v.rx) && IsUnit(v.ry)
    ensures NormSquared(RotatePoint(p, v, 1.0)) == NormSquared(p)
  {
    var y := p.y * v.ry.cos - p.z * v.ry.sin;
    var z := p.y * v.ry.sin + p.z * v.ry.cos;
    TurnKeepsLength(p.y, p.z, v.ry);
    TurnKeepsLength(p.x, z, v.rx);
  }

  /** Turning by `(c, s)` and back by `(c, -s)` is the identity when `c^2 + s^2 = 1`. */
  lemma TurnBack(a: real, b: real, t: Trig)
    requires IsUnit(t)
    ensures var a' := a * t.cos - b * t.sin; var b' := a * t.sin + b * t.cos;
      a' * t.cos + b' * t.sin == a && b' * t.cos - a' * t.sin == b
  {
    var c, s := t.cos, t.sin;
    calc {
      (a * c - b * s) * c + (a * s + b * c) * s;
      a * (c * c + s * s);
      a;
    }
    calc {
      (a * s + b * c) * c - (a * c - b * s) * s;
      b * (c * c + s * s);
      b;
    }
  }

  /** At zoom 1 the rotation is invertible, so no two points land on the same spot. */
  lemma UnrotateRotate(p: Point3, v: ViewTrig)
    requires IsUnit(v.rx) && IsUnit(v.ry)
    ensures Unrotate(RotatePoint(p, v, 1.0), v) == p
  {
    var q := RotatePoint(p, v, 1.0);
    var z := p.y * v.ry.sin + p.z * v.ry.cos;
    assert q.x == p.x * v.rx.cos - z * v.rx.sin;
    assert q.y == p.y * v.ry.cos - p.z * v.ry.sin;
    assert q.z == p.x * v.rx.sin + z * v.rx.cos;
    TurnBack(p.y, p.z, v.ry);
    TurnBack(p.x, z, v.rx);
    assert q.z * v.rx.cos - q.x * v.rx.sin == z;
  }

  // ---------------------------------------------------------------------------
  // Properties of the projection
  // ---------------------------------------------------------------------------

  /**
   * The projection is orthographic: it keeps x, flips y about the canvas
   * centre, ignores depth, and the rotated x and y can be read back from it.
   */
  lemma ProjectReadsBack(p: Point3, center: Point2)
    ensures Project(p, center).x - center.x == p.x
    ensures center.y - Project(p, center).y == p.y
    ensures forall z: real :: Project(p.(z := z), center) == Project(p, center)
  {
  }
}
