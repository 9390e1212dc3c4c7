/**
 * The optional coordinate-axis overlay: six half-axes from the canvas centre,
 * each as long as half the larger canvas side and rotated like the shape, and
 * evenly spaced tick marks between the negative and the positive end.
 */
module Axes {
  import opened Geometry

  datatype Axis = X | Y | Z

  /** `point[axis]`. */
  function Component(p: Point3, axis: Axis): real {
    match axis
    case X => p.x
    case Y => p.y
    case Z => p.z
  }

  /** `axisMarkerSpacing`. */
  const MarkerSpacing: real := 50.0

  /** `Math.max(canvas.width, canvas.height) / 2`. */
  function AxisLength(c: Canvas): real {
    (if c.width >= c.height then c.width else c.height) / 2.0
  }

  /** The object-space end of a half-axis: `length` along `axis`, negated for the negative end. */
  function AxisTip(axis: Axis, length: real): Point3 {
    match axis
    case X => Point3(length, 0.0, 0.0)
    case Y => Point3(0.0, length, 0.0)
    case Z => Point3(0.0, 0.0, length)
  }

  function Abs(r: real): real {
    if r < 0.0 then -r else r
  }

  /** `numMarkers = Math.floor(Math.abs(endPositive[axis] - endNegative[axis]) / 50)`. */
  function MarkerCount(endPos: Point3, endNeg: Point3, axis: Axis): nat {
    (Abs(Component(endPos, axis) - Component(endNeg, axis)) / MarkerSpacing).Floor
  }

  /**
   * A tick mark's screen position; `Undefined` when its ratio is `0 / 0`
   * (no markers fit), which in the browser is a NaN position that draws nothing.
   */
  datatype Tick = At(p: Point2) | Undefined

  /** Tick `i` of `n`, at `ratio = i / n` of the way from the negative end to the positive end. */
  function TickAt(center: Point2, endPos: Point3, endNeg: Point3, n: nat, i: nat): Tick {
    if n == 0 then Undefined
    else
      var ratio := i as real / n as real;
      At(Point2(center.x + (endNeg.x + ratio * (endPos.x - endNeg.x)),
                center.y - (endNeg.y + ratio * (endPos.y - endNeg.y))))
  }

  /** The ticks `drawAxisMarkers` draws for `i = 0 .. numMarkers`. */
  function Ticks(center: Point2, endPos: Point3, endNeg: Point3, axis: Axis): (ts: seq<Tick>)
    ensures |ts| == MarkerCount(endPos, endNeg, axis) + 1
  {
    var n := MarkerCount(endPos, endNeg, axis);
    seq(n + 1, i requires 0 <= i <= n => TickAt(center, endPos, endNeg, n, i))
  }

  /** The loop of `drawAxisMarkers`. */
  method AxisMarkers(center: Point2, endPos: Point3, endNeg: Point3, axis: Axis) returns (ticks: seq<Tick>)
    ensures ticks == Ticks(center, endPos, endNeg, axis)
  {
    var totalLength := Abs(Component(endPos, axis) - Component(endNeg, axis));
    var numMarkers: nat := (totalLength / MarkerSpacing).Floor;
    ticks := [];
    var i := 0;
    while i <= numMarkers
      invariant 0 <= i <= numMarkers + 1
      invariant |ticks| == i
      invariant forall k :: 0 <= k < i ==> ticks[k] == TickAt(center, endPos, endNeg, numMarkers, k)
    {
      ticks := ticks + [TickAt(center, endPos, endNeg, numMarkers, i)];
      i := i + 1;
    }
  }

  /** Moving the ratio from `i / n` to `(i + 1) / n` moves a coordinate by one n-th of the span. */
  lemma RatioStep(d: real, i: nat, n: nat)
    requires 0 < n
    ensures ((i + 1) as real / n as real) * d - (i as real / n as real) * d == d / n as real
  {
    var m := n as real;
    var r0, r1 := i as real / m, (i + 1) as real / m;
    assert r1 - r0 == 1.0 / m;
    calc {
      r1 * d - r0 * d;
      (r1 - r0) * d;
      (1.0 / m) * d;
      d / m;
    }
  }

  /** Tick `i + 1` lies one n-th of the projected axis beyond tick `i`. */
  lemma TickStep(center: Point2, endPos: Point3, endNeg: Point3, n: nat, i: nat)
    requires i < n
    ensures TickAt(center, endPos, endNeg, n, i + 1).p.x - TickAt(center, endPos, endNeg, n, i).p.x
            == (endPos.x - endNeg.x) / n as real
    ensures TickAt(center, endPos, endNeg, n, i + 1).p.y - TickAt(center, endPos, endNeg, n, i).p.y
            == -((endPos.y - endNeg.y) / n as real)
  {
    RatioStep(endPos.x - endNeg.x, i, n);
    RatioStep(endPos.y - endNeg.y, i, n);
  }

  /** When no marker fits, the loop still runs once, and its only tick has no position. */
  lemma TicksWhenNoneFits(center: Point2, endPos: Point3, endNeg: Point3, axis: Axis)
    requires MarkerCount(endPos, endNeg, axis) == 0
    ensures Ticks(center, endPos, endNeg, axis) == [Undefined]
  {
    var ts := Ticks(center, endPos, endNeg, axis);
    assert ts[0] == TickAt(center, endPos, endNeg, 0, 0);
  }

  /** When a marker fits, the first tick sits on the projected negative end and the last on the positive end. */
  lemma TicksSpanAxis(center: Point2, endPos: Point3, endNeg: Point3, axis: Axis)
    requires MarkerCount(endPos, endNeg, axis) > 0
    ensures var ts := Ticks(center, endPos, endNeg, axis);
      ts[0] == At(Project(endNeg, center)) && ts[|ts| - 1] == At(Project(endPos, center))
  {
    var ts := Ticks(center, endPos, endNeg, axis);
    var n := MarkerCount(endPos, endNeg, axis);
    assert ts[0] == TickAt(center, endPos, endNeg, n, 0);
    assert ts[n] == TickAt(center, endPos, endNeg, n, n);
    LastTick(center, endPos, endNeg, n);
  }

  /** The last tick has ratio `n / n = 1`. */
  lemma LastTick(center: Point2, endPos: Point3, endNeg: Point3, n: nat)
    requires n > 0
    ensures TickAt(center, endPos, endNeg, n, n) == At(Project(endPos, center))
  {
    var r := n as real / n as real;
    assert r == 1.0;
    assert endNeg.x + r * (endPos.x - endNeg.x) == endPos.x;
    assert endNeg.y + r * (endPos.y - endNeg.y) == endPos.y;
  }

  /** Consecutive ticks are one n-th of the projected axis apart. */
  lemma TicksEvenlySpaced(center: Point2, endPos: Point3, endNeg: Point3, axis: Axis, i: nat)
    requires i < MarkerCount(endPos, endNeg, axis)
    ensures var ts := Ticks(center, endPos, endNeg, axis); var n := MarkerCount(endPos, endNeg, axis);
      && ts[i + 1].p.x - ts[i].p.x == (endPos.x - endNeg.x) / n as real
      && ts[i + 1].p.y - ts[i].p.y == -((endPos.y - endNeg.y) / n as real)
  {
    var ts := Ticks(center, endPos, endNeg, axis);
    var n := MarkerCount(endPos, endNeg, axis);
    assert ts[i] == TickAt(center, endPos, endNeg, n, i);
    assert ts[i + 1] == TickAt(center, endPos, endNeg, n, i + 1);
    TickStep(center, endPos, endNeg, n, i);
  }

  /** What `drawAxis` draws: six lines from the centre to the projected ends, then the ticks of x, y and z. */
  datatype Overlay = Overlay(center: Point2, lineEnds: seq<Point2>, ticks: seq<seq<Tick>>)

  /** `xAxisEndPositive` and its siblings: a half-axis tip after `rotatePoint`. */
  function AxisEnd(c: Canvas, v: ViewTrig, zoom: real, axis: Axis, positive: bool): Point3 {
    var length := AxisLength(c);
    RotatePoint(AxisTip(axis, if positive then length else -length), v, zoom)
  }

  function AxisTicks(c: Canvas, v: ViewTrig, zoom: real, axis: Axis): seq<Tick> {
    Ticks(Center(c), AxisEnd(c, v, zoom, axis, true), AxisEnd(c, v, zoom, axis, false), axis)
  }

  function OverlaySpec(c: Canvas, v: ViewTrig, zoom: real): Overlay {
    var center := Center(c);
    Overlay(center,
            [Project(AxisEnd(c, v, zoom, X, true), center), Project(AxisEnd(c, v, zoom, X, false), center),
             Project(AxisEnd(c, v, zoom, Y, true), center), Project(AxisEnd(c, v, zoom, Y, false), center),
             Project(AxisEnd(c, v, zoom, Z, true), center), Project(AxisEnd(c, v, zoom, Z, false), center)],
            [AxisTicks(c, v, zoom, X), AxisTicks(c, v, zoom, Y), AxisTicks(c, v, zoom, Z)])
  }

  /** `drawAxis`: the rotated ends, the six lines and the markers of each axis. */
  method DrawAxis(c: Canvas, v: ViewTrig, zoom: real) returns (overlay: Overlay)
    ensures overlay == OverlaySpec(c, v, zoom)
  {
    var center := Center(c);
    var xp, xn := AxisEnd(c, v, zoom, X, true), AxisEnd(c, v, zoom, X, false);
    var yp, yn := AxisEnd(c, v, zoom, Y, true), AxisEnd(c, v, zoom, Y, false);
    var zp, zn := AxisEnd(c, v, zoom, Z, true), AxisEnd(c, v, zoom, Z, false);
    var lines := [Project(xp, center), Project(xn, center), Project(yp, center),
                  Project(yn, center), Project(zp, center), Project(zn, center)];
    var xt := AxisMarkers(center, xp, xn, X);
    var yt := AxisMarkers(center, yp, yn, Y);
    var zt := AxisMarkers(center, zp, zn, Z);
    overlay := Overlay(center, lines, [xt, yt, zt]);
  }

  /** Without rotation the two ends of an axis are `2 * length` apart along it, times zoom for x and y. */
  lemma AxisSpanAtRest(c: Canvas, zoom: real, axis: Axis)
    ensures var l := AxisLength(c);
      Component(AxisEnd(c, AtRest, zoom, axis, true), axis) - Component(AxisEnd(c, AtRest, zoom, axis, false), axis)
        == if axis == Z then 2.0 * l else 2.0 * l * zoom
  {
    var l := AxisLength(c);
    RotateAtRestZoom(AxisTip(axis, l), zoom);
    RotateAtRestZoom(AxisTip(axis, -l), zoom);
  }

  lemma RotateAtRestZoom(p: Point3, zoom: real)
    ensures RotatePoint(p, AtRest, zoom) == Point3(p.x * zoom, p.y * zoom, p.z)
  {
  }

  /**
   * Without rotation the x and y axes get `floor(2 * length * zoom / 50)`
   * markers, while the z axis gets `floor(2 * length / 50)` whatever the zoom,
   * because `rotatePoint` leaves z unscaled.
   */
  lemma MarkerCountAtRest(c: Canvas, zoom: real)
    requires c.width >= 0.0 && c.height >= 0.0 && zoom > 0.0
    ensures var l := AxisLength(c);
      && |AxisTicks(c, AtRest, zoom, X)| == (2.0 * l * zoom / MarkerSpacing).Floor + 1
      && |AxisTicks(c, AtRest, zoom, Y)| == (2.0 * l * zoom / MarkerSpacing).Floor + 1
      && |AxisTicks(c, AtRest, zoom, Z)| == (2.0 * l / MarkerSpacing).Floor + 1
  {
    var l := AxisLength(c);
    SpanNonNegative(c, zoom);
    AxisSpanAtRest(c, zoom, X);
    AxisSpanAtRest(c, zoom, Y);
    AxisSpanAtRest(c, zoom, Z);
    TickCountOfSpan(c, AtRest, zoom, X, 2.0 * l * zoom);
    TickCountOfSpan(c, AtRest, zoom, Y, 2.0 * l * zoom);
    TickCountOfSpan(c, AtRest, zoom, Z, 2.0 * l);
  }

  lemma SpanNonNegative(c: Canvas, zoom: real)
    requires c.width >= 0.0 && c.height >= 0.0 && zoom > 0.0
    ensures AxisLength(c) >= 0.0 && 2.0 * AxisLength(c) * zoom >= 0.0
  {
    var l := AxisLength(c);
    assert 2.0 * l >= 0.0;
    assert (2.0 * l) * zoom >= 0.0;
  }

  /** An axis whose ends are `span` apart along it gets `floor(span / 50) + 1` ticks. */
  lemma TickCountOfSpan(c: Canvas, v: ViewTrig, zoom: real, axis: Axis, span: real)
    requires span >= 0.0
    requires Component(AxisEnd(c, v, zoom, axis, true), axis) - Component(AxisEnd(c, v, zoom, axis, false), axis) == span
    ensures |AxisTicks(c, v, zoom, axis)| == (span / MarkerSpacing).Floor + 1
  {
  }

  /** An 800 x 600 canvas at rest and zoom 1: the x axis gets 16 markers, so 17 ticks. */
  lemma MarkerCountExample()
    ensures |AxisTicks(Canvas(800.0, 600.0), AtRest, 1.0, X)| == 17
  {
    var c := Canvas(800.0, 600.0);
    var p, n := AxisEnd(c, AtRest, 1.0, X, true), AxisEnd(c, AtRest, 1.0, X, false);
    assert p == Point3(400.0, 0.0, 0.0) && n == Point3(-400.0, 0.0, 0.0);
    assert MarkerCount(p, n, X) == (800.0 / MarkerSpacing).Floor == 16;
  }
}
