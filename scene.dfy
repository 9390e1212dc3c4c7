/**
 * The body shared by `drawCube`, `drawCone` and `drawSphere`: generate the
 * solid, rotate every vertex, build the faces, sort them into painting order,
 * then for each face project its corners and compute the two gradient colours.
 */
module Scene {
  import opened Geometry
  import opened Primitives
  import opened Painter
  import Colour

  /** The current shape, as the button handlers build it. */
  datatype Shape = Cube(length: real) | Cone(height: real, radius: real) | Sphere(radius: real)

  /**
   * The `Math.cos`/`Math.sin` values the generators need: the 36 base angles of
   * the cone, and the 31 latitude and 31 longitude angles of the sphere.
   */
  datatype Tables = Tables(circle: seq<Trig>, latitude: seq<Trig>, longitude: seq<Trig>)

  predicate TablesFit(t: Tables) {
    |t.circle| == Segments && |t.latitude| == Row && |t.longitude| == Row
  }

  function Vertices(shape: Shape, t: Tables): seq<Point3>
    requires TablesFit(t)
  {
    match shape
    case Cube(length) => CubeVertices(length)
    case Cone(height, radius) => ConeVertexList(height, radius, t.circle)
    case Sphere(radius) => SphereVertexList(radius, t.latitude, t.longitude)
  }

  function Mesh(shape: Shape): seq<IndexFace> {
    match shape
    case Cube(_) => CubeFaces()
    case Cone(_, _) => ConeFan()
    case Sphere(_) => SphereMesh()
  }

  /** Corners per face, the divisor of the average z: 3 for the cone, 4 otherwise. */
  function Arity(shape: Shape): nat {
    if shape.Cone? then 3 else 4
  }

  /** Which corner ends the face's gradient: point 1 for cone triangles, point 2 for quads. */
  function GradientEnd(shape: Shape): nat {
    if shape.Cone? then 1 else 2
  }

  /**
   * Every face of a solid has exactly as many corners as the solid's arity,
   * every corner is a vertex of the solid, and every shade lies in [-0.4, -0.1].
   */
  lemma MeshFitsVertices(shape: Shape, t: Tables)
    requires TablesFit(t)
    ensures forall k :: 0 <= k < |Mesh(shape)| ==>
      && |Mesh(shape)[k].corners| == Arity(shape)
      && CornersBelow(Mesh(shape)[k], |Vertices(shape, t)|)
      && -0.4 <= Mesh(shape)[k].shade <= -0.1
  {
    match shape
    case Cube(length) => CubeFacesAreSides(length);
    case Cone(_, _) => ConeFanCloses();
    case Sphere(_) => SphereMeshInGrid();
  }

  /** The face built from an index face: its corners looked up in the rotated vertices. */
  function Realize(f: IndexFace, vs: seq<Point3>): (r: Face)
    requires CornersBelow(f, |vs|)
    ensures |r.points| == |f.corners| && r.shade == f.shade
  {
    Face(seq(|f.corners|, k requires 0 <= k < |f.corners| => vs[f.corners[k]]), f.shade)
  }

  /** The faces of a mesh, built over a vertex list. */
  function RealizeAll(mesh: seq<IndexFace>, vs: seq<Point3>): (fs: seq<Face>)
    requires forall k :: 0 <= k < |mesh| ==> CornersBelow(mesh[k], |vs|)
    ensures |fs| == |mesh|
    ensures forall k :: 0 <= k < |mesh| ==> fs[k] == Realize(mesh[k], vs)
  {
    seq(|mesh|, k requires 0 <= k < |mesh| => Realize(mesh[k], vs))
  }

  /** The `faces` array of a draw function before it is sorted, in emission order. */
  function EmittedFaces(shape: Shape, v: ViewTrig, zoom: real, t: Tables): (fs: seq<Face>)
    requires TablesFit(t)
    ensures |fs| == |Mesh(shape)|
  {
    MeshFitsVertices(shape, t);
    RealizeAll(Mesh(shape), RotateAll(Vertices(shape, t), v, zoom))
  }

  /** The `faces` array after `faces.sort`. */
  function OrderedFaces(shape: Shape, v: ViewTrig, zoom: real, t: Tables): seq<Face>
    requires TablesFit(t)
  {
    PaintOrder(EmittedFaces(shape, v, zoom, t), Arity(shape))
  }

  /**
   * What `drawFace` does with one face: the projected outline, the gradient
   * from the first corner to the shape's gradient end, the fill colour
   * `shadeColor(color, face.shade)` and the second stop `shadeColor(fill, -0.5)`.
   */
  datatype PaintedFace = PaintedFace(outline: seq<Point2>, gradientFrom: Point2, gradientTo: Point2,
                                     fill: Colour.Result<string>, stop: Colour.Result<string>)

  function Paint(f: Face, shape: Shape, center: Point2, colour: string): PaintedFace
    requires |f.points| > GradientEnd(shape)
  {
    var fill := Colour.ShadeColour(colour, f.shade);
    PaintedFace(seq(|f.points|, k requires 0 <= k < |f.points| => Project(f.points[k], center)),
                Project(f.points[0], center),
                Project(f.points[GradientEnd(shape)], center),
                fill,
                if fill.Ok? then Colour.ShadeColour(fill.value, -0.5) else fill)
  }

  /** Every emitted face has the solid's arity and a shade in [-0.4, -0.1]. */
  lemma EmittedFacesShape(shape: Shape, v: ViewTrig, zoom: real, t: Tables)
    requires TablesFit(t)
    ensures forall f :: f in EmittedFaces(shape, v, zoom, t) ==> |f.points| == Arity(shape) && -0.4 <= f.shade <= -0.1
  {
    var emitted := EmittedFaces(shape, v, zoom, t);
    MeshFitsVertices(shape, t);
    forall f | f in emitted ensures |f.points| == Arity(shape) && -0.4 <= f.shade <= -0.1 {
      var m :| 0 <= m < |emitted| && emitted[m] == f;
    }
  }

  lemma OrderedFacesShape(shape: Shape, v: ViewTrig, zoom: real, t: Tables)
    requires TablesFit(t)
    ensures var fs := OrderedFaces(shape, v, zoom, t);
      forall k :: 0 <= k < |fs| ==> |fs[k].points| == Arity(shape) && -0.4 <= fs[k].shade <= -0.1
  {
    var emitted := EmittedFaces(shape, v, zoom, t);
    var fs := OrderedFaces(shape, v, zoom, t);
    EmittedFacesShape(shape, v, zoom, t);
    PaintOrderMembers(emitted, Arity(shape));
    forall k | 0 <= k < |fs| ensures |fs[k].points| == Arity(shape) && -0.4 <= fs[k].shade <= -0.1 {
      assert fs[k] in fs;
    }
  }

  /** `faces.forEach(face => drawFace(face.points, shadeColor(color, face.shade)))`. */
  function PaintAll(fs: seq<Face>, shape: Shape, center: Point2, colour: string): (r: seq<PaintedFace>)
    requires forall k :: 0 <= k < |fs| ==> |fs[k].points| > GradientEnd(shape)
    ensures |r| == |fs|
  {
    seq(|fs|, k requires 0 <= k < |fs| => Paint(fs[k], shape, center, colour))
  }

  /** The faces painted for a shape, in painting order. */
  function SceneSpec(shape: Shape, v: ViewTrig, zoom: real, t: Tables, center: Point2, colour: string): seq<PaintedFace>
    requires TablesFit(t)
  {
    OrderedFacesShape(shape, v, zoom, t);
    PaintAll(OrderedFaces(shape, v, zoom, t), shape, center, colour)
  }

  /** The generator and face-building part of a draw function, up to the unsorted `faces` array. */
  method EmitFaces(shape: Shape, v: ViewTrig, zoom: real, t: Tables) returns (emitted: seq<Face>)
    requires TablesFit(t)
    ensures emitted == EmittedFaces(shape, v, zoom, t)
  {
    var vs: seq<Point3>;
    var mesh: seq<IndexFace>;
    match shape {
      case Cube(length) =>
        vs := CubeVertices(length);
        mesh := CubeFaces();
      case Cone(height, radius) =>
        vs := ConeVertices(height, radius, t.circle);
        mesh := ConeFaces();
      case Sphere(radius) =>
        vs := SphereVertices(radius, t.latitude, t.longitude);
        mesh := SphereFaces();
    }
    assert vs == Vertices(shape, t) && mesh == Mesh(shape);
    MeshFitsVertices(shape, t);
    emitted := RealizeAll(mesh, RotateAll(vs, v, zoom));
  }

  /** The `forEach` loop that draws the sorted faces one by one. */
  method PaintFaces(faces: array<Face>, shape: Shape, center: Point2, colour: string) returns (painted: seq<PaintedFace>)
    requires forall k :: 0 <= k < faces.Length ==> |faces[k].points| > GradientEnd(shape)
    ensures painted == PaintAll(faces[..], shape, center, colour)
  {
    painted := [];
    var i := 0;
    while i < faces.Length
      invariant 0 <= i <= faces.Length
      invariant |painted| == i
      invariant forall k :: 0 <= k < i ==> painted[k] == Paint(faces[k], shape, center, colour)
    {
      painted := painted + [Paint(faces[i], shape, center, colour)];
      i := i + 1;
    }
  }

  /** The body of `drawCube`, `drawCone` or `drawSphere`. */
  method RenderShape(shape: Shape, v: ViewTrig, zoom: real, t: Tables, center: Point2, colour: string)
    returns (painted: seq<PaintedFace>)
    requires TablesFit(t)
    ensures painted == SceneSpec(shape, v, zoom, t, center, colour)
  {
    var emitted := EmitFaces(shape, v, zoom, t);
    var faces := new Face[|emitted|](k requires 0 <= k < |emitted| => emitted[k]);
    assert faces[..] == emitted;
    SortFaces(faces, Arity(shape));
    ghost var ordered := OrderedFaces(shape, v, zoom, t);
    assert faces[..] == ordered;
    OrderedFacesShape(shape, v, zoom, t);
    forall k | 0 <= k < faces.Length ensures |faces[k].points| > GradientEnd(shape) {
      assert faces[k] == ordered[k];
    }
    painted := PaintFaces(faces, shape, center, colour);
  }

  // ---------------------------------------------------------------------------
  // What a rendered scene satisfies
  // ---------------------------------------------------------------------------

  /** A cube paints 6 faces, a cone 36 triangles, a sphere 900 quads. */
  lemma FaceCounts(shape: Shape, v: ViewTrig, zoom: real, t: Tables, center: Point2, colour: string)
    requires TablesFit(t)
    ensures |SceneSpec(shape, v, zoom, t, center, colour)| ==
      match shape
      case Cube(_) => 6
      case Cone(_, _) => 36
      case Sphere(_) => 900
  {
    SphereMeshInGrid();
  }

  /**
   * The painting order is the emitted faces, rearranged, from the greatest
   * average z to the least, with equal depths kept in emission order.
   */
  lemma PaintsByDepth(shape: Shape, v: ViewTrig, zoom: real, t: Tables)
    requires TablesFit(t)
    ensures var emitted := EmittedFaces(shape, v, zoom, t); var fs := OrderedFaces(shape, v, zoom, t);
      && multiset(fs) == multiset(emitted)
      && PaintOrdered(fs, Arity(shape))
      && forall depth :: AtDepth(fs, depth, Arity(shape)) == AtDepth(emitted, depth, Arity(shape))
  {
    var emitted := EmittedFaces(shape, v, zoom, t);
    PaintOrderPermutes(emitted, Arity(shape));
    PaintOrderSorted(emitted, Arity(shape));
    forall depth ensures AtDepth(OrderedFaces(shape, v, zoom, t), depth, Arity(shape)) == AtDepth(emitted, depth, Arity(shape)) {
      PaintOrderStable(emitted, depth, Arity(shape));
    }
  }

  /**
   * With a well-formed base colour every painted face has a well-formed fill
   * and a well-formed, no brighter second gradient stop; its outline has one
   * projected point per corner, and its gradient runs between two of them.
   */
  lemma PaintedFacesWellFormed(shape: Shape, v: ViewTrig, zoom: real, t: Tables, center: Point2, colour: string)
    requires TablesFit(t) && Colour.IsColour(colour)
    ensures forall pf :: pf in SceneSpec(shape, v, zoom, t, center, colour) ==> PaintedWellFormed(pf, shape)
  {
    OrderedFacesShape(shape, v, zoom, t);
    PaintAllWellFormed(OrderedFaces(shape, v, zoom, t), shape, center, colour);
  }

  lemma PaintAllWellFormed(fs: seq<Face>, shape: Shape, center: Point2, colour: string)
    requires Colour.IsColour(colour)
    requires forall k :: 0 <= k < |fs| ==> |fs[k].points| == Arity(shape) && -0.4 <= fs[k].shade <= -0.1
    requires forall k :: 0 <= k < |fs| ==> |fs[k].points| > GradientEnd(shape)
    ensures forall pf :: pf in PaintAll(fs, shape, center, colour) ==> PaintedWellFormed(pf, shape)
  {
    var painted := PaintAll(fs, shape, center, colour);
    forall pf | pf in painted ensures PaintedWellFormed(pf, shape) {
      var k :| 0 <= k < |painted| && painted[k] == pf;
      PaintWellFormed(fs[k], shape, center, colour);
    }
  }

  /**
   * One projected point per corner, a gradient from point 0 to the shape's
   * gradient end, a well-formed lower-case fill and second stop, and a stop
   * no brighter than the fill.
   */
  predicate PaintedWellFormed(pf: PaintedFace, shape: Shape) {
    && |pf.outline| == Arity(shape)
    && pf.gradientFrom == pf.outline[0] && pf.gradientTo == pf.outline[GradientEnd(shape)]
    && pf.fill.Ok? && Colour.IsLowerColour(pf.fill.value)
    && pf.stop.Ok? && Colour.IsLowerColour(pf.stop.value)
    && StopNotBrighter(pf.fill.value, pf.stop.value)
  }

  lemma PaintWellFormed(f: Face, shape: Shape, center: Point2, colour: string)
    requires Colour.IsColour(colour) && |f.points| == Arity(shape) && -0.4 <= f.shade <= -0.1
    ensures PaintedWellFormed(Paint(f, shape, center, colour), shape)
  {
    GradientStops(colour, f.shade);
  }

  /** For a shade in [-1, 0], the fill and the second stop of a face are well-formed and the stop is no brighter. */
  lemma GradientStops(colour: string, shade: real)
    requires Colour.IsColour(colour) && -1.0 <= shade <= 0.0
    ensures var fill := Colour.ShadeColour(colour, shade);
      && fill.Ok? && Colour.IsLowerColour(fill.value)
      && var stop := Colour.ShadeColour(fill.value, -0.5);
      && stop.Ok? && Colour.IsLowerColour(stop.value)
      && StopNotBrighter(fill.value, stop.value)
  {
    Colour.ShadeChannels(colour, shade);
    var fill := Colour.ShadeColour(colour, shade).value;
    Colour.ShadeChannels(fill, -0.5);
    Colour.ShadeNeverBrightens(fill, -0.5);
    Colour.ParseFormat(Colour.ShadeRgb(Colour.Parse(fill).value, -0.5));
  }

  /** Each channel of the second stop is at most the fill's. */
  predicate StopNotBrighter(fill: string, stop: string) {
    Colour.IsColour(fill) && Colour.IsColour(stop) &&
    var a := Colour.Parse(fill).value; var b := Colour.Parse(stop).value;
    b.r <= a.r && b.g <= a.g && b.b <= a.b
  }

  // ---------------------------------------------------------------------------
  // The cube at rest
  // ---------------------------------------------------------------------------

  /** Without rotation and at zoom 1 the cube's vertices stay where they are. */
  lemma CubeVerticesAtRest(length: real)
    ensures RotateAll(CubeVertices(length), AtRest, 1.0) == CubeVertices(length)
  {
    var vs := CubeVertices(length);
    forall i | 0 <= i < 8 ensures RotateAll(vs, AtRest, 1.0)[i] == vs[i] {
      RotateAtRestIsIdentity(vs[i]);
    }
  }

  /** The average z of cube face `k` at rest: -o for face 0, +o for face 1, 0 for the four sides. */
  lemma CubeFaceDepthAtRest(length: real, t: Tables, k: nat)
    requires TablesFit(t) && k < 6
    ensures AverageZ(EmittedFaces(Cube(length), AtRest, 1.0, t)[k], 4)
         == if k == 0 then -(length / 2.0) else if k == 1 then length / 2.0 else 0.0
  {
    var vs := CubeVertices(length);
    CubeVerticesAtRest(length);
    CubeFacesAreSides(length);
    assert EmittedFaces(Cube(length), AtRest, 1.0, t)[k] == Realize(CubeFaces()[k], vs);
    CubeFaceSumZ(length, k);
  }

  /** The z values of cube face `k`'s corners add up to -4o, +4o, or 0 for the sides. */
  lemma CubeFaceSumZ(length: real, k: nat)
    requires k < 6
    ensures var f := Realize(CubeFaces()[k], CubeVertices(length));
      SumZ(f.points) / 4 as real == if k == 0 then -(length / 2.0) else if k == 1 then length / 2.0 else 0.0
  {
    var vs := CubeVertices(length);
    var c := CubeFaces()[k].corners;
    var f := Realize(CubeFaces()[k], vs);
    assert f.points == [vs[c[0]], vs[c[1]], vs[c[2]], vs[c[3]]];
    SumZOfQuad(f.points);
  }

  /** The average z of the cube's faces at rest: -o, +o, then 0 for the four sides. */
  lemma CubeDepthsAtRest(length: real, t: Tables)
    requires TablesFit(t) && length > 0.0
    ensures CubeDepths(EmittedFaces(Cube(length), AtRest, 1.0, t), length / 2.0)
  {
    var e := EmittedFaces(Cube(length), AtRest, 1.0, t);
    CubeFaceDepthAtRest(length, t, 0);
    CubeFaceDepthAtRest(length, t, 1);
    forall i | 2 <= i < 6 ensures AverageZ(e[i], 4) == 0.0 {
      CubeFaceDepthAtRest(length, t, i);
    }
  }

  /**
   * A cube of positive length at rest is painted with the z = +o face
   * (vertices 4 to 7) first, the four sides next in emission order, and the
   * z = -o face (vertices 0 to 3) last.
   */
  lemma CubePaintOrderAtRest(length: real, t: Tables)
    requires TablesFit(t) && length > 0.0
    ensures var e := EmittedFaces(Cube(length), AtRest, 1.0, t);
      OrderedFaces(Cube(length), AtRest, 1.0, t) == [e[1], e[2], e[3], e[4], e[5], e[0]]
  {
    CubeDepthsAtRest(length, t);
    SixFacesOrder(EmittedFaces(Cube(length), AtRest, 1.0, t), length / 2.0);
  }

  /** Average z of six cube faces at rest: -o, +o, then four level sides at 0. */
  predicate CubeDepths(e: seq<Face>, o: real) {
    && |e| == 6 && o > 0.0
    && AverageZ(e[0], 4) == -o && AverageZ(e[1], 4) == o
    && forall i :: 2 <= i < 6 ==> AverageZ(e[i], 4) == 0.0
  }

  /** Sorting the first `k` such faces puts faces 1 to k - 1 in order, then face 0. */
  lemma {:induction false} SortedPrefix(e: seq<Face>, o: real, k: nat)
    requires CubeDepths(e, o) && 1 <= k <= 6
    ensures PaintOrder(e[..k], 4) == e[1..k] + [e[0]]
    decreases k
  {
    if k == 1 {
      assert e[..1] == [] + [e[0]];
      PaintOrderSnoc([], e[0], 4);
    } else {
      SortedPrefix(e, o, k - 1);
      SortedPrefixStep(e, o, k);
    }
  }

  lemma SortedPrefixStep(e: seq<Face>, o: real, k: nat)
    requires CubeDepths(e, o) && 2 <= k <= 6
    requires PaintOrder(e[..k - 1], 4) == e[1..k - 1] + [e[0]]
    ensures PaintOrder(e[..k], 4) == e[1..k] + [e[0]]
  {
    var mid := e[1..k - 1];
    var x := e[k - 1];
    if k == 2 {
      assert mid == [];
      assert AverageZ(x, 4) == o;
    } else {
      assert mid[|mid| - 1] == e[k - 2];
      assert AverageZ(x, 4) == 0.0;
      assert AverageZ(e[k - 2], 4) >= 0.0;
    }
    SortStep(e[..k - 1], x, mid, e[0], 4);
    assert e[..k - 1] + [x] == e[..k];
    assert mid + [x, e[0]] == e[1..k] + [e[0]];
  }

  /**
   * Six faces at depths -o, +o, 0, 0, 0, 0 with o > 0 are sorted to the +o face,
   * the four level faces in their order, then the -o face.
   */
  lemma SixFacesOrder(e: seq<Face>, o: real)
    requires CubeDepths(e, o)
    ensures PaintOrder(e, 4) == [e[1], e[2], e[3], e[4], e[5], e[0]]
  {
    SortedPrefix(e, o, 6);
    assert e[..6] == e;
  }
}
