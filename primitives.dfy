/**
 * The three solids of the renderer as object-space vertices and faces over
 * vertex indices. Each face lists its corners in drawing order and carries the
 * shade factor its colour is darkened by. The cone and sphere coordinates come
 * from `Math.cos`/`Math.sin`; here their values arrive as tables of `Trig`.
 */
module Primitives {
  import opened Geometry

  /** A face as indices into the vertex list of its solid, with its shade factor. */
  datatype IndexFace = IndexFace(corners: seq<nat>, shade: real)

  predicate CornersBelow(f: IndexFace, n: nat) {
    forall k :: 0 <= k < |f.corners| ==> f.corners[k] < n
  }

  // ---------------------------------------------------------------------------
  // Cube
  // ---------------------------------------------------------------------------

  /** The eight corners of `drawCube`: the z = -length/2 square, then the z = +length/2 square. */
  function CubeVertices(length: real): (vs: seq<Point3>)
    ensures |vs| == 8
  {
    var o := length / 2.0;
    [Point3(-o, -o, -o), Point3(o, -o, -o), Point3(o, o, -o), Point3(-o, o, -o),
     Point3(-o, -o, o), Point3(o, -o, o), Point3(o, o, o), Point3(-o, o, o)]
  }

  /** The six quads of `drawCube`, in emission order, with their fixed shades. */
  function CubeFaces(): (fs: seq<IndexFace>)
    ensures |fs| == 6
  {
    [IndexFace([0, 1, 2, 3], -0.1),
     IndexFace([4, 5, 6, 7], -0.3),
     IndexFace([0, 4, 7, 3], -0.1),
     IndexFace([1, 5, 6, 2], -0.2),
     IndexFace([0, 1, 5, 4], -0.1),
     IndexFace([3, 2, 6, 7], -0.4)]
  }

  predicate IsHalfOf(c: real, length: real) {
    c == length / 2.0 || c == -length / 2.0
  }

  /** Every corner of the cube has all three coordinates at plus or minus length/2. */
  lemma CubeVerticesOnBox(length: real)
    ensures forall i :: 0 <= i < 8 ==>
      var v := CubeVertices(length)[i];
      IsHalfOf(v.x, length) && IsHalfOf(v.y, length) && IsHalfOf(v.z, length)
  {
    var vs := CubeVertices(length);
    forall i | 0 <= i < 8
      ensures IsHalfOf(vs[i].x, length) && IsHalfOf(vs[i].y, length) && IsHalfOf(vs[i].z, length)
    {
    }
  }

  /** The coordinate of a point along axis 0 (x), 1 (y) or 2 (z). */
  function Coord(p: Point3, axis: nat): real
    requires axis < 3
  {
    if axis == 0 then p.x else if axis == 1 then p.y else p.z
  }

  /** The four corners of a face all lie on the plane `Coord(_, axis) == value`. */
  predicate OnPlane(f: IndexFace, vs: seq<Point3>, axis: nat, value: real)
    requires axis < 3
  {
    CornersBelow(f, |vs|) && forall k :: 0 <= k < |f.corners| ==> Coord(vs[f.corners[k]], axis) == value
  }

  /**
   * The cube emits 6 faces of 4 distinct corners each, with shades -0.1, -0.3,
   * -0.1, -0.2, -0.1, -0.4; each face is one side of the box: the faces lie on
   * z = -o, z = +o, x = -o, x = +o, y = -o and y = +o, where o = length/2.
   */
  lemma CubeFacesAreSides(length: real)
    ensures var fs := CubeFaces(); var vs := CubeVertices(length); var o := length / 2.0;
      && (forall i :: 0 <= i < 6 ==> |fs[i].corners| == 4 && CornersBelow(fs[i], 8))
      && (forall i, j, k :: 0 <= i < 6 && 0 <= j < k < 4 ==> fs[i].corners[j] != fs[i].corners[k])
      && [fs[0].shade, fs[1].shade, fs[2].shade, fs[3].shade, fs[4].shade, fs[5].shade]
           == [-0.1, -0.3, -0.1, -0.2, -0.1, -0.4]
      && OnPlane(fs[0], vs, 2, -o) && OnPlane(fs[1], vs, 2, o)
      && OnPlane(fs[2], vs, 0, -o) && OnPlane(fs[3], vs, 0, o)
      && OnPlane(fs[4], vs, 1, -o) && OnPlane(fs[5], vs, 1, o)
  {
    var fs := CubeFaces();
    forall i, j, k | 0 <= i < 6 && 0 <= j < k < 4 ensures fs[i].corners[j] != fs[i].corners[k] {
    }
  }

  // ---------------------------------------------------------------------------
  // Cone
  // ---------------------------------------------------------------------------

  /** `segments` of `drawCone`: the number of base points and of triangles. */
  const Segments: nat := 36

  /** In the combined vertex list the apex follows the 36 base points. */
  const Apex: nat := Segments

  /** Base point `i`, with `circle[i]` the cosine and sine of `(i / 36) * 2 * pi`. */
  function ConeBasePoint(height: real, radius: real, t: Trig): Point3 {
    Point3(radius * t.cos, radius * t.sin, -(height / 2.0))
  }

  /** The cone's vertices: its 36 base points, then the apex at z = height/2. */
  function ConeVertexList(height: real, radius: real, circle: seq<Trig>): (vs: seq<Point3>)
    requires |circle| == Segments
    ensures |vs| == Segments + 1
  {
    seq(Segments, i requires 0 <= i < Segments => ConeBasePoint(height, radius, circle[i]))
      + [Point3(0.0, 0.0, height / 2.0)]
  }

  /** The loop that pushes the base points, followed by the apex. */
  method ConeVertices(height: real, radius: real, circle: seq<Trig>) returns (vs: seq<Point3>)
    requires |circle| == Segments
    ensures vs == ConeVertexList(height, radius, circle)
  {
    var base: seq<Point3> := [];
    var i := 0;
    while i < Segments
      invariant 0 <= i <= Segments
      invariant |base| == i
      invariant forall k :: 0 <= k < i ==> base[k] == ConeBasePoint(height, radius, circle[k])
    {
      base := base + [ConeBasePoint(height, radius, circle[i])];
      i := i + 1;
    }
    vs := base + [Point3(0.0, 0.0, height / 2.0)];
  }

  /** Triangle `i` links base points `i` and `(i + 1) % 36` with the apex. */
  function ConeTriangle(i: nat): IndexFace {
    IndexFace([i, (i + 1) % Segments, Apex], -0.3)
  }

  function ConeFan(): (fs: seq<IndexFace>)
    ensures |fs| == Segments
  {
    seq(Segments, i requires 0 <= i < Segments => ConeTriangle(i))
  }

  /** The loop of `drawCone` that pushes one triangle per base segment. */
  method ConeFaces() returns (faces: seq<IndexFace>)
    ensures faces == ConeFan()
  {
    faces := [];
    var i := 0;
    while i < Segments
      invariant 0 <= i <= Segments
      invariant faces == ConeFan()[..i]
    {
      faces := faces + [ConeTriangle(i)];
      i := i + 1;
    }
  }

  /**
   * The cone is a closed fan of 36 triangles over the 37 vertices: each uses
   * two base points and the apex, each triangle's second base point is the
   * next triangle's first, and the last triangle wraps around to point 0.
   */
  lemma ConeFanCloses()
    ensures forall i :: 0 <= i < Segments ==>
      var f := ConeFan()[i];
      |f.corners| == 3 && CornersBelow(f, Segments + 1) && f.shade == -0.3
      && f.corners[0] == i && f.corners[1] != Apex && f.corners[2] == Apex
      && f.corners[1] == ConeFan()[(i + 1) % Segments].corners[0]
    ensures ConeFan()[Segments - 1].corners[1] == 0
  {
  }

  /** With unit trigonometric values every base point lies on the base circle. */
  lemma ConeBaseOnCircle(height: real, radius: real, circle: seq<Trig>)
    requires |circle| == Segments
    requires forall i :: 0 <= i < Segments ==> IsUnit(circle[i])
    ensures forall i :: 0 <= i < Segments ==>
      var p := ConeVertexList(height, radius, circle)[i];
      p.x * p.x + p.y * p.y == radius * radius && p.z == -(height / 2.0)
  {
    var vs := ConeVertexList(height, radius, circle);
    forall i | 0 <= i < Segments
      ensures vs[i].x * vs[i].x + vs[i].y * vs[i].y == radius * radius
    {
      var t := circle[i];
      calc {
        vs[i].x * vs[i].x + vs[i].y * vs[i].y;
        (radius * t.cos) * (radius * t.cos) + (radius * t.sin) * (radius * t.sin);
        radius * radius * (t.cos * t.cos + t.sin * t.sin);
        radius * radius;
      }
    }
  }

  // ---------------------------------------------------------------------------
  // Sphere
  // ---------------------------------------------------------------------------

  /** `latitudeBands` and `longitudeBands` of `drawSphere`. */
  const Bands: nat := 30

  /** Vertices per latitude row: the seam longitude is emitted twice. */
  const Row: nat := Bands + 1

  const GridSize: nat := Row * Row

  /** Position of the vertex at latitude `lat`, longitude `long` in the pushed vertex list. */
  function GridIndex(lat: nat, long: nat): nat {
    lat * Row + long
  }

  /**
   * The vertex at (`lat`, `long`), with `theta` the sine and cosine of
   * `lat * pi / 30` and `phi` those of `long * 2 * pi / 30`.
   */
  function SpherePoint(radius: real, theta: Trig, phi: Trig): Point3 {
    Point3((phi.cos * theta.sin) * radius, theta.cos * radius, (phi.sin * theta.sin) * radius)
  }

  function SphereVertexList(radius: real, latitude: seq<Trig>, longitude: seq<Trig>): (vs: seq<Point3>)
    requires |latitude| == Row && |longitude| == Row
    ensures |vs| == GridSize
  {
    seq(GridSize, k requires 0 <= k < GridSize => SpherePoint(radius, latitude[k / Row], longitude[k % Row]))
  }

  lemma GridPosition(lat: nat, long: nat)
    requires long < Row
    ensures GridIndex(lat, long) / Row == lat && GridIndex(lat, long) % Row == long
  {
  }

  /** The two nested loops of `drawSphere` that push the 31 x 31 vertex grid, row by row. */
  method SphereVertices(radius: real, latitude: seq<Trig>, longitude: seq<Trig>) returns (vs: seq<Point3>)
    requires |latitude| == Row && |longitude| == Row
    ensures vs == SphereVertexList(radius, latitude, longitude)
  {
    ghost var spec := SphereVertexList(radius, latitude, longitude);
    vs := [];
    var lat := 0;
    while lat <= Bands
      invariant 0 <= lat <= Row
      invariant vs == spec[..lat * Row]
    {
      var long := 0;
      while long <= Bands
        invariant 0 <= long <= Row
        invariant vs == spec[..lat * Row + long]
      {
        GridPosition(lat, long);
        vs := vs + [SpherePoint(radius, latitude[lat], longitude[long])];
        long := long + 1;
      }
      lat := lat + 1;
    }
  }

  /** The cell at (`lat`, `long`): corners `[first, second, fourth, third]` as `drawSphere` pushes them. */
  function SphereCell(lat: nat, long: nat): IndexFace {
    var first := lat * (Bands + 1) + long;
    var second := first + Bands + 1;
    var third := first + 1;
    var fourth := second + 1;
    IndexFace([first, second, fourth, third], -0.3)
  }

  function SphereMesh(): (fs: seq<IndexFace>)
    ensures |fs| == Bands * Bands
  {
    seq(Bands * Bands, k requires 0 <= k < Bands * Bands => SphereCell(k / Bands, k % Bands))
  }

  /** The two nested loops of `drawSphere` that push one quad per grid cell. */
  method SphereFaces() returns (faces: seq<IndexFace>)
    ensures faces == SphereMesh()
  {
    ghost var spec := SphereMesh();
    faces := [];
    var lat := 0;
    while lat < Bands
      invariant 0 <= lat <= Bands
      invariant faces == spec[..lat * Bands]
    {
      var long := 0;
      while long < Bands
        invariant 0 <= long <= Bands
        invariant faces == spec[..lat * Bands + long]
      {
        assert (lat * Bands + long) / Bands == lat && (lat * Bands + long) % Bands == long;
        faces := faces + [SphereCell(lat, long)];
        long := long + 1;
      }
      lat := lat + 1;
    }
  }

  /**
   * The sphere emits 900 quads; quad `lat * 30 + long` has the corners of grid
   * cell (`lat`, `long`) in the order (lat, long), (lat + 1, long),
   * (lat + 1, long + 1), (lat, long + 1), and so every index lies in the
   * 961-vertex grid.
   */
  lemma SphereMeshInGrid()
    ensures |SphereMesh()| == 900
    ensures forall lat, long :: 0 <= lat < Bands && 0 <= long < Bands ==>
      SphereMesh()[lat * Bands + long].corners ==
        [GridIndex(lat, long), GridIndex(lat + 1, long), GridIndex(lat + 1, long + 1), GridIndex(lat, long + 1)]
    ensures forall k :: 0 <= k < |SphereMesh()| ==>
      |SphereMesh()[k].corners| == 4 && CornersBelow(SphereMesh()[k], GridSize) && SphereMesh()[k].shade == -0.3
  {
    var fs := SphereMesh();
    forall lat, long | 0 <= lat < Bands && 0 <= long < Bands
      ensures fs[lat * Bands + long].corners ==
        [GridIndex(lat, long), GridIndex(lat + 1, long), GridIndex(lat + 1, long + 1), GridIndex(lat, long + 1)]
    {
      assert (lat * Bands + long) / Bands == lat && (lat * Bands + long) % Bands == long;
    }
    forall k | 0 <= k < |fs| ensures CornersBelow(fs[k], GridSize) {
      var lat, long := k / Bands, k % Bands;
      assert lat < Bands && long < Bands;
      assert GridIndex(lat + 1, long + 1) < GridSize;
    }
  }

  /** With unit trigonometric values every grid vertex lies on the sphere of the given radius. */
  lemma SphereVerticesOnSphere(radius: real, latitude: seq<Trig>, longitude: seq<Trig>)
    requires |latitude| == Row && |longitude| == Row
    requires forall i :: 0 <= i < Row ==> IsUnit(latitude[i]) && IsUnit(longitude[i])
    ensures forall k :: 0 <= k < GridSize ==>
      NormSquared(SphereVertexList(radius, latitude, longitude)[k]) == radius * radius
  {
    var vs := SphereVertexList(radius, latitude, longitude);
    forall k | 0 <= k < GridSize ensures NormSquared(vs[k]) == radius * radius {
      var th, ph := latitude[k / Row], longitude[k % Row];
      var st, ct, sp, cp := th.sin, th.cos, ph.sin, ph.cos;
      assert vs[k] == SpherePoint(radius, th, ph);
      calc {
        NormSquared(vs[k]);
        (cp * st * radius) * (cp * st * radius) + (ct * radius) * (ct * radius) + (sp * st * radius) * (sp * st * radius);
        radius * radius * (st * st * (cp * cp + sp * sp) + ct * ct);
        { assert cp * cp + sp * sp == 1.0; }
        radius * radius * (st * st + ct * ct);
        { assert st * st + ct * ct == 1.0; }
        radius * radius;
      }
    }
  }
}
