/**
 * The painter's ordering of the renderer: `faces.sort` with the comparator
 * `avgZB - avgZA`, so faces are ordered by average z from the greatest to the
 * least and painted in that order. `Array.prototype.sort` is stable, so faces
 * with equal average z keep the order they were emitted in.
 */
module Painter {
  import opened Geometry

  /** A face as the draw functions hold it: its rotated corners and its shade factor. */
  datatype Face = Face(points: seq<Point3>, shade: real)

  /** `points.reduce((sum, p) => sum + p.z, 0)`, summed from the first point on. */
  function SumZ(ps: seq<Point3>): real {
    if ps == [] then 0.0 else SumZ(ps[..|ps| - 1]) + ps[|ps| - 1].z
  }

  lemma SumZOfQuad(ps: seq<Point3>)
    requires |ps| == 4
    ensures SumZ(ps) == ps[0].z + ps[1].z + ps[2].z + ps[3].z
  {
    assert ps[..3][..2] == ps[..2] && ps[..2][..1] == ps[..1] && ps[..1][..0] == [];
    calc {
      SumZ(ps);
      SumZ(ps[..3]) + ps[3].z;
      SumZ(ps[..2]) + ps[2].z + ps[3].z;
      SumZ(ps[..1]) + ps[1].z + ps[2].z + ps[3].z;
      SumZ([]) + ps[0].z + ps[1].z + ps[2].z + ps[3].z;
    }
  }

  /** The comparator's key: the z sum divided by the fixed arity (4 for quads, 3 for cone triangles). */
  function AverageZ(f: Face, arity: nat): real
    requires arity > 0
  {
    SumZ(f.points) / arity as real
  }

  /** Painted before or at the same time: the average z is not smaller. */
  predicate NotBehind(a: Face, b: Face, arity: nat)
    requires arity > 0
  {
    AverageZ(a, arity) >= AverageZ(b, arity)
  }

  /** Average z never increases along the painting order. */
  predicate PaintOrdered(s: seq<Face>, arity: nat)
    requires arity > 0
  {
    forall i, j :: 0 <= i < j < |s| ==> NotBehind(s[i], s[j], arity)
  }

  /** The faces of `s` whose average z is `depth`, in their order in `s`. */
  function AtDepth(s: seq<Face>, depth: real, arity: nat): seq<Face>
    requires arity > 0
  {
    if s == [] then []
    else AtDepth(s[..|s| - 1], depth, arity)
         + (if AverageZ(s[|s| - 1], arity) == depth then [s[|s| - 1]] else [])
  }

  /**
   * Places `f` after a painting order `s`, moving it in front of the faces at
   * the end of `s` whose average z is smaller than its own.
   */
  function Insert(f: Face, s: seq<Face>, arity: nat): (r: seq<Face>)
    requires arity > 0
    ensures |r| == |s| + 1
  {
    if s == [] then [f]
    else if AverageZ(s[|s| - 1], arity) < AverageZ(f, arity) then Insert(f, s[..|s| - 1], arity) + [s[|s| - 1]]
    else s + [f]
  }

  /** The order `faces.sort` leaves the faces in: a stable sort, descending by average z. */
  function PaintOrder(s: seq<Face>, arity: nat): (r: seq<Face>)
    requires arity > 0
    ensures |r| == |s|
  {
    if s == [] then [] else Insert(s[|s| - 1], PaintOrder(s[..|s| - 1], arity), arity)
  }

  // ---------------------------------------------------------------------------
  // The in-place sort
  // ---------------------------------------------------------------------------

  /** `Insert` spelled out at the position where it leaves `f`. */
  lemma {:induction false} InsertAt(f: Face, s: seq<Face>, j: nat, arity: nat)
    requires arity > 0 && j <= |s|
    requires forall k :: j <= k < |s| ==> AverageZ(s[k], arity) < AverageZ(f, arity)
    requires j > 0 ==> AverageZ(s[j - 1], arity) >= AverageZ(f, arity)
    ensures Insert(f, s, arity) == s[..j] + [f] + s[j..]
    decreases |s|
  {
    if s == [] {
    } else if j == |s| {
    } else {
      var init := s[..|s| - 1];
      var last := s[|s| - 1];
      assert AverageZ(last, arity) < AverageZ(f, arity);
      assert Insert(f, s, arity) == Insert(f, init, arity) + [last];
      InsertAt(f, init, j, arity);
      assert init[..j] == s[..j];
      assert init[j..] + [last] == s[j..];
    }
  }

  /**
   * The shifting loop of one insertion step: the faces before `faces[i]` whose
   * average z is smaller than its own move one place right, leaving a gap at `j`.
   */
  method OpenGap(faces: array<Face>, i: nat, arity: nat) returns (j: nat)
    requires arity > 0 && i < faces.Length
    modifies faces
    ensures j <= i
    ensures forall k :: 0 <= k < j ==> faces[k] == old(faces[k])
    ensures forall k :: j < k <= i ==> faces[k] == old(faces[k - 1])
    ensures forall k :: j <= k < i ==> AverageZ(old(faces[k]), arity) < AverageZ(old(faces[i]), arity)
    ensures j > 0 ==> AverageZ(old(faces[j - 1]), arity) >= AverageZ(old(faces[i]), arity)
    ensures forall k :: i < k < faces.Length ==> faces[k] == old(faces[k])
  {
    ghost var before := faces[..];
    var f := faces[i];
    j := i;
    while j > 0 && AverageZ(faces[j - 1], arity) < AverageZ(f, arity)
      invariant 0 <= j <= i
      invariant forall k :: 0 <= k < j ==> faces[k] == before[k]
      invariant forall k :: j < k <= i ==> faces[k] == before[k - 1]
      invariant forall k :: j <= k < i ==> AverageZ(before[k], arity) < AverageZ(f, arity)
      invariant forall k :: i < k < faces.Length ==> faces[k] == before[k]
    {
      faces[j] := faces[j - 1];
      j := j - 1;
    }
  }

  /** One step of the insertion: `faces[i]` moves left past the faces with a smaller average z. */
  method InsertIntoPrefix(faces: array<Face>, i: nat, arity: nat)
    requires arity > 0 && i < faces.Length
    modifies faces
    ensures faces[..i + 1] == Insert(old(faces[i]), old(faces[..i]), arity)
    ensures forall k :: i < k < faces.Length ==> faces[k] == old(faces[k])
  {
    ghost var sorted := faces[..i];
    var f := faces[i];
    var j := OpenGap(faces, i, arity);
    faces[j] := f;
    InsertAt(f, sorted, j, arity);
    ghost var expected := sorted[..j] + [f] + sorted[j..];
    forall k | 0 <= k <= i ensures faces[k] == expected[k] {
      if k < j {
        assert expected[k] == sorted[k];
      } else if k > j {
        assert expected[k] == sorted[k - 1];
      }
    }
    assert faces[..i + 1] == expected;
  }

  /** `faces.sort(...)` on the array of faces, by insertion. */
  method SortFaces(faces: array<Face>, arity: nat)
    requires arity > 0
    modifies faces
    ensures faces[..] == PaintOrder(old(faces[..]), arity)
  {
    ghost var input := faces[..];
    var i := 0;
    while i < faces.Length
      invariant 0 <= i <= faces.Length
      invariant faces[..i] == PaintOrder(input[..i], arity)
      invariant forall k :: i <= k < faces.Length ==> faces[k] == input[k]
    {
      InsertIntoPrefix(faces, i, arity);
      assert input[..i + 1][..i] == input[..i];
      i := i + 1;
    }
    assert input[..faces.Length] == input;
  }

  // ---------------------------------------------------------------------------
  // What the ordering guarantees
  // ---------------------------------------------------------------------------

  lemma {:induction false} InsertPermutes(f: Face, s: seq<Face>, arity: nat)
    requires arity > 0
    ensures multiset(Insert(f, s, arity)) == multiset(s) + multiset{f}
    decreases |s|
  {
    if s != [] && AverageZ(s[|s| - 1], arity) < AverageZ(f, arity) {
      var init, last := s[..|s| - 1], s[|s| - 1];
      InsertPermutes(f, init, arity);
      assert s == init + [last];
      calc {
        multiset(Insert(f, s, arity));
        multiset(Insert(f, init, arity) + [last]);
        multiset(Insert(f, init, arity)) + multiset{last};
        multiset(init) + multiset{f} + multiset{last};
        multiset(init + [last]) + multiset{f};
      }
    }
  }

  /** The painting order holds exactly the faces it was given: it is a permutation. */
  lemma {:induction false} PaintOrderPermutes(s: seq<Face>, arity: nat)
    requires arity > 0
    ensures multiset(PaintOrder(s, arity)) == multiset(s)
    decreases |s|
  {
    if s != [] {
      var init, last := s[..|s| - 1], s[|s| - 1];
      PaintOrderPermutes(init, arity);
      InsertPermutes(last, PaintOrder(init, arity), arity);
      assert s == init + [last];
      calc {
        multiset(PaintOrder(s, arity));
        multiset(Insert(last, PaintOrder(init, arity), arity));
        multiset(PaintOrder(init, arity)) + multiset{last};
        multiset(init) + multiset{last};
        multiset(init + [last]);
      }
    }
  }

  /** Every face of the painting order is one of the faces given. */
  lemma PaintOrderMembers(s: seq<Face>, arity: nat)
    requires arity > 0
    ensures forall f :: f in PaintOrder(s, arity) ==> f in s
  {
    PaintOrderPermutes(s, arity);
    forall f | f in PaintOrder(s, arity) ensures f in s {
      assert f in multiset(PaintOrder(s, arity));
    }
  }

  /** A face deeper than the last one, and not deeper than the one before, lands between them. */
  lemma InsertPastLast(f: Face, s: seq<Face>, last: Face, arity: nat)
    requires arity > 0 && AverageZ(last, arity) < AverageZ(f, arity)
    requires s != [] ==> AverageZ(s[|s| - 1], arity) >= AverageZ(f, arity)
    ensures Insert(f, s + [last], arity) == s + [f, last]
  {
    assert (s + [last])[..|s|] == s;
  }

  /** Sorting one more face that is deeper than the last placed face and not deeper than the one before it. */
  lemma SortStep(pre: seq<Face>, x: Face, mid: seq<Face>, last: Face, arity: nat)
    requires arity > 0 && PaintOrder(pre, arity) == mid + [last]
    requires AverageZ(last, arity) < AverageZ(x, arity)
    requires mid != [] ==> AverageZ(mid[|mid| - 1], arity) >= AverageZ(x, arity)
    ensures PaintOrder(pre + [x], arity) == mid + [x, last]
  {
    PaintOrderSnoc(pre, x, arity);
    InsertPastLast(x, mid, last, arity);
  }

  /** Sorting appends one face at a time: the last face is inserted into the sorted rest. */
  lemma PaintOrderSnoc(s: seq<Face>, f: Face, arity: nat)
    requires arity > 0
    ensures PaintOrder(s + [f], arity) == Insert(f, PaintOrder(s, arity), arity)
  {
    assert (s + [f])[..|s|] == s;
  }

  /** Appending a face that no earlier face is behind keeps a painting order. */
  lemma OrderedSnoc(r: seq<Face>, x: Face, arity: nat)
    requires arity > 0 && PaintOrdered(r, arity)
    requires forall k :: 0 <= k < |r| ==> NotBehind(r[k], x, arity)
    ensures PaintOrdered(r + [x], arity)
  {
    var t := r + [x];
    forall i, j | 0 <= i < j < |t| ensures NotBehind(t[i], t[j], arity) {
      if j < |r| {
        assert t[i] == r[i] && t[j] == r[j];
      } else {
        assert t[i] == r[i] && t[j] == x;
      }
    }
  }

  /** Every face of `Insert(f, s)` is `f` or a face of `s`. */
  lemma InsertMembers(f: Face, s: seq<Face>, arity: nat)
    requires arity > 0
    ensures forall g :: g in Insert(f, s, arity) ==> g == f || g in s
  {
    InsertPermutes(f, s, arity);
    forall g | g in Insert(f, s, arity) ensures g == f || g in s {
      assert g in multiset(Insert(f, s, arity));
    }
  }

  lemma {:induction false} InsertKeepsOrder(f: Face, s: seq<Face>, arity: nat)
    requires arity > 0 && PaintOrdered(s, arity)
    ensures PaintOrdered(Insert(f, s, arity), arity)
    decreases |s|
  {
    if s != [] {
      var init, last := s[..|s| - 1], s[|s| - 1];
      assert PaintOrdered(init, arity);
      if AverageZ(last, arity) < AverageZ(f, arity) {
        InsertKeepsOrder(f, init, arity);
        var r := Insert(f, init, arity);
        InsertMembers(f, init, arity);
        forall k | 0 <= k < |r| ensures NotBehind(r[k], last, arity) {
          assert r[k] in r;
          if r[k] != f {
            var m :| 0 <= m < |init| && init[m] == r[k];
            assert s[m] == r[k];
          }
        }
        OrderedSnoc(r, last, arity);
      } else {
        forall k | 0 <= k < |s| ensures NotBehind(s[k], f, arity) {
          if k < |s| - 1 {
            assert NotBehind(s[k], last, arity);
          }
        }
        OrderedSnoc(s, f, arity);
      }
    }
  }

  /** Average z never increases along the painting order. */
  lemma {:induction false} PaintOrderSorted(s: seq<Face>, arity: nat)
    requires arity > 0
    ensures PaintOrdered(PaintOrder(s, arity), arity)
    decreases |s|
  {
    if s != [] {
      PaintOrderSorted(s[..|s| - 1], arity);
      InsertKeepsOrder(s[|s| - 1], PaintOrder(s[..|s| - 1], arity), arity);
    }
  }

  lemma {:induction false} AtDepthAppend(a: seq<Face>, b: seq<Face>, depth: real, arity: nat)
    requires arity > 0
    ensures AtDepth(a + b, depth, arity) == AtDepth(a, depth, arity) + AtDepth(b, depth, arity)
    decreases |b|
  {
    if b == [] {
      assert a + b == a;
    } else {
      var b' := b[..|b| - 1];
      AtDepthAppend(a, b', depth, arity);
      assert (a + b)[..|a + b| - 1] == a + b';
      assert (a + b)[|a + b| - 1] == b[|b| - 1];
    }
  }

  /** The faces at one depth of a single face: the face itself or nothing. */
  lemma AtDepthSingle(f: Face, depth: real, arity: nat)
    requires arity > 0
    ensures AtDepth([f], depth, arity) == if AverageZ(f, arity) == depth then [f] else []
  {
    assert [f][..0] == [];
  }

  /** Moving `f` in front of a shallower `last` keeps the faces of every depth in order. */
  lemma PassOver(f: Face, placed: seq<Face>, init: seq<Face>, last: Face, depth: real, arity: nat)
    requires arity > 0 && AverageZ(last, arity) < AverageZ(f, arity)
    requires AtDepth(placed, depth, arity) == AtDepth(init, depth, arity) + AtDepth([f], depth, arity)
    ensures AtDepth(placed + [last], depth, arity)
         == AtDepth(init + [last], depth, arity) + AtDepth([f], depth, arity)
  {
    AtDepthAppend(placed, [last], depth, arity);
    AtDepthAppend(init, [last], depth, arity);
    AtDepthSingle(last, depth, arity);
    AtDepthSingle(f, depth, arity);
    var a, l, g := AtDepth(init, depth, arity), AtDepth([last], depth, arity), AtDepth([f], depth, arity);
    if AverageZ(last, arity) == depth {
      assert g == [];
      assert a + g + l == a + l + g;
    } else {
      assert l == [];
      assert a + g + l == a + l + g;
    }
  }

  lemma {:induction false} InsertStable(f: Face, s: seq<Face>, depth: real, arity: nat)
    requires arity > 0
    ensures AtDepth(Insert(f, s, arity), depth, arity)
         == AtDepth(s, depth, arity) + AtDepth([f], depth, arity)
    decreases |s|
  {
    if s == [] {
      AtDepthSingle(f, depth, arity);
    } else {
      var last := s[|s| - 1];
      var init := s[..|s| - 1];
      assert init + [last] == s;
      if AverageZ(last, arity) < AverageZ(f, arity) {
        InsertStable(f, init, depth, arity);
        PassOver(f, Insert(f, init, arity), init, last, depth, arity);
      } else {
        AtDepthAppend(s, [f], depth, arity);
      }
    }
  }

  /**
   * The sort is stable: for every depth, the faces at that depth appear in the
   * painting order exactly as they appeared in the emission order.
   */
  lemma {:induction false} PaintOrderStable(s: seq<Face>, depth: real, arity: nat)
    requires arity > 0
    ensures AtDepth(PaintOrder(s, arity), depth, arity) == AtDepth(s, depth, arity)
    decreases |s|
  {
    if s != [] {
      var init := s[..|s| - 1];
      PaintOrderStable(init, depth, arity);
      InsertStable(s[|s| - 1], PaintOrder(init, arity), depth, arity);
      AtDepthAppend(init, [s[|s| - 1]], depth, arity);
      assert init + [s[|s| - 1]] == s;
    }
  }
}
