/** The geometry the four `generate*` views of `PTFTube` emit, described
    symbolically: every vertex is named by the path point, profile point or
    slice corner and the frame it is placed with, so the order and the
    connectivity of the output are exact while the positions themselves
    (`osg::Vec3f * osg::Matrix`) stay with the frames they come from. */
module Meshes {
  import G = Geometry
  import F = Frames

  datatype Option<T> = None | Some(value: T)

  /** The OpenGL primitive of a drawable. */
  datatype Topology = LineStrip | Lines | Quads | Triangles

  datatype Rgba = Rgba(r: real, g: real, b: real, a: real)

  /** A vertex of the output, named by what is transformed to produce it. */
  datatype Vertex =
    | PathVertex(i: nat)                                // path point i, as is
    | OnProfile(ci: nat, fi: nat)                       // profile point ci placed by frame fi
    | Corner(sx: int, sy: int, scale: real, fi: nat)    // (sx, sy, 0) * scale placed by frame fi

  /** The normal `getNormal(a, b, c)` of three output vertices. */
  datatype Normal = FaceNormal(a: Vertex, b: Vertex, c: Vertex)

  /** One `osg::Geometry`: one primitive set over all its vertices, a
      per-vertex normal array (empty when the view has none) and one color
      for the whole drawable. */
  datatype Drawable = Drawable(mode: Topology, vertices: seq<Vertex>, normals: seq<Normal>, color: Rgba)

  datatype Geode = Geode(drawables: seq<Drawable>)

  function PathColor(): Rgba { Rgba(0.0, 1.0, 0.0, 1.0) }
  function WireColor(): Rgba { Rgba(0.7, 0.0, 0.7, 1.0) }
  function OutlineColor(): Rgba { Rgba(1.0, 1.0, 1.0, 0.75) }
  function SliceColor(): Rgba { Rgba(1.0, 1.0, 1.0, 0.25) }
  function MeshColor(): Rgba { Rgba(0.5, 0.5, 0.7, 1.0) }

  // ---------------------------------------------------------------------
  // generatePath

  /** The path as one line strip through its points in order. */
  function PathView(n: nat): Geode
  {
    Geode([Drawable(LineStrip, seq(n, (i: nat) => PathVertex(i)), [], PathColor())])
  }

  // ---------------------------------------------------------------------
  // The side of the tube between two consecutive frames

  /** The profile index after `ci`, wrapping from the last back to 0. */
  function NextIndex(ci: nat, s: nat): (j: nat)
    requires ci < s
    ensures j < s && j == (ci + 1) % s
  {
    if ci == s - 1 then
      assert (ci + 1) % s == 0 by { assert ci + 1 == s; }
      0
    else
      assert (ci + 1) % s == ci + 1 by { assert 0 <= ci + 1 < s; }
      ci + 1
  }

  /** A triangle with its corners in output order and the normal stored with
      each of them. */
  datatype Triangle = Tri(v0: Vertex, v1: Vertex, v2: Vertex, n: Normal)

  /** The two triangles of the side quad between profile points `ci` and
      its successor, from frame `i` to frame `i + 1`: with P0, P1 on frame `i`
      and P3, P2 below them on frame `i + 1`, they are P0-P3-P1 and P1-P3-P2,
      both with the normal of P0-P3-P1. */
  function Quad(s: nat, i: nat, ci: nat): (q: seq<Triangle>)
    requires ci < s
    ensures |q| == 2
  {
    var j := NextIndex(ci, s);
    var p0, p1, p2, p3 := OnProfile(ci, i), OnProfile(j, i), OnProfile(j, i + 1), OnProfile(ci, i + 1);
    var n := FaceNormal(p0, p3, p1);
    [Tri(p0, p3, p1, n), Tri(p1, p3, p2, n)]
  }

  /** The side quads of profile points `0 .. c-1` between frames `i` and
      `i + 1`. */
  function Band(s: nat, i: nat, c: nat): (b: seq<Triangle>)
    requires c <= s
    ensures |b| == 2 * c
  {
    if c == 0 then [] else Band(s, i, c - 1) + Quad(s, i, c - 1)
  }

  /** The bands of the first `m` segments of the path. */
  function Side(s: nat, m: nat): seq<Triangle>
  {
    if m == 0 then [] else Side(s, m - 1) + Band(s, m - 1, s)
  }

  /** Two triangles per profile point per segment. */
  lemma {:induction false} SideLength(s: nat, m: nat)
    ensures |Side(s, m)| == 2 * (s * m)
  {
    if m > 0 {
      SideLength(s, m - 1);
      assert s * m == s * (m - 1) + s;
    }
  }

  /** The corners of a list of triangles, three per triangle, in order. */
  function Corners(ts: seq<Triangle>): (vs: seq<Vertex>)
    ensures |vs| == 3 * |ts|
  {
    if ts == [] then [] else
      var t := ts[|ts| - 1];
      Corners(ts[..|ts| - 1]) + [t.v0, t.v1, t.v2]
  }

  /** The normals of a list of triangles, the triangle's normal once per
      corner. */
  function Normals(ts: seq<Triangle>): (ns: seq<Normal>)
    ensures |ns| == 3 * |ts|
  {
    if ts == [] then [] else
      var t := ts[|ts| - 1];
      Normals(ts[..|ts| - 1]) + [t.n, t.n, t.n]
  }

  function Corner3(t: Triangle, e: nat): Vertex
    requires e < 3
  {
    if e == 0 then t.v0 else if e == 1 then t.v1 else t.v2
  }

  lemma {:induction false} CornersAppend(xs: seq<Triangle>, ys: seq<Triangle>)
    ensures Corners(xs + ys) == Corners(xs) + Corners(ys)
    ensures Normals(xs + ys) == Normals(xs) + Normals(ys)
    decreases |ys|
  {
    if ys == [] {
      assert xs + ys == xs;
    } else {
      var ys' := ys[..|ys| - 1];
      assert (xs + ys)[..|xs + ys| - 1] == xs + ys';
      CornersAppend(xs, ys');
    }
  }

  /** Corner `e` of triangle `t` is output vertex `3t + e`, and its normal is
      the triangle's: a flat-shaded mesh. */
  lemma {:induction false} CornersAt(ts: seq<Triangle>, t: nat, e: nat)
    requires t < |ts| && e < 3
    ensures Corners(ts)[3 * t + e] == Corner3(ts[t], e)
    ensures Normals(ts)[3 * t + e] == ts[t].n
    decreases |ts|
  {
    var init := ts[..|ts| - 1];
    if t < |ts| - 1 {
      CornersAt(init, t, e);
      assert init[t] == ts[t];
    }
  }

  // ---------------------------------------------------------------------
  // generateWireFrame

  /** The profile placed by frame `fi`, profile points `0 .. c-1`. */
  function Ring(c: nat, fi: nat): (r: seq<Vertex>)
    ensures |r| == c
    ensures forall ci :: 0 <= ci < c ==> r[ci] == OnProfile(ci, fi)
  {
    if c == 0 then [] else Ring(c - 1, fi) + [OnProfile(c - 1, fi)]
  }

  /** The six vertices the wireframe emits for the side quad of profile
      point `ci` between frames `i` and `i + 1`: P0, P3, P1 and P1, P3, P2. */
  function Sextet(s: nat, i: nat, ci: nat): (v: seq<Vertex>)
    requires ci < s
    ensures |v| == 6
  {
    var j := NextIndex(ci, s);
    var p0, p1, p2, p3 := OnProfile(ci, i), OnProfile(j, i), OnProfile(j, i + 1), OnProfile(ci, i + 1);
    [p0, p3, p1, p1, p3, p2]
  }

  /** The sextets of profile points `0 .. c-1` between frames `i` and
      `i + 1`. */
  function BandStrip(s: nat, i: nat, c: nat): (v: seq<Vertex>)
    requires c <= s
    ensures |v| == 6 * c
  {
    if c == 0 then [] else BandStrip(s, i, c - 1) + Sextet(s, i, c - 1)
  }

  /** One iteration of the wireframe's side loop appends P0, P3, P1 and
      P1, P3, P2 of the next quad. */
  lemma SextetStep(s: nat, i: nat, ci: nat)
    requires ci < s
    ensures var j := NextIndex(ci, s);
      var p0, p1, p2, p3 := OnProfile(ci, i), OnProfile(j, i), OnProfile(j, i + 1), OnProfile(ci, i + 1);
      BandStrip(s, i, ci + 1) == BandStrip(s, i, ci) + [p0, p3, p1] + [p1, p3, p2]
  {
    var j := NextIndex(ci, s);
    var p0, p1, p2, p3 := OnProfile(ci, i), OnProfile(j, i), OnProfile(j, i + 1), OnProfile(ci, i + 1);
    assert Sextet(s, i, ci) == [p0, p3, p1] + [p1, p3, p2];
  }

  /** The sextets of the first `m` segments. */
  function SideStrip(s: nat, m: nat): seq<Vertex>
  {
    if m == 0 then [] else SideStrip(s, m - 1) + BandStrip(s, m - 1, s)
  }

  /** The wireframe's single line strip: the first frame's profile, then the
      sextets of every segment. */
  function WireVertices(s: nat, n: nat): seq<Vertex>
    requires 1 <= n
  {
    Ring(s, 0) + SideStrip(s, n - 1)
  }

  /** The sextet of a quad is the corners of its two triangles. */
  lemma SextetCorners(s: nat, i: nat, ci: nat)
    requires ci < s
    ensures Sextet(s, i, ci) == Corners(Quad(s, i, ci))
  {
    var q := Quad(s, i, ci);
    assert q == [q[0]] + [q[1]];
    CornersSnoc([], q[0]);
    CornersSnoc([q[0]], q[1]);
  }

  lemma {:induction false} BandStripCorners(s: nat, i: nat, c: nat)
    requires c <= s
    ensures BandStrip(s, i, c) == Corners(Band(s, i, c))
    decreases c
  {
    hide Corners, Sextet, Quad;
    if c > 0 {
      var before, q := Band(s, i, c - 1), Quad(s, i, c - 1);
      calc {
        BandStrip(s, i, c);
        BandStrip(s, i, c - 1) + Sextet(s, i, c - 1);
        { BandStripCorners(s, i, c - 1); SextetCorners(s, i, c - 1); }
        Corners(before) + Corners(q);
        { CornersAppend(before, q); }
        Corners(before + q);
      }
    }
  }

  /** The wireframe's sextets are the corners of the side triangles, in the
      same order. */
  lemma {:induction false} SideStripCorners(s: nat, m: nat)
    ensures SideStrip(s, m) == Corners(Side(s, m))
    decreases m
  {
    hide Corners, Band, BandStrip;
    if m > 0 {
      var before, b := Side(s, m - 1), Band(s, m - 1, s);
      calc {
        SideStrip(s, m);
        SideStrip(s, m - 1) + BandStrip(s, m - 1, s);
        { SideStripCorners(s, m - 1); BandStripCorners(s, m - 1, s); }
        Corners(before) + Corners(b);
        { CornersAppend(before, b); }
        Corners(before + b);
      }
    }
  }

  /** `nullptr` unless every path point has a frame, there are at least
      three, and the profile has points. */
  function WireFrameView(pathLen: nat, frameCount: nat, s: nat): Option<Geode>
  {
    if pathLen != frameCount || frameCount < 3 || s == 0 then None
    else Some(Geode([Drawable(LineStrip, WireVertices(s, frameCount), [], WireColor())]))
  }

  // ---------------------------------------------------------------------
  // generateTriMesh

  /** The fan closing the first frame's profile: profile points `ci` and
      `ci + 1` with point 0, for `ci` from 1 to `s - 2`, wound `ci + 1, 0, ci`. */
  function FirstCap(s: nat): (c: seq<Triangle>)
    ensures |c| == if s >= 2 then s - 2 else 0
  {
    var m := if s >= 2 then s - 2 else 0;
    seq(m, (t: nat) =>
      var a, b, c := OnProfile(0, 0), OnProfile(t + 1, 0), OnProfile(t + 2, 0);
      Tri(c, a, b, FaceNormal(a, b, c)))
  }

  /** The fan closing the profile of frame `last` as the source writes it:
      wound `ci, 0, ci + 1` but given the normal of `0, ci, ci + 1`, the
      order of the first cap. */
  function LastCapAsWritten(s: nat, last: nat): (c: seq<Triangle>)
    ensures |c| == if s >= 2 then s - 2 else 0
  {
    var m := if s >= 2 then s - 2 else 0;
    seq(m, (t: nat) =>
      var a, b, c := OnProfile(0, last), OnProfile(t + 1, last), OnProfile(t + 2, last);
      Tri(b, a, c, FaceNormal(a, b, c)))
  }

  /** The fan closing the profile of frame `last`, wound `ci, 0, ci + 1`,
      with the normal of that winding, `getNormal(P0, P2, P1)`. */
  function LastCap(s: nat, last: nat): (c: seq<Triangle>)
    ensures |c| == if s >= 2 then s - 2 else 0
  {
    var m := if s >= 2 then s - 2 else 0;
    seq(m, (t: nat) =>
      var a, b, c := OnProfile(0, last), OnProfile(t + 1, last), OnProfile(t + 2, last);
      Tri(b, a, c, FaceNormal(a, c, b)))
  }

  /** The triangles `generateTriMesh` emits, last cap as the source writes it. */
  function MeshTriangles(s: nat, n: nat): seq<Triangle>
    requires 1 <= n
  {
    FirstCap(s) + Side(s, n - 1) + LastCapAsWritten(s, n - 1)
  }

  /** The mesh with the corrected last cap. */
  function CorrectedMeshTriangles(s: nat, n: nat): seq<Triangle>
    requires 1 <= n
  {
    FirstCap(s) + Side(s, n - 1) + LastCap(s, n - 1)
  }

  /** Same guard as the wireframe; one triangle list drawable with a normal
      per vertex. */
  function TriMeshView(pathLen: nat, frameCount: nat, s: nat): Option<Geode>
  {
    if pathLen != frameCount || frameCount < 3 || s == 0 then None
    else
      var ts := MeshTriangles(s, frameCount);
      Some(Geode([Drawable(Triangles, Corners(ts), Normals(ts), MeshColor())]))
  }

  // ---------------------------------------------------------------------
  // generateFrameSlices

  /** The square of frame `fi` as four corners, clockwise from (-1, 1). */
  function Square(scale: real, fi: nat): (q: seq<Vertex>)
    ensures |q| == 4
  {
    [Corner(-1, 1, scale, fi), Corner(1, 1, scale, fi), Corner(1, -1, scale, fi), Corner(-1, -1, scale, fi)]
  }

  /** The outline of the square of frame `fi` as four line segments. */
  function Outline(scale: real, fi: nat): (o: seq<Vertex>)
    ensures |o| == 8
  {
    [Corner(-1, 1, scale, fi), Corner(1, 1, scale, fi),
     Corner(1, 1, scale, fi), Corner(1, -1, scale, fi),
     Corner(1, -1, scale, fi), Corner(-1, -1, scale, fi),
     Corner(-1, -1, scale, fi), Corner(-1, 1, scale, fi)]
  }

  function Outlines(scale: real, m: nat): (vs: seq<Vertex>)
    ensures |vs| == 8 * m
  {
    if m == 0 then [] else Outlines(scale, m - 1) + Outline(scale, m - 1)
  }

  function Squares(scale: real, m: nat): (vs: seq<Vertex>)
    ensures |vs| == 4 * m
  {
    if m == 0 then [] else Squares(scale, m - 1) + Square(scale, m - 1)
  }

  /** `nullptr` when there are no path points or no frames; otherwise the
      outlines as a line list and the squares as a quad list, one of each
      per path point. */
  function SlicesView(pathLen: nat, frameCount: nat, scale: real): Option<Geode>
  {
    if pathLen == 0 || frameCount == 0 then None
    else Some(Geode([Drawable(Lines, Outlines(scale, pathLen), [], OutlineColor()),
                     Drawable(Quads, Squares(scale, pathLen), [], SliceColor())]))
  }

  // ---------------------------------------------------------------------
  // Layout of the views

  /** The path view draws the path points in order, one vertex each. */
  lemma PathLayout(n: nat)
    ensures |PathView(n).drawables| == 1
    ensures var d := PathView(n).drawables[0];
      d.mode == LineStrip && d.normals == [] && |d.vertices| == n &&
      forall i :: 0 <= i < n ==> d.vertices[i] == PathVertex(i)
  {
  }

  lemma {:induction false} BandAt(s: nat, i: nat, c: nat, ci: nat)
    requires ci < c <= s
    ensures Band(s, i, c)[2 * ci] == Quad(s, i, ci)[0]
    ensures Band(s, i, c)[2 * ci + 1] == Quad(s, i, ci)[1]
    decreases c
  {
    if ci < c - 1 {
      BandAt(s, i, c - 1, ci);
    }
  }

  /** The first `i` segments of the side are a prefix of the first `m`. */
  lemma {:induction false} SidePrefix(s: nat, i: nat, m: nat)
    requires i <= m
    ensures |Side(s, i)| <= |Side(s, m)|
    ensures Side(s, i) == Side(s, m)[..|Side(s, i)|]
    decreases m
  {
    if i < m {
      SidePrefix(s, i, m - 1);
      assert Side(s, m)[..|Side(s, m - 1)|] == Side(s, m - 1);
    }
  }

  /** The side quad of profile point `ci` between frames `i` and `i + 1`
      follows the `i` segments before it and the `ci` quads before it in
      its segment. */
  lemma SideAt(s: nat, m: nat, i: nat, ci: nat)
    requires i < m && ci < s
    ensures |Side(s, i)| + 2 * ci + 1 < |Side(s, m)|
    ensures Side(s, m)[|Side(s, i)| + 2 * ci] == Quad(s, i, ci)[0]
    ensures Side(s, m)[|Side(s, i)| + 2 * ci + 1] == Quad(s, i, ci)[1]
  {
    hide Band, Quad, Corners, BandStrip, SideStrip;
    SidePrefix(s, i + 1, m);
    BandAt(s, i, s, ci);
    var k := |Side(s, i)| + 2 * ci;
    assert Side(s, i + 1)[k] == Side(s, m)[k] && Side(s, i + 1)[k + 1] == Side(s, m)[k + 1];
  }

  /** The wireframe strip: the first frame's profile, then for every segment
      `i` and profile point `ci` the six vertices P0, P3, P1, P1, P3, P2 of
      the side quad, with `(ci + 1) mod s` as the next profile point, placed
      after the first profile and the `6 s i + 6 ci` vertices of the quads
      before it; all s + 6 s (n - 1) of them. */
  lemma WireFrameLayout(s: nat, n: nat, i: nat, ci: nat)
    requires 1 <= n && i < n - 1 && ci < s
    ensures |WireVertices(s, n)| == s + 6 * (s * (n - 1))
    ensures WireVertices(s, n)[ci] == OnProfile(ci, 0)
    ensures var vs, b, j := WireVertices(s, n), s + 6 * (s * i) + 6 * ci, (ci + 1) % s;
      b + 6 <= |vs| &&
      vs[b..b + 6] == [OnProfile(ci, i), OnProfile(ci, i + 1), OnProfile(j, i),
                       OnProfile(j, i), OnProfile(ci, i + 1), OnProfile(j, i + 1)]
  {
    hide Side, Band, Quad, Corners, SideStrip, BandStrip;
    SideLength(s, i);
    SideLength(s, n - 1);
    SideStripCorners(s, n - 1);
    WireSextet(s, n, i, ci);
  }

  /** One more triangle adds its three corners and its normal three times. */
  lemma CornersSnoc(ts: seq<Triangle>, t: Triangle)
    ensures Corners(ts + [t]) == Corners(ts) + [t.v0, t.v1, t.v2]
    ensures Normals(ts + [t]) == Normals(ts) + [t.n, t.n, t.n]
  {
    assert (ts + [t])[..|ts|] == ts;
  }

  /** One iteration of the side loop: the next quad adds P0, P3, P1 and
      P1, P3, P2 and six copies of the normal of P0-P3-P1. */
  lemma BandStep(pre: seq<Triangle>, s: nat, i: nat, ci: nat)
    requires ci < s
    ensures var j := NextIndex(ci, s);
      var p0, p1, p2, p3 := OnProfile(ci, i), OnProfile(j, i), OnProfile(j, i + 1), OnProfile(ci, i + 1);
      var n := FaceNormal(p0, p3, p1);
      Corners(pre + Band(s, i, ci + 1)) == Corners(pre + Band(s, i, ci)) + [p0, p3, p1] + [p1, p3, p2] &&
      Normals(pre + Band(s, i, ci + 1)) == Normals(pre + Band(s, i, ci)) + [n, n, n] + [n, n, n]
  {
    var q := Quad(s, i, ci);
    var before := pre + Band(s, i, ci);
    assert pre + Band(s, i, ci + 1) == before + [q[0]] + [q[1]];
    CornersSnoc(before, q[0]);
    CornersSnoc(before + [q[0]], q[1]);
  }

  /** One iteration of the first cap's loop adds P2, P0, P1 with three
      copies of the normal of P0-P1-P2. */
  lemma FirstCapStep(s: nat, ci: nat)
    requires 1 <= ci < s - 1
    ensures var p0, p1, p2 := OnProfile(0, 0), OnProfile(ci, 0), OnProfile(ci + 1, 0);
      var n := FaceNormal(p0, p1, p2);
      Corners(FirstCap(s)[..ci]) == Corners(FirstCap(s)[..ci - 1]) + [p2, p0, p1] &&
      Normals(FirstCap(s)[..ci]) == Normals(FirstCap(s)[..ci - 1]) + [n, n, n]
  {
    var cap := FirstCap(s);
    assert cap[..ci] == cap[..ci - 1] + [cap[ci - 1]];
    CornersSnoc(cap[..ci - 1], cap[ci - 1]);
  }

  /** One iteration of the last cap's loop adds P1, P0, P2 with three
      copies of the normal of P0-P1-P2. */
  lemma LastCapStep(s: nat, last: nat, ci: nat)
    requires 1 <= ci < s - 1
    ensures var p0, p1, p2 := OnProfile(0, last), OnProfile(ci, last), OnProfile(ci + 1, last);
      var n := FaceNormal(p0, p1, p2);
      Corners(LastCapAsWritten(s, last)[..ci]) == Corners(LastCapAsWritten(s, last)[..ci - 1]) + [p1, p0, p2] &&
      Normals(LastCapAsWritten(s, last)[..ci]) == Normals(LastCapAsWritten(s, last)[..ci - 1]) + [n, n, n]
  {
    var cap := LastCapAsWritten(s, last);
    assert cap[..ci] == cap[..ci - 1] + [cap[ci - 1]];
    CornersSnoc(cap[..ci - 1], cap[ci - 1]);
  }

  /** The corners of two consecutive triangles. */
  lemma CornersPair(ts: seq<Triangle>, t: nat)
    requires t + 1 < |ts|
    ensures 3 * t + 6 <= |Corners(ts)|
    ensures Corners(ts)[3 * t..3 * t + 6] == [ts[t].v0, ts[t].v1, ts[t].v2, ts[t + 1].v0, ts[t + 1].v1, ts[t + 1].v2]
  {
    CornersAt(ts, t, 0);
    CornersAt(ts, t, 1);
    CornersAt(ts, t, 2);
    CornersAt(ts, t + 1, 0);
    CornersAt(ts, t + 1, 1);
    CornersAt(ts, t + 1, 2);
  }

  /** The sextet of a side quad inside the corners of the whole side. */
  lemma SideSextet(s: nat, m: nat, i: nat, ci: nat)
    requires i < m && ci < s
    ensures var cs, t := SideStrip(s, m), |Side(s, i)| + 2 * ci;
      3 * t + 6 <= |cs| && cs[3 * t..3 * t + 6] == Sextet(s, i, ci)
  {
    hide Side, Band, Corners, SideStrip, BandStrip;
    var side := Side(s, m);
    var t := |Side(s, i)| + 2 * ci;
    SideAt(s, m, i, ci);
    CornersPair(side, t);
    SideStripCorners(s, m);
  }

  /** A run inside the second part of a concatenation. */
  lemma SliceAfter<T>(vs: seq<T>, r: seq<T>, cs: seq<T>, b: nat, x: seq<T>)
    requires vs == r + cs && b + |x| <= |cs| && cs[b..b + |x|] == x
    ensures |r| + b + |x| <= |vs| && vs[|r| + b..|r| + b + |x|] == x
  {
    assert vs[|r| + b..|r| + b + |x|] == cs[b..b + |x|];
  }

  lemma WireSextet(s: nat, n: nat, i: nat, ci: nat)
    requires 1 <= n && i < n - 1 && ci < s
    ensures var vs, b := WireVertices(s, n), s + 3 * |Side(s, i)| + 6 * ci;
      b + 6 <= |vs| && vs[b..b + 6] == Sextet(s, i, ci)
  {
    hide Side, Band, Quad, Corners, SideStrip, BandStrip, Sextet, Ring;
    var t := |Side(s, i)| + 2 * ci;
    SideSextet(s, n - 1, i, ci);
    SliceAfter(WireVertices(s, n), Ring(s, 0), SideStrip(s, n - 1), 3 * t, Sextet(s, i, ci));
  }

  /** Every wireframe vertex is a profile point that exists placed by a frame
      that exists: the strip reads no profile point past `s - 1` and no frame
      past `n - 1`. */
  lemma WireFrameInRange(s: nat, n: nat)
    requires 1 <= n
    ensures forall v :: v in WireVertices(s, n) ==> v.OnProfile? && v.ci < s && v.fi < n
  {
    SideInRange(s, n - 1);
    SideStripCorners(s, n - 1);
  }

  lemma {:induction false} BandInRange(s: nat, i: nat, c: nat)
    requires c <= s
    ensures forall v :: v in Corners(Band(s, i, c)) ==> v.OnProfile? && v.ci < s && i <= v.fi <= i + 1
    decreases c
  {
    hide Side, Corners, Quad;
    if c > 0 {
      BandInRange(s, i, c - 1);
      CornersAppend(Band(s, i, c - 1), Quad(s, i, c - 1));
      SextetCorners(s, i, c - 1);
    }
  }

  lemma {:induction false} SideInRange(s: nat, m: nat)
    ensures forall v :: v in Corners(Side(s, m)) ==> v.OnProfile? && v.ci < s && v.fi <= m
    decreases m
  {
    hide Band, Quad, Corners;
    if m > 0 {
      SideInRange(s, m - 1);
      BandInRange(s, m - 1, s);
      CornersAppend(Side(s, m - 1), Band(s, m - 1, s));
    }
  }

  /** The triangles of the mesh: first the cap fan on frame 0, wound
      `ci + 1, 0, ci`, then the two triangles of every side quad, then the
      cap fan on the last frame, wound `ci, 0, ci + 1` but carrying the
      normal of `0, ci, ci + 1`; 2 max(s - 2, 0) + 2 s (n - 1) triangles in
      all. */
  lemma TriMeshLayout(s: nat, n: nat)
    requires 1 <= n
    ensures var cap := if s >= 2 then s - 2 else 0;
      var ts := MeshTriangles(s, n);
      |ts| == 2 * cap + 2 * (s * (n - 1)) &&
      (forall t :: 0 <= t < cap ==>
        ts[t] == Tri(OnProfile(t + 2, 0), OnProfile(0, 0), OnProfile(t + 1, 0),
                     FaceNormal(OnProfile(0, 0), OnProfile(t + 1, 0), OnProfile(t + 2, 0)))) &&
      var lastCap, f := ts[|ts| - cap..], n - 1;
      (forall t :: 0 <= t < cap ==>
        lastCap[t] == Tri(OnProfile(t + 1, f), OnProfile(0, f), OnProfile(t + 2, f),
                          FaceNormal(OnProfile(0, f), OnProfile(t + 1, f), OnProfile(t + 2, f))))
  {
    var ts := MeshTriangles(s, n);
    SideLength(s, n - 1);
    assert ts[|ts| - |LastCapAsWritten(s, n - 1)|..] == LastCapAsWritten(s, n - 1);
  }

  /** Triangle `2 max(s - 2, 0) + 2 s i + 2 ci` and the one after it are the
      side quad of profile point `ci` between frames `i` and `i + 1`, both
      carrying the normal of P0-P3-P1. */
  lemma TriMeshSideAt(s: nat, n: nat, i: nat, ci: nat)
    requires 1 <= n && i < n - 1 && ci < s
    ensures var cap, j := (if s >= 2 then s - 2 else 0), (ci + 1) % s;
      var ts, t := MeshTriangles(s, n), cap + 2 * (s * i) + 2 * ci;
      var p0, p1, p2, p3 := OnProfile(ci, i), OnProfile(j, i), OnProfile(j, i + 1), OnProfile(ci, i + 1);
      t + 1 < |ts| &&
      ts[t] == Tri(p0, p3, p1, FaceNormal(p0, p3, p1)) &&
      ts[t + 1] == Tri(p1, p3, p2, FaceNormal(p0, p3, p1))
  {
    hide Side, Band, Corners, FirstCap, LastCapAsWritten, Sextet, BandStrip, SideStrip;
    var side := Side(s, n - 1);
    SideAt(s, n - 1, i, ci);
    SideLength(s, i);
    var ts := MeshTriangles(s, n);
    var t := |FirstCap(s)| + |Side(s, i)| + 2 * ci;
    assert ts[t] == side[t - |FirstCap(s)|] && ts[t + 1] == side[t + 1 - |FirstCap(s)|];
  }

  /** The tri mesh has exactly one normal per vertex, and the three vertices
      of each triangle share its normal. */
  lemma TriMeshNormals(s: nat, n: nat, t: nat, e: nat)
    requires 1 <= n && t < |MeshTriangles(s, n)| && e < 3
    ensures var ts := MeshTriangles(s, n);
      |Normals(ts)| == |Corners(ts)| == 3 * |ts| &&
      Corners(ts)[3 * t + e] == Corner3(ts[t], e) &&
      Normals(ts)[3 * t + e] == Normals(ts)[3 * t] == ts[t].n
  {
    CornersAt(MeshTriangles(s, n), t, e);
    CornersAt(MeshTriangles(s, n), t, 0);
  }

  /** The wireframe strip after the first profile ring is vertex for vertex
      the side of the tri mesh, between its two caps. */
  lemma WireTracesMesh(s: nat, n: nat)
    requires 1 <= n
    ensures var cap := 3 * |FirstCap(s)|;
      var ws, ms := WireVertices(s, n), Corners(MeshTriangles(s, n));
      |ws| - s == 6 * (s * (n - 1)) && cap + 6 * (s * (n - 1)) <= |ms| &&
      ws[s..] == ms[cap..cap + 6 * (s * (n - 1))]
  {
    var side := Side(s, n - 1);
    SideLength(s, n - 1);
    SideStripCorners(s, n - 1);
    CornersAppend(FirstCap(s), side);
    CornersAppend(FirstCap(s) + side, LastCapAsWritten(s, n - 1));
    assert Ring(s, 0) + Corners(side) == WireVertices(s, n);
  }

  // ---------------------------------------------------------------------
  // Which way the stored normals point

  /** The stored normal is `getNormal` of the triangle's corners taken in its
      drawing order up to rotation. */
  predicate FollowsWinding(t: Triangle)
  {
    var n := t.n;
    (t.v0 == n.a && t.v1 == n.b && t.v2 == n.c) ||
    (t.v0 == n.b && t.v1 == n.c && t.v2 == n.a) ||
    (t.v0 == n.c && t.v1 == n.a && t.v2 == n.b)
  }

  /** The stored normal is `getNormal` of the corners in the reverse of the
      drawing order. */
  predicate OpposesWinding(t: Triangle)
  {
    var n := t.n;
    (t.v0 == n.b && t.v1 == n.a && t.v2 == n.c) ||
    (t.v0 == n.a && t.v1 == n.c && t.v2 == n.b) ||
    (t.v0 == n.c && t.v1 == n.b && t.v2 == n.a)
  }

  /** Wherever the vertices are placed, a triangle that follows its winding
      stores the normal of its drawn face, and one that opposes it stores
      that normal reversed. */
  lemma WindingNormal(k: G.Kernel, place: Vertex -> G.Vec3, t: Triangle)
    ensures var face := F.GetNormal(k, place(t.v0), place(t.v1), place(t.v2));
      var stored := F.GetNormal(k, place(t.n.a), place(t.n.b), place(t.n.c));
      (FollowsWinding(t) ==> face == stored) &&
      (OpposesWinding(t) ==> face == G.Neg(stored))
  {
    var a, b, c := place(t.n.a), place(t.n.b), place(t.n.c);
    F.GetNormalRotate(k, a, b, c);
    F.GetNormalRotate(k, b, c, a);
    F.GetNormalOrder(k, a, b, c);
    F.GetNormalRotate(k, a, c, b);
    F.GetNormalRotate(k, c, b, a);
  }

  /** The source's last cap stores, for every triangle, the reverse of the
      normal of the face it draws, while its first cap stores the normal of
      the face it draws. */
  lemma LastCapOpposesWinding(s: nat, last: nat, t: nat)
    requires t < |LastCapAsWritten(s, last)|
    ensures OpposesWinding(LastCapAsWritten(s, last)[t])
    ensures !FollowsWinding(LastCapAsWritten(s, last)[t])
    ensures FollowsWinding(FirstCap(s)[t])
  {
  }

  /** Every cap triangle, and the first triangle of every side quad, stores
      the normal of the face it draws; the corrected last cap differs from
      the source's only in the order of its normal's points. */
  lemma CapsFollowWinding(s: nat, n: nat, t: nat)
    requires 1 <= n && t < |FirstCap(s)|
    ensures FollowsWinding(FirstCap(s)[t]) && FollowsWinding(LastCap(s, n - 1)[t])
    ensures var w, c := LastCapAsWritten(s, n - 1)[t], LastCap(s, n - 1)[t];
      c.v0 == w.v0 && c.v1 == w.v1 && c.v2 == w.v2 &&
      c.n == FaceNormal(w.n.a, w.n.c, w.n.b)
  {
  }

  /** The corrected mesh draws the same triangles in the same order; only
      the last cap's normals differ, and there the corrected triangle follows
      its winding where the source's opposes it. */
  lemma CorrectedMeshDiffers(s: nat, n: nat, t: nat)
    requires 1 <= n && t < |MeshTriangles(s, n)|
    ensures |CorrectedMeshTriangles(s, n)| == |MeshTriangles(s, n)|
    ensures var w, c := MeshTriangles(s, n)[t], CorrectedMeshTriangles(s, n)[t];
      var lastStart := |MeshTriangles(s, n)| - |LastCap(s, n - 1)|;
      c.v0 == w.v0 && c.v1 == w.v1 && c.v2 == w.v2 &&
      (t < lastStart ==> c == w) &&
      (t >= lastStart ==> c.n == FaceNormal(w.n.a, w.n.c, w.n.b) && FollowsWinding(c) && OpposesWinding(w))
  {
    var head := FirstCap(s) + Side(s, n - 1);
    var w, c := MeshTriangles(s, n), CorrectedMeshTriangles(s, n);
    if t >= |head| {
      var u := t - |head|;
      assert w[t] == LastCapAsWritten(s, n - 1)[u];
      assert c[t] == LastCap(s, n - 1)[u];
      CapsFollowWinding(s, n, u);
      LastCapOpposesWinding(s, n - 1, u);
    }
  }

  lemma SideQuadFollowsWinding(s: nat, i: nat, ci: nat)
    requires ci < s
    ensures FollowsWinding(Quad(s, i, ci)[0])
    ensures Quad(s, i, ci)[1].n == Quad(s, i, ci)[0].n
  {
  }

  // ---------------------------------------------------------------------
  // Slices

  lemma {:induction false} SquaresAt(scale: real, m: nat, i: nat, e: nat)
    requires i < m && e < 4
    ensures Squares(scale, m)[4 * i + e] == Square(scale, i)[e]
    ensures Outlines(scale, m)[8 * i + 2 * e] == Outline(scale, i)[2 * e]
    ensures Outlines(scale, m)[8 * i + 2 * e + 1] == Outline(scale, i)[2 * e + 1]
    decreases m
  {
    hide Square, Outline;
    if i < m - 1 {
      SquaresAt(scale, m - 1, i, e);
    }
  }

  /** Slice `i` is the square of frame `i` with corners (-1, 1), (1, 1),
      (1, -1), (-1, -1) scaled by `scale`, and its outline is the four
      edges of that square in the same order: line `e` runs from corner `e`
      to corner `e + 1 mod 4`. */
  lemma SlicesLayout(scale: real, m: nat, i: nat, e: nat)
    requires i < m && e < 4
    ensures var qs, ls := Squares(scale, m), Outlines(scale, m);
      |qs| == 4 * m && |ls| == 8 * m &&
      qs[4 * i + e] == Corner([-1, 1, 1, -1][e], [1, 1, -1, -1][e], scale, i) &&
      ls[8 * i + 2 * e] == qs[4 * i + e] &&
      ls[8 * i + 2 * e + 1] == qs[4 * i + (e + 1) % 4]
  {
    hide Squares, Outlines;
    SquaresAt(scale, m, i, e);
    SquaresAt(scale, m, i, (e + 1) % 4);
  }
}
