/** The `PTFTube` class: a path, the tangents and the circular profile the
    constructor derives from it, and the frames `build` propagates along it;
    the four `generate*` views read that state and change none of it. */
module Tube {
  import opened Geometry
  import opened Sampling
  import opened Meshes
  import F = Frames

  class PTFTube {
    /** The numerical routines the computations call. */
    const kernel: Kernel
    /** `m_Ps`: the path points. */
    var ps: seq<Vec3>
    /** `m_prof`: the profile shape. */
    var prof: seq<Vec3>
    /** `m_Ts`: one tangent per path point. */
    var ts: seq<Vec3>
    /** `m_frames`: empty, or one frame per path point once built. */
    var frames: seq<Mat4>

    /** The tangents are the ones `extractTangents` computes from the path. */
    ghost predicate TangentsOfPath()
      reads this`ps, this`ts
    {
      TangentsDefined(kernel, ps) && ts == TangentSeq(kernel, ps)
    }

    /** The tangents belong to the path, and the frames are either not built
        or the ones `build` computes from the path and its tangents. */
    ghost predicate Valid()
      reads this
    {
      TangentsOfPath() &&
      (frames == [] || frames == F.FrameSeq(kernel, ps, ts))
    }

    /** Copies the path, computes its tangents and a profile of
        `numProfPts` points on a circle of `radius`; builds no frames. */
    constructor (k: Kernel, path: seq<Vec3>, radius: real, numProfPts: int := 4)
      requires TangentsDefined(k, path)
      ensures kernel == k && ps == path && frames == []
      ensures ts == TangentSeq(k, path)
      ensures prof == CircleProfile(k, radius, numProfPts)
      ensures Valid()
    {
      kernel := k;
      ps := path;
      prof := [];
      ts := [];
      frames := [];
      new;
      ExtractTangents();
      MakeCircleProfile(radius, numProfPts);
    }

    /** Replaces the tangents by one per path point: forward, central or
        backward difference, normalized. */
    method ExtractTangents()
      requires TangentsDefined(kernel, ps)
      modifies this`ts
      ensures ts == TangentSeq(kernel, ps)
      ensures old(Valid()) ==> Valid()
    {
      ts := [];
      var i := 0;
      while i < |ps|
        invariant 0 <= i <= |ps|
        invariant ts == TangentSeq(kernel, ps)[..i]
      {
        var t := TangentOfPoint(kernel, ps, i);
        ts := ts + [t];
        i := i + 1;
      }
    }

    /** Replaces the profile by `segments` evenly spaced points on the circle
        of `radius` in the plane z = 0. */
    method MakeCircleProfile(radius: real := 0.25, segments: int := 16)
      modifies this`prof
      ensures prof == CircleProfile(kernel, radius, segments)
      ensures old(Valid()) ==> Valid()
    {
      prof := [];
      ghost var spec := CircleProfile(kernel, radius, segments);
      var i := 0;
      while i < segments
        invariant 0 <= i <= |spec|
        invariant prof == spec[..i]
      {
        var t := i as real * (2.0 * E_PI / segments as real);
        assert spec[i] == ProfilePoint(kernel, radius, segments, i);
        assert ProfileAngle(segments, i) == t;
        assert spec[i] == Vec3(kernel.cos(t) * radius, kernel.sin(t) * radius, 0.0);
        assert spec[..i + 1] == spec[..i] + [spec[i]];
        prof := prof + [Vec3(kernel.cos(t) * radius, kernel.sin(t) * radius, 0.0)];
        i := i + 1;
      }
    }

    /** Discards any previous frames; for a path of at least three points
        puts one frame per point: the first frame, a `nextFrame` step for
        each later point, and a `lastFrame` step overwriting the last. */
    method Build()
      requires |ts| == |ps|
      modifies this`frames
      ensures frames == F.FrameSeq(kernel, ps, ts)
      ensures |frames| == if |ps| >= 3 then |ps| else 0
      ensures TangentsOfPath() ==> Valid()
    {
      frames := ChainFrames(kernel, ps, ts);
    }

    /** Under the class invariant the frames are either not built or one per
        path point, each placed at its point when rotations are linear. */
    lemma FramesOnPath()
      requires Valid()
      ensures frames == [] || (|ps| >= 3 && |frames| == |ps|)
      ensures RigidRotations(kernel) ==>
        forall i :: 0 <= i < |frames| ==> Affine(frames[i]) && Origin(frames[i]) == ps[i]
    {
      if RigidRotations(kernel) && frames != [] {
        F.FramesAnchored(kernel, ps, ts);
      }
    }

    /** The path as a line strip through its points in order. */
    method GeneratePath() returns (node: Geode)
      ensures node == PathView(|ps|)
    {
      var vertices: seq<Vertex> := [];
      var i := 0;
      while i < |ps|
        invariant 0 <= i <= |ps|
        invariant vertices == seq(i, (j: nat) => PathVertex(j))
      {
        vertices := vertices + [PathVertex(i)];
        i := i + 1;
      }
      node := Geode([Drawable(LineStrip, vertices, [], PathColor())]);
    }

    /** No geometry unless every path point has a frame, there are at least
        three and the profile is not empty; otherwise the wireframe strip. */
    method GenerateWireFrame() returns (node: Option<Geode>)
      ensures node == WireFrameView(|ps|, |frames|, |prof|)
      ensures node.Some? <==> |ps| == |frames| && |frames| >= 3 && |prof| > 0
      ensures Valid() && frames != [] && |prof| > 0 ==> node.Some?
      ensures node.Some? ==>
        |node.value.drawables| == 1 &&
        |node.value.drawables[0].vertices| == |prof| + 6 * (|prof| * (|ps| - 1))
    {
      if |ps| != |frames| || |frames| < 3 || |prof| == 0 {
        return None;
      }
      var s := |prof|;
      var vertices := EmitWireStrip(s, |ps|);
      WireFrameLayout(s, |ps|, 0, 0);
      node := Some(Geode([Drawable(LineStrip, vertices, [], WireColor())]));
    }

    /** No geometry when the path or the frames are empty; otherwise, per
        path point, the outline of its frame's square as a line list and the
        square itself as a quad list. */
    method GenerateFrameSlices(scale: real := 1.0) returns (node: Option<Geode>)
      requires Valid()
      ensures node == SlicesView(|ps|, |frames|, scale)
      ensures node.Some? <==> |ps| > 0 && |frames| > 0
      ensures node.Some? ==>
        |node.value.drawables| == 2 &&
        |node.value.drawables[0].vertices| == 8 * |ps| && |node.value.drawables[1].vertices| == 4 * |ps|
    {
      hide F.FrameSeq, TangentSeq;
      if |ps| == 0 || |frames| == 0 {
        return None;
      }
      var vertLines: seq<Vertex> := [];
      var i := 0;
      while i < |ps|
        invariant 0 <= i <= |ps|
        invariant vertLines == Outlines(scale, i)
      {
        vertLines := vertLines + [Corner(-1, 1, scale, i), Corner(1, 1, scale, i)];
        vertLines := vertLines + [Corner(1, 1, scale, i), Corner(1, -1, scale, i)];
        vertLines := vertLines + [Corner(1, -1, scale, i), Corner(-1, -1, scale, i)];
        vertLines := vertLines + [Corner(-1, -1, scale, i), Corner(-1, 1, scale, i)];
        i := i + 1;
      }
      var vertQuads: seq<Vertex> := [];
      i := 0;
      while i < |ps|
        invariant 0 <= i <= |ps|
        invariant vertQuads == Squares(scale, i)
      {
        vertQuads := vertQuads + [Corner(-1, 1, scale, i), Corner(1, 1, scale, i)];
        vertQuads := vertQuads + [Corner(1, -1, scale, i), Corner(-1, -1, scale, i)];
        i := i + 1;
      }
      node := Some(Geode([Drawable(Lines, vertLines, [], OutlineColor()),
                          Drawable(Quads, vertQuads, [], SliceColor())]));
    }

    /** Same guard as the wireframe; otherwise the closed tube as a triangle
        list with one normal per vertex: the first cap, the side, the last
        cap, each appended by a loop of its own. */
    method GenerateTriMesh() returns (node: Option<Geode>)
      ensures node == TriMeshView(|ps|, |frames|, |prof|)
      ensures node.Some? <==> |ps| == |frames| && |frames| >= 3 && |prof| > 0
      ensures Valid() && frames != [] && |prof| > 0 ==> node.Some?
      ensures node.Some? ==>
        |node.value.drawables| == 1 &&
        var d, cap := node.value.drawables[0], if |prof| >= 2 then |prof| - 2 else 0;
        |d.vertices| == |d.normals| == 3 * (2 * cap + 2 * (|prof| * (|ps| - 1)))
    {
      if |ps| != |frames| || |frames| < 3 || |prof| == 0 {
        return None;
      }
      var s := |prof|;
      var vertices, normals := EmitMesh(s, |frames|);
      TriMeshLayout(s, |frames|);
      node := Some(Geode([Drawable(Triangles, vertices, normals, MeshColor())]));
    }
  }


  /** The body of the loop of `extractTangents` for point `i`: the forward,
      central or backward difference, normalized. */
  method TangentOfPoint(k: Kernel, ps: seq<Vec3>, i: nat) returns (t: Vec3)
    requires TangentsDefined(k, ps) && i < |ps|
    ensures t == TangentAt(k, ps, i)
  {
    if i == 0 {
      t := Sub(ps[i + 1], ps[i]);
    } else if i < |ps| - 1 {
      var dt := Sub(ps[i + 1], ps[i - 1]);
      assert dt == Central(ps, i);
      t := Div(dt, Length(k, dt));
    } else {
      t := Sub(ps[i], ps[i - 1]);
    }
    t := Normalize(k, t);
  }

  /** The three loops of `generateTriMesh` in order: the first cap, the
      side and the last cap, over a profile of `s` points and `n` frames. */
  method EmitMesh(s: nat, n: nat) returns (vertices: seq<Vertex>, normals: seq<Normal>)
    requires 1 <= n
    ensures vertices == Corners(MeshTriangles(s, n)) && normals == Normals(MeshTriangles(s, n))
  {
    hide FirstCap, Side, LastCapAsWritten;
    var last := n - 1;
    // the cap on frame 0
    var capV, capN := EmitFirstCap(s);
    // the side quads between consecutive frames
    var sideV, sideN := EmitSide(s, n - 1);
    // the cap on the last frame
    var lastV, lastN := EmitLastCap(s, last);
    vertices, normals := capV + sideV + lastV, capN + sideN + lastN;
    CornersAppend(FirstCap(s), Side(s, n - 1));
    CornersAppend(FirstCap(s) + Side(s, n - 1), LastCapAsWritten(s, last));
  }

  /** The loops of `generateWireFrame`: the first frame's profile ring, then
      for each later frame a sextet per profile point, tracing the two
      triangles of each side quad. */
  method EmitWireStrip(s: nat, n: nat) returns (vertices: seq<Vertex>)
    requires 2 <= n
    ensures vertices == WireVertices(s, n)
  {
    vertices := [];
    for i := 0 to n - 1
      invariant i == 0 ==> vertices == []
      invariant i > 0 ==> vertices == Ring(s, 0) + SideStrip(s, i)
    {
      if i == 0 {
        // the ring of frame 0 opens the strip
        for ci := 0 to s
          invariant vertices == Ring(ci, 0)
        {
          vertices := vertices + [OnProfile(ci, i)];
        }
      }
      var band := EmitBand(s, i);
      vertices := vertices + band;
    }
  }

  /** One band of `generateWireFrame`: for each profile point, the sextet
      tracing the two triangles of the quad between frames `i` and `i + 1`. */
  method EmitBand(s: nat, i: nat) returns (vertices: seq<Vertex>)
    ensures vertices == BandStrip(s, i, s)
  {
    vertices := [];
    for ci := 0 to s
      invariant vertices == BandStrip(s, i, ci)
    {
      var idx0 := ci;
      var idx1 := if ci == s - 1 then 0 else ci + 1;
      var p0, p1 := OnProfile(idx0, i), OnProfile(idx1, i);
      var p2, p3 := OnProfile(idx1, i + 1), OnProfile(idx0, i + 1);
      SextetStep(s, i, ci);
      vertices := vertices + [p0, p3, p1];
      vertices := vertices + [p1, p3, p2];
    }
  }

  /** The loop of `build`: a local frame buffer of one slot per point, the
      first frame in slot 0, one `nextFrame` step per later slot, and the
      `lastFrame` step overwriting the final slot. */
  method ChainFrames(k: Kernel, ps: seq<Vec3>, ts: seq<Vec3>) returns (f: seq<Mat4>)
    requires |ts| == |ps|
    ensures f == F.FrameSeq(k, ps, ts)
  {
    hide F.NextFrame;
    f := [];
    var n := |ps|;
    if n >= 3 {
      f := seq(n, _ => Identity());
      f := f[0 := F.FirstFrame(k, ps[0], ps[1], ps[2])];
      f := StepFrames(k, ps, ts, f);
      F.ChainCloses(k, ps, ts, f);
      f := f[n - 1 := F.LastFrame(f[n - 2], ps[n - 2], ps[n - 1])];
    }
  }

  /** The `nextFrame` loop of `build`, from the first frame on. */
  method StepFrames(k: Kernel, ps: seq<Vec3>, ts: seq<Vec3>, f0: seq<Mat4>) returns (f: seq<Mat4>)
    requires 3 <= |ps| == |ts| == |f0|
    requires f0[..1] == F.Chain(k, ps, ts, 1)
    ensures |f| == |ps| && f[..|ps|] == F.Chain(k, ps, ts, |ps|)
  {
    hide F.NextFrame;
    f := f0;
    for i := 1 to |ps|
      invariant |f| == |ps|
      invariant f[..i] == F.Chain(k, ps, ts, i)
    {
      var next := F.NextFrame(k, f[i - 1], ps[i - 1], ps[i], ts[i - 1], ts[i]);
      F.ChainExtend(k, ps, ts, f, i, next);
      f := f[i := next];
    }
  }

  /** The first cap's loop: a fan of triangles P2, P0, P1 over the profile
      placed by the first frame, each with the normal of P0-P1-P2. */
  method EmitFirstCap(s: nat) returns (vertices: seq<Vertex>, normals: seq<Normal>)
    ensures vertices == Corners(FirstCap(s)) && normals == Normals(FirstCap(s))
  {
    vertices, normals := [], [];
    var ci := 1;
    while ci < s - 1
      invariant 1 <= ci && ci - 1 <= |FirstCap(s)|
      invariant vertices == Corners(FirstCap(s)[..ci - 1])
      invariant normals == Normals(FirstCap(s)[..ci - 1])
    {
      var p0, p1, p2 := OnProfile(0, 0), OnProfile(ci, 0), OnProfile(ci + 1, 0);
      vertices := vertices + [p2, p0, p1];
      var n := FaceNormal(p0, p1, p2);
      normals := normals + [n, n, n];
      FirstCapStep(s, ci);
      ci := ci + 1;
    }
    assert FirstCap(s)[..ci - 1] == FirstCap(s);
  }

  /** The side's nested loops: for every segment `i` and profile point `ci`
      the triangles P0-P3-P1 and P1-P3-P2, both with the normal of
      P0-P3-P1. */
  method EmitSide(s: nat, m: nat) returns (vertices: seq<Vertex>, normals: seq<Normal>)
    ensures vertices == Corners(Side(s, m)) && normals == Normals(Side(s, m))
  {
    vertices, normals := [], [];
    for i := 0 to m
      invariant vertices == Corners(Side(s, i))
      invariant normals == Normals(Side(s, i))
    {
      assert Side(s, i) + Band(s, i, 0) == Side(s, i);
      for ci := 0 to s
        invariant vertices == Corners(Side(s, i) + Band(s, i, ci))
        invariant normals == Normals(Side(s, i) + Band(s, i, ci))
      {
        var idx0 := ci;
        var idx1 := if ci == s - 1 then 0 else ci + 1;
        var p0, p1 := OnProfile(idx0, i), OnProfile(idx1, i);
        var p2, p3 := OnProfile(idx1, i + 1), OnProfile(idx0, i + 1);
        var n := FaceNormal(p0, p3, p1);
        BandStep(Side(s, i), s, i, ci);
        vertices := vertices + [p0, p3, p1];
        normals := normals + [n, n, n];
        vertices := vertices + [p1, p3, p2];
        normals := normals + [n, n, n];
      }
    }
  }

  /** The last cap's loop: triangles P1, P0, P2 over the profile placed by
      the last frame, each with the normal of P0-P1-P2, which opposes that
      winding (see `LastCapOpposesWinding`). */
  method EmitLastCap(s: nat, last: nat) returns (vertices: seq<Vertex>, normals: seq<Normal>)
    ensures vertices == Corners(LastCapAsWritten(s, last)) && normals == Normals(LastCapAsWritten(s, last))
  {
    vertices, normals := [], [];
    var ci := 1;
    while ci < s - 1
      invariant 1 <= ci && ci - 1 <= |LastCapAsWritten(s, last)|
      invariant vertices == Corners(LastCapAsWritten(s, last)[..ci - 1])
      invariant normals == Normals(LastCapAsWritten(s, last)[..ci - 1])
    {
      var p0, p1, p2 := OnProfile(0, last), OnProfile(ci, last), OnProfile(ci + 1, last);
      vertices := vertices + [p1, p0, p2];
      var n := FaceNormal(p0, p1, p2);
      normals := normals + [n, n, n];
      LastCapStep(s, last, ci);
      ci := ci + 1;
    }
    assert LastCapAsWritten(s, last)[..ci - 1] == LastCapAsWritten(s, last);
  }

  // ---------------------------------------------------------------------
  // Properties of the whole construction

  /** Moving the whole path by `c` keeps the tangents and moves every built
      frame by `c`: the tube only depends on the shape of the path. */
  lemma TubeTranslates(k: Kernel, ps: seq<Vec3>, c: Vec3)
    requires RigidRotations(k)
    requires TangentsDefined(k, ps)
    ensures TangentsDefined(k, F.ShiftAll(ps, c))
    ensures TangentSeq(k, F.ShiftAll(ps, c)) == TangentSeq(k, ps)
    ensures var qs := F.ShiftAll(ps, c);
      F.FrameSeq(k, qs, TangentSeq(k, qs)) == F.ShiftFrames(F.FrameSeq(k, ps, TangentSeq(k, ps)), c)
  {
    var qs := F.ShiftAll(ps, c);
    var ts := TangentSeq(k, ps);
    if |ps| == 0 {
      assert TangentsDefined(k, qs);
    } else {
      TangentTranslates(k, ps, qs, c, 0);
      forall i | 0 <= i < |ps|
        ensures TangentAt(k, qs, i) == TangentAt(k, ps, i)
      {
        TangentTranslates(k, ps, qs, c, i);
      }
    }
    assert TangentSeq(k, qs) == ts;
    F.FramesTranslate(k, ps, ts, c);
  }

  /** A path of at least three points on one line gets frames that all
      share the first frame's basis: nothing turns and nothing twists, the
      frames only slide along the line. */
  lemma StraightTubeNoTwist(k: Kernel, ps: seq<Vec3>, a: Vec3, d: Vec3, s: seq<real>)
    requires SqrtOfZero(k)
    requires TangentsDefined(k, ps) && 3 <= |ps|
    requires OnLine(ps, a, d, s)
    ensures var f := F.FrameSeq(k, ps, TangentSeq(k, ps));
      |f| == |ps| && forall i :: 0 <= i < |f| ==> SameBasis(f[i], f[0])
  {
    var ts := TangentSeq(k, ps);
    var w := seq(|ps|, (i: nat) requires i < |ps| => LineWeight(k, ps, s, i));
    forall i | 0 <= i < |ts|
      ensures ts[i] == Scale(d, w[i])
    {
      TangentOnLine(k, ps, a, d, s, i);
    }
    F.FramesStraight(k, ps, ts, d, w);
  }
}
