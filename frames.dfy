/** The frame computations of `PTFTube`: the first frame from three points,
    the parallel-transport step, the last frame, the face normal, and the
    sequential fold that `build` performs over the path. */
module Frames {
  import opened Geometry

  // ---------------------------------------------------------------------
  // firstFrame

  /** The component of `t` with the smallest magnitude: x against y first
      (a tie picks y), then z when it is strictly smaller. */
  function FallbackAxis(t: Vec3): (i: nat)
    ensures i < 3
    ensures forall j :: 0 <= j < 3 ==> Abs(At(t, i)) <= Abs(At(t, j))
  {
    var i := if Abs(t.x) < Abs(t.y) then 0 else 1;
    if Abs(t.z) < Abs(At(t, i)) then 2 else i
  }

  /** The world axis picked by `FallbackAxis` is never parallel to a
      non-zero tangent, so the manufactured normal is never zero. */
  lemma FallbackNotParallel(t: Vec3)
    requires t != Zero()
    ensures Cross(t, UnitAxis(FallbackAxis(t))) != Zero()
  {
    var i := FallbackAxis(t);
    assert Abs(At(t, i)) <= Abs(t.x) && Abs(At(t, i)) <= Abs(t.y) && Abs(At(t, i)) <= Abs(t.z);
    if i == 0 {
      assert t.y != 0.0 || t.z != 0.0;
    } else if i == 1 {
      assert t.x != 0.0 || t.z != 0.0;
    } else {
      assert t.x != 0.0 || t.y != 0.0;
    }
  }

  /** The normal of the first frame: across the first three points, or, when
      that cross product normalizes to length zero, across the world axis
      least aligned with the tangent. */
  function FirstNormal(k: Kernel, t: Vec3, p0: Vec3, p2: Vec3): Vec3
  {
    var n := Normalize(k, Cross(t, Sub(p2, p0)));
    if Length(k, n) == 0.0 then Normalize(k, Cross(t, UnitAxis(FallbackAxis(t)))) else n
  }

  /** `firstFrame`: rows binormal, normal, tangent and the first point.
      Unless the first three points are collinear, the normal lies along
      `t ^ (p2 - p0)`, the same way round, and so is perpendicular to the
      step from the first point to the third. */
  function FirstFrame(k: Kernel, p0: Vec3, p1: Vec3, p2: Vec3): (m: Mat4)
    ensures Affine(m) && Origin(m) == p0
    ensures Xyz(m.r2) == Normalize(k, Sub(p1, p0))
    ensures Xyz(m.r0) == Cross(Xyz(m.r2), Xyz(m.r1))
    ensures var e := Cross(Normalize(k, Sub(p1, p0)), Sub(p2, p0));
      Length(k, Normalize(k, e)) != 0.0 ==>
        Cross(Xyz(m.r1), e) == Zero() && Dot(Xyz(m.r1), e) >= 0.0 && Dot(Xyz(m.r1), Sub(p2, p0)) == 0.0
  {
    var t := Normalize(k, Sub(p1, p0));
    var n := FirstNormal(k, t, p0, p2);
    var b := Cross(t, n);
    FirstNormalAcross(k, t, p0, p2);
    Mat4(RowOf(b, 0.0), RowOf(n, 0.0), RowOf(t, 0.0), RowOf(p0, 1.0))
  }

  /** Outside the fallback, the first normal is `t ^ (p2 - p0)` normalized. */
  lemma FirstNormalAcross(k: Kernel, t: Vec3, p0: Vec3, p2: Vec3)
    ensures var e := Cross(t, Sub(p2, p0)); var n := FirstNormal(k, t, p0, p2);
      Length(k, Normalize(k, e)) != 0.0 ==>
        Cross(n, e) == Zero() && Dot(n, e) >= 0.0 && Dot(n, Sub(p2, p0)) == 0.0
  {
    var e := Cross(t, Sub(p2, p0));
    NormalizeDirection(k, e);
    CrossOrthogonal(t, Sub(p2, p0));
    DotScaleLeft(e, NormalizeFactor(k, e), Sub(p2, p0));
  }

  /** The three basis rows of the first frame are mutually orthogonal. */
  lemma FirstFrameOrthogonal(k: Kernel, p0: Vec3, p1: Vec3, p2: Vec3)
    ensures var m := FirstFrame(k, p0, p1, p2);
      Dot(Xyz(m.r0), Xyz(m.r1)) == 0.0 && Dot(Xyz(m.r0), Xyz(m.r2)) == 0.0 && Dot(Xyz(m.r1), Xyz(m.r2)) == 0.0
  {
    var t := Normalize(k, Sub(p1, p0));
    var w := if Length(k, Normalize(k, Cross(t, Sub(p2, p0)))) == 0.0 then UnitAxis(FallbackAxis(t)) else Sub(p2, p0);
    var n := FirstNormal(k, t, p0, p2);
    assert n == Normalize(k, Cross(t, w));
    var c := NormalizeFactor(k, Cross(t, w));
    CrossOrthogonal(t, w);
    DotScaleLeft(Cross(t, w), c, t);
    assert Dot(n, t) == 0.0;
    CrossOrthogonal(t, n);
  }

  /** When the first two points differ the first frame has a non-zero tangent
      and a non-zero normal, collinear first three points included. */
  lemma FirstFrameNondegenerate(k: Kernel, p0: Vec3, p1: Vec3, p2: Vec3)
    requires SqrtOfZero(k)
    requires p1 != p0
    ensures var m := FirstFrame(k, p0, p1, p2); Xyz(m.r2) != Zero() && Xyz(m.r1) != Zero()
  {
    var t := Normalize(k, Sub(p1, p0));
    assert Sub(p1, p0) != Zero();
    NormalizeDirection(k, Sub(p1, p0));
    var n := Normalize(k, Cross(t, Sub(p2, p0)));
    if Length(k, n) == 0.0 {
      FallbackNotParallel(t);
      NormalizeDirection(k, Cross(t, UnitAxis(FallbackAxis(t))));
    } else {
      assert n != Zero();
    }
  }

  /** Collinear first three points take the fallback branch. */
  lemma FirstFrameCollinear(k: Kernel, p0: Vec3, p1: Vec3, a: real)
    requires SqrtOfZero(k)
    ensures var t := Normalize(k, Sub(p1, p0));
      Xyz(FirstFrame(k, p0, p1, Add(p0, Scale(Sub(p1, p0), a))).r1)
        == Normalize(k, Cross(t, UnitAxis(FallbackAxis(t))))
  {
    var d := Sub(p1, p0);
    var t := Normalize(k, d);
    var p2 := Add(p0, Scale(d, a));
    assert Sub(p2, p0) == Scale(d, a);
    assert Cross(t, Sub(p2, p0)) == Zero() by {
      var c := NormalizeFactor(k, d);
      CrossParallel(d, c, a);
    }
    NormalizeZero(k);
    assert FirstNormal(k, t, p0, p2) == Normalize(k, Cross(t, UnitAxis(FallbackAxis(t))));
  }

  /** Two multiples of one vector have a zero cross product. */
  lemma CrossParallel(d: Vec3, a: real, b: real)
    ensures Cross(Scale(d, a), Scale(d, b)) == Zero()
  {
  }

  // ---------------------------------------------------------------------
  // nextFrame and lastFrame

  /** The dot product clamped into the domain of `acos`. */
  function Clamp(d: real): (c: real)
    ensures -1.0 <= c <= 1.0
    ensures -1.0 <= d <= 1.0 ==> c == d
    ensures d > 1.0 ==> c == 1.0
    ensures d < -1.0 ==> c == -1.0
  {
    if d > 1.0 then 1.0 else if d < -1.0 then -1.0 else d
  }

  /** The rotation axis between two tangents, after normalizing them. */
  function TurnAxis(k: Kernel, prevT: Vec3, currT: Vec3): Vec3
  {
    Cross(Normalize(k, prevT), Normalize(k, currT))
  }

  /** The rotation angle between two tangents, after normalizing them. */
  function TurnAngle(k: Kernel, prevT: Vec3, currT: Vec3): real
  {
    k.acos(Clamp(Dot(Normalize(k, prevT), Normalize(k, currT))))
  }

  /** How `nextFrame` moves the previous frame: a rotation about an axis, or
      a translation only. */
  datatype Turn = Rotate(angle: real, axis: Vec3) | Slide

  /** The branch `nextFrame` takes.  When a tangent has length zero the axis
      stays (0, 0, 0) and the angle 0, which selects the translation. */
  function TurnBetween(k: Kernel, prevT: Vec3, currT: Vec3): (turn: Turn)
    ensures turn.Slide? <==>
      (Length(k, prevT) == 0.0 || Length(k, currT) == 0.0 ||
       Length(k, TurnAxis(k, prevT, currT)) == 0.0 || TurnAngle(k, prevT, currT) == 0.0)
    ensures turn.Rotate? ==> turn == Rotate(TurnAngle(k, prevT, currT), TurnAxis(k, prevT, currT))
  {
    var both := Length(k, prevT) != 0.0 && Length(k, currT) != 0.0;
    var axis := if both then TurnAxis(k, prevT, currT) else Zero();
    var r := if both then TurnAngle(k, prevT, currT) else 0.0;
    if Length(k, axis) != 0.0 && r != 0.0 then Rotate(r, axis) else Slide
  }

  /** `nextFrame`: for a rotation, undo the previous translation, rotate and
      translate to the current point (`prev * Ti * R * Tj`); otherwise
      translate the previous frame by the step between the points. Either
      way, provided rotations are linear, the step keeps a rigid-shaped frame
      rigid-shaped and carries its origin from the previous point to the
      current one. */
  function NextFrame(k: Kernel, prev: Mat4, prevP: Vec3, currP: Vec3, prevT: Vec3, currT: Vec3): (m: Mat4)
    ensures RigidRotations(k) && Affine(prev) && Origin(prev) == prevP ==> Affine(m) && Origin(m) == currP
  {
    match TurnBetween(k, prevT, currT)
    case Rotate(r, axis) =>
      var x1 := Mul(prev, Translate(Neg(prevP)));
      var m := Mul(Mul(x1, k.rotate(r, axis)), Translate(currP));
      if Linear(k.rotate(r, axis)) && Affine(prev) && Origin(prev) == prevP then
        MulTranslate(prev, Neg(prevP));
        MulLinear(x1, k.rotate(r, axis));
        MulTranslate(Mul(x1, k.rotate(r, axis)), currP);
        m
      else m
    case Slide =>
      var m := Mul(prev, Translate(Sub(currP, prevP)));
      if Affine(prev) then MulTranslate(prev, Sub(currP, prevP)); m else m
  }

  /** A rotating step turns the basis of the previous frame by the rotation:
      undoing and redoing a translation leaves the rows b, n and t of
      `prev * R` as they are. */
  lemma NextFrameRotatesBasis(k: Kernel, prev: Mat4, prevP: Vec3, currP: Vec3, prevT: Vec3, currT: Vec3)
    requires Affine(prev)
    requires TurnBetween(k, prevT, currT).Rotate?
    requires var turn := TurnBetween(k, prevT, currT); Linear(k.rotate(turn.angle, turn.axis))
    ensures var turn := TurnBetween(k, prevT, currT);
      SameBasis(NextFrame(k, prev, prevP, currP, prevT, currT), Mul(prev, k.rotate(turn.angle, turn.axis)))
  {
    var turn := TurnBetween(k, prevT, currT);
    var rot := k.rotate(turn.angle, turn.axis);
    var x1 := Mul(prev, Translate(Neg(prevP)));
    MulTranslate(prev, Neg(prevP));
    MulLinear(x1, rot);
    MulTranslate(Mul(x1, rot), currP);
  }

  /** Tangents that are multiples of one direction never rotate the frame. */
  lemma ParallelTangentsSlide(k: Kernel, d: Vec3, a: real, b: real)
    requires SqrtOfZero(k)
    ensures TurnBetween(k, Scale(d, a), Scale(d, b)) == Slide
  {
    var u, v := Scale(d, a), Scale(d, b);
    var fa, fb := NormalizeFactor(k, u), NormalizeFactor(k, v);
    assert Normalize(k, u) == Scale(d, a * fa) by { ScaleScale(d, a, fa); }
    assert Normalize(k, v) == Scale(d, b * fb) by { ScaleScale(d, b, fb); }
    CrossParallel(d, a * fa, b * fb);
    assert TurnAxis(k, u, v) == Zero();
    LengthOfZero(k);
  }

  /** A translation-only step keeps the basis and moves the origin by the
      step between the points. */
  lemma SlideKeepsBasis(k: Kernel, prev: Mat4, prevP: Vec3, currP: Vec3, prevT: Vec3, currT: Vec3)
    requires Affine(prev)
    requires TurnBetween(k, prevT, currT) == Slide
    ensures NextFrame(k, prev, prevP, currP, prevT, currT) == Shifted(prev, Sub(currP, prevP))
  {
    MulTranslate(prev, Sub(currP, prevP));
  }

  /** `lastFrame`: the previous frame translated to the last point. */
  function LastFrame(prev: Mat4, prevP: Vec3, lastP: Vec3): (m: Mat4)
    ensures Affine(prev) ==> m == Shifted(prev, Sub(lastP, prevP))
  {
    Mul(prev, Translate(Sub(lastP, prevP)))
  }

  /** Moving the previous frame and both points by `c` moves the next frame
      by `c` and changes nothing else. */
  lemma StepTranslates(k: Kernel, prev: Mat4, p: Vec3, q: Vec3, prevT: Vec3, currT: Vec3, c: Vec3)
    requires RigidRotations(k)
    requires Affine(prev)
    ensures NextFrame(k, Shifted(prev, c), Add(p, c), Add(q, c), prevT, currT)
         == Shifted(NextFrame(k, prev, p, q, prevT, currT), c)
  {
    var moved := Shifted(prev, c);
    match TurnBetween(k, prevT, currT)
    case Rotate(r, axis) =>
      MulTranslate(moved, Neg(Add(p, c)));
      MulTranslate(prev, Neg(p));
      assert Mul(moved, Translate(Neg(Add(p, c)))) == Mul(prev, Translate(Neg(p)));
      var x2 := Mul(Mul(prev, Translate(Neg(p))), k.rotate(r, axis));
      MulLinear(Mul(prev, Translate(Neg(p))), k.rotate(r, axis));
      MulTranslate(x2, Add(q, c));
      MulTranslate(x2, q);
    case Slide =>
      MulTranslate(moved, Sub(Add(q, c), Add(p, c)));
      MulTranslate(prev, Sub(q, p));
  }

  // ---------------------------------------------------------------------
  // getNormal

  /** `getNormal`: the normalized cross product of the two edges from `p0`.
      It points the same way as that cross product and is zero only when the
      two edges are parallel. */
  function GetNormal(k: Kernel, p0: Vec3, p1: Vec3, p2: Vec3): (n: Vec3)
    ensures var e := Cross(Sub(p1, p0), Sub(p2, p0));
      Cross(n, e) == Zero() && Dot(n, e) >= 0.0 && (n == Zero() <==> e == Zero())
  {
    var e := Cross(Sub(p1, p0), Sub(p2, p0));
    NormalizeDirection(k, e);
    Normalize(k, e)
  }

  /** The normal is perpendicular to both edges of the triangle. */
  lemma GetNormalPerpendicular(k: Kernel, p0: Vec3, p1: Vec3, p2: Vec3)
    ensures Dot(GetNormal(k, p0, p1, p2), Sub(p1, p0)) == 0.0
    ensures Dot(GetNormal(k, p0, p1, p2), Sub(p2, p0)) == 0.0
  {
    var v := Cross(Sub(p1, p0), Sub(p2, p0));
    var c := NormalizeFactor(k, v);
    CrossOrthogonal(Sub(p1, p0), Sub(p2, p0));
    DotScaleLeft(v, c, Sub(p1, p0));
    DotScaleLeft(v, c, Sub(p2, p0));
  }

  /** Swapping the last two arguments flips the normal: the argument order at
      each call site decides which way a face points. */
  lemma GetNormalOrder(k: Kernel, p0: Vec3, p1: Vec3, p2: Vec3)
    ensures GetNormal(k, p0, p2, p1) == Neg(GetNormal(k, p0, p1, p2))
  {
    var v := Cross(Sub(p1, p0), Sub(p2, p0));
    assert Cross(Sub(p2, p0), Sub(p1, p0)) == Neg(v);
    assert Dot(Neg(v), Neg(v)) == Dot(v, v);
  }

  /** Rotating the arguments keeps the normal: only the cyclic order of the
      three points matters. */
  lemma GetNormalRotate(k: Kernel, p0: Vec3, p1: Vec3, p2: Vec3)
    ensures GetNormal(k, p1, p2, p0) == GetNormal(k, p0, p1, p2)
  {
    assert Cross(Sub(p2, p1), Sub(p0, p1)) == Cross(Sub(p1, p0), Sub(p2, p0));
  }

  // ---------------------------------------------------------------------
  // build: the sequential fold

  /** The frames the loop of `build` has produced once `m` slots are filled:
      the first frame, then one `nextFrame` step per later index. */
  function Chain(k: Kernel, ps: seq<Vec3>, ts: seq<Vec3>, m: nat): (c: seq<Mat4>)
    requires 3 <= |ps| == |ts|
    requires 1 <= m <= |ps|
    ensures |c| == m
    decreases m
  {
    if m == 1 then [FirstFrame(k, ps[0], ps[1], ps[2])]
    else
      var c := Chain(k, ps, ts, m - 1);
      c + [NextFrame(k, c[m - 2], ps[m - 2], ps[m - 1], ts[m - 2], ts[m - 1])]
  }

  /** The frames after `build`: none for fewer than three points; otherwise
      the chain over the whole path with its last slot overwritten by
      `lastFrame`. */
  function FrameSeq(k: Kernel, ps: seq<Vec3>, ts: seq<Vec3>): (f: seq<Mat4>)
    requires |ts| == |ps|
    ensures |f| == if |ps| >= 3 then |ps| else 0
  {
    var n := |ps|;
    if n < 3 then []
    else
      var c := Chain(k, ps, ts, n);
      c[n - 1 := LastFrame(c[n - 2], ps[n - 2], ps[n - 1])]
  }

  /** Earlier slots of the chain never change once written. */
  lemma {:induction false} ChainPrefix(k: Kernel, ps: seq<Vec3>, ts: seq<Vec3>, m: nat, j: nat)
    requires 3 <= |ps| == |ts|
    requires 1 <= m <= |ps| && j < m
    ensures Chain(k, ps, ts, m)[j] == Chain(k, ps, ts, j + 1)[j]
    decreases m
  {
    hide NextFrame;
    if m > j + 1 {
      ChainPrefix(k, ps, ts, m - 1, j);
    }
  }

  /** One step of the loop: slot `m - 1` is `nextFrame` of slot `m - 2`. */
  lemma ChainStep(k: Kernel, ps: seq<Vec3>, ts: seq<Vec3>, m: nat)
    requires 3 <= |ps| == |ts|
    requires 2 <= m <= |ps|
    ensures var c := Chain(k, ps, ts, m);
      c[m - 1] == NextFrame(k, c[m - 2], ps[m - 2], ps[m - 1], ts[m - 2], ts[m - 1])
  {
    hide NextFrame;
  }

  /** Writing the next step into slot `i` of an array whose first `i` slots
      hold the chain extends the chain by one. */
  lemma ChainExtend(k: Kernel, ps: seq<Vec3>, ts: seq<Vec3>, f: seq<Mat4>, i: nat, x: Mat4)
    requires 3 <= |ps| == |ts| && |f| == |ps| && 1 <= i < |ps|
    requires f[..i] == Chain(k, ps, ts, i)
    requires x == NextFrame(k, f[i - 1], ps[i - 1], ps[i], ts[i - 1], ts[i])
    ensures f[i := x][..i + 1] == Chain(k, ps, ts, i + 1)
  {
    hide NextFrame;
    assert f[i := x][..i + 1] == f[..i] + [x];
    assert f[i - 1] == f[..i][i - 1];
  }

  /** Overwriting the last slot of the full chain gives the frames. */
  lemma ChainCloses(k: Kernel, ps: seq<Vec3>, ts: seq<Vec3>, f: seq<Mat4>)
    requires 3 <= |ps| == |ts| && |f| == |ps|
    requires f[..|ps|] == Chain(k, ps, ts, |ps|)
    ensures var n := |ps|; f[n - 1 := LastFrame(f[n - 2], ps[n - 2], ps[n - 1])] == FrameSeq(k, ps, ts)
  {
    hide NextFrame;
    assert f == f[..|ps|];
  }

  /** The recurrence `build` implements, slot by slot. */
  lemma FramesRecurrence(k: Kernel, ps: seq<Vec3>, ts: seq<Vec3>)
    requires 3 <= |ps| == |ts|
    ensures var f := FrameSeq(k, ps, ts); var n := |ps|;
      && f[0] == FirstFrame(k, ps[0], ps[1], ps[2])
      && (forall i :: 1 <= i <= n - 2 ==> f[i] == NextFrame(k, f[i - 1], ps[i - 1], ps[i], ts[i - 1], ts[i]))
      && f[n - 1] == LastFrame(f[n - 2], ps[n - 2], ps[n - 1])
  {
    hide NextFrame;
    var n := |ps|;
    var f := FrameSeq(k, ps, ts);
    var c := Chain(k, ps, ts, n);
    assert f == c[n - 1 := LastFrame(c[n - 2], ps[n - 2], ps[n - 1])];
    ChainPrefix(k, ps, ts, n, 0);
    forall i | 1 <= i <= n - 2
      ensures f[i] == NextFrame(k, f[i - 1], ps[i - 1], ps[i], ts[i - 1], ts[i])
    {
      ChainPrefix(k, ps, ts, n, i);
      ChainPrefix(k, ps, ts, n, i - 1);
      ChainPrefix(k, ps, ts, i + 1, i - 1);
      ChainStep(k, ps, ts, i + 1);
      assert f[i] == c[i] && f[i - 1] == c[i - 1];
    }
  }

  /** Every frame of the chain is rigid-shaped with its origin at its path
      point. */
  lemma {:induction false} ChainAnchored(k: Kernel, ps: seq<Vec3>, ts: seq<Vec3>, m: nat)
    requires RigidRotations(k)
    requires 3 <= |ps| == |ts|
    requires 1 <= m <= |ps|
    ensures forall i :: 0 <= i < m ==> Affine(Chain(k, ps, ts, m)[i]) && Origin(Chain(k, ps, ts, m)[i]) == ps[i]
    decreases m
  {
    hide NextFrame;
    if m > 1 {
      ChainAnchored(k, ps, ts, m - 1);
      var c := Chain(k, ps, ts, m - 1);
    }
  }

  /** After `build`, frame `i` is a rigid-shaped matrix whose translation is
      path point `i`. */
  lemma FramesAnchored(k: Kernel, ps: seq<Vec3>, ts: seq<Vec3>)
    requires RigidRotations(k)
    requires |ps| == |ts|
    ensures var f := FrameSeq(k, ps, ts);
      forall i :: 0 <= i < |f| ==> Affine(f[i]) && Origin(f[i]) == ps[i]
  {
    hide NextFrame;
    var n := |ps|;
    if n >= 3 {
      ChainAnchored(k, ps, ts, n);
      var c := Chain(k, ps, ts, n);
      MulTranslate(c[n - 2], Sub(ps[n - 1], ps[n - 2]));
    }
  }

  function ShiftAll(ps: seq<Vec3>, c: Vec3): (r: seq<Vec3>)
    ensures |r| == |ps| && forall i :: 0 <= i < |ps| ==> r[i] == Add(ps[i], c)
  {
    seq(|ps|, i requires 0 <= i < |ps| => Add(ps[i], c))
  }

  function ShiftFrames(fs: seq<Mat4>, c: Vec3): (r: seq<Mat4>)
    ensures |r| == |fs| && forall i :: 0 <= i < |fs| ==> r[i] == Shifted(fs[i], c)
  {
    seq(|fs|, i requires 0 <= i < |fs| => Shifted(fs[i], c))
  }

  lemma ShiftFramesSnoc(fs: seq<Mat4>, x: Mat4, c: Vec3)
    ensures ShiftFrames(fs + [x], c) == ShiftFrames(fs, c) + [Shifted(x, c)]
  {
  }

  /** Moving the first three points by `c` moves the first frame by `c`. */
  lemma FirstFrameTranslates(k: Kernel, p0: Vec3, p1: Vec3, p2: Vec3, c: Vec3)
    ensures FirstFrame(k, Add(p0, c), Add(p1, c), Add(p2, c)) == Shifted(FirstFrame(k, p0, p1, p2), c)
  {
    assert Sub(Add(p1, c), Add(p0, c)) == Sub(p1, p0);
    assert Sub(Add(p2, c), Add(p0, c)) == Sub(p2, p0);
  }

  lemma {:induction false} ChainTranslates(k: Kernel, ps: seq<Vec3>, ts: seq<Vec3>, c: Vec3, m: nat)
    requires RigidRotations(k)
    requires 3 <= |ps| == |ts|
    requires 1 <= m <= |ps|
    ensures Chain(k, ShiftAll(ps, c), ts, m) == ShiftFrames(Chain(k, ps, ts, m), c)
    decreases m
  {
    hide NextFrame, FirstFrame, Mul;
    if m == 1 {
      FirstFrameTranslates(k, ps[0], ps[1], ps[2], c);
    } else {
      ChainTranslates(k, ps, ts, c, m - 1);
      ChainAnchored(k, ps, ts, m - 1);
      var before := Chain(k, ps, ts, m - 1);
      var qs := ShiftAll(ps, c);
      var x := NextFrame(k, before[m - 2], ps[m - 2], ps[m - 1], ts[m - 2], ts[m - 1]);
      StepTranslates(k, before[m - 2], ps[m - 2], ps[m - 1], ts[m - 2], ts[m - 1], c);
      assert Chain(k, qs, ts, m) == ShiftFrames(before, c) + [Shifted(x, c)];
      ShiftFramesSnoc(before, x, c);
    }
  }

  /** Translating every path point by `c` translates every frame by `c` and
      leaves every rotation block unchanged (tangents, being differences,
      are unchanged by the translation). */
  lemma FramesTranslate(k: Kernel, ps: seq<Vec3>, ts: seq<Vec3>, c: Vec3)
    requires RigidRotations(k)
    requires |ps| == |ts|
    ensures FrameSeq(k, ShiftAll(ps, c), ts) == ShiftFrames(FrameSeq(k, ps, ts), c)
  {
    hide NextFrame, Mul;
    var n := |ps|;
    if n >= 3 {
      ChainTranslates(k, ps, ts, c, n);
      ChainAnchored(k, ps, ts, n);
      var ch := Chain(k, ps, ts, n);
      var qs := ShiftAll(ps, c);
      MulTranslate(ch[n - 2], Sub(ps[n - 1], ps[n - 2]));
      MulTranslate(Shifted(ch[n - 2], c), Sub(qs[n - 1], qs[n - 2]));
      assert Sub(qs[n - 1], qs[n - 2]) == Sub(ps[n - 1], ps[n - 2]);
    }
  }

  /** When every tangent is a multiple of one direction, no step rotates:
      every frame of the chain keeps the first frame's basis. */
  lemma {:induction false} ChainStraight(k: Kernel, ps: seq<Vec3>, ts: seq<Vec3>, d: Vec3, w: seq<real>, m: nat)
    requires SqrtOfZero(k)
    requires 3 <= |ps| == |ts| == |w|
    requires forall i :: 0 <= i < |ts| ==> ts[i] == Scale(d, w[i])
    requires 1 <= m <= |ps|
    ensures forall i :: 0 <= i < m ==>
      Affine(Chain(k, ps, ts, m)[i]) && SameBasis(Chain(k, ps, ts, m)[i], Chain(k, ps, ts, 1)[0])
    decreases m
  {
    hide NextFrame;
    if m > 1 {
      ChainStraight(k, ps, ts, d, w, m - 1);
      var c := Chain(k, ps, ts, m - 1);
      ParallelTangentsSlide(k, d, w[m - 2], w[m - 1]);
      SlideKeepsBasis(k, c[m - 2], ps[m - 2], ps[m - 1], ts[m - 2], ts[m - 1]);
    }
  }

  /** A straight run keeps its orientation: with tangents all along one
      direction, every frame, the last included, has the first frame's
      basis. */
  lemma FramesStraight(k: Kernel, ps: seq<Vec3>, ts: seq<Vec3>, d: Vec3, w: seq<real>)
    requires SqrtOfZero(k)
    requires 3 <= |ps| == |ts| == |w|
    requires forall i :: 0 <= i < |ts| ==> ts[i] == Scale(d, w[i])
    ensures var f := FrameSeq(k, ps, ts); forall i :: 0 <= i < |f| ==> SameBasis(f[i], f[0])
  {
    hide NextFrame;
    var n := |ps|;
    ChainStraight(k, ps, ts, d, w, n);
    var c := Chain(k, ps, ts, n);
    ChainPrefix(k, ps, ts, n, 0);
    MulTranslate(c[n - 2], Sub(ps[n - 1], ps[n - 2]));
  }
}
