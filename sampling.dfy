/** What the constructor of `PTFTube` derives from its arguments: one tangent
    per path point (`extractTangents`) and the points of the circular profile
    (`makeCircleProfile`). */
module Sampling {
  import opened Geometry

  // ---------------------------------------------------------------------
  // extractTangents

  /** When `extractTangents` is defined: a single-point path reads past the
      end of the path, and an interior point whose two neighbours coincide
      divides by a zero length. */
  predicate TangentsDefined(k: Kernel, ps: seq<Vec3>)
  {
    |ps| != 1 &&
    forall i :: 0 < i < |ps| - 1 ==> Length(k, Central(ps, i)) != 0.0
  }

  /** The central difference at interior point `i`. */
  function Central(ps: seq<Vec3>, i: nat): Vec3
    requires 0 < i < |ps| - 1
  {
    Sub(ps[i + 1], ps[i - 1])
  }

  /** The difference a tangent is taken along: forward at the first point,
      central at interior points, backward at the last point. */
  function Difference(ps: seq<Vec3>, i: nat): Vec3
    requires 2 <= |ps| && i < |ps|
  {
    if i == 0 then Sub(ps[1], ps[0])
    else if i < |ps| - 1 then Sub(ps[i + 1], ps[i - 1])
    else Sub(ps[i], ps[i - 1])
  }

  /** The tangent `extractTangents` stores for point `i`: a non-negative
      multiple of the difference it is taken from, non-zero when that
      difference is. At an interior point the factor includes `1 / length`,
      so its sign needs square roots that are never negative. */
  function TangentAt(k: Kernel, ps: seq<Vec3>, i: nat): (t: Vec3)
    requires TangentsDefined(k, ps) && i < |ps|
    ensures Cross(t, Difference(ps, i)) == Zero()
    ensures Difference(ps, i) != Zero() ==> t != Zero()
    ensures (i == 0 || i == |ps| - 1 || SqrtNonNegative(k)) ==> Dot(t, Difference(ps, i)) >= 0.0
  {
    if i == 0 then
      var d := Sub(ps[i + 1], ps[i]);
      NormalizeDirection(k, d);
      Normalize(k, d)
    else if i < |ps| - 1 then
      var dt := Central(ps, i);
      var len := Length(k, dt);
      var u := Div(dt, len);
      assert u == Scale(dt, 1.0 / len);
      NormalizeScaled(k, dt, 1.0 / len);
      assert SqrtNonNegative(k) ==> len > 0.0;
      Normalize(k, u)
    else
      var d := Sub(ps[i], ps[i - 1]);
      NormalizeDirection(k, d);
      Normalize(k, d)
  }

  /** All the tangents of the path, in path order. */
  function TangentSeq(k: Kernel, ps: seq<Vec3>): (ts: seq<Vec3>)
    requires TangentsDefined(k, ps)
    ensures |ts| == |ps| && forall i :: 0 <= i < |ps| ==> ts[i] == TangentAt(k, ps, i)
  {
    seq(|ps|, (i: nat) requires i < |ps| => TangentAt(k, ps, i))
  }

  /** Normalizing a non-zero multiple of `d` gives a vector along `d`, zero
      only when `d` is, and pointing the same way as `d` when the factor is
      positive. */
  lemma NormalizeScaled(k: Kernel, d: Vec3, c: real)
    requires c != 0.0
    ensures var t := Normalize(k, Scale(d, c));
      Cross(t, d) == Zero() && (t == Zero() <==> d == Zero()) &&
      (c > 0.0 ==> Dot(t, d) >= 0.0)
  {
    var u := Scale(d, c);
    var t := Normalize(k, u);
    NormalizeDirection(k, u);
    ScaleCancels(Cross(t, d), c);
    ScaleCancels(d, c);
    CrossScaleRight(t, d, c);
    DotScaleRight(t, d, c);
    if c > 0.0 {
      PositiveFactorSign(c, Dot(t, d));
    }
  }

  /** A non-zero factor maps only the zero vector to zero. */
  lemma ScaleCancels(v: Vec3, c: real)
    requires c != 0.0
    ensures Scale(v, c) == Zero() <==> v == Zero()
  {
    if Scale(v, c) == Zero() {
      assert v.x * c == 0.0 && v.y * c == 0.0 && v.z * c == 0.0;
    }
  }

  lemma CrossScaleRight(t: Vec3, d: Vec3, c: real)
    ensures Cross(t, Scale(d, c)) == Scale(Cross(t, d), c)
  {
    var u, w := Scale(d, c), Cross(t, d);
    assert Cross(t, u).x == w.x * c by { ProductDifference(t.y, d.z, t.z, d.y, c); }
    assert Cross(t, u).y == w.y * c by { ProductDifference(t.z, d.x, t.x, d.z, c); }
    assert Cross(t, u).z == w.z * c by { ProductDifference(t.x, d.y, t.y, d.x, c); }
  }

  lemma ProductDifference(a: real, b: real, e: real, f: real, c: real)
    ensures a * (b * c) - e * (f * c) == (a * b - e * f) * c
  {
  }

  lemma DotScaleRight(t: Vec3, d: Vec3, c: real)
    ensures Dot(t, Scale(d, c)) == c * Dot(t, d)
  {
  }

  lemma PositiveFactorSign(c: real, x: real)
    requires c > 0.0
    ensures c * x >= 0.0 <==> x >= 0.0
  {
  }

  /** The tangents depend only on differences of path points, so moving the
      whole path leaves them unchanged. */
  lemma TangentTranslates(k: Kernel, ps: seq<Vec3>, qs: seq<Vec3>, c: Vec3, i: nat)
    requires TangentsDefined(k, ps) && i < |ps|
    requires |qs| == |ps| && forall j :: 0 <= j < |ps| ==> qs[j] == Add(ps[j], c)
    ensures TangentsDefined(k, qs)
    ensures TangentAt(k, qs, i) == TangentAt(k, ps, i)
  {
    forall j | 0 < j < |ps| - 1
      ensures Central(qs, j) == Central(ps, j)
    {
    }
    if i == 0 {
      assert Sub(qs[1], qs[0]) == Sub(ps[1], ps[0]);
    } else if i < |ps| - 1 {
    } else {
      assert Sub(qs[i], qs[i - 1]) == Sub(ps[i], ps[i - 1]);
    }
  }

  /** Points on one line `a + s[i] * d`. */
  predicate OnLine(ps: seq<Vec3>, a: Vec3, d: Vec3, s: seq<real>)
  {
    |s| == |ps| && forall i :: 0 <= i < |ps| ==> ps[i] == Add(a, Scale(d, s[i]))
  }

  /** The multiple of the line direction that tangent `i` of a path on a
      line is. */
  function LineWeight(k: Kernel, ps: seq<Vec3>, s: seq<real>, i: nat): real
    requires TangentsDefined(k, ps) && i < |ps| && |s| == |ps|
  {
    if i == 0 then
      (s[i + 1] - s[i]) * NormalizeFactor(k, Sub(ps[i + 1], ps[i]))
    else if i < |ps| - 1 then
      var dt := Central(ps, i);
      var len := Length(k, dt);
      (s[i + 1] - s[i - 1]) * (1.0 / len) * NormalizeFactor(k, Div(dt, len))
    else
      (s[i] - s[i - 1]) * NormalizeFactor(k, Sub(ps[i], ps[i - 1]))
  }

  lemma LineDifference(a: Vec3, d: Vec3, s1: real, s0: real)
    ensures Sub(Add(a, Scale(d, s1)), Add(a, Scale(d, s0))) == Scale(d, s1 - s0)
  {
  }

  /** The normalized step between two points of a line is a multiple of
      the line direction. */
  lemma StepOnLine(k: Kernel, a: Vec3, d: Vec3, s1: real, s0: real)
    ensures var v := Sub(Add(a, Scale(d, s1)), Add(a, Scale(d, s0)));
      Normalize(k, v) == Scale(d, (s1 - s0) * NormalizeFactor(k, v))
  {
    var v := Sub(Add(a, Scale(d, s1)), Add(a, Scale(d, s0)));
    LineDifference(a, d, s1, s0);
    ScaleScale(d, s1 - s0, NormalizeFactor(k, v));
  }

  /** On a straight path every tangent is a multiple of the line direction. */
  lemma TangentOnLine(k: Kernel, ps: seq<Vec3>, a: Vec3, d: Vec3, s: seq<real>, i: nat)
    requires TangentsDefined(k, ps) && i < |ps|
    requires OnLine(ps, a, d, s)
    ensures TangentAt(k, ps, i) == Scale(d, LineWeight(k, ps, s, i))
  {
    EndTangents(k, ps);
    if i == 0 {
      FirstTangentOnLine(k, ps, a, d, s);
    } else if i < |ps| - 1 {
      InteriorTangentOnLine(k, ps, a, d, s, i);
    } else {
      LastTangentOnLine(k, ps, a, d, s);
    }
  }

  /** The tangent at an end point is the normalized step to its neighbour. */
  lemma EndTangents(k: Kernel, ps: seq<Vec3>)
    requires TangentsDefined(k, ps) && 0 < |ps|
    ensures TangentAt(k, ps, 0) == Normalize(k, Sub(ps[1], ps[0]))
    ensures var i := |ps| - 1; TangentAt(k, ps, i) == Normalize(k, Sub(ps[i], ps[i - 1]))
  {
  }

  lemma FirstTangentOnLine(k: Kernel, ps: seq<Vec3>, a: Vec3, d: Vec3, s: seq<real>)
    requires TangentsDefined(k, ps) && 0 < |ps|
    requires OnLine(ps, a, d, s)
    ensures Normalize(k, Sub(ps[1], ps[0])) == Scale(d, LineWeight(k, ps, s, 0))
  {
    assert ps[1] == Add(a, Scale(d, s[1])) && ps[0] == Add(a, Scale(d, s[0]));
    StepOnLine(k, a, d, s[1], s[0]);
    var v := Sub(ps[1], ps[0]);
    var c := NormalizeFactor(k, v);
    assert Normalize(k, v) == Scale(d, (s[1] - s[0]) * c);
    assert LineWeight(k, ps, s, 0) == (s[1] - s[0]) * c;
  }

  lemma LastTangentOnLine(k: Kernel, ps: seq<Vec3>, a: Vec3, d: Vec3, s: seq<real>)
    requires TangentsDefined(k, ps) && 0 < |ps|
    requires OnLine(ps, a, d, s)
    ensures var i := |ps| - 1; Normalize(k, Sub(ps[i], ps[i - 1])) == Scale(d, LineWeight(k, ps, s, i))
  {
    var i := |ps| - 1;
    assert ps[i] == Add(a, Scale(d, s[i])) && ps[i - 1] == Add(a, Scale(d, s[i - 1]));
    StepOnLine(k, a, d, s[i], s[i - 1]);
    var v := Sub(ps[i], ps[i - 1]);
    var c := NormalizeFactor(k, v);
    assert Normalize(k, v) == Scale(d, (s[i] - s[i - 1]) * c);
    assert LineWeight(k, ps, s, i) == (s[i] - s[i - 1]) * c;
  }

  lemma DivIsScale(v: Vec3, c: real)
    requires c != 0.0
    ensures Div(v, c) == Scale(v, 1.0 / c)
  {
  }

  lemma ThreeScales(d: Vec3, dt: Vec3, u: Vec3, t: Vec3, c1: real, c2: real, c3: real)
    requires dt == Scale(d, c1) && u == Scale(dt, c2) && t == Scale(u, c3)
    ensures t == Scale(d, c1 * c2 * c3)
  {
    ScaleScale(d, c1, c2);
    ScaleScale(d, c1 * c2, c3);
  }

  lemma InteriorTangentOnLine(k: Kernel, ps: seq<Vec3>, a: Vec3, d: Vec3, s: seq<real>, i: nat)
    requires TangentsDefined(k, ps) && 0 < i < |ps| - 1
    requires OnLine(ps, a, d, s)
    ensures TangentAt(k, ps, i) == Scale(d, LineWeight(k, ps, s, i))
  {
    var dt := Central(ps, i);
    var len := Length(k, dt);
    var u := Div(dt, len);
    var c1, c2, c3 := s[i + 1] - s[i - 1], 1.0 / len, NormalizeFactor(k, u);
    assert ps[i + 1] == Add(a, Scale(d, s[i + 1])) && ps[i - 1] == Add(a, Scale(d, s[i - 1]));
    LineDifference(a, d, s[i + 1], s[i - 1]);
    DivIsScale(dt, len);
    ThreeScales(d, dt, u, Normalize(k, u), c1, c2, c3);
    assert LineWeight(k, ps, s, i) == c1 * c2 * c3;
  }

  // ---------------------------------------------------------------------
  // makeCircleProfile

  /** `E_PI` of the class. */
  const E_PI: real := 3.14159265359

  /** The angle of profile point `i`: `i` steps of `2 * E_PI / segments`. */
  function ProfileAngle(segments: int, i: int): real
    requires segments > 0
  {
    i as real * (2.0 * E_PI / segments as real)
  }

  /** Profile point `i`: on the circle of the given radius in the plane
      z = 0. */
  function ProfilePoint(k: Kernel, radius: real, segments: int, i: int): (p: Vec3)
    requires segments > 0
    ensures p.z == 0.0
  {
    var t := ProfileAngle(segments, i);
    Vec3(k.cos(t) * radius, k.sin(t) * radius, 0.0)
  }

  /** The whole profile: `segments` points, none when `segments` is not
      positive. */
  function CircleProfile(k: Kernel, radius: real, segments: int): (prof: seq<Vec3>)
    ensures |prof| == if segments > 0 then segments else 0
    ensures forall i :: 0 <= i < |prof| ==> prof[i].z == 0.0
  {
    if segments <= 0 then []
    else seq(segments, (i: nat) => ProfilePoint(k, radius, segments, i))
  }

  /** The angles are evenly spaced and `segments` steps make one full turn. */
  lemma ProfileAnglesEven(segments: int, i: int)
    requires segments > 0
    ensures ProfileAngle(segments, i + 1) - ProfileAngle(segments, i) == 2.0 * E_PI / segments as real
    ensures ProfileAngle(segments, 0) == 0.0
    ensures ProfileAngle(segments, segments) == 2.0 * E_PI
  {
    var step := 2.0 * E_PI / segments as real;
    assert (i + 1) as real * step == i as real * step + step;
    assert segments as real * step == 2.0 * E_PI;
  }

  ghost predicate Pythagorean(k: Kernel)
  {
    forall t :: k.cos(t) * k.cos(t) + k.sin(t) * k.sin(t) == 1.0
  }

  /** With cosine and sine that satisfy cos^2 + sin^2 = 1, every profile
      point is at distance `radius` from the frame's origin, and the first
      one lies on the x axis when cos 0 = 1 and sin 0 = 0. */
  lemma ProfileOnCircle(k: Kernel, radius: real, segments: int, i: int)
    requires segments > 0
    requires Pythagorean(k)
    ensures var p := ProfilePoint(k, radius, segments, i); Dot(p, p) == radius * radius
    ensures k.cos(0.0) == 1.0 && k.sin(0.0) == 0.0 ==> ProfilePoint(k, radius, segments, 0) == Vec3(radius, 0.0, 0.0)
  {
    var t := ProfileAngle(segments, i);
    var c, sn := k.cos(t), k.sin(t);
    assert c * c + sn * sn == 1.0;
    assert (c * radius) * (c * radius) + (sn * radius) * (sn * radius) == (c * c + sn * sn) * (radius * radius);
    assert ProfileAngle(segments, 0) == 0.0;
  }
}
