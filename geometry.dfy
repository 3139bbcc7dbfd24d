/** Exact vector and 4x4 matrix algebra in the conventions of the OpenSceneGraph
    types the tube code uses: `osg::Vec3f` (with `*` as dot and `^` as cross
    product) and `osg::Matrix` (row-major, row vectors, translation in row 3).

    Floating point is replaced by exact `real` arithmetic.  What cannot be
    written exactly (square root, arc cosine, sine, cosine and the library's
    axis-angle rotation matrix) is a field of `Kernel`, a bundle of total
    functions supplied by the caller. */
module Geometry {

  datatype Vec3 = Vec3(x: real, y: real, z: real)

  function Zero(): Vec3 { Vec3(0.0, 0.0, 0.0) }

  function Add(a: Vec3, b: Vec3): Vec3 { Vec3(a.x + b.x, a.y + b.y, a.z + b.z) }

  function Sub(a: Vec3, b: Vec3): Vec3 { Vec3(a.x - b.x, a.y - b.y, a.z - b.z) }

  function Neg(a: Vec3): Vec3 { Vec3(-a.x, -a.y, -a.z) }

  function Scale(a: Vec3, c: real): Vec3 { Vec3(a.x * c, a.y * c, a.z * c) }

  /** `v / c` of `osg::Vec3f`: component-wise division. */
  function Div(a: Vec3, c: real): Vec3
    requires c != 0.0
  {
    Vec3(a.x / c, a.y / c, a.z / c)
  }

  /** `a * b` of `osg::Vec3f`. */
  function Dot(a: Vec3, b: Vec3): real { a.x * b.x + a.y * b.y + a.z * b.z }

  /** `a ^ b` of `osg::Vec3f`. */
  function Cross(a: Vec3, b: Vec3): Vec3
  {
    Vec3(a.y * b.z - a.z * b.y, a.z * b.x - a.x * b.z, a.x * b.y - a.y * b.x)
  }

  /** `v[i]` of `osg::Vec3f`. */
  function At(v: Vec3, i: nat): real
    requires i < 3
  {
    if i == 0 then v.x else if i == 1 then v.y else v.z
  }

  /** The vector that is 1 at index `i` and 0 elsewhere. */
  function UnitAxis(i: nat): (e: Vec3)
    requires i < 3
    ensures forall j :: 0 <= j < 3 ==> At(e, j) == if j == i then 1.0 else 0.0
  {
    if i == 0 then Vec3(1.0, 0.0, 0.0) else if i == 1 then Vec3(0.0, 1.0, 0.0) else Vec3(0.0, 0.0, 1.0)
  }

  function Abs(r: real): real { if r < 0.0 then -r else r }

  /** The numerical routines the source takes from the C library and from
      OpenSceneGraph, left uninterpreted. */
  datatype Kernel = Kernel(
    sqrt: real -> real,
    acos: real -> real,
    cos: real -> real,
    sin: real -> real,
    rotate: (real, Vec3) -> Mat4)   // osg::Matrix::rotate(angle, axis)

  /** The square root of zero is zero, so the zero vector has length zero. */
  predicate SqrtOfZero(k: Kernel)
  {
    k.sqrt(0.0) == 0.0
  }

  /** Square roots are never negative, as the C library's are. */
  ghost predicate SqrtNonNegative(k: Kernel)
  {
    forall x :: k.sqrt(x) >= 0.0
  }

  /** Rotation matrices are linear maps: no translation, no projective part. */
  ghost predicate RigidRotations(k: Kernel)
  {
    forall angle, axis :: Linear(k.rotate(angle, axis))
  }

  /** `osg::Vec3f::length`. */
  function Length(k: Kernel, v: Vec3): real { k.sqrt(Dot(v, v)) }

  /** `osg::Vec3f::normalize`: scales by the inverse length when the length is
      positive and leaves the vector alone otherwise. */
  function Normalize(k: Kernel, v: Vec3): Vec3
  {
    var len := Length(k, v);
    if len > 0.0 then Scale(v, 1.0 / len) else v
  }

  /** The factor `Normalize` scales by. */
  function NormalizeFactor(k: Kernel, v: Vec3): (c: real)
    ensures c > 0.0
    ensures Normalize(k, v) == Scale(v, c)
  {
    var len := Length(k, v);
    if len > 0.0 then 1.0 / len else 1.0
  }

  lemma CrossOrthogonal(a: Vec3, b: Vec3)
    ensures Dot(Cross(a, b), a) == 0.0 && Dot(Cross(a, b), b) == 0.0
  {
  }

  lemma CrossSelf(a: Vec3)
    ensures Cross(a, a) == Zero()
  {
  }

  lemma ScaleScale(d: Vec3, a: real, b: real)
    ensures Scale(Scale(d, a), b) == Scale(d, a * b)
  {
  }

  lemma DotScaleLeft(a: Vec3, c: real, b: Vec3)
    ensures Dot(Scale(a, c), b) == c * Dot(a, b)
  {
  }

  /** Normalizing keeps the direction and never turns a non-zero vector
      into the zero vector; the zero vector stays zero. */
  lemma NormalizeDirection(k: Kernel, v: Vec3)
    ensures Cross(Normalize(k, v), v) == Zero()
    ensures Normalize(k, v) == Zero() <==> v == Zero()
    ensures Dot(Normalize(k, v), v) >= 0.0
  {
    var c := NormalizeFactor(k, v);
    assert Normalize(k, v) == Scale(v, c);
    assert Cross(Scale(v, c), v) == Scale(Cross(v, v), c);
    CrossSelf(v);
    DotScaleLeft(v, c, v);
    assert Dot(v, v) >= 0.0 by { assert v.x * v.x >= 0.0 && v.y * v.y >= 0.0 && v.z * v.z >= 0.0; }
    if Scale(v, c) == Zero() {
      assert v.x * c == 0.0 && v.y * c == 0.0 && v.z * c == 0.0;
    }
  }

  lemma LengthOfZero(k: Kernel)
    requires SqrtOfZero(k)
    ensures Length(k, Zero()) == 0.0
  {
    var z := Zero();
    assert Dot(z, z) == 0.0;
  }

  /** The zero vector normalizes to itself. */
  lemma NormalizeZero(k: Kernel)
    requires SqrtOfZero(k)
    ensures Length(k, Zero()) == 0.0 && Normalize(k, Zero()) == Zero()
  {
    LengthOfZero(k);
  }

  // ---------------------------------------------------------------------
  // 4x4 matrices

  datatype Row = Row(x: real, y: real, z: real, w: real)

  /** `osg::Matrix` with rows `r0 .. r3`; a frame keeps its basis in rows 0-2
      and its origin in row 3. */
  datatype Mat4 = Mat4(r0: Row, r1: Row, r2: Row, r3: Row)

  /** `osg::Matrix()`: the default-constructed matrix is the identity. */
  function Identity(): Mat4
  {
    Mat4(Row(1.0, 0.0, 0.0, 0.0), Row(0.0, 1.0, 0.0, 0.0), Row(0.0, 0.0, 1.0, 0.0), Row(0.0, 0.0, 0.0, 1.0))
  }

  function RowOf(v: Vec3, w: real): Row { Row(v.x, v.y, v.z, w) }

  function Xyz(r: Row): Vec3 { Vec3(r.x, r.y, r.z) }

  /** `osg::Matrix::translate(d)`. */
  function Translate(d: Vec3): Mat4
  {
    Mat4(Row(1.0, 0.0, 0.0, 0.0), Row(0.0, 1.0, 0.0, 0.0), Row(0.0, 0.0, 1.0, 0.0), RowOf(d, 1.0))
  }

  function RowTimes(r: Row, b: Mat4): Row
  {
    Row(r.x * b.r0.x + r.y * b.r1.x + r.z * b.r2.x + r.w * b.r3.x,
        r.x * b.r0.y + r.y * b.r1.y + r.z * b.r2.y + r.w * b.r3.y,
        r.x * b.r0.z + r.y * b.r1.z + r.z * b.r2.z + r.w * b.r3.z,
        r.x * b.r0.w + r.y * b.r1.w + r.z * b.r2.w + r.w * b.r3.w)
  }

  /** `a * b` of `osg::Matrix`. */
  function Mul(a: Mat4, b: Mat4): Mat4
  {
    Mat4(RowTimes(a.r0, b), RowTimes(a.r1, b), RowTimes(a.r2, b), RowTimes(a.r3, b))
  }

  function Origin(m: Mat4): Vec3 { Xyz(m.r3) }

  /** The last column is (0, 0, 0, 1): a rigid-motion shaped matrix. */
  predicate Affine(m: Mat4)
  {
    m.r0.w == 0.0 && m.r1.w == 0.0 && m.r2.w == 0.0 && m.r3.w == 1.0
  }

  /** An affine matrix that does not translate. */
  predicate Linear(m: Mat4)
  {
    Affine(m) && Origin(m) == Zero()
  }

  /** Same rotation block (rows 0-2). */
  predicate SameBasis(a: Mat4, b: Mat4)
  {
    a.r0 == b.r0 && a.r1 == b.r1 && a.r2 == b.r2
  }

  /** The matrix with its origin moved by `d` and nothing else changed. */
  function Shifted(m: Mat4, d: Vec3): (s: Mat4)
    ensures SameBasis(s, m) && Origin(s) == Add(Origin(m), d) && s.r3.w == m.r3.w
  {
    m.(r3 := Row(m.r3.x + d.x, m.r3.y + d.y, m.r3.z + d.z, m.r3.w))
  }

  /** A translation-only product leaves the rotation block alone and moves
      the origin. */
  lemma MulTranslate(m: Mat4, d: Vec3)
    requires Affine(m)
    ensures Mul(m, Translate(d)) == Shifted(m, d)
    ensures Affine(Mul(m, Translate(d)))
  {
  }

  /** Composing with a linear matrix keeps a matrix affine and, when its
      origin is zero, keeps the origin at zero. */
  lemma MulLinear(m: Mat4, r: Mat4)
    requires Affine(m) && Linear(r)
    ensures Affine(Mul(m, r))
    ensures Origin(m) == Zero() ==> Origin(Mul(m, r)) == Zero()
  {
  }
}
