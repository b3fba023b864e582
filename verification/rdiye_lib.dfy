/** The renderer's hand-written vector and matrix library (rdiye_lib.h),
    over the reals: the 3/4-component vectors, the row-major 4x4 matrices
    with their product and the translation, scaling, shear and orthographic
    constructors, and the axis-aligned box helpers. Single-precision rounding
    is not modelled. */
module RdiyeLib {

  datatype Vec2 = Vec2(x: real, y: real)
  datatype Vec3 = Vec3(x: real, y: real, z: real)
  datatype Vec4 = Vec4(x: real, y: real, z: real, w: real)

  function Add(a: Vec3, b: Vec3): Vec3 {
    Vec3(a.x + b.x, a.y + b.y, a.z + b.z)
  }

  function Sub(a: Vec3, b: Vec3): Vec3 {
    Vec3(a.x - b.x, a.y - b.y, a.z - b.z)
  }

  function Neg(a: Vec3): Vec3 {
    Vec3(-a.x, -a.y, -a.z)
  }

  function Scale(s: real, a: Vec3): Vec3 {
    Vec3(s * a.x, s * a.y, s * a.z)
  }

  function Hadamard(a: Vec3, b: Vec3): Vec3 {
    Vec3(a.x * b.x, a.y * b.y, a.z * b.z)
  }

  function Dot(a: Vec3, b: Vec3): real {
    a.x * b.x + a.y * b.y + a.z * b.z
  }

  function Dot4(a: Vec4, b: Vec4): real {
    a.x * b.x + a.y * b.y + a.z * b.z + a.w * b.w
  }

  function Cross(a: Vec3, b: Vec3): Vec3 {
    Vec3(a.y * b.z - a.z * b.y, a.z * b.x - a.x * b.z, a.x * b.y - a.y * b.x)
  }

  /** The cross product is perpendicular to both factors and anticommutes. */
  lemma CrossPerpendicular(a: Vec3, b: Vec3)
    ensures Dot(Cross(a, b), a) == 0.0
    ensures Dot(Cross(a, b), b) == 0.0
    ensures Cross(a, b) == Neg(Cross(b, a))
  {
    var c := Cross(a, b);
    assert c.x * a.x + c.y * a.y + c.z * a.z
        == (a.y * b.z * a.x - a.z * b.y * a.x) + (a.z * b.x * a.y - a.x * b.z * a.y) + (a.x * b.y * a.z - a.y * b.x * a.z);
    assert c.x * b.x + c.y * b.y + c.z * b.z
        == (a.y * b.z * b.x - a.z * b.y * b.x) + (a.z * b.x * b.y - a.x * b.z * b.y) + (a.x * b.y * b.z - a.y * b.x * b.z);
  }

  /** `Vec4(vec3 xyz, f32 w)`: homogeneous extension. */
  function Extend(v: Vec3, w: real): Vec4 {
    Vec4(v.x, v.y, v.z, w)
  }

  /** `Vec3(vec4)`: drops the fourth component. */
  function Truncate(v: Vec4): Vec3 {
    Vec3(v.x, v.y, v.z)
  }

  /** The `i`-th component of a 4-vector, as `e[i]` reads it. */
  function Component(v: Vec4, i: nat): real
    requires i < 4
  {
    match i
    case 0 => v.x
    case 1 => v.y
    case 2 => v.z
    case _ => v.w
  }

  /** `rect3`: an axis-aligned box given by its two corners. */
  datatype Rect3 = Rect3(min: Vec3, max: Vec3)

  /** Box containment, inclusive at `min` and exclusive at `max` on every axis. */
  predicate IsInsideRectangle(rect: Rect3, p: Vec3) {
    rect.min.x <= p.x && rect.min.y <= p.y && rect.min.z <= p.z &&
    p.x < rect.max.x && p.y < rect.max.y && p.z < rect.max.z
  }

  /** The box is non-degenerate: `min` lies strictly below `max` on every axis. */
  predicate NonEmptyBox(rect: Rect3) {
    rect.min.x < rect.max.x && rect.min.y < rect.max.y && rect.min.z < rect.max.z
  }

  /** `GetRectangleCenter(min_corner, max_corner)`: the componentwise midpoint. */
  function GetRectangleCenter(minCorner: Vec3, maxCorner: Vec3): (c: Vec3)
    ensures Sub(c, minCorner) == Sub(maxCorner, c)
  {
    Vec3((minCorner.x + maxCorner.x) / 2.0, (minCorner.y + maxCorner.y) / 2.0,
         (minCorner.z + maxCorner.z) / 2.0)
  }

  /** `GetRectangleCenter(rect3)`. */
  function RectCenter(rect: Rect3): Vec3 {
    GetRectangleCenter(rect.min, rect.max)
  }

  /** Half-openness: the `min` corner and the centre are inside exactly when
      the box is non-degenerate, and the `max` corner never is. */
  lemma RectangleHalfOpen(rect: Rect3)
    ensures IsInsideRectangle(rect, rect.min) <==> NonEmptyBox(rect)
    ensures !IsInsideRectangle(rect, rect.max)
    ensures IsInsideRectangle(rect, RectCenter(rect)) <==> NonEmptyBox(rect)
  {
  }

  /** Every point inside a box lies within a half-width of its centre on each axis. */
  lemma InsideNearCenter(rect: Rect3, p: Vec3)
    requires IsInsideRectangle(rect, p)
    ensures var c := RectCenter(rect);
      -(rect.max.x - rect.min.x) / 2.0 <= p.x - c.x < (rect.max.x - rect.min.x) / 2.0 &&
      -(rect.max.y - rect.min.y) / 2.0 <= p.y - c.y < (rect.max.y - rect.min.y) / 2.0 &&
      -(rect.max.z - rect.min.z) / 2.0 <= p.z - c.z < (rect.max.z - rect.min.z) / 2.0
  {
  }

  /** A square `n`-by-`n` array of reals, indexed `m[row][column]`. */
  predicate IsSquare(m: seq<seq<real>>, n: nat) {
    |m| == n && forall i | 0 <= i < n :: |m[i]| == n
  }

  type Mat3 = m: seq<seq<real>> | IsSquare(m, 3)
    witness [[0.0, 0.0, 0.0], [0.0, 0.0, 0.0], [0.0, 0.0, 0.0]]

  type Mat4 = m: seq<seq<real>> | IsSquare(m, 4)
    witness [[0.0, 0.0, 0.0, 0.0], [0.0, 0.0, 0.0, 0.0], [0.0, 0.0, 0.0, 0.0], [0.0, 0.0, 0.0, 0.0]]

  /** `Mat3x3(mat4x4)`: the upper-left 3x3 block. */
  function Mat3x3(m4: Mat4): Mat3 {
    seq(3, i requires 0 <= i < 3 => m4[i][..3])
  }

  /** `Mat4x4(mat3x3)`: the 3x3 block padded with a last row and column of
      (0, 0, 0, 1). */
  function Mat4x4(m3: Mat3): Mat4 {
    seq(4, i requires 0 <= i < 4 => if i < 3 then m3[i] + [0.0] else [0.0, 0.0, 0.0, 1.0])
  }

  /** Widening then narrowing gives back the same 3x3 matrix, and the widened
      matrix has last row and last column (0, 0, 0, 1). */
  lemma Mat3RoundTrip(m: Mat3)
    ensures Mat3x3(Mat4x4(m)) == m
    ensures Mat4x4(m)[3] == [0.0, 0.0, 0.0, 1.0]
    ensures forall i | 0 <= i < 3 :: Mat4x4(m)[i][3] == 0.0
    ensures forall i, j | 0 <= i < 3 && 0 <= j < 3 :: Mat4x4(m)[i][j] == m[i][j]
  {
    var w := Mat4x4(m);
    forall i | 0 <= i < 3 ensures Mat3x3(w)[i] == m[i] {
      assert w[i][..3] == m[i];
    }
  }

  /** Entry (i, j) of the product: row `i` of `A` against column `j` of `B`. */
  function Entry(A: Mat4, B: Mat4, i: nat, j: nat): real
    requires i < 4 && j < 4
  {
    A[i][0] * B[0][j] + A[i][1] * B[1][j] + A[i][2] * B[2][j] + A[i][3] * B[3][j]
  }

  /** The 4x4 matrix product. */
  function Mul(A: Mat4, B: Mat4): Mat4 {
    seq(4, i requires 0 <= i < 4 => seq(4, j requires 0 <= j < 4 => Entry(A, B, i, j)))
  }

  /** The first `k` terms of entry (i, j), the running sum the source's
      innermost loop accumulates. */
  function PartialEntry(A: Mat4, B: Mat4, i: nat, j: nat, k: nat): real
    requires i < 4 && j < 4 && k <= 4
  {
    if k == 0 then 0.0 else PartialEntry(A, B, i, j, k - 1) + A[i][k - 1] * B[k - 1][j]
  }

  /** The state of `C` when the loops are at (i, j) and have added `k` terms:
      entries before (i, j) in row-major order are complete, entry (i, j)
      holds its first `k` terms, and the rest are still zero. */
  predicate MulProgress(C: seq<seq<real>>, A: Mat4, B: Mat4, i: nat, j: nat, k: nat)
    requires i < 4 && j < 4 && k <= 4
  {
    IsSquare(C, 4) &&
    forall r, c | 0 <= r < 4 && 0 <= c < 4 ::
      C[r][c] == (if r < i || (r == i && c < j) then Entry(A, B, r, c)
                  else if r == i && c == j then PartialEntry(A, B, i, j, k)
                  else 0.0)
  }

  /** Finishing entry (i, j) moves the loops on to the next entry in
      row-major order, or completes the product after the last one. */
  lemma ProgressAdvance(D: seq<seq<real>>, A: Mat4, B: Mat4, i: nat, j: nat)
    requires i < 4 && j < 4 && MulProgress(D, A, B, i, j, 4)
    ensures j + 1 < 4 ==> MulProgress(D, A, B, i, j + 1, 0)
    ensures j + 1 == 4 && i + 1 < 4 ==> MulProgress(D, A, B, i + 1, 0, 0)
    ensures j + 1 == 4 && i + 1 == 4 ==> forall r, c | 0 <= r < 4 && 0 <= c < 4 :: D[r][c] == Entry(A, B, r, c)
  {
    calc {
      PartialEntry(A, B, i, j, 4);
      PartialEntry(A, B, i, j, 3) + A[i][3] * B[3][j];
      PartialEntry(A, B, i, j, 2) + A[i][2] * B[2][j] + A[i][3] * B[3][j];
      PartialEntry(A, B, i, j, 1) + A[i][1] * B[1][j] + A[i][2] * B[2][j] + A[i][3] * B[3][j];
      { assert PartialEntry(A, B, i, j, 1) == A[i][0] * B[0][j]; }
      Entry(A, B, i, j);
    }
  }

  /** `operator*(mat4x4, mat4x4)`: the source's triple loop, accumulating
      into a zero matrix one term at a time, computes the matrix product. */
  method MulLoop(A: Mat4, B: Mat4) returns (C: Mat4)
    ensures C == Mul(A, B)
  {
    var D: seq<seq<real>> := [[0.0, 0.0, 0.0, 0.0], [0.0, 0.0, 0.0, 0.0], [0.0, 0.0, 0.0, 0.0], [0.0, 0.0, 0.0, 0.0]];
    var i := 0;
    while i < 4
      invariant 0 <= i <= 4
      invariant i < 4 ==> MulProgress(D, A, B, i, 0, 0)
      invariant i == 4 ==> IsSquare(D, 4) && forall r, c | 0 <= r < 4 && 0 <= c < 4 :: D[r][c] == Entry(A, B, r, c)
    {
      var j := 0;
      while j < 4
        invariant 0 <= j <= 4
        invariant j < 4 ==> MulProgress(D, A, B, i, j, 0)
        invariant j == 4 ==> i + 1 < 4 ==> MulProgress(D, A, B, i + 1, 0, 0)
        invariant j == 4 ==> i + 1 == 4 ==> IsSquare(D, 4) && forall r, c | 0 <= r < 4 && 0 <= c < 4 :: D[r][c] == Entry(A, B, r, c)
      {
        var k := 0;
        while k < 4
          invariant 0 <= k <= 4
          invariant MulProgress(D, A, B, i, j, k)
        {
          D := D[i := D[i][j := D[i][j] + A[i][k] * B[k][j]]];
          k := k + 1;
        }
        ProgressAdvance(D, A, B, i, j);
        j := j + 1;
      }
      i := i + 1;
    }
    C := D;
    assert forall r | 0 <= r < 4 :: C[r] == Mul(A, B)[r];
  }

  /** Row `i` of a matrix as a 4-vector. */
  function Row(A: Mat4, i: nat): Vec4
    requires i < 4
  {
    Vec4(A[i][0], A[i][1], A[i][2], A[i][3])
  }

  /** `operator*(mat4x4, vec4)`: each component is a row dotted with `b`. */
  function MulVec4(A: Mat4, b: Vec4): Vec4 {
    Vec4(Dot4(Row(A, 0), b), Dot4(Row(A, 1), b), Dot4(Row(A, 2), b), Dot4(Row(A, 3), b))
  }

  /** `operator*(mat4x4, vec3)`: the point is extended with w = 1 and the
      fourth component of the product is dropped. */
  function MulVec3(A: Mat4, b: Vec3): Vec3 {
    Truncate(MulVec4(A, Extend(b, 1.0)))
  }

  function Identity(): Mat4 {
    [[1.0, 0.0, 0.0, 0.0], [0.0, 1.0, 0.0, 0.0], [0.0, 0.0, 1.0, 0.0], [0.0, 0.0, 0.0, 1.0]]
  }

  /** The identity is a two-sided unit of the product and fixes every vector. */
  lemma IdentityUnit(A: Mat4, v: Vec4)
    ensures Mul(Identity(), A) == A
    ensures Mul(A, Identity()) == A
    ensures MulVec4(Identity(), v) == v
  {
    var I := Identity();
    forall i | 0 <= i < 4 ensures Mul(I, A)[i] == A[i] && Mul(A, I)[i] == A[i] {
      assert forall j | 0 <= j < 4 :: Mul(I, A)[i][j] == A[i][j];
      assert forall j | 0 <= j < 4 :: Mul(A, I)[i][j] == A[i][j];
    }
  }

  function Translation(x: real, y: real, z: real): Mat4 {
    [[1.0, 0.0, 0.0, x], [0.0, 1.0, 0.0, y], [0.0, 0.0, 1.0, z], [0.0, 0.0, 0.0, 1.0]]
  }

  /** `Translation(vec3)`. */
  function TranslationBy(v: Vec3): Mat4 {
    Translation(v.x, v.y, v.z)
  }

  /** A translation moves every point by its offset, and two translations
      compose into the translation by the sum of their offsets. */
  lemma TranslationAction(x: real, y: real, z: real, p: Vec3, a: Vec3, b: Vec3)
    ensures MulVec3(Translation(x, y, z), p) == Add(p, Vec3(x, y, z))
    ensures Mul(TranslationBy(a), TranslationBy(b)) == TranslationBy(Add(a, b))
  {
    var M := Mul(TranslationBy(a), TranslationBy(b));
    forall i | 0 <= i < 4 ensures M[i] == TranslationBy(Add(a, b))[i] {
      assert forall j | 0 <= j < 4 :: M[i][j] == TranslationBy(Add(a, b))[i][j];
    }
  }

  function Scaling(x: real, y: real, z: real): Mat4 {
    [[x, 0.0, 0.0, 0.0], [0.0, y, 0.0, 0.0], [0.0, 0.0, z, 0.0], [0.0, 0.0, 0.0, 1.0]]
  }

  /** `Scaling(f32 value)`: the same factor on every axis. */
  function UniformScaling(s: real): Mat4 {
    Scaling(s, s, s)
  }

  /** A scaling multiplies each coordinate by its own factor; the uniform
      overload scales the whole point. */
  lemma ScalingAction(x: real, y: real, z: real, s: real, p: Vec3)
    ensures MulVec3(Scaling(x, y, z), p) == Hadamard(p, Vec3(x, y, z))
    ensures MulVec3(UniformScaling(s), p) == Scale(s, p)
  {
  }

  /** The guard `Shear` asserts, as written: only upper bounds on the indices. */
  predicate ShearGuardAsWritten(i: int, j: int) {
    i < 4 && j < 4
  }

  /** The indices `Shear` can actually write: inside the 4x4 array. */
  predicate ShearGuard(i: int, j: int) {
    0 <= i < 4 && 0 <= j < 4
  }

  /** The as-written guard lets a negative index through, which the
      subsequent `result.e[i][j] = s` writes outside the array. */
  lemma ShearGuardAdmitsNegative()
    ensures ShearGuardAsWritten(-1, 0) && !ShearGuard(-1, 0)
  {
  }

  /** `Shear(i, j, s)`: the identity with entry (i, j) replaced by `s`. */
  function Shear(i: int, j: int, s: real): (m: Mat4)
    requires ShearGuard(i, j)
    ensures forall r, c | 0 <= r < 4 && 0 <= c < 4 ::
      m[r][c] == (if r == i && c == j then s else Identity()[r][c])
  {
    Identity()[i := Identity()[i][j := s]]
  }

  /** Off the diagonal, a shear adds `s` times component `j` to component
      `i` and leaves the others; on the diagonal it scales component `i`. */
  lemma ShearAction(i: nat, j: nat, s: real, v: Vec4)
    requires ShearGuard(i, j)
    ensures forall r | 0 <= r < 4 && r != i :: Component(MulVec4(Shear(i, j, s), v), r) == Component(v, r)
    ensures i != j ==> Component(MulVec4(Shear(i, j, s), v), i) == Component(v, i) + s * Component(v, j)
    ensures i == j ==> Component(MulVec4(Shear(i, j, s), v), i) == s * Component(v, i)
  {
  }

  /** `Orthographic(left, bottom, near, right, top, far)`: the scaling by
      2/(right-left), 2/(top-bottom), 2/(near-far) applied after the
      translation that moves the box's centre to the origin. The camera looks
      down -z, so the near and far planes sit at z = -near and z = -far.
      The `Assert` that the negated near plane lies above the negated far
      plane only prints, so any two distinct planes give a matrix. */
  function Orthographic(left: real, bottom: real, near: real, right: real, top: real, far: real): Mat4
    requires left != right && bottom != top && near != far
  {
    var nz, fz := -near, -far;
    Mul(Scaling(2.0 / (right - left), 2.0 / (top - bottom), 2.0 / (fz - nz)),
        Translation(-(left + right) / 2.0, -(top + bottom) / 2.0, -(fz + nz) / 2.0))
  }

  /** The orthographic projection maps the viewing box affinely onto the cube
      [-1, 1]^3: left/bottom/near go to -1 and right/top/far go to +1. */
  lemma OrthographicMapping(left: real, bottom: real, near: real, right: real, top: real, far: real, p: Vec3)
    requires left != right && bottom != top && near != far
    ensures MulVec3(Orthographic(left, bottom, near, right, top, far), p)
         == Vec3((2.0 * p.x - left - right) / (right - left),
                 (2.0 * p.y - bottom - top) / (top - bottom),
                 (2.0 * p.z + far + near) / (near - far))
    ensures MulVec3(Orthographic(left, bottom, near, right, top, far), Vec3(left, bottom, -near)) == Vec3(-1.0, -1.0, -1.0)
    ensures MulVec3(Orthographic(left, bottom, near, right, top, far), Vec3(right, top, -far)) == Vec3(1.0, 1.0, 1.0)
  {
    var sx, sy, sz := 2.0 / (right - left), 2.0 / (top - bottom), 2.0 / (near - far);
    var tx, ty, tz := -(left + right) / 2.0, -(top + bottom) / 2.0, (far + near) / 2.0;
    assert Orthographic(left, bottom, near, right, top, far) == Mul(Scaling(sx, sy, sz), Translation(tx, ty, tz));
    ScaleAfterTranslate(sx, sy, sz, tx, ty, tz, p);
    AffineAxis(sx, tx, p.x, left, right);
    AffineAxis(sy, ty, p.y, bottom, top);
    AffineAxisDepth(sz, tz, p.z, near, far);
    AffineAxis(sx, tx, left, left, right);
    AffineAxis(sx, tx, right, left, right);
    AffineAxis(sy, ty, bottom, bottom, top);
    AffineAxis(sy, ty, top, bottom, top);
    AffineAxisDepth(sz, tz, -near, near, far);
    AffineAxisDepth(sz, tz, -far, near, far);
  }

  /** A scaling applied after a translation maps each coordinate c to s*c + s*t. */
  lemma ScaleAfterTranslate(sx: real, sy: real, sz: real, tx: real, ty: real, tz: real, p: Vec3)
    ensures MulVec3(Mul(Scaling(sx, sy, sz), Translation(tx, ty, tz)), p)
         == Vec3(sx * p.x + sx * tx, sy * p.y + sy * ty, sz * p.z + sz * tz)
  {
    var S, T := Scaling(sx, sy, sz), Translation(tx, ty, tz);
    RowOfMul(S, T, 0);
    RowOfMul(S, T, 1);
    RowOfMul(S, T, 2);
    assert Entry(S, T, 0, 3) == sx * tx;
    assert Entry(S, T, 1, 3) == sy * ty;
    assert Entry(S, T, 2, 3) == sz * tz;
  }

  /** Row `i` of a product holds the four entries of that row. */
  lemma RowOfMul(A: Mat4, B: Mat4, i: nat)
    requires i < 4
    ensures Row(Mul(A, B), i) == Vec4(Entry(A, B, i, 0), Entry(A, B, i, 1), Entry(A, B, i, 2), Entry(A, B, i, 3))
  {
  }

  /** One lateral axis of the orthographic mapping. */
  lemma AffineAxis(s: real, t: real, x: real, lo: real, hi: real)
    requires lo != hi && s == 2.0 / (hi - lo) && t == -(lo + hi) / 2.0
    ensures s * x + s * t == (2.0 * x - lo - hi) / (hi - lo)
    ensures x == lo ==> s * x + s * t == -1.0
    ensures x == hi ==> s * x + s * t == 1.0
  {
    assert s * (hi - lo) == 2.0;
  }

  /** The depth axis of the orthographic mapping, where near and far are negated. */
  lemma AffineAxisDepth(s: real, t: real, z: real, near: real, far: real)
    requires near != far && s == 2.0 / (near - far) && t == (far + near) / 2.0
    ensures s * z + s * t == (2.0 * z + far + near) / (near - far)
    ensures z == -near ==> s * z + s * t == -1.0
    ensures z == -far ==> s * z + s * t == 1.0
  {
    assert s * (near - far) == 2.0;
  }

  /** `Orthographic(vec3 min_corner, vec3 max_corner)`: the six bounds read
      from two corners, z of the corners giving near and far. */
  function OrthographicCorners(minCorner: Vec3, maxCorner: Vec3): Mat4
    requires minCorner.x != maxCorner.x && minCorner.y != maxCorner.y && minCorner.z != maxCorner.z
  {
    Orthographic(minCorner.x, minCorner.y, minCorner.z, maxCorner.x, maxCorner.y, maxCorner.z)
  }

  /** `Orthographic(rect3)`. */
  function OrthographicBox(rect: Rect3): Mat4
    requires rect.min.x != rect.max.x && rect.min.y != rect.max.y && rect.min.z != rect.max.z
  {
    OrthographicCorners(rect.min, rect.max)
  }

  /** A box's orthographic projection sends its minimum corner (with z
      negated) to (-1,-1,-1) and its maximum corner to (1,1,1). */
  lemma OrthographicBoxCorners(rect: Rect3)
    requires rect.min.x != rect.max.x && rect.min.y != rect.max.y && rect.min.z != rect.max.z
    ensures MulVec3(OrthographicBox(rect), Vec3(rect.min.x, rect.min.y, -rect.min.z)) == Vec3(-1.0, -1.0, -1.0)
    ensures MulVec3(OrthographicBox(rect), Vec3(rect.max.x, rect.max.y, -rect.max.z)) == Vec3(1.0, 1.0, 1.0)
  {
    var lo, hi := rect.min, rect.max;
    assert OrthographicBox(rect) == Orthographic(lo.x, lo.y, lo.z, hi.x, hi.y, hi.z);
    OrthographicMapping(lo.x, lo.y, lo.z, hi.x, hi.y, hi.z, lo);
  }
}
