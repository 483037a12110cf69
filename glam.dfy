/**
 * The part of the glam vector library (and of Rust's f32 methods) that the
 * examples rely on, over real numbers. Matrices are column-major, as in glam:
 * a Mat4 is its four columns x_axis, y_axis, z_axis and w_axis.
 *
 * The transcendental functions, the square root and glam's look_at_rh /
 * perspective_rh are foreign code here. They are carried in a MathEnv record
 * and every property that needs their laws takes `Lawful(m)` as a hypothesis.
 */
module Glam {

  datatype Vec2 = Vec2(x: real, y: real)
  datatype Vec3 = Vec3(x: real, y: real, z: real)
  datatype Vec4 = Vec4(x: real, y: real, z: real, w: real)
  datatype Mat4 = Mat4(xAxis: Vec4, yAxis: Vec4, zAxis: Vec4, wAxis: Vec4)

  const ZERO: Vec3 := Vec3(0.0, 0.0, 0.0)
  const Y: Vec3 := Vec3(0.0, 1.0, 0.0)

  function Add(a: Vec3, b: Vec3): Vec3 {
    Vec3(a.x + b.x, a.y + b.y, a.z + b.z)
  }

  function Sub(a: Vec3, b: Vec3): Vec3 {
    Vec3(a.x - b.x, a.y - b.y, a.z - b.z)
  }

  /** `v * s` */
  function Scale(v: Vec3, s: real): Vec3 {
    Vec3(v.x * s, v.y * s, v.z * s)
  }

  function Dot(a: Vec3, b: Vec3): real {
    a.x * b.x + a.y * b.y + a.z * b.z
  }

  function Cross(a: Vec3, b: Vec3): Vec3 {
    Vec3(a.y * b.z - a.z * b.y, a.z * b.x - a.x * b.z, a.x * b.y - a.y * b.x)
  }

  function LengthSquared(v: Vec3): real {
    Dot(v, v)
  }

  /** `Vec3::extend(w)` */
  function Extend(v: Vec3, w: real): Vec4 {
    Vec4(v.x, v.y, v.z, w)
  }

  /** Column k of a matrix (0 = x_axis, ..., 3 = w_axis). */
  function Column(m: Mat4, k: nat): Vec4
    requires k < 4
  {
    if k == 0 then m.xAxis else if k == 1 then m.yAxis else if k == 2 then m.zAxis else m.wAxis
  }

  /** `Mat4::from_translation(t)`: the identity with t in the last column. */
  function FromTranslation(t: Vec3): Mat4 {
    Mat4(Vec4(1.0, 0.0, 0.0, 0.0), Vec4(0.0, 1.0, 0.0, 0.0), Vec4(0.0, 0.0, 1.0, 0.0), Extend(t, 1.0))
  }

  lemma TranslationMovesOrigin(t: Vec3)
    ensures Column(FromTranslation(t), 3) == Extend(t, 1.0)
    ensures forall k :: 0 <= k < 3 ==> Column(FromTranslation(t), k).w == 0.0
  {
  }

  // ---------------------------------------------------------------------------
  // The f32 words that bytemuck::cast_slice hands to the GPU.
  // ---------------------------------------------------------------------------

  function Vec4Words(v: Vec4): (w: seq<real>)
    ensures |w| == 4
  {
    [v.x, v.y, v.z, v.w]
  }

  /** A Mat4 as 16 words, column after column (glam's memory layout). */
  function Mat4Words(m: Mat4): (w: seq<real>)
    ensures |w| == 16
    ensures forall k :: 0 <= k < 4 ==> w[4 * k .. 4 * k + 4] == Vec4Words(Column(m, k))
  {
    var w := Vec4Words(m.xAxis) + Vec4Words(m.yAxis) + Vec4Words(m.zAxis) + Vec4Words(m.wAxis);
    assert w[0..4] == Vec4Words(m.xAxis);
    assert w[4..8] == Vec4Words(m.yAxis);
    assert w[8..12] == Vec4Words(m.zAxis);
    assert w[12..16] == Vec4Words(m.wAxis);
    w
  }

  /** A slice of a GPU buffer laid out as consecutive elements. */
  function Concat(chunks: seq<seq<real>>): seq<real> {
    if chunks == [] then [] else chunks[0] + Concat(chunks[1..])
  }

  ghost predicate Uniform(chunks: seq<seq<real>>, n: nat) {
    forall i :: 0 <= i < |chunks| ==> |chunks[i]| == n
  }

  lemma {:induction false} ConcatLength(chunks: seq<seq<real>>, n: nat)
    requires Uniform(chunks, n)
    ensures |Concat(chunks)| == n * |chunks|
  {
    if chunks != [] {
      ConcatLength(chunks[1..], n);
    }
  }

  lemma {:induction false} ConcatAppend(a: seq<seq<real>>, b: seq<seq<real>>)
    ensures Concat(a + b) == Concat(a) + Concat(b)
  {
    if a != [] {
      assert (a + b)[1..] == a[1..] + b;
      ConcatAppend(a[1..], b);
    } else {
      assert a + b == b;
    }
  }

  /** The buffer is the elements before i, then element i, then the rest. */
  lemma ConcatSplit(chunks: seq<seq<real>>, i: nat)
    requires i < |chunks|
    ensures Concat(chunks) == Concat(chunks[..i]) + chunks[i] + Concat(chunks[i + 1..])
  {
    var pre, rest, post := chunks[..i], chunks[i..], chunks[i + 1..];
    assert chunks == pre + rest;
    ConcatAppend(pre, rest);
    assert rest[0] == chunks[i] && rest[1..] == post;
    assert Concat(rest) == rest[0] + Concat(rest[1..]);
  }

  /** Element i of a buffer of equal-sized elements occupies words i * n up to i * n + n. */
  lemma ConcatChunk(chunks: seq<seq<real>>, n: nat, i: nat)
    requires Uniform(chunks, n)
    requires i < |chunks|
    ensures i * n + n <= |Concat(chunks)|
    ensures Concat(chunks)[i * n .. i * n + n] == chunks[i]
  {
    ConcatSplit(chunks, i);
    var pre := chunks[..i];
    assert Uniform(pre, n);
    ConcatLength(pre, n);
    var p, c, q := Concat(pre), chunks[i], Concat(chunks[i + 1..]);
    assert |p| == n * i;
    assert |c| == n;
    assert (p + c + q)[|p| .. |p| + |c|] == c;
  }

  /** A buffer of matrices (`cast_slice(&[Mat4])`): matrix i occupies words 16 * i up to 16 * i + 16. */
  function MatricesWords(ms: seq<Mat4>): (w: seq<real>)
    ensures |w| == 16 * |ms|
    ensures forall i :: 0 <= i < |ms| ==> w[16 * i .. 16 * i + 16] == Mat4Words(ms[i])
  {
    var chunks := seq(|ms|, i requires 0 <= i < |ms| => Mat4Words(ms[i]));
    assert Uniform(chunks, 16);
    ConcatLength(chunks, 16);
    forall i | 0 <= i < |ms|
      ensures Concat(chunks)[16 * i .. 16 * i + 16] == Mat4Words(ms[i])
    {
      ConcatChunk(chunks, 16, i);
    }
    Concat(chunks)
  }

  /** Column k of matrix i of a matrix buffer is the four words from 16 * i + 4 * k. */
  lemma MatrixColumnWords(ms: seq<Mat4>, i: nat, k: nat)
    requires i < |ms| && k < 4
    ensures 16 * i + 4 * k + 4 <= |MatricesWords(ms)|
    ensures MatricesWords(ms)[16 * i + 4 * k .. 16 * i + 4 * k + 4] == Vec4Words(Column(ms[i], k))
  {
    var w := MatricesWords(ms);
    var chunk := w[16 * i .. 16 * i + 16];
    assert chunk == Mat4Words(ms[i]);
    assert w[16 * i + 4 * k .. 16 * i + 4 * k + 4] == chunk[4 * k .. 4 * k + 4];
  }

  // ---------------------------------------------------------------------------
  // Foreign mathematics.
  // ---------------------------------------------------------------------------

  /**
   * f32's sin, cos and sqrt, the constant PI, and glam's Mat4::look_at_rh(eye,
   * center, up) and Mat4::perspective_rh(fov_y_radians, aspect, near, far).
   */
  datatype MathEnv = MathEnv(
    sin: real -> real,
    cos: real -> real,
    sqrt: real -> real,
    pi: real,
    lookAtRh: (Vec3, Vec3, Vec3) -> Mat4,
    perspectiveRh: (real, real, real, real) -> Mat4)

  /** The laws of the real functions that MathEnv stands for, as far as they are used. */
  ghost predicate Lawful(m: MathEnv) {
    && (forall a :: m.sin(a) * m.sin(a) + m.cos(a) * m.cos(a) == 1.0)
    && (forall x :: 0.0 <= x ==> 0.0 <= m.sqrt(x) && m.sqrt(x) * m.sqrt(x) == x)
    && 3.0 < m.pi < 4.0
    && m.sin(0.0) == 0.0 && m.cos(0.0) == 1.0
    && m.sin(-m.pi / 2.0) == -1.0 && m.cos(-m.pi / 2.0) == 0.0
  }

  /** `f32::to_radians`: multiplies by PI / 180. */
  function ToRadians(m: MathEnv, degrees: real): real {
    degrees * (m.pi / 180.0)
  }

  /**
   * `Vec3::normalize`: v times the reciprocal of its length. glam yields a
   * non-finite vector for the zero vector; here a zero-length vector is
   * returned unchanged.
   */
  function Normalize(m: MathEnv, v: Vec3): Vec3 {
    var length := m.sqrt(LengthSquared(v));
    if length == 0.0 then v else Scale(v, 1.0 / length)
  }

  /** The only non-negative square root of 1 is 1. */
  lemma UnitRoot(s: real)
    requires 0.0 <= s && s * s == 1.0
    ensures s == 1.0
  {
    assert (s - 1.0) * (s + 1.0) == 0.0;
    assert s + 1.0 > 0.0;
  }

  lemma SqrtOfOne(m: MathEnv)
    requires Lawful(m)
    ensures m.sqrt(1.0) == 1.0
  {
    UnitRoot(m.sqrt(1.0));
  }

  /** Normalising a vector that already has unit length leaves it alone. */
  lemma NormalizeUnit(m: MathEnv, v: Vec3)
    requires Lawful(m)
    requires LengthSquared(v) == 1.0
    ensures Normalize(m, v) == v
  {
    SqrtOfOne(m);
  }

  /** Normalising a non-zero vector gives a unit vector. */
  lemma NormalizedIsUnit(m: MathEnv, v: Vec3)
    requires Lawful(m)
    requires LengthSquared(v) != 0.0
    ensures LengthSquared(Normalize(m, v)) == 1.0
  {
    var l := LengthSquared(v);
    var s := m.sqrt(l);
    assert 0.0 <= l;
    assert 0.0 <= s && s * s == l;
    assert s != 0.0;
    var r := 1.0 / s;
    assert LengthSquared(Scale(v, r)) == l * (r * r);
    assert r * r * (s * s) == 1.0;
  }

  /** A vector scaled by any factor stays orthogonal to whatever v was orthogonal to. */
  lemma ScaledOrthogonal(a: Vec3, v: Vec3, s: real)
    requires Dot(a, v) == 0.0
    ensures Dot(a, Scale(v, s)) == 0.0
  {
    assert Dot(a, Scale(v, s)) == s * Dot(a, v);
  }

  lemma CrossOrthogonal(a: Vec3, b: Vec3)
    ensures Dot(a, Cross(a, b)) == 0.0
    ensures Dot(b, Cross(a, b)) == 0.0
  {
  }
}
