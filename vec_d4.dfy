/** Four-dimensional Euclidean vectors (`Vec4<F>`), with the scalar `F` taken as `real`. */
module VecD4 {
  import Reals
  import opened VecD2
  import opened VecD3

  /** A 4D vector with X, Y, Z and W components; a value that is copied on use. */
  datatype Vec4 = Vec4(x: real, y: real, z: real, w: real) {

    static function New(x: real, y: real, z: real, w: real): Vec4 {
      Vec4(x, y, z, w)
    }

    /** Widens a 3D vector with the given W. */
    static function FromVec3(v: Vec3, w: real): Vec4 {
      Vec4(v.x, v.y, v.z, w)
    }

    /** Concatenates two 2D vectors. */
    static function FromVec2(xy: Vec2, zw: Vec2): Vec4 {
      Vec4(xy.x, xy.y, zw.x, zw.y)
    }

    function Split(): (real, real, real, real) {
      (x, y, z, w)
    }

    static function Combine(xyzw: (real, real, real, real)): Vec4 {
      Vec4(xyzw.0, xyzw.1, xyzw.2, xyzw.3)
    }

    /** The projections on the basis vectors `i`, `j`, `k` and `l`. */
    function IntoBasis(): (Vec4, Vec4, Vec4, Vec4) {
      (Vec4(x, 0.0, 0.0, 0.0), Vec4(0.0, y, 0.0, 0.0), Vec4(0.0, 0.0, z, 0.0), Vec4(0.0, 0.0, 0.0, w))
    }

    function Dot(other: Vec4): real {
      x * other.x + y * other.y + z * other.z + w * other.w
    }

    /** Interpolation with the parameter reversed: `t == 0` gives `other`, `t == 1` gives `this`. */
    function Lerp(other: Vec4, t: real): Vec4 {
      Add(other.Sub(this).Mul(1.0 - t))
    }

    /** The squared length (the source's `sqrt_magnitude`). */
    function SqrtMagnitude(): real {
      x * x + y * y + z * z + w * w
    }

    function Add(rhs: Vec4): Vec4 {
      Vec4(x + rhs.x, y + rhs.y, z + rhs.z, w + rhs.w)
    }

    function Sub(rhs: Vec4): Vec4 {
      Vec4(x - rhs.x, y - rhs.y, z - rhs.z, w - rhs.w)
    }

    /** Scalar multiplication (`Mul<F>`). */
    function Mul(rhs: real): Vec4 {
      Vec4(x * rhs, y * rhs, z * rhs, w * rhs)
    }

    /** Scalar division (`Div<F>`); a zero divisor gives IEEE infinities in the source. */
    function Div(rhs: real): Vec4
      requires rhs != 0.0
    {
      Vec4(x / rhs, y / rhs, z / rhs, w / rhs)
    }

    function Neg(): Vec4 {
      Vec4(-x, -y, -z, -w)
    }
  }

  /** A `&mut Vec4` place: the in-place operations overwrite its fields one after the other. */
  class MutVec4 {
    var x: real
    var y: real
    var z: real
    var w: real

    function Value(): Vec4
      reads this
    {
      Vec4(x, y, z, w)
    }

    constructor (v: Vec4)
      ensures Value() == v
    {
      x, y, z, w := v.x, v.y, v.z, v.w;
    }

    /** `scale`: agrees with `v * factor`. */
    method Scale(factor: real)
      modifies this
      ensures Value() == old(Value()).Mul(factor)
    {
      x := x * factor;
      y := y * factor;
      z := z * factor;
      w := w * factor;
    }

    method AddAssign(rhs: Vec4)
      modifies this
      ensures Value() == old(Value()).Add(rhs)
    {
      x := x + rhs.x;
      y := y + rhs.y;
      z := z + rhs.z;
      w := w + rhs.w;
    }

    method SubAssign(rhs: Vec4)
      modifies this
      ensures Value() == old(Value()).Sub(rhs)
    {
      x := x - rhs.x;
      y := y - rhs.y;
      z := z - rhs.z;
      w := w - rhs.w;
    }

    method MulAssign(rhs: real)
      modifies this
      ensures Value() == old(Value()).Mul(rhs)
    {
      x := x * rhs;
      y := y * rhs;
      z := z * rhs;
      w := w * rhs;
    }

    method DivAssign(rhs: real)
      requires rhs != 0.0
      modifies this
      ensures Value() == old(Value()).Div(rhs)
    {
      x := x / rhs;
      y := y / rhs;
      z := z / rhs;
      w := w / rhs;
    }
  }

  /** Widening keeps the given components and places the new ones last. */
  lemma Widenings(v: Vec3, w: real, xy: Vec2, zw: Vec2)
    ensures Vec4.FromVec3(v, w).x == v.x && Vec4.FromVec3(v, w).y == v.y
    ensures Vec4.FromVec3(v, w).z == v.z && Vec4.FromVec3(v, w).w == w
    ensures Vec4.FromVec3(v, w).Split() == (v.x, v.y, v.z, w)
    ensures Vec4.FromVec2(xy, zw) == Vec4(xy.x, xy.y, zw.x, zw.y)
  {
  }

  lemma SplitCombineRoundTrip(v: Vec4, t: (real, real, real, real))
    ensures Vec4.Combine(v.Split()) == v
    ensures Vec4.Combine(t).Split() == t
  {
  }

  lemma IntoBasisSums(v: Vec4)
    ensures v.IntoBasis().0.Add(v.IntoBasis().1).Add(v.IntoBasis().2).Add(v.IntoBasis().3) == v
  {
  }

  lemma LerpEndpoints(a: Vec4, b: Vec4)
    ensures a.Lerp(b, 0.0) == b
    ensures a.Lerp(b, 1.0) == a
  {
  }

  /** The squared length is the vector's dot product with itself; it is never negative and
      is positive unless the vector is zero. */
  lemma SqrtMagnitudeIsSelfDot(v: Vec4)
    ensures v.SqrtMagnitude() == v.Dot(v)
    ensures v.SqrtMagnitude() >= 0.0
    ensures v.SqrtMagnitude() > 0.0 <==> v.x != 0.0 || v.y != 0.0 || v.z != 0.0 || v.w != 0.0
  {
    Reals.SumOfSquaresSign(v.x, v.y, v.z, v.w, v.SqrtMagnitude());
  }

  lemma DotSymmetric(a: Vec4, b: Vec4)
    ensures a.Dot(b) == b.Dot(a)
  {
  }

  lemma SubAddCancel(a: Vec4, b: Vec4)
    ensures a.Sub(b).Add(b) == a
    ensures a.Neg().Neg() == a
  {
  }

  /** Division by a nonzero scalar undoes multiplication by it. */
  lemma MulDivCancel(a: Vec4, s: real)
    requires s != 0.0
    ensures a.Mul(s).Div(s) == a
  {
    var m := a.Mul(s).Div(s);
    assert m.x == a.x && m.y == a.y && m.z == a.z && m.w == a.w;
  }
}
