/** Quaternions (`Quat<F>`, the rotation algebra), with the scalar `F` taken as `real`. */
module QuatRot {
  import opened VecD3

  /** A quaternion with vector part `v` and scalar part `w`. */
  datatype Quat = Quat(v: Vec3, w: real) {

    static function New(v: Vec3, w: real): Quat {
      Quat(v, w)
    }

    /** The pure quaternion `(v, 0)`. */
    static function NewVector(v: Vec3): Quat {
      Quat(v, 0.0)
    }

    static function Zero(): Quat {
      Quat(Vec3.Zero(), 0.0)
    }

    static function Identity(): Quat {
      Quat(Vec3.Zero(), 1.0)
    }

    static function FromParts(x: real, y: real, z: real, w: real): Quat {
      Quat(Vec3(x, y, z), w)
    }

    function Conjugate(): Quat {
      Quat(v.Neg(), w)
    }

    /** The squared norm (the source's `sqrt_norm`). */
    function SqrtNorm(): real {
      v.SqrtMagnitude() + w * w
    }

    /** `conjugate / sqrt_norm`; the zero quaternion has no reciprocal (IEEE NaN in the source). */
    function Reciprocal(): Quat
      requires SqrtNorm() != 0.0
    {
      Conjugate().Div(SqrtNorm())
    }

    /** Composes two rotations so that `this` is applied first and `other` second. */
    function Combine(other: Quat): Quat {
      other.Product(this)
    }

    /** The Hamilton product `this * other`. */
    function Product(other: Quat): Quat {
      Quat(
        Vec3(w * other.v.x + v.x * other.w + v.y * other.v.z - v.z * other.v.y,
             w * other.v.y - v.x * other.v.z + v.y * other.w + v.z * other.v.x,
             w * other.v.z + v.x * other.v.y - v.y * other.v.x + v.z * other.w),
        w * other.w - v.x * other.v.x - v.y * other.v.y - v.z * other.v.z)
    }

    /** The vector part of `this * (p, 0) * this⁻¹`. */
    function Rotate(p: Vec3): Vec3
      requires SqrtNorm() != 0.0
    {
      Product(NewVector(p)).Product(Reciprocal()).v
    }

    function Add(rhs: Quat): Quat {
      Quat(v.Add(rhs.v), w + rhs.w)
    }

    function Sub(rhs: Quat): Quat {
      Quat(v.Sub(rhs.v), w - rhs.w)
    }

    /** Scalar multiplication (`Mul<F>`). */
    function Mul(rhs: real): Quat {
      Quat(v.Mul(rhs), w * rhs)
    }

    /** Scalar division (`Div<F>`). */
    function Div(rhs: real): Quat
      requires rhs != 0.0
    {
      Quat(v.Div(rhs), w / rhs)
    }
  }

  /** A `&mut Quat` place: the in-place operators overwrite `v` and then `w`. */
  class MutQuat {
    var v: Vec3
    var w: real

    function Value(): Quat
      reads this
    {
      Quat(v, w)
    }

    constructor (q: Quat)
      ensures Value() == q
    {
      v, w := q.v, q.w;
    }

    method AddAssign(rhs: Quat)
      modifies this
      ensures Value() == old(Value()).Add(rhs)
    {
      v := v.Add(rhs.v);
      w := w + rhs.w;
    }

    method SubAssign(rhs: Quat)
      modifies this
      ensures Value() == old(Value()).Sub(rhs)
    {
      v := v.Sub(rhs.v);
      w := w - rhs.w;
    }

    method MulAssign(rhs: real)
      modifies this
      ensures Value() == old(Value()).Mul(rhs)
    {
      v := v.Mul(rhs);
      w := w * rhs;
    }

    method DivAssign(rhs: real)
      requires rhs != 0.0
      modifies this
      ensures Value() == old(Value()).Div(rhs)
    {
      v := v.Div(rhs);
      w := w / rhs;
    }
  }
}
