/** Three-dimensional Euclidean vectors (`Vec3<F>`), with the scalar `F` taken as `real`. */
module VecD3 {
  import Reals
  import opened VecD2

  /** The result of comparing two values, as Rust's `Ordering`. */
  datatype Ordering = Less | Equal | Greater

  function CmpReal(a: real, b: real): Ordering {
    if a < b then Less else if a == b then Equal else Greater
  }

  /** A 3D vector with X, Y and Z components; a value that is copied on use. */
  datatype Vec3 = Vec3(x: real, y: real, z: real) {

    // Axis constants of the rotation frame: yaw about +Z, pitch about -Y, roll about +X.
    static function Yaw(): Vec3 { Vec3(0.0, 0.0, 1.0) }
    static function Pitch(): Vec3 { Vec3(0.0, -1.0, 0.0) }
    static function Roll(): Vec3 { Vec3(1.0, 0.0, 0.0) }

    static function One(): Vec3 { Vec3(1.0, 1.0, 1.0) }
    static function Zero(): Vec3 { Vec3(0.0, 0.0, 0.0) }
    static function Top(): Vec3 { Vec3(0.0, 0.0, 1.0) }
    static function Bottom(): Vec3 { Vec3(0.0, 0.0, -1.0) }
    static function Right(): Vec3 { Vec3(0.0, -1.0, 0.0) }
    static function Left(): Vec3 { Vec3(0.0, 1.0, 0.0) }
    static function Forward(): Vec3 { Vec3(1.0, 0.0, 0.0) }
    static function Back(): Vec3 { Vec3(-1.0, 0.0, 0.0) }

    static function New(x: real, y: real, z: real): Vec3 {
      Vec3(x, y, z)
    }

    /** Drops the Z component. */
    function Reduce(): Vec2 {
      Vec2.New(x, y)
    }

    static function FromVec2(v: Vec2, z: real): Vec3 {
      Vec3(v.x, v.y, z)
    }

    function Split(): (real, real, real) {
      (x, y, z)
    }

    static function Combine(xyz: (real, real, real)): Vec3 {
      Vec3(xyz.0, xyz.1, xyz.2)
    }

    /** The projections on the basis vectors `i`, `j` and `k`. */
    function IntoBasis(): (Vec3, Vec3, Vec3) {
      (Vec3(x, 0.0, 0.0), Vec3(0.0, y, 0.0), Vec3(0.0, 0.0, z))
    }

    function Dot(other: Vec3): real {
      x * other.x + y * other.y + z * other.z
    }

    /** The squared length (the source's `sqrt_magnitude`). */
    function SqrtMagnitude(): real {
      x * x + y * y + z * z
    }

    /** Interpolation with the parameter reversed: `t == 0` gives `other`, `t == 1` gives `this`. */
    function Lerp(other: Vec3, t: real): Vec3 {
      Add(other.Sub(this).Mul(1.0 - t))
    }

    /** The right-handed cross product. */
    function Cross(other: Vec3): Vec3 {
      Vec3.New(y * other.z - z * other.y,
               z * other.x - x * other.z,
               x * other.y - y * other.x)
    }

    /** The scalar triple product `this . (former x latter)`. */
    function Triple(former: Vec3, latter: Vec3): real {
      Dot(former.Cross(latter))
    }

    /** The volume of the cuboid whose diagonal is this vector (signed). */
    function CuboidVolume(): real {
      x * y * z
    }

    function Add(rhs: Vec3): Vec3 {
      Vec3(x + rhs.x, y + rhs.y, z + rhs.z)
    }

    function Sub(rhs: Vec3): Vec3 {
      Vec3(x - rhs.x, y - rhs.y, z - rhs.z)
    }

    /** Scalar multiplication (`Mul<F>`). */
    function Mul(rhs: real): Vec3 {
      Vec3(x * rhs, y * rhs, z * rhs)
    }

    /** Scalar division (`Div<F>`); a zero divisor gives IEEE infinities in the source. */
    function Div(rhs: real): Vec3
      requires rhs != 0.0
    {
      Vec3(x / rhs, y / rhs, z / rhs)
    }

    function Neg(): Vec3 {
      Vec3(-x, -y, -z)
    }

    /** The derived `PartialOrd`: the fields compared lexicographically in declaration order. */
    function PartialCmp(other: Vec3): Ordering {
      match CmpReal(x, other.x)
      case Equal =>
        (match CmpReal(y, other.y)
         case Equal => CmpReal(z, other.z)
         case c => c)
      case c => c
    }

    /** `this > other` under the derived order. */
    predicate Gt(other: Vec3) {
      PartialCmp(other) == Greater
    }
  }

  /** A `&mut Vec3` place: the in-place operations overwrite its fields one after the other. */
  class MutVec3 {
    var x: real
    var y: real
    var z: real

    function Value(): Vec3
      reads this
    {
      Vec3(x, y, z)
    }

    constructor (v: Vec3)
      ensures Value() == v
    {
      x, y, z := v.x, v.y, v.z;
    }

    /** `scale`: agrees with `v * factor`. */
    method Scale(factor: real)
      modifies this
      ensures Value() == old(Value()).Mul(factor)
    {
      x := x * factor;
      y := y * factor;
      z := z * factor;
    }

    method AddAssign(rhs: Vec3)
      modifies this
      ensures Value() == old(Value()).Add(rhs)
    {
      x := x + rhs.x;
      y := y + rhs.y;
      z := z + rhs.z;
    }

    method SubAssign(rhs: Vec3)
      modifies this
      ensures Value() == old(Value()).Sub(rhs)
    {
      x := x - rhs.x;
      y := y - rhs.y;
      z := z - rhs.z;
    }

    method MulAssign(rhs: real)
      modifies this
      ensures Value() == old(Value()).Mul(rhs)
    {
      x := x * rhs;
      y := y * rhs;
      z := z * rhs;
    }

    method DivAssign(rhs: real)
      requires rhs != 0.0
      modifies this
      ensures Value() == old(Value()).Div(rhs)
    {
      x := x / rhs;
      y := y / rhs;
      z := z / rhs;
    }
  }

  /** The rotation axes coincide with the direction constants, and opposite directions are negations. */
  lemma AxisConstants()
    ensures Vec3.Yaw() == Vec3.Top() == Vec3(0.0, 0.0, 1.0)
    ensures Vec3.Pitch() == Vec3.Right() == Vec3(0.0, -1.0, 0.0)
    ensures Vec3.Roll() == Vec3.Forward() == Vec3(1.0, 0.0, 0.0)
    ensures Vec3.Back() == Vec3.Forward().Neg()
    ensures Vec3.Bottom() == Vec3.Top().Neg()
    ensures Vec3.Left() == Vec3.Right().Neg()
  {
  }

  /** The basis is right-handed: forward x left is top. */
  lemma CrossOfBasis()
    ensures Vec3(1.0, 0.0, 0.0).Cross(Vec3(0.0, 1.0, 0.0)) == Vec3(0.0, 0.0, 1.0)
  {
  }

  lemma CrossAnticommutative(a: Vec3, b: Vec3)
    ensures a.Cross(b) == b.Cross(a).Neg()
  {
  }

  /** The cross product is orthogonal to both of its operands. */
  lemma CrossOrthogonal(a: Vec3, b: Vec3)
    ensures a.Dot(a.Cross(b)) == 0.0
    ensures b.Dot(a.Cross(b)) == 0.0
  {
  }

  /** The triple product vanishes when two of its vectors coincide and is invariant under cyclic shifts. */
  lemma TripleProperties(a: Vec3, b: Vec3, c: Vec3)
    ensures a.Triple(b, b) == 0.0
    ensures a.Triple(a, c) == 0.0
    ensures a.Triple(b, c) == b.Triple(c, a) == c.Triple(a, b)
  {
    // The determinant of the rows a, b, c, expanded once.
    var det := a.x * b.y * c.z + a.y * b.z * c.x + a.z * b.x * c.y
             - a.z * b.y * c.x - a.y * b.x * c.z - a.x * b.z * c.y;
    assert a.Triple(b, c) == det;
    assert b.Triple(c, a) == det;
    assert c.Triple(a, b) == det;
  }

  lemma LerpEndpoints(a: Vec3, b: Vec3)
    ensures a.Lerp(b, 0.0) == b
    ensures a.Lerp(b, 1.0) == a
  {
  }

  lemma LerpMidpoint(a: Vec3, b: Vec3)
    ensures a.Lerp(b, 0.5) == Vec3((a.x + b.x) / 2.0, (a.y + b.y) / 2.0, (a.z + b.z) / 2.0)
    ensures Vec3(-1.0, -1.0, -1.0).Lerp(Vec3(1.0, 1.0, 1.0), 0.5) == Vec3.Zero()
  {
  }

  /** The squared length is the vector's dot product with itself; it is never negative and
      is positive unless the vector is zero. */
  lemma SqrtMagnitudeIsSelfDot(v: Vec3)
    ensures v.SqrtMagnitude() == v.Dot(v)
    ensures v.SqrtMagnitude() >= 0.0
    ensures v.SqrtMagnitude() > 0.0 <==> v.x != 0.0 || v.y != 0.0 || v.z != 0.0
  {
    Reals.SumOfSquaresSign(v.x, v.y, v.z, 0.0, v.SqrtMagnitude());
  }

  lemma DotSymmetric(a: Vec3, b: Vec3)
    ensures a.Dot(b) == b.Dot(a)
  {
  }

  /** The decompositions put the vector back together. */
  lemma DecompositionsRoundTrip(v: Vec3, t: (real, real, real), xy: Vec2, z: real)
    ensures v.IntoBasis().0.Add(v.IntoBasis().1).Add(v.IntoBasis().2) == v
    ensures Vec3.Combine(v.Split()) == v
    ensures Vec3.Combine(t).Split() == t
    ensures Vec3.FromVec2(xy, z).Reduce() == xy
    ensures Vec3.FromVec2(v.Reduce(), v.z) == v
  {
  }

  lemma SubAddCancel(a: Vec3, b: Vec3)
    ensures a.Sub(b).Add(b) == a
    ensures a.Neg().Neg() == a
  {
  }

  /** The derived order is the strict lexicographic order on `(x, y, z)`. */
  lemma GtIsLexicographic(a: Vec3, b: Vec3)
    ensures a.Gt(b) <==> a.x > b.x || (a.x == b.x && (a.y > b.y || (a.y == b.y && a.z > b.z)))
  {
  }

  /** The derived order is a strict total order on real vectors. */
  lemma GtStrictTotalOrder(a: Vec3, b: Vec3, c: Vec3)
    ensures !a.Gt(a)
    ensures a.Gt(b) ==> !b.Gt(a)
    ensures a.Gt(b) && b.Gt(c) ==> a.Gt(c)
    ensures a == b || a.Gt(b) || b.Gt(a)
  {
    GtIsLexicographic(a, a);
    GtIsLexicographic(a, b);
    GtIsLexicographic(b, a);
    GtIsLexicographic(b, c);
    GtIsLexicographic(a, c);
  }

  /** Lexicographic order is not the per-axis order: here `max > min` while `max.y < min.y`. */
  lemma GtIsNotPerAxis()
    ensures Vec3(1.0, 0.0, 0.0).Gt(Vec3(0.0, 5.0, 0.0))
  {
  }

  /** Division by a nonzero scalar undoes multiplication by it. */
  lemma MulDivCancel(a: Vec3, s: real)
    requires s != 0.0
    ensures a.Mul(s).Div(s) == a
  {
    var m := a.Mul(s).Div(s);
    assert m.x == a.x && m.y == a.y && m.z == a.z;
  }
}
