/** The 3x4 matrix `Mat3x4<F>` stored as three `Vec4` rows, with the scalar `F` taken as `real`. */
module Mat3x4s {
  import opened VecD3
  import opened VecD4

  /** A matrix with rows `r0`, `r1` and `r2`. */
  datatype Mat3x4 = Mat3x4(r0: Vec4, r1: Vec4, r2: Vec4) {

    static function New(r0: Vec4, r1: Vec4, r2: Vec4): Mat3x4 {
      Mat3x4(r0, r1, r2)
    }

    /** `column::<I>`: component `I` of every row.  Any index above 2 panics, so it is excluded. */
    function Column(i: nat): Vec3
      requires i <= 2
    {
      match i
      case 0 => Vec3(r0.x, r1.x, r2.x)
      case 1 => Vec3(r0.y, r1.y, r2.y)
      case 2 => Vec3(r0.z, r1.z, r2.z)
    }

    /** The `w` components of the rows, which no `column::<I>` can return. */
    function LastColumn(): Vec3 {
      Vec3(r0.w, r1.w, r2.w)
    }

    static function Identity(): Mat3x4 {
      Mat3x4(Vec4(1.0, 0.0, 0.0, 0.0), Vec4(0.0, 1.0, 0.0, 0.0), Vec4(0.0, 0.0, 1.0, 0.0))
    }
  }

  /** `Vec4 * Mat3x4`: the dot product of the vector with each row. */
  function VecMul(v: Vec4, m: Mat3x4): Vec3 {
    Vec3(v.Dot(m.r0), v.Dot(m.r1), v.Dot(m.r2))
  }

  /** `new` keeps the rows as given. */
  lemma NewKeepsRows(r0: Vec4, r1: Vec4, r2: Vec4)
    ensures Mat3x4.New(r0, r1, r2).r0 == r0 && Mat3x4.New(r0, r1, r2).r1 == r1
    ensures Mat3x4.New(r0, r1, r2).r2 == r2
  {
  }

  /** Row view and column view agree: `v * m` is the combination of the columns weighted by the
      components of `v`. */
  lemma VecMulCombinesColumns(v: Vec4, m: Mat3x4)
    ensures VecMul(v, m)
         == m.Column(0).Mul(v.x).Add(m.Column(1).Mul(v.y)).Add(m.Column(2).Mul(v.z)).Add(m.LastColumn().Mul(v.w))
  {
    var r := m.Column(0).Mul(v.x).Add(m.Column(1).Mul(v.y)).Add(m.Column(2).Mul(v.z)).Add(m.LastColumn().Mul(v.w));
    assert r.x == v.Dot(m.r0);
    assert r.y == v.Dot(m.r1);
    assert r.z == v.Dot(m.r2);
  }

  /** The identity keeps `x`, `y` and `z` and drops `w`; its columns are the unit vectors. */
  lemma IdentityProperties(v: Vec4)
    ensures VecMul(v, Mat3x4.Identity()) == Vec3(v.x, v.y, v.z)
    ensures Mat3x4.Identity().Column(0) == Vec3(1.0, 0.0, 0.0)
    ensures Mat3x4.Identity().Column(1) == Vec3(0.0, 1.0, 0.0)
    ensures Mat3x4.Identity().Column(2) == Vec3(0.0, 0.0, 1.0)
  {
  }
}
