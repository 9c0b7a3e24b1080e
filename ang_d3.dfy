/** Rotation angles `Ang3<F>` in the right-handed frame with `+X` forward, `-Y` right and `+Z` top.

    The axis-angle quaternion `Quat::new_axis_rotation` is trigonometric, so it is not part of
    this model: `IntoRotation` takes it as the parameter `axisRotation`, and every statement here
    holds whatever that function is. */
module AngD3 {
  import opened VecD3
  import opened QuatRot
  import QuatAlgebra

  /** Yaw about `+Z`, pitch about `-Y` and roll about `+X`. */
  datatype Ang3 = Ang3(yaw: real, pitch: real, roll: real) {

    static function New(yaw: real, pitch: real, roll: real): Ang3 {
      Ang3(yaw, pitch, roll)
    }

    /** `From<Vec3>`: `x` is the yaw, `y` the pitch and `z` the roll. */
    static function FromVec3(v: Vec3): Ang3 {
      Ang3(v.x, v.y, v.z)
    }

    /** `into_rotation`: the yaw rotation combined with the pitch rotation, combined with the roll
        rotation. */
    function IntoRotation(axisRotation: (Vec3, real) -> Quat): Quat {
      axisRotation(Vec3.Yaw(), yaw)
        .Combine(axisRotation(Vec3.Pitch(), pitch))
        .Combine(axisRotation(Vec3.Roll(), roll))
    }
  }

  /** `From<Vec3>` maps `x`, `y`, `z` to yaw, pitch, roll, and nothing is lost. */
  lemma FromVec3Fields(v: Vec3)
    ensures Ang3.FromVec3(v).yaw == v.x && Ang3.FromVec3(v).pitch == v.y && Ang3.FromVec3(v).roll == v.z
    ensures Ang3.FromVec3(v) == Ang3.New(v.x, v.y, v.z)
  {
  }

  /** The rotation is the product `roll * (pitch * yaw)`, about the axes `(0,0,1)` for yaw,
      `(0,-1,0)` for pitch and `(1,0,0)` for roll. */
  lemma IntoRotationIsProduct(a: Ang3, axisRotation: (Vec3, real) -> Quat)
    ensures a.IntoRotation(axisRotation)
         == axisRotation(Vec3(1.0, 0.0, 0.0), a.roll).Product(
              axisRotation(Vec3(0.0, -1.0, 0.0), a.pitch).Product(axisRotation(Vec3(0.0, 0.0, 1.0), a.yaw)))
  {
  }

  /** So yaw is applied first, then pitch, then roll. */
  lemma IntoRotationOrder(a: Ang3, axisRotation: (Vec3, real) -> Quat, p: Vec3)
    requires axisRotation(Vec3.Yaw(), a.yaw).SqrtNorm() != 0.0
    requires axisRotation(Vec3.Pitch(), a.pitch).SqrtNorm() != 0.0
    requires axisRotation(Vec3.Roll(), a.roll).SqrtNorm() != 0.0
    ensures a.IntoRotation(axisRotation).SqrtNorm() != 0.0
    ensures a.IntoRotation(axisRotation).Rotate(p)
         == axisRotation(Vec3.Roll(), a.roll).Rotate(
              axisRotation(Vec3.Pitch(), a.pitch).Rotate(axisRotation(Vec3.Yaw(), a.yaw).Rotate(p)))
  {
    var ry := axisRotation(Vec3.Yaw(), a.yaw);
    var rp := axisRotation(Vec3.Pitch(), a.pitch);
    var rr := axisRotation(Vec3.Roll(), a.roll);
    QuatAlgebra.CombineRotates(ry, rp, p);
    QuatAlgebra.CombineRotates(ry.Combine(rp), rr, p);
  }

  /** If all three axis rotations are the identity, so is the combined rotation. */
  lemma IntoRotationOfIdentities(a: Ang3, axisRotation: (Vec3, real) -> Quat)
    requires axisRotation(Vec3.Yaw(), a.yaw) == Quat.Identity()
    requires axisRotation(Vec3.Pitch(), a.pitch) == Quat.Identity()
    requires axisRotation(Vec3.Roll(), a.roll) == Quat.Identity()
    ensures a.IntoRotation(axisRotation) == Quat.Identity()
  {
    QuatAlgebra.ProductIdentity(Quat.Identity());
  }
}
