/** Rigid transforms `QuatT<F>`: a rotation quaternion followed by a translation. */
module QuatTsl {
  import opened VecD3
  import opened QuatRot
  import QuatAlgebra

  /** A rotation `q` and a translation `t`. */
  datatype QuatT = QuatT(q: Quat, t: Vec3) {

    static function New(rotation: Quat, translation: Vec3): QuatT {
      QuatT(rotation, translation)
    }

    /** The identity transform: no rotation and no translation. */
    static function Identity(): QuatT {
      QuatT(Quat.Identity(), Vec3.Zero())
    }

    /** `apply`: rotate by `q`, then translate by `t`. */
    function Apply(p: Vec3): Vec3
      requires q.SqrtNorm() != 0.0
    {
      q.Rotate(p).Add(t)
    }
  }

  /** `new` keeps both parts as given. */
  lemma NewKeepsParts(rotation: Quat, translation: Vec3)
    ensures QuatT.New(rotation, translation).q == rotation
    ensures QuatT.New(rotation, translation).t == translation
  {
  }

  /** Without translation, applying is rotating. */
  lemma ApplyWithoutTranslation(tr: QuatT, p: Vec3)
    requires tr.q.SqrtNorm() != 0.0 && tr.t == Vec3.Zero()
    ensures tr.Apply(p) == tr.q.Rotate(p)
  {
  }

  /** The identity transform moves nothing.  (The transform is passed as a variable equal to
      `QuatT.Identity()` so that its components are not unfolded into the solver's arithmetic.) */
  lemma IdentityApply(id: QuatT, p: Vec3)
    requires id == QuatT.Identity()
    ensures id.q.SqrtNorm() != 0.0
    ensures id.Apply(p) == p
  {
    QuatAlgebra.RotateByIdentity(id.q, p);
  }

  /** A transform with a nonzero rotation keeps squared distances. */
  lemma ApplyPreservesDistance(tr: QuatT, a: Vec3, b: Vec3)
    requires tr.q.SqrtNorm() != 0.0
    ensures tr.Apply(a).Sub(tr.Apply(b)).SqrtMagnitude() == a.Sub(b).SqrtMagnitude()
  {
    var ra, rb := tr.q.Rotate(a), tr.q.Rotate(b);
    assert tr.Apply(a).Sub(tr.Apply(b)) == ra.Sub(rb);
    QuatAlgebra.RotateSub(tr.q, a, b);
    QuatAlgebra.RotatePreservesSqrtMagnitude(tr.q, a.Sub(b));
  }
}
