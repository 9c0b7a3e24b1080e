/** The algebraic laws of the Hamilton product, the reciprocal and the rotation `q * p * q⁻¹`. */
module QuatAlgebra {
  import opened VecD3
  import opened QuatRot
  import Hamilton
  import Reals

  /** The components of a Hamilton product, one unfolding of its definition. */
  lemma ProductParts(a: Quat, b: Quat)
    ensures a.Product(b).v.x == (a.w * b.v.x + a.v.x * b.w + a.v.y * b.v.z - a.v.z * b.v.y)
    ensures a.Product(b).v.y == (a.w * b.v.y - a.v.x * b.v.z + a.v.y * b.w + a.v.z * b.v.x)
    ensures a.Product(b).v.z == (a.w * b.v.z + a.v.x * b.v.y - a.v.y * b.v.x + a.v.z * b.w)
    ensures a.Product(b).w == (a.w * b.w - a.v.x * b.v.x - a.v.y * b.v.y - a.v.z * b.v.z)
  {
  }

  /** The components of a scaled quaternion. */
  lemma MulParts(q: Quat, k: real)
    ensures q.Mul(k).v.x == q.v.x * k && q.Mul(k).v.y == q.v.y * k
    ensures q.Mul(k).v.z == q.v.z * k && q.Mul(k).w == q.w * k
  {
  }

  /** The squared norm as the sum of the four squared components. */
  lemma SqrtNormParts(q: Quat)
    ensures q.SqrtNorm() == q.v.x * q.v.x + q.v.y * q.v.y + q.v.z * q.v.z + q.w * q.w
  {
  }

  /** The squared norm is never negative and vanishes exactly at the zero quaternion. */
  lemma SqrtNormSign(q: Quat)
    ensures q.SqrtNorm() >= 0.0
    ensures q != Quat.Zero() <==> q.SqrtNorm() > 0.0
  {
    SqrtNormParts(q);
    Reals.SumOfSquaresSign(q.v.x, q.v.y, q.v.z, q.w, q.SqrtNorm());
  }

  /** The identity quaternion is a two-sided unit of the Hamilton product. */
  lemma ProductIdentity(q: Quat)
    ensures Quat.Identity().Product(q) == q
    ensures q.Product(Quat.Identity()) == q
  {
    ProductParts(Quat.Identity(), q);
    ProductParts(q, Quat.Identity());
  }

  /** i * j == k */
  lemma ProductIJ()
    ensures Quat.FromParts(1.0, 0.0, 0.0, 0.0).Product(Quat.FromParts(0.0, 1.0, 0.0, 0.0))
         == Quat.FromParts(0.0, 0.0, 1.0, 0.0)
  {
    ProductParts(Quat.FromParts(1.0, 0.0, 0.0, 0.0), Quat.FromParts(0.0, 1.0, 0.0, 0.0));
  }

  /** j * i == -k */
  lemma ProductJI()
    ensures Quat.FromParts(0.0, 1.0, 0.0, 0.0).Product(Quat.FromParts(1.0, 0.0, 0.0, 0.0))
         == Quat.FromParts(0.0, 0.0, -1.0, 0.0)
  {
    ProductParts(Quat.FromParts(0.0, 1.0, 0.0, 0.0), Quat.FromParts(1.0, 0.0, 0.0, 0.0));
  }

  /** The Hamilton product does not commute: i * j == k but j * i == -k. */
  lemma ProductNotCommutative()
    ensures Quat.FromParts(1.0, 0.0, 0.0, 0.0).Product(Quat.FromParts(0.0, 1.0, 0.0, 0.0))
         != Quat.FromParts(0.0, 1.0, 0.0, 0.0).Product(Quat.FromParts(1.0, 0.0, 0.0, 0.0))
  {
    ProductIJ();
    ProductJI();
  }

  lemma ProductAssociative(a: Quat, b: Quat, c: Quat)
    ensures a.Product(b).Product(c) == a.Product(b.Product(c))
  {
    var ab, bc := a.Product(b), b.Product(c);
    ProductParts(a, b);
    ProductParts(b, c);
    Hamilton.Associative(a.v.x, a.v.y, a.v.z, a.w, b.v.x, b.v.y, b.v.z, b.w, c.v.x, c.v.y, c.v.z, c.w,
                         ab.v.x, ab.v.y, ab.v.z, ab.w, bc.v.x, bc.v.y, bc.v.z, bc.w);
  }

  /** Scaling the right factor scales the product. */
  lemma ProductScalesRight(a: Quat, b: Quat, k: real)
    ensures a.Product(b.Mul(k)) == a.Product(b).Mul(k)
  {
    var bk, ab := b.Mul(k), a.Product(b);
    ProductParts(a, b);
    ProductParts(a, bk);
    MulParts(b, k);
    MulParts(ab, k);
    Hamilton.ScalesRight(a.v.x, a.v.y, a.v.z, a.w, b.v.x, b.v.y, b.v.z, b.w,
                         bk.v.x, bk.v.y, bk.v.z, bk.w, ab.v.x, ab.v.y, ab.v.z, ab.w, k);
  }

  /** Scaling the left factor scales the product. */
  lemma ProductScalesLeft(a: Quat, b: Quat, k: real)
    ensures a.Mul(k).Product(b) == a.Product(b).Mul(k)
  {
    var ak, ab := a.Mul(k), a.Product(b);
    ProductParts(a, b);
    ProductParts(ak, b);
    MulParts(a, k);
    MulParts(ab, k);
    Hamilton.ScalesLeft(a.v.x, a.v.y, a.v.z, a.w, b.v.x, b.v.y, b.v.z, b.w,
                        ak.v.x, ak.v.y, ak.v.z, ak.w, ab.v.x, ab.v.y, ab.v.z, ab.w, k);
  }

  /** Conjugation is an involution that keeps the scalar part and the squared norm. */
  lemma ConjugateProperties(q: Quat)
    ensures q.Conjugate().Conjugate() == q
    ensures q.Conjugate().w == q.w
    ensures q.Conjugate().v == q.v.Neg()
    ensures q.Conjugate().SqrtNorm() == q.SqrtNorm()
  {
  }

  /** The components of a conjugate. */
  lemma ConjugateParts(q: Quat)
    ensures q.Conjugate().v.x == -q.v.x && q.Conjugate().v.y == -q.v.y
    ensures q.Conjugate().v.z == -q.v.z && q.Conjugate().w == q.w
  {
  }

  /** Conjugation reverses products. */
  lemma ConjugateOfProduct(a: Quat, b: Quat)
    ensures a.Product(b).Conjugate() == b.Conjugate().Product(a.Conjugate())
  {
    var ca, cb, ab := a.Conjugate(), b.Conjugate(), a.Product(b);
    var l, r := ab.Conjugate(), cb.Product(ca);
    ProductParts(a, b);
    ProductParts(cb, ca);
    ConjugateParts(a);
    ConjugateParts(b);
    ConjugateParts(ab);
    Hamilton.ConjugateOfProduct(a.v.x, a.v.y, a.v.z, a.w, b.v.x, b.v.y, b.v.z, b.w,
                                ca.v.x, ca.v.y, ca.v.z, ca.w, cb.v.x, cb.v.y, cb.v.z, cb.w,
                                ab.v.x, ab.v.y, ab.v.z, ab.w);
    assert l.v == r.v;
  }

  /** `q * q̄` (and `q̄ * q`) has no vector part and the squared norm as its scalar part. */
  lemma ProductWithConjugate(q: Quat)
    ensures q.Product(q.Conjugate()) == Quat(Vec3.Zero(), q.SqrtNorm())
    ensures q.Conjugate().Product(q) == Quat(Vec3.Zero(), q.SqrtNorm())
  {
    ProductParts(q, q.Conjugate());
    ProductParts(q.Conjugate(), q);
  }

  /** Division by a nonzero scalar is multiplication by its inverse. */
  lemma DivIsMulInverse(q: Quat, s: real)
    requires s != 0.0
    ensures q.Div(s) == q.Mul(1.0 / s)
  {
    var l, r := q.Div(s), q.Mul(1.0 / s);
    assert l.v.x == r.v.x && l.v.y == r.v.y && l.v.z == r.v.z && l.w == r.w;
  }

  /** Scaling by `k` scales the squared norm by `k * k`. */
  lemma SqrtNormScales(q: Quat, k: real)
    ensures q.Mul(k).SqrtNorm() == k * k * q.SqrtNorm()
  {
    var qk := q.Mul(k);
    MulParts(q, k);
    SqrtNormParts(q);
    SqrtNormParts(qk);
    Hamilton.NormScales(q.v.x, q.v.y, q.v.z, q.w, qk.v.x, qk.v.y, qk.v.z, qk.w, k);
  }

  /** The reciprocal is a two-sided inverse. */
  lemma ReciprocalIsInverse(q: Quat)
    requires q.SqrtNorm() != 0.0
    ensures q.Product(q.Reciprocal()) == Quat.Identity()
    ensures q.Reciprocal().Product(q) == Quat.Identity()
  {
    var n := q.SqrtNorm();
    DivIsMulInverse(q.Conjugate(), n);
    ProductScalesRight(q, q.Conjugate(), 1.0 / n);
    ProductScalesLeft(q.Conjugate(), q, 1.0 / n);
    ProductWithConjugate(q);
  }

  /** The reciprocal's squared norm is the inverse of the quaternion's. */
  lemma ReciprocalSqrtNorm(q: Quat)
    requires q.SqrtNorm() != 0.0
    ensures q.Reciprocal().SqrtNorm() == 1.0 / q.SqrtNorm()
  {
    var n := q.SqrtNorm();
    DivIsMulInverse(q.Conjugate(), n);
    SqrtNormScales(q.Conjugate(), 1.0 / n);
    assert (1.0 / n) * (1.0 / n) * n == 1.0 / n;
  }

  /** The squared norm is multiplicative. */
  lemma SqrtNormMultiplicative(a: Quat, b: Quat)
    ensures a.Product(b).SqrtNorm() == a.SqrtNorm() * b.SqrtNorm()
  {
    var ab := a.Product(b);
    ProductParts(a, b);
    Hamilton.NormMultiplicative(a.v.x, a.v.y, a.v.z, a.w, b.v.x, b.v.y, b.v.z, b.w,
                                ab.v.x, ab.v.y, ab.v.z, ab.w);
  }

  /** The reciprocal is the conjugate scaled by the inverse squared norm. */
  lemma ReciprocalAsScaling(q: Quat)
    requires q.SqrtNorm() != 0.0
    ensures q.Reciprocal() == q.Conjugate().Mul(1.0 / q.SqrtNorm())
  {
    DivIsMulInverse(q.Conjugate(), q.SqrtNorm());
  }

  /** The product of two reciprocals, with both scalings pulled out of the product. */
  lemma ReciprocalsProduct(a: Quat, b: Quat)
    requires a.SqrtNorm() != 0.0 && b.SqrtNorm() != 0.0
    ensures b.Reciprocal().Product(a.Reciprocal())
         == b.Conjugate().Product(a.Conjugate()).Mul(1.0 / a.SqrtNorm()).Mul(1.0 / b.SqrtNorm())
  {
    var ka, kb := 1.0 / a.SqrtNorm(), 1.0 / b.SqrtNorm();
    var ca, cb := a.Conjugate(), b.Conjugate();
    calc {
      b.Reciprocal().Product(a.Reciprocal());
      { ReciprocalAsScaling(a); ReciprocalAsScaling(b); }
      cb.Mul(kb).Product(ca.Mul(ka));
      { ProductScalesLeft(cb, ca.Mul(ka), kb); }
      cb.Product(ca.Mul(ka)).Mul(kb);
      { ProductScalesRight(cb, ca, ka); }
      cb.Product(ca).Mul(ka).Mul(kb);
    }
  }

  /** The reciprocal of a product is the product of the reciprocals in reverse order. */
  lemma ReciprocalOfProduct(a: Quat, b: Quat)
    requires a.SqrtNorm() != 0.0 && b.SqrtNorm() != 0.0
    ensures a.Product(b).SqrtNorm() != 0.0
    ensures a.Product(b).Reciprocal() == b.Reciprocal().Product(a.Reciprocal())
  {
    var na, nb := a.SqrtNorm(), b.SqrtNorm();
    var c := b.Conjugate().Product(a.Conjugate());
    SqrtNormMultiplicative(a, b);
    Reals.InverseOfProduct(na, nb);
    calc {
      b.Reciprocal().Product(a.Reciprocal());
      { ReciprocalsProduct(a, b); }
      c.Mul(1.0 / na).Mul(1.0 / nb);
      { MulMul(c, 1.0 / na, 1.0 / nb); }
      c.Mul(1.0 / (na * nb));
      { ConjugateOfProduct(a, b); }
      a.Product(b).Conjugate().Mul(1.0 / a.Product(b).SqrtNorm());
      { ReciprocalAsScaling(a.Product(b)); }
      a.Product(b).Reciprocal();
    }
  }

  /** Scaling twice is scaling by the product. */
  lemma MulMul(q: Quat, s: real, t: real)
    ensures q.Mul(s).Mul(t) == q.Mul(s * t)
  {
    MulParts(q, s);
    MulParts(q.Mul(s), t);
    MulParts(q, s * t);
  }

  /** `q * (p, 0) * q̄` has no scalar part. */
  lemma SandwichByConjugateIsPure(q: Quat, p: Vec3)
    ensures q.Product(Quat.NewVector(p)).Product(q.Conjugate()).w == 0.0
  {
    var qp, cq := q.Product(Quat.NewVector(p)), q.Conjugate();
    ProductParts(q, Quat.NewVector(p));
    ProductParts(qp, cq);
    Hamilton.SandwichPure(q.v.x, q.v.y, q.v.z, q.w, qp.v.x, qp.v.y, qp.v.z, qp.w,
                          cq.v.x, cq.v.y, cq.v.z, cq.w, p.x, p.y, p.z);
  }

  /** Conjugating a pure quaternion by `q` gives a pure quaternion: the vector part is all of it. */
  lemma RotateIsPure(q: Quat, p: Vec3)
    requires q.SqrtNorm() != 0.0
    ensures q.Product(Quat.NewVector(p)).Product(q.Reciprocal()) == Quat.NewVector(q.Rotate(p))
  {
    var qp, k := q.Product(Quat.NewVector(p)), 1.0 / q.SqrtNorm();
    var r := qp.Product(q.Reciprocal());
    assert r == qp.Product(q.Conjugate()).Mul(k) by {
      ReciprocalAsScaling(q);
      ProductScalesRight(qp, q.Conjugate(), k);
    }
    SandwichByConjugateIsPure(q, p);
    MulParts(qp.Product(q.Conjugate()), k);
  }

  /** The identity has unit squared norm. */
  lemma IdentitySqrtNorm(id: Quat)
    requires id == Quat.Identity()
    ensures id.SqrtNorm() == 1.0
  {
    assert id.v.SqrtMagnitude() == 0.0;
  }

  /** The identity multiplies `r` into the identity exactly when `r` is the identity.  (The
      identity is passed as a variable, as in `ReciprocalOfIdentity`.) */
  lemma IdentityIsUniqueUnit(id: Quat, r: Quat)
    requires id == Quat.Identity()
    ensures id.Product(r) == id <==> r == id
  {
    ProductIdentity(r);
  }

  /** The identity is its own reciprocal.  (The identity is passed as a variable so that its
      components are not unfolded into the solver's arithmetic.) */
  lemma ReciprocalOfIdentity(id: Quat)
    requires id == Quat.Identity()
    ensures id.SqrtNorm() == 1.0
    ensures id.Reciprocal() == id
  {
    IdentitySqrtNorm(id);
    ReciprocalIsInverse(id);
    IdentityIsUniqueUnit(id, id.Reciprocal());
  }

  /** Rotating by the identity changes nothing.  (The identity is passed as a variable, as in
      `ReciprocalOfIdentity`.) */
  lemma RotateByIdentity(id: Quat, p: Vec3)
    requires id == Quat.Identity()
    ensures id.SqrtNorm() != 0.0
    ensures id.Rotate(p) == p
  {
    ReciprocalOfIdentity(id);
    ProductIdentity(Quat.NewVector(p));
  }

  /** Rotation by any nonzero quaternion preserves the squared length. */
  lemma RotatePreservesSqrtMagnitude(q: Quat, p: Vec3)
    requires q.SqrtNorm() != 0.0
    ensures q.Rotate(p).SqrtMagnitude() == p.SqrtMagnitude()
  {
    var n := q.SqrtNorm();
    var r := q.Product(Quat.NewVector(p)).Product(q.Reciprocal());
    RotateIsPure(q, p);
    SqrtNormMultiplicative(q, Quat.NewVector(p));
    SqrtNormMultiplicative(q.Product(Quat.NewVector(p)), q.Reciprocal());
    ReciprocalSqrtNorm(q);
    assert r.SqrtNorm() == n * p.SqrtMagnitude() * (1.0 / n);
  }

  /** `a.Combine(b)` rotates by `a` first and then by `b`. */
  lemma CombineRotates(a: Quat, b: Quat, p: Vec3)
    requires a.SqrtNorm() != 0.0 && b.SqrtNorm() != 0.0
    ensures a.Combine(b).SqrtNorm() != 0.0
    ensures a.Combine(b).Rotate(p) == b.Rotate(a.Rotate(p))
  {
    var P := Quat.NewVector(p);
    ReciprocalOfProduct(b, a);
    calc {
      b.Product(a).Product(P).Product(b.Product(a).Reciprocal());
      { ProductAssociative(b, a, P); }
      b.Product(a.Product(P)).Product(a.Reciprocal().Product(b.Reciprocal()));
      { ProductAssociative(b.Product(a.Product(P)), a.Reciprocal(), b.Reciprocal()); }
      b.Product(a.Product(P)).Product(a.Reciprocal()).Product(b.Reciprocal());
      { ProductAssociative(b, a.Product(P), a.Reciprocal()); }
      b.Product(a.Product(P).Product(a.Reciprocal())).Product(b.Reciprocal());
      { RotateIsPure(a, p); }
      b.Product(Quat.NewVector(a.Rotate(p))).Product(b.Reciprocal());
    }
  }

  /** Rotating by the reciprocal undoes a rotation. */
  lemma RotateByReciprocalUndoes(q: Quat, p: Vec3)
    requires q.SqrtNorm() != 0.0
    ensures q.Reciprocal().SqrtNorm() != 0.0
    ensures q.Reciprocal().Rotate(q.Rotate(p)) == p
  {
    ReciprocalSqrtNorm(q);
    CombineRotates(q, q.Reciprocal(), p);
    ReciprocalIsInverse(q);
    RotateByIdentity(Quat.Identity(), p);
  }

  /** For a unit quaternion the reciprocal is the conjugate. */
  lemma ReciprocalOfUnitIsConjugate(q: Quat)
    requires q.SqrtNorm() == 1.0
    ensures q.Reciprocal() == q.Conjugate()
  {
    ReciprocalAsScaling(q);
    MulParts(q.Conjugate(), 1.0);
  }

  /** The reciprocal of the reciprocal is the quaternion itself. */
  lemma ReciprocalInvolution(q: Quat)
    requires q.SqrtNorm() != 0.0
    ensures q.Reciprocal().SqrtNorm() != 0.0
    ensures q.Reciprocal().Reciprocal() == q
  {
    ReciprocalSqrtNorm(q);
    var r := q.Reciprocal();
    var rr := r.Reciprocal();
    calc {
      rr;
      { ProductIdentity(rr); }
      Quat.Identity().Product(rr);
      { ReciprocalIsInverse(q); }
      q.Product(r).Product(rr);
      { ProductAssociative(q, r, rr); }
      q.Product(r.Product(rr));
      { ReciprocalIsInverse(r); }
      q.Product(Quat.Identity());
      { ProductIdentity(q); }
      q;
    }
  }

  /** A unit quaternion's rotation and its conjugate's rotation undo each other, in both orders. */
  lemma UnitConjugateRoundTrip(q: Quat, p: Vec3)
    requires q.SqrtNorm() == 1.0
    ensures q.Conjugate().SqrtNorm() != 0.0
    ensures q.Rotate(q.Conjugate().Rotate(p)) == p
    ensures q.Conjugate().Rotate(q.Rotate(p)) == p
  {
    ReciprocalOfUnitIsConjugate(q);
    ReciprocalInvolution(q);
    RotateByReciprocalUndoes(q, p);
    RotateByReciprocalUndoes(q.Reciprocal(), p);
  }

  /** The components of a difference. */
  lemma SubParts(a: Quat, b: Quat)
    ensures a.Sub(b).v.x == a.v.x - b.v.x && a.Sub(b).v.y == a.v.y - b.v.y
    ensures a.Sub(b).v.z == a.v.z - b.v.z && a.Sub(b).w == a.w - b.w
  {
  }

  /** The product distributes over a difference in its right factor. */
  lemma ProductSubRight(p: Quat, q: Quat, r: Quat)
    ensures p.Product(q.Sub(r)) == p.Product(q).Sub(p.Product(r))
  {
    var s, m, n := q.Sub(r), p.Product(q), p.Product(r);
    SubParts(q, r);
    SubParts(m, n);
    ProductParts(p, q);
    ProductParts(p, r);
    ProductParts(p, s);
    Hamilton.SubRight(p.v.x, p.v.y, p.v.z, p.w, q.v.x, q.v.y, q.v.z, q.w, r.v.x, r.v.y, r.v.z, r.w,
                      s.v.x, s.v.y, s.v.z, s.w, m.v.x, m.v.y, m.v.z, m.w, n.v.x, n.v.y, n.v.z, n.w);
  }

  /** The product distributes over a difference in its left factor. */
  lemma ProductSubLeft(p: Quat, q: Quat, r: Quat)
    ensures p.Sub(q).Product(r) == p.Product(r).Sub(q.Product(r))
  {
    var s, m, n := p.Sub(q), p.Product(r), q.Product(r);
    SubParts(p, q);
    SubParts(m, n);
    ProductParts(p, r);
    ProductParts(q, r);
    ProductParts(s, r);
    Hamilton.SubLeft(p.v.x, p.v.y, p.v.z, p.w, q.v.x, q.v.y, q.v.z, q.w, r.v.x, r.v.y, r.v.z, r.w,
                     s.v.x, s.v.y, s.v.z, s.w, m.v.x, m.v.y, m.v.z, m.w, n.v.x, n.v.y, n.v.z, n.w);
  }

  /** Rotation is linear: it maps the difference of two points to the difference of their images. */
  lemma RotateSub(q: Quat, a: Vec3, b: Vec3)
    requires q.SqrtNorm() != 0.0
    ensures q.Rotate(a).Sub(q.Rotate(b)) == q.Rotate(a.Sub(b))
  {
    var A, B, r := Quat.NewVector(a), Quat.NewVector(b), q.Reciprocal();
    assert A.Sub(B) == Quat.NewVector(a.Sub(b));
    calc {
      q.Product(Quat.NewVector(a.Sub(b))).Product(r);
      { ProductSubRight(q, A, B); }
      q.Product(A).Sub(q.Product(B)).Product(r);
      { ProductSubLeft(q.Product(A), q.Product(B), r); }
      q.Product(A).Product(r).Sub(q.Product(B).Product(r));
    }
  }

  /** The componentwise operators: subtraction undoes addition and division undoes scaling. */
  lemma ComponentwiseInverses(a: Quat, b: Quat, s: real)
    requires s != 0.0
    ensures a.Add(b).Sub(b) == a
    ensures a.Mul(s).Div(s) == a
  {
    var m := a.Mul(s).Div(s);
    assert m.v.x == a.v.x && m.v.y == a.v.y && m.v.z == a.v.z && m.w == a.w;
  }
}
