/** Complex numbers (`Complex<F>`), with the scalar `F` taken as `real`.  The source's fields
    `real` and `imag` are called `re` and `im` here, since `real` names Dafny's type. */
module Complexes {
  import opened VecD2
  import Reals

  /** A complex number `re + im·i`; a value that is copied on use. */
  datatype Complex = Complex(re: real, im: real) {

    static function New(re: real, im: real): Complex {
      Complex(re, im)
    }

    /** The denominator shared by both components of `reciprocal`: `re² + im²`. */
    function SquaredModulus(): real {
      re * re + im * im
    }

    /** `1 / z`; the source divides by the squared modulus, so zero has no reciprocal. */
    function Reciprocal(): Complex
      requires SquaredModulus() != 0.0
    {
      Complex(re / SquaredModulus(), -im / SquaredModulus())
    }

    function Conjugate(): Complex {
      Complex(re, -im)
    }

    /** The square, written out as `(re² - im², 2·re·im)`. */
    function Pow2(): Complex {
      Complex(re * re - im * im, 2.0 * re * im)
    }

    function Add(rhs: Complex): Complex {
      Complex(re + rhs.re, im + rhs.im)
    }

    function Sub(rhs: Complex): Complex {
      Complex(re - rhs.re, im - rhs.im)
    }

    /** Scalar multiplication (`Mul<F>`). */
    function Scale(rhs: real): Complex {
      Complex(re * rhs, im * rhs)
    }

    /** Complex multiplication (`Mul<Complex>`). */
    function Mul(rhs: Complex): Complex {
      Complex(re * rhs.re - im * rhs.im, re * rhs.im + im * rhs.re)
    }

    /** What the in-place `*=` computes: `re` is overwritten first and the new `re` then feeds `im`. */
    function SequentialMul(rhs: Complex): Complex {
      var re' := re * rhs.re - im * rhs.im;
      Complex(re', re' * rhs.im + im * rhs.re)
    }

    /** Scalar division (`Div<F>`). */
    function Div(rhs: real): Complex
      requires rhs != 0.0
    {
      Complex(re / rhs, im / rhs)
    }

    function Neg(): Complex {
      Complex(-re, -im)
    }

    /** `From<Vec2>`: `x` becomes the real part and `y` the imaginary part. */
    static function FromVec2(v: Vec2): Complex {
      Complex(v.x, v.y)
    }

    /** `From<Complex> for Vec2`: the real part becomes `x` and the imaginary part `y`. */
    function ToVec2(): Vec2 {
      Vec2(re, im)
    }
  }

  /** A `&mut Complex` place: the in-place operators overwrite `re` and then `im`. */
  class MutComplex {
    var re: real
    var im: real

    function Value(): Complex
      reads this
    {
      Complex(re, im)
    }

    constructor (z: Complex)
      ensures Value() == z
    {
      re, im := z.re, z.im;
    }

    method AddAssign(rhs: Complex)
      modifies this
      ensures Value() == old(Value()).Add(rhs)
    {
      re := re + rhs.re;
      im := im + rhs.im;
    }

    method SubAssign(rhs: Complex)
      modifies this
      ensures Value() == old(Value()).Sub(rhs)
    {
      re := re - rhs.re;
      im := im - rhs.im;
    }

    /** `*=` by a complex number as written: the second statement reads the `re` the first one wrote. */
    method MulAssign(rhs: Complex)
      modifies this
      ensures Value() == old(Value()).SequentialMul(rhs)
    {
      re := re * rhs.re - im * rhs.im;
      im := re * rhs.im + im * rhs.re;
    }

    /** `*=` by a complex number as evidently intended: both parts are computed from the old value. */
    method MulAssignIntended(rhs: Complex)
      modifies this
      ensures Value() == old(Value()).Mul(rhs)
    {
      var re0 := re;
      re := re0 * rhs.re - im * rhs.im;
      im := re0 * rhs.im + im * rhs.re;
    }

    /** `*=` by a scalar. */
    method ScaleAssign(rhs: real)
      modifies this
      ensures Value() == old(Value()).Scale(rhs)
    {
      re := re * rhs;
      im := im * rhs;
    }

    method DivAssign(rhs: real)
      requires rhs != 0.0
      modifies this
      ensures Value() == old(Value()).Div(rhs)
    {
      re := re / rhs;
      im := im / rhs;
    }
  }

  /** Squaring is multiplying by itself. */
  lemma Pow2IsSquare(z: Complex)
    ensures z.Pow2() == z.Mul(z)
  {
  }

  /** Multiplication commutes. */
  lemma MulCommutative(a: Complex, b: Complex)
    ensures a.Mul(b) == b.Mul(a)
  {
  }

  /** Conjugation is an involution, and `z * z̄` is the squared modulus on the real axis. */
  lemma ConjugateProperties(z: Complex)
    ensures z.Conjugate().Conjugate() == z
    ensures z.Mul(z.Conjugate()) == Complex(z.SquaredModulus(), 0.0)
  {
  }

  /** The squared modulus is never negative and vanishes only at zero. */
  lemma SquaredModulusSign(z: Complex)
    ensures z.SquaredModulus() >= 0.0
    ensures z.SquaredModulus() > 0.0 <==> z != Complex(0.0, 0.0)
  {
    Reals.SumOfSquaresSign(z.re, z.im, 0.0, 0.0, z.SquaredModulus());
  }

  /** The reciprocal is the conjugate divided by the squared modulus. */
  lemma ReciprocalIsConjugateOverModulus(z: Complex)
    requires z.SquaredModulus() != 0.0
    ensures z.Reciprocal() == z.Conjugate().Div(z.SquaredModulus())
  {
  }

  /** The reciprocal is a multiplicative inverse. */
  lemma ReciprocalIsInverse(z: Complex)
    requires z.SquaredModulus() != 0.0
    ensures z.Mul(z.Reciprocal()) == Complex(1.0, 0.0)
  {
    var d := z.SquaredModulus();
    var r := z.Reciprocal();
    calc {
      z.Mul(r).re;
      z.re * (z.re / d) - z.im * (-z.im / d);
      (z.re * z.re + z.im * z.im) / d;
      1.0;
    }
    calc {
      z.Mul(r).im;
      z.re * (-z.im / d) + z.im * (z.re / d);
      0.0;
    }
  }

  /** The in-place `*=` gets the real part right, and the imaginary part too whenever the
      right-hand side is real. */
  lemma SequentialMulAgreement(z: Complex, w: Complex)
    ensures z.SequentialMul(w).re == z.Mul(w).re
    ensures w.im == 0.0 ==> z.SequentialMul(w) == z.Mul(w)
  {
  }

  /** The in-place `*=` differs from `*` in general: `(1 + i)·(1 + i)` is `2i`, but `*=` leaves `i`. */
  lemma SequentialMulDiffers()
    ensures Complex(1.0, 1.0).Mul(Complex(1.0, 1.0)) == Complex(0.0, 2.0)
    ensures Complex(1.0, 1.0).SequentialMul(Complex(1.0, 1.0)) == Complex(0.0, 1.0)
  {
  }

  /** Converting to a `Vec2` and back is the identity, in both directions. */
  lemma ConversionRoundTrip(z: Complex, v: Vec2)
    ensures Complex.FromVec2(z.ToVec2()) == z
    ensures Complex.FromVec2(v).ToVec2() == v
    ensures Complex.FromVec2(v).re == v.x && Complex.FromVec2(v).im == v.y
  {
  }

  /** The componentwise operators: subtraction undoes addition, division undoes scaling and
      negation is an involution. */
  lemma ComponentwiseInverses(a: Complex, b: Complex, s: real)
    requires s != 0.0
    ensures a.Add(b).Sub(b) == a
    ensures a.Scale(s).Div(s) == a
    ensures a.Neg().Neg() == a
  {
    var m := a.Scale(s).Div(s);
    assert m.re == a.re && m.im == a.im;
  }
}
