/** Two-dimensional Euclidean vectors (`Vec2<F>`), with the scalar `F` taken as `real`. */
module VecD2 {
  import Reals

  /** A 2D vector with X and Y components; a value that is copied on use. */
  datatype Vec2 = Vec2(x: real, y: real) {

    static function New(x: real, y: real): Vec2 {
      Vec2(x, y)
    }

    /** The components as a pair. */
    function Split(): (real, real) {
      (x, y)
    }

    /** The vector whose components are the pair's. */
    static function Combine(xy: (real, real)): Vec2 {
      Vec2(xy.0, xy.1)
    }

    /** The projections on the basis vectors `i` and `j`. */
    function IntoBasis(): (Vec2, Vec2) {
      (Vec2(x, 0.0), Vec2(0.0, y))
    }

    function Dot(other: Vec2): real {
      x * other.x + y * other.y
    }

    /** The squared length (the source's `sqrt_magnitude`). */
    function SqrtMagnitude(): real {
      x * x + y * y
    }

    /** Interpolation with the parameter reversed: `t == 0` gives `other`, `t == 1` gives `this`. */
    function Lerp(other: Vec2, t: real): Vec2 {
      Add(other.Sub(this).Mul(1.0 - t))
    }

    function Add(rhs: Vec2): Vec2 {
      Vec2(x + rhs.x, y + rhs.y)
    }

    function Sub(rhs: Vec2): Vec2 {
      Vec2(x - rhs.x, y - rhs.y)
    }

    /** Scalar multiplication (`Mul<F>`). */
    function Mul(rhs: real): Vec2 {
      Vec2(x * rhs, y * rhs)
    }

    /** Scalar division (`Div<F>`); a zero divisor gives IEEE infinities in the source. */
    function Div(rhs: real): Vec2
      requires rhs != 0.0
    {
      Vec2(x / rhs, y / rhs)
    }

    function Neg(): Vec2 {
      Vec2(-x, -y)
    }
  }

  /** A `&mut Vec2` place: the in-place operations overwrite its fields one after the other. */
  class MutVec2 {
    var x: real
    var y: real

    function Value(): Vec2
      reads this
    {
      Vec2(x, y)
    }

    constructor (v: Vec2)
      ensures Value() == v
    {
      x, y := v.x, v.y;
    }

    /** `scale`: agrees with `v * factor`. */
    method Scale(factor: real)
      modifies this
      ensures Value() == old(Value()).Mul(factor)
    {
      x := x * factor;
      y := y * factor;
    }

    method AddAssign(rhs: Vec2)
      modifies this
      ensures Value() == old(Value()).Add(rhs)
    {
      x := x + rhs.x;
      y := y + rhs.y;
    }

    method SubAssign(rhs: Vec2)
      modifies this
      ensures Value() == old(Value()).Sub(rhs)
    {
      x := x - rhs.x;
      y := y - rhs.y;
    }

    method MulAssign(rhs: real)
      modifies this
      ensures Value() == old(Value()).Mul(rhs)
    {
      x := x * rhs;
      y := y * rhs;
    }

    method DivAssign(rhs: real)
      requires rhs != 0.0
      modifies this
      ensures Value() == old(Value()).Div(rhs)
    {
      x := x / rhs;
      y := y / rhs;
    }
  }

  /** The reversed interpolation hits `b` at 0 and `a` at 1. */
  lemma LerpEndpoints(a: Vec2, b: Vec2)
    ensures a.Lerp(b, 0.0) == b
    ensures a.Lerp(b, 1.0) == a
  {
  }

  /** Interpolation at one half is the midpoint, whichever way the parameter runs. */
  lemma LerpMidpoint(a: Vec2, b: Vec2)
    ensures a.Lerp(b, 0.5) == Vec2((a.x + b.x) / 2.0, (a.y + b.y) / 2.0)
    ensures Vec2(1.0, 1.0).Lerp(Vec2(2.0, 2.0), 0.5) == Vec2(1.5, 1.5)
  {
  }

  lemma SplitCombineRoundTrip(v: Vec2, t: (real, real))
    ensures Vec2.Combine(v.Split()) == v
    ensures Vec2.Combine(t).Split() == t
  {
  }

  /** The basis parts add back up to the vector and each lies on its own axis. */
  lemma IntoBasisSums(v: Vec2)
    ensures v.IntoBasis().0.Add(v.IntoBasis().1) == v
    ensures v.IntoBasis().0.y == 0.0 && v.IntoBasis().1.x == 0.0
  {
  }

  lemma DotSymmetric(a: Vec2, b: Vec2)
    ensures a.Dot(b) == b.Dot(a)
  {
  }

  /** The squared length is the vector's dot product with itself; it is never negative and
      is positive unless the vector is zero. */
  lemma SqrtMagnitudeIsSelfDot(v: Vec2)
    ensures v.SqrtMagnitude() == v.Dot(v)
    ensures v.SqrtMagnitude() >= 0.0
    ensures v.SqrtMagnitude() > 0.0 <==> v.x != 0.0 || v.y != 0.0
  {
    Reals.SumOfSquaresSign(v.x, v.y, 0.0, 0.0, v.SqrtMagnitude());
  }

  /** Subtraction is undone by addition, and negation is an involution. */
  lemma SubAddCancel(a: Vec2, b: Vec2)
    ensures a.Sub(b).Add(b) == a
    ensures a.Neg().Neg() == a
  {
  }

  /** Division by a nonzero scalar undoes multiplication by it. */
  lemma MulDivCancel(a: Vec2, s: real)
    requires s != 0.0
    ensures a.Mul(s).Div(s) == a
  {
    var m := a.Mul(s).Div(s);
    assert m.x == a.x && m.y == a.y;
  }
}
