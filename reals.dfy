/** Facts about the ordered field of reals that the nonlinear solver does not find unaided. */
module Reals {

  /** A square, kept behind a function so that facts about its sign stay attached to it. */
  function Square(a: real): real {
    a * a
  }

  /** A square is never negative, and positive unless its base is zero. */
  lemma SquareSign(a: real)
    ensures Square(a) >= 0.0
    ensures a != 0.0 ==> Square(a) > 0.0
  {
    if a > 0.0 {
      calc {
        Square(a);
        a * a;
      >
        0.0;
      }
    } else if a < 0.0 {
      calc {
        Square(a);
        (-a) * (-a);
      >
        0.0;
      }
    }
  }

  /** A sum of up to four squares is never negative, and positive as soon as one base is nonzero. */
  lemma SumOfSquaresSign(a: real, b: real, c: real, d: real, s: real)
    requires s == a * a + b * b + c * c + d * d
    ensures s >= 0.0
    ensures s > 0.0 <==> a != 0.0 || b != 0.0 || c != 0.0 || d != 0.0
  {
    SquareSign(a);
    SquareSign(b);
    SquareSign(c);
    SquareSign(d);
    assert s == Square(a) + Square(b) + Square(c) + Square(d);
  }

  /** The inverse of a product is the product of the inverses. */
  lemma InverseOfProduct(a: real, b: real)
    requires a != 0.0 && b != 0.0
    ensures a * b != 0.0
    ensures (1.0 / a) * (1.0 / b) == 1.0 / (a * b)
  {
  }
}
