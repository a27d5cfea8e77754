/** Named products of reals, so that proofs speak of them and not of raw nonlinear terms. */
module RealArithmetic {

  function Times(a: real, b: real): real { a * b }

  function Square(r: real): real { r * r }

  lemma ProductNonZero(a: real, b: real)
    requires a != 0.0 && b != 0.0
    ensures Times(a, b) != 0.0
  {
  }

  lemma SquareSign(e: real)
    ensures Square(e) >= 0.0 && (Square(e) == 0.0 <==> e == 0.0)
  {
    if e != 0.0 { ProductNonZero(e, e); }
  }
}
