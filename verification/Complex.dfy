/** Complex numbers over the reals, as far as a filter's response needs them. */
module ComplexNumbers {
  import opened Reals

  datatype Complex = Complex(re: real, im: real)

  function Real(x: real): Complex { Complex(x, 0.0) }

  function Add(a: Complex, b: Complex): Complex { Complex(a.re + b.re, a.im + b.im) }

  function Mul(a: Complex, b: Complex): Complex { Complex(a.re * b.re - a.im * b.im, a.re * b.im + a.im * b.re) }

  /** The squared magnitude. */
  function Norm2(a: Complex): real { a.re * a.re + a.im * a.im }

  predicate NonZero(a: Complex) { Norm2(a) != 0.0 }

  function Div(a: Complex, b: Complex): Complex
    requires NonZero(b)
  {
    Complex(Quotient(a.re * b.re + a.im * b.im, Norm2(b)), Quotient(a.im * b.re - a.re * b.im, Norm2(b)))
  }

  lemma QuotientBack(x: real, y: real)
    requires y != 0.0
    ensures Times(Quotient(x, y), y) == x
  {
  }

  lemma MulComm(a: Complex, b: Complex)
    ensures Mul(a, b) == Mul(b, a)
  {
  }

  lemma MulAssoc(a: Complex, b: Complex, c: Complex)
    ensures Mul(Mul(a, b), c) == Mul(a, Mul(b, c))
  {
    assert (a.re * b.re - a.im * b.im) * c.re - (a.re * b.im + a.im * b.re) * c.im
        == a.re * (b.re * c.re - b.im * c.im) - a.im * (b.re * c.im + b.im * c.re);
  }

  lemma AddMul(a: Complex, b: Complex, c: Complex)
    ensures Mul(Add(a, b), c) == Add(Mul(a, c), Mul(b, c))
  {
  }

  lemma NormMul(a: Complex, b: Complex)
    ensures Norm2(Mul(a, b)) == Times(Norm2(a), Norm2(b))
  {
  }

  lemma MulReal(b: real, c: Complex)
    ensures Mul(Real(b), c) == Complex(b * c.re, b * c.im)
  {
  }

  lemma NormReal(x: real)
    ensures Norm2(Real(x)) == Times(x, x)
  {
  }

  lemma DivParts(a: Complex, b: Complex)
    requires NonZero(b)
    ensures Div(a, b) == Complex(Quotient(a.re * b.re + a.im * b.im, Norm2(b)),
                                 Quotient(a.im * b.re - a.re * b.im, Norm2(b)))
  {
  }

  /** Multiplying back after a division. */
  lemma DivBack(a: Complex, b: Complex)
    requires NonZero(b)
    ensures Mul(Div(a, b), b) == a
  {
    hide Quotient, Norm2, Mul;
    var n := Norm2(b);
    var x, y := a.re * b.re + a.im * b.im, a.im * b.re - a.re * b.im;
    QuotientBack(x, n);
    QuotientBack(y, n);
    var p, q := Quotient(x, n), Quotient(y, n);
    DivParts(a, b);
    ScaledSolution(p, q, a, b);
  }

  /** p + iq, times b, is a: it is so after multiplying with the norm of b. */
  lemma ScaledSolution(p: real, q: real, a: Complex, b: Complex)
    requires NonZero(b)
    requires p * Norm2(b) == a.re * b.re + a.im * b.im && q * Norm2(b) == a.im * b.re - a.re * b.im
    ensures Mul(Complex(p, q), b) == a
  {
    var n := Norm2(b);
    var re, im := p * b.re - q * b.im, p * b.im + q * b.re;
    assert re * n == (p * n) * b.re - (q * n) * b.im;
    assert (p * n) * b.re - (q * n) * b.im == a.re * n by {
      ExpandRe(a, b);
    }
    assert im * n == (p * n) * b.im + (q * n) * b.re;
    assert (p * n) * b.im + (q * n) * b.re == a.im * n by {
      ExpandIm(a, b);
    }
    Cancel(re, a.re, n);
    Cancel(im, a.im, n);
  }

  lemma ExpandRe(a: Complex, b: Complex)
    ensures (a.re * b.re + a.im * b.im) * b.re - (a.im * b.re - a.re * b.im) * b.im == a.re * Norm2(b)
  {
  }

  lemma ExpandIm(a: Complex, b: Complex)
    ensures (a.re * b.re + a.im * b.im) * b.im + (a.im * b.re - a.re * b.im) * b.re == a.im * Norm2(b)
  {
  }

  lemma Cancel(x: real, y: real, n: real)
    requires n != 0.0 && x * n == y * n
    ensures x == y
  {
    var d := x - y;
    assert d * n == 0.0;
    if d != 0.0 { NonZeroProduct(d, n); }
  }

  lemma NonZeroProduct(d: real, n: real)
    requires d != 0.0 && n != 0.0
    ensures d * n != 0.0
  {
    if d > 0.0 && n > 0.0 {
      assert d * n > 0.0;
    } else if d > 0.0 {
      assert d * -n > 0.0;
    } else if n > 0.0 {
      assert -d * n > 0.0;
    } else {
      assert -d * -n > 0.0;
    }
  }

  lemma NormDiv(a: Complex, b: Complex)
    requires NonZero(b)
    ensures Times(Norm2(Div(a, b)), Norm2(b)) == Norm2(a)
  {
    hide Div, Mul, Norm2;
    DivBack(a, b);
    NormMul(Div(a, b), b);
  }
}
