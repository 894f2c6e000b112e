/** Python's built-in `complex` numbers, modelled as pairs of reals
    (floating-point rounding is not modelled). */
module Complex {

  datatype Complex = Complex(re: real, im: real)

  const Zero := Complex(0.0, 0.0)
  const One := Complex(1.0, 0.0)

  function Add(x: Complex, y: Complex): Complex {
    Complex(x.re + y.re, x.im + y.im)
  }

  function Sub(x: Complex, y: Complex): Complex {
    Complex(x.re - y.re, x.im - y.im)
  }

  function Mul(x: Complex, y: Complex): Complex {
    Complex(x.re * y.re - x.im * y.im, x.re * y.im + x.im * y.re)
  }

  function Abs(r: real): real {
    if r < 0.0 then -r else r
  }

  /** Real division, kept behind a function so that proofs about complex
      division reason about `r * d == a` rather than about `/`. */
  function Quot(a: real, d: real): (r: real)
    requires d != 0.0
    ensures r * d == a
  {
    a / d
  }

  /** `x / y` as Python computes it: the divisor's larger component is
      divided out first (Smith's method).  Python raises ZeroDivisionError
      when `y == 0`, hence the requires; callers model that error. */
  function Div(x: Complex, y: Complex): (q: Complex)
    requires y != Zero
    ensures Mul(q, y) == x
  {
    if Abs(y.re) >= Abs(y.im) then WideQuotient(x, y) else TallQuotient(x, y)
  }

  /** Smith's method when the real part of the divisor dominates. */
  function WideQuotient(x: Complex, y: Complex): (q: Complex)
    requires y.re != 0.0 && Abs(y.re) >= Abs(y.im)
    ensures Mul(q, y) == x
  {
    var ratio := Quot(y.im, y.re);
    var denom := y.re + y.im * ratio;
    SmithDenominator(y.re, y.im, ratio);
    var q := Complex(Quot(x.re + x.im * ratio, denom), Quot(x.im - x.re * ratio, denom));
    SmithQuotient(x, y, q, ratio, denom);
    q
  }

  /** Smith's method when the imaginary part of the divisor dominates. */
  function TallQuotient(x: Complex, y: Complex): (q: Complex)
    requires y.im != 0.0 && Abs(y.re) < Abs(y.im)
    ensures Mul(q, y) == x
  {
    var ratio := Quot(y.re, y.im);
    var denom := y.re * ratio + y.im;
    SmithDenominator(y.im, y.re, ratio);
    var q := Complex(Quot(x.re * ratio + x.im, denom), Quot(x.im * ratio - x.re, denom));
    SmithQuotientSwapped(x, y, q, ratio, denom);
    q
  }

  /** The denominator of Smith's method never vanishes: with `q = r p` it
      is `p (1 + r r)`, a product of two non-zero factors. */
  lemma SmithDenominator(p: real, q: real, r: real)
    requires p != 0.0 && Abs(p) >= Abs(q)
    requires r * p == q
    ensures p + q * r != 0.0
  {
    SquareNonNegative(r);
    assert p + q * r == p * (1.0 + r * r);
    NonZeroProduct(p, 1.0 + r * r);
  }

  lemma SquareNonNegative(a: real)
    ensures a * a >= 0.0
  {
    if a < 0.0 {
      assert a * a == (-a) * (-a);
    }
  }

  lemma NonZeroProduct(a: real, b: real)
    requires a != 0.0 && b > 0.0
    ensures a * b != 0.0
  {
  }

  /** The quotient of Smith's method times the divisor gives back the dividend. */
  lemma SmithQuotient(x: Complex, y: Complex, q: Complex, r: real, d: real)
    requires r * y.re == y.im && d == y.re + y.im * r && d != 0.0
    requires q.re * d == x.re + x.im * r && q.im * d == x.im - x.re * r
    ensures Mul(q, y) == x
  {
    assert (q.re * y.re - q.im * y.im) * d == x.re * d;
    assert (q.re * y.im + q.im * y.re) * d == x.im * d;
  }

  lemma SmithQuotientSwapped(x: Complex, y: Complex, q: Complex, r: real, d: real)
    requires r * y.im == y.re && d == y.re * r + y.im && d != 0.0
    requires q.re * d == x.re * r + x.im && q.im * d == x.im * r - x.re
    ensures Mul(q, y) == x
  {
    assert (q.re * y.re - q.im * y.im) * d == x.re * d;
    assert (q.re * y.im + q.im * y.re) * d == x.im * d;
  }

  lemma MulComm(x: Complex, y: Complex)
    ensures Mul(x, y) == Mul(y, x)
  {
  }

  lemma MulAssoc(x: Complex, y: Complex, z: Complex)
    ensures Mul(Mul(x, y), z) == Mul(x, Mul(y, z))
  {
  }

  lemma MulAddDistrib(x: Complex, y: Complex, z: Complex)
    ensures Mul(Add(x, y), z) == Add(Mul(x, z), Mul(y, z))
  {
  }

  lemma MulSubDistrib(x: Complex, y: Complex, z: Complex)
    ensures Mul(Sub(x, y), z) == Sub(Mul(x, z), Mul(y, z))
  {
  }

  /** A nonzero factor can be cancelled: complex numbers have no zero divisors. */
  lemma {:induction false} Cancel(u: Complex, v: Complex, d: Complex)
    requires d != Zero
    requires Mul(u, d) == Mul(v, d)
    ensures u == v
  {
    var inv := Div(One, d);
    MulComm(d, inv);
    calc {
      u;
      Mul(u, Mul(d, inv));
      { MulAssoc(u, d, inv); }
      Mul(Mul(u, d), inv);
      Mul(Mul(v, d), inv);
      { MulAssoc(v, d, inv); }
      Mul(v, Mul(d, inv));
      v;
    }
  }

  /** Division is the unique solution of `q * y == x`. */
  lemma {:induction false} DivUnique(x: Complex, y: Complex, q: Complex)
    requires y != Zero
    requires Mul(q, y) == x
    ensures q == Div(x, y)
  {
    Cancel(q, Div(x, y), y);
  }

}
