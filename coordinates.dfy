/** The two-point coordinate converter of the function finder: an affine
    map `z |-> z1 * z + z2` of the complex plane fixed by two reference
    points and their images. */
module Coordinates {
  import opened Wrappers
  import opened Complex

  /** A point given as an `(x, y)` tuple. */
  datatype Point = Point(x: real, y: real)

  function ToComplex(p: Point): Complex {
    Complex(p.x, p.y)
  }

  function ToPoint(z: Complex): Point {
    Point(z.re, z.im)
  }

  /** The two coefficients a `CoordinateSystemConverter` stores. */
  datatype Converter = Converter(z1: Complex, z2: Complex)

  /** `CoordinateSystemConverter(A1, A2, B1, B2)`: the converter sending
      `A1` to `A2` and `B1` to `B2`.  Both coefficients divide by
      `a1 - b1`, so equal points `A1 == B1` raise ZeroDivisionError:
      `None`. */
  function NewConverter(A1: Point, A2: Point, B1: Point, B2: Point): (c: Option<Converter>)
    ensures c.None? <==> A1 == B1
    ensures c.Some? ==>
      Mul(c.value.z1, Sub(ToComplex(A1), ToComplex(B1))) == Sub(ToComplex(A2), ToComplex(B2))
    ensures c.Some? ==>
      Mul(c.value.z2, Sub(ToComplex(A1), ToComplex(B1)))
      == Sub(Mul(ToComplex(A1), ToComplex(B2)), Mul(ToComplex(A2), ToComplex(B1)))
  {
    var a1 := ToComplex(A1);
    var b1 := ToComplex(B1);
    var a2 := ToComplex(A2);
    var b2 := ToComplex(B2);
    var d := Sub(a1, b1);
    if d == Zero then None
    else Some(Converter(Div(Sub(a2, b2), d), Div(Sub(Mul(a1, b2), Mul(a2, b1)), d)))
  }

  /** `convert(P)`: the image `z1 * P + z2` of `P`, as a tuple. */
  function Convert(c: Converter, p: Point): Point {
    ToPoint(Add(Mul(c.z1, ToComplex(p)), c.z2))
  }

  /** A converter sends its first reference point to its first image and
      its second reference point to its second image. */
  lemma {:induction false} MapsReferencePoints(A1: Point, A2: Point, B1: Point, B2: Point)
    requires A1 != B1
    ensures NewConverter(A1, A2, B1, B2).Some?
    ensures Convert(NewConverter(A1, A2, B1, B2).value, A1) == A2
    ensures Convert(NewConverter(A1, A2, B1, B2).value, B1) == B2
  {
    var c := NewConverter(A1, A2, B1, B2).value;
    var a1, b1, a2, b2 := ToComplex(A1), ToComplex(B1), ToComplex(A2), ToComplex(B2);
    AffineImage(c.z1, c.z2, a1, b1, a2, b2, a1, a2);
    AffineImage(c.z1, c.z2, a1, b1, a2, b2, b1, b2);
  }

  /** The step behind `MapsReferencePoints`: multiplied by `a1 - b1`, the
      image of `p` is `t * (a1 - b1)`, so it is `t` once the nonzero
      factor is cancelled. */
  lemma {:induction false} AffineImage(z1: Complex, z2: Complex, a1: Complex, b1: Complex,
                                       a2: Complex, b2: Complex, p: Complex, t: Complex)
    requires Sub(a1, b1) != Zero
    requires Mul(z1, Sub(a1, b1)) == Sub(a2, b2)
    requires Mul(z2, Sub(a1, b1)) == Sub(Mul(a1, b2), Mul(a2, b1))
    requires (p == a1 && t == a2) || (p == b1 && t == b2)
    ensures Add(Mul(z1, p), z2) == t
  {
    var d := Sub(a1, b1);
    calc {
      Mul(Add(Mul(z1, p), z2), d);
      { MulAddDistrib(Mul(z1, p), z2, d); }
      Add(Mul(Mul(z1, p), d), Mul(z2, d));
      { MulAssoc(z1, p, d); MulComm(p, d); MulAssoc(z1, d, p); }
      Add(Mul(Mul(z1, d), p), Mul(z2, d));
      Add(Mul(Sub(a2, b2), p), Sub(Mul(a1, b2), Mul(a2, b1)));
      Mul(t, d);
    }
    Cancel(Add(Mul(z1, p), z2), t, d);
  }

  /** An affine map fixing two distinct points is the identity. */
  lemma {:induction false} FixesTwoPoints(c1: Complex, c2: Complex, a: Complex, b: Complex)
    requires a != b
    requires Add(Mul(c1, a), c2) == a && Add(Mul(c1, b), c2) == b
    ensures c1 == One && c2 == Zero
  {
    var d := Sub(a, b);
    assert Mul(c1, d) == Sub(Mul(c1, a), Mul(c1, b));
    assert Mul(c1, d) == Mul(One, d);
    Cancel(c1, One, d);
  }

  /** The converter built from the swapped pairs undoes the original one:
      converting a point there and back returns it.  Both reference
      pairs must differ, or one of the two constructions divides by zero. */
  lemma {:induction false} SwappedIsInverse(A1: Point, A2: Point, B1: Point, B2: Point, P: Point)
    requires A1 != B1 && A2 != B2
    ensures NewConverter(A1, A2, B1, B2).Some? && NewConverter(A2, A1, B2, B1).Some?
    ensures Convert(NewConverter(A2, A1, B2, B1).value, Convert(NewConverter(A1, A2, B1, B2).value, P)) == P
  {
    MapsReferencePoints(A1, A2, B1, B2);
    MapsReferencePoints(A2, A1, B2, B1);
    RoundTrip(NewConverter(A1, A2, B1, B2).value, NewConverter(A2, A1, B2, B1).value, A1, B1, P);
  }

  /** If `w` sends the images of two distinct points back to them, `w`
      undoes `u` everywhere. */
  lemma {:induction false} RoundTrip(u: Converter, w: Converter, A: Point, B: Point, P: Point)
    requires A != B
    requires Convert(w, Convert(u, A)) == A && Convert(w, Convert(u, B)) == B
    ensures Convert(w, Convert(u, P)) == P
  {
    var c1 := Mul(w.z1, u.z1);
    var c2 := Add(Mul(w.z1, u.z2), w.z2);
    ComposeAffine(u, w, c1, c2, A);
    ComposeAffine(u, w, c1, c2, B);
    ComposeAffine(u, w, c1, c2, P);
    FixesTwoPoints(c1, c2, ToComplex(A), ToComplex(B));
  }

  /** Composing two affine maps gives the affine map `c1 * z + c2`. */
  lemma ComposeAffine(u: Converter, w: Converter, c1: Complex, c2: Complex, P: Point)
    requires c1 == Mul(w.z1, u.z1) && c2 == Add(Mul(w.z1, u.z2), w.z2)
    ensures ToComplex(Convert(w, Convert(u, P))) == Add(Mul(c1, ToComplex(P)), c2)
  {
    MulAssoc(w.z1, u.z1, ToComplex(P));
  }
}
