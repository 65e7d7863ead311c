/** RGB colours as triples of reals, with the component-wise arithmetic the
    integrators use. */
module Colors {

  datatype RGB = RGB(r: real, g: real, b: real)

  const Black := RGB(0.0, 0.0, 0.0)
  const Red := RGB(1.0, 0.0, 0.0)

  /** `a + b` */
  function Add(a: RGB, b: RGB): RGB {
    RGB(a.r + b.r, a.g + b.g, a.b + b.b)
  }

  /** `a.multiply(b)`: component-wise product. */
  function Multiply(a: RGB, b: RGB): RGB {
    RGB(a.r * b.r, a.g * b.g, a.b * b.b)
  }

  /** `a * s` for a scalar `s`. */
  function Scale(a: RGB, s: real): RGB {
    RGB(a.r * s, a.g * s, a.b * s)
  }

  /** `a / s` for a non-zero scalar `s`. */
  function Divide(a: RGB, s: real): RGB
    requires s != 0.0
  {
    RGB(a.r / s, a.g / s, a.b / s)
  }

  predicate NonNegative(c: RGB) {
    0.0 <= c.r && 0.0 <= c.g && 0.0 <= c.b
  }

  /** Component-wise `a >= b`. */
  predicate AtLeast(a: RGB, b: RGB) {
    b.r <= a.r && b.g <= a.g && b.b <= a.b
  }

  predicate IsGrey(c: RGB) {
    c.r == c.g == c.b
  }

  lemma MultiplyNonNegative(a: RGB, b: RGB)
    requires NonNegative(a) && NonNegative(b)
    ensures NonNegative(Multiply(a, b))
  {
  }

  lemma ScaleNonNegative(a: RGB, s: real)
    requires NonNegative(a) && 0.0 <= s
    ensures NonNegative(Scale(a, s))
  {
  }

  lemma DivideNonNegative(a: RGB, s: real)
    requires NonNegative(a) && 0.0 < s
    ensures NonNegative(Divide(a, s))
  {
  }

  lemma MulNonNegative(a: real, b: real)
    requires 0.0 <= a && 0.0 <= b
    ensures 0.0 <= a * b
  {
  }

  lemma Distribute(a: real, n: real)
    ensures a * n + a == a * (n + 1.0)
  {
  }

  lemma MulDivCancel(a: real, n: real)
    requires n != 0.0
    ensures a * n / n == a
  {
  }

  /** `c * n + c == c * (n + 1)` */
  lemma ScaleStep(c: RGB, n: real)
    ensures Add(Scale(c, n), c) == Scale(c, n + 1.0)
  {
    Distribute(c.r, n);
    Distribute(c.g, n);
    Distribute(c.b, n);
  }

  /** `(c * n) / n == c` */
  lemma ScaleDivideCancel(c: RGB, n: real)
    requires n != 0.0
    ensures Divide(Scale(c, n), n) == c
  {
    MulDivCancel(c.r, n);
    MulDivCancel(c.g, n);
    MulDivCancel(c.b, n);
  }
}
