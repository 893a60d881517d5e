/** Linear interpolation helpers. */
module MathHelper {

  /** Where `value` lies between `begin` and `end`, as a fraction of the span.
      The span is a divisor, so it must not be empty. */
  function Fraction(value: real, begin: real, end: real): (r: real)
    requires begin != end
    ensures r * (end - begin) == value - begin
  {
    (value - begin) / (end - begin)
  }

  /** The point a fraction `t` of the way from `begin` to `end`. */
  function Fractal(t: real, begin: real, end: real): (r: real)
    ensures t == 0.0 ==> r == begin
    ensures t == 1.0 ==> r == end
  {
    t * (end - begin) + begin
  }

  /** The ends of the span map to 0 and 1. */
  lemma FractionOfEnds(begin: real, end: real)
    requires begin != end
    ensures Fraction(begin, begin, end) == 0.0
    ensures Fraction(end, begin, end) == 1.0
  {
    var d := end - begin;
    var r := Fraction(end, begin, end);
    Cancel(r, 1.0, d);
  }

  /** A non-zero factor cancels. */
  lemma Cancel(a: real, b: real, d: real)
    requires d != 0.0 && a * d == b * d
    ensures a == b
  {
    assert (a - b) * d == 0.0;
  }

  /** `fractal` undoes `fraction`. */
  lemma FractalOfFraction(value: real, begin: real, end: real)
    requires begin != end
    ensures Fractal(Fraction(value, begin, end), begin, end) == value
  {
  }

  /** `fraction` undoes `fractal`. */
  lemma {:induction false} FractionOfFractal(t: real, begin: real, end: real)
    requires begin != end
    ensures Fraction(Fractal(t, begin, end), begin, end) == t
  {
    var r := Fraction(Fractal(t, begin, end), begin, end);
    assert r * (end - begin) == t * (end - begin);
    assert (r - t) * (end - begin) == 0.0;
  }
}
