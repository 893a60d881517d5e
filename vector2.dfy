/** Two-dimensional vectors for positions, velocities and forces.
    Screen coordinates: x grows to the right, y grows downward. */
module Vectors {

  /** A vector as a value. Positions, velocities and forces held by the
      other classes of the model are values of this type. */
  datatype Vec2 = Vec2(x: real, y: real) {

    /** Componentwise sum (the effect of `plusAssign`). */
    function Plus(other: Vec2): (r: Vec2)
      ensures r.x == x + other.x && r.y == y + other.y
    {
      Vec2(x + other.x, y + other.y)
    }

    /** Componentwise difference (operator `minus`, and the effect of `minusAssign`). */
    function Minus(other: Vec2): (r: Vec2)
      ensures r.Plus(other) == this
    {
      Vec2(x - other.x, y - other.y)
    }

    /** Scaled vector (operator `times`, and the effect of `timesAssign`). */
    function Times(k: real): (r: Vec2)
      ensures k == 1.0 ==> r == this
      ensures k == 0.0 ==> r == Vec2(0.0, 0.0)
    {
      Vec2(x * k, y * k)
    }

    /** Scaled vector (operator `div`, and the effect of `divAssign`).
        Division by zero yields IEEE infinities in the source and is not modelled. */
    function Div(k: real): (r: Vec2)
      requires k != 0.0
      ensures r.Times(k) == this
    {
      Vec2(x / k, y / k)
    }

    /** Opposite vector (operator `unaryMinus`). */
    function Neg(): (r: Vec2)
      ensures r.Plus(this) == Vec2(0.0, 0.0)
      ensures r == Times(-1.0)
    {
      Vec2(-x, -y)
    }

    /** x*x + y*y, never negative. */
    function LengthSquared(): (r: real)
      ensures r >= 0.0
    {
      Square(x);
      Square(y);
      x * x + y * y
    }
  }

  /** A square is never negative. */
  lemma Square(a: real)
    ensures a * a >= 0.0
  {
    if a < 0.0 {
      var b := -a;
      assert b * b > 0.0;
      assert a * a == b * b;
    }
  }

  const ZERO: Vec2 := Vec2(0.0, 0.0)
  const RIGHT: Vec2 := Vec2(1.0, 0.0)
  const LEFT: Vec2 := Vec2(-1.0, 0.0)
  const UP: Vec2 := Vec2(0.0, -1.0)
  const DOWN: Vec2 := Vec2(0.0, 1.0)

  /** `len` is the Euclidean length of `v` (the value `sqrt(lengthSquared)`
      would return); square roots are not computed by the model. */
  ghost predicate IsLength(v: Vec2, len: real)
  {
    len >= 0.0 && len * len == v.LengthSquared()
  }

  /** The squared `distance` between two points: the squared length of `other - vector`. */
  function DistanceSquared(vector: Vec2, other: Vec2): (r: real)
    ensures r >= 0.0
    ensures vector == other ==> r == 0.0
  {
    other.Minus(vector).LengthSquared()
  }

  /** `distance(a, b)` and `distance(b, a)` agree. */
  lemma DistanceSymmetric(a: Vec2, b: Vec2)
    ensures DistanceSquared(a, b) == DistanceSquared(b, a)
  {
    var d := b.Minus(a);
    var e := a.Minus(b);
    assert e == d.Neg();
    calc {
      e.x * e.x + e.y * e.y;
      (-d.x) * (-d.x) + (-d.y) * (-d.y);
      d.x * d.x + d.y * d.y;
    }
  }

  /** Up and down are opposite, and down points toward growing y. */
  lemma ScreenAxes()
    ensures UP == DOWN.Neg() && DOWN.y > 0.0 && UP.y < 0.0
    ensures LEFT == RIGHT.Neg() && RIGHT.x > 0.0
  {
  }

  /** `a += b` followed by `a -= b` restores `a`. */
  lemma PlusThenMinus(a: Vec2, b: Vec2)
    ensures a.Plus(b).Minus(b) == a
  {
  }

  /** `a *= k` followed by `a /= k` restores `a` when k is not zero. */
  lemma TimesThenDiv(a: Vec2, k: real)
    requires k != 0.0
    ensures a.Times(k).Div(k) == a
  {
    var r := a.Times(k).Div(k);
    assert r.x * k == a.x * k;
    assert r.y * k == a.y * k;
  }

  /** A mutable vector, as the source's `Vector2` data class. */
  class Vector2 {
    var x: real
    var y: real

    constructor (x: real, y: real)
      ensures this.x == x && this.y == y
    {
      this.x := x;
      this.y := y;
    }

    /** The current value of this vector. */
    function Value(): Vec2
      reads this
    {
      Vec2(x, y)
    }

    /** A fresh vector with the value of `v` (the `copy()` of a data class). */
    static method Of(v: Vec2) returns (r: Vector2)
      ensures fresh(r) && r.Value() == v
    {
      r := new Vector2(v.x, v.y);
    }

    /** The companion constants: each read returns a fresh copy, so a caller
        that mutates the result cannot alter the constant. */
    static method Zero() returns (r: Vector2)
      ensures fresh(r) && r.Value() == ZERO
    {
      r := Of(ZERO);
    }

    static method Right() returns (r: Vector2)
      ensures fresh(r) && r.Value() == RIGHT
    {
      r := Of(RIGHT);
    }

    static method Left() returns (r: Vector2)
      ensures fresh(r) && r.Value() == LEFT
    {
      r := Of(LEFT);
    }

    static method Up() returns (r: Vector2)
      ensures fresh(r) && r.Value() == UP
    {
      r := Of(UP);
    }

    static method Down() returns (r: Vector2)
      ensures fresh(r) && r.Value() == DOWN
    {
      r := Of(DOWN);
    }

    /** `this += other`, componentwise and in place (also when `other` is `this`). */
    method PlusAssign(other: Vector2)
      modifies this
      ensures Value() == old(Value()).Plus(old(other.Value()))
    {
      x := x + other.x;
      y := y + other.y;
    }

    /** `this -= other`, componentwise and in place. */
    method MinusAssign(other: Vector2)
      modifies this
      ensures Value() == old(Value()).Minus(old(other.Value()))
    {
      x := x - other.x;
      y := y - other.y;
    }

    /** `this *= k`, in place. */
    method TimesAssign(k: real)
      modifies this
      ensures Value() == old(Value()).Times(k)
    {
      x := x * k;
      y := y * k;
    }

    /** `this /= k`, in place. */
    method DivAssign(k: real)
      requires k != 0.0
      modifies this
      ensures Value() == old(Value()).Div(k)
    {
      x := x / k;
      y := y / k;
    }

    /** `this * k` as a new vector; the receiver is not changed. */
    method Times(k: real) returns (r: Vector2)
      ensures fresh(r) && r.Value() == Value().Times(k)
    {
      r := new Vector2(x * k, y * k);
    }

    /** `this / k` as a new vector; the receiver is not changed. */
    method Div(k: real) returns (r: Vector2)
      requires k != 0.0
      ensures fresh(r) && r.Value() == Value().Div(k)
    {
      r := new Vector2(x / k, y / k);
    }

    /** `-this` as a new vector; the receiver is not changed. */
    method Neg() returns (r: Vector2)
      ensures fresh(r) && r.Value() == Value().Neg()
    {
      r := new Vector2(-x, -y);
    }

    /** `this - other` as a new vector; neither operand is changed. */
    method Minus(other: Vector2) returns (r: Vector2)
      ensures fresh(r) && r.Value() == Value().Minus(other.Value())
    {
      r := new Vector2(x - other.x, y - other.y);
    }

    /** `normalize()`: a vector whose length is zero is left as it is (so
        nothing is divided by zero); any other vector is divided by its
        length `len`, which the caller supplies in place of the source's
        square root. The zero vector is unchanged either way. */
    method Normalize(len: real)
      requires IsLength(Value(), len)
      modifies this
      ensures len == 0.0 ==> Value() == old(Value())
      ensures len != 0.0 ==> Value() == old(Value()).Div(len) && Value().Times(len) == old(Value())
      ensures old(Value()) == ZERO ==> Value() == ZERO
    {
      if len == 0.0 {
        return;
      }
      DivAssign(len);
    }

    /** `normalized`: a normalized copy; the receiver is not changed. */
    method Normalized(len: real) returns (r: Vector2)
      requires IsLength(Value(), len)
      ensures fresh(r)
      ensures len == 0.0 ==> r.Value() == Value()
      ensures len != 0.0 ==> r.Value() == Value().Div(len)
    {
      r := Of(Value());
      r.Normalize(len);
    }
  }
}
