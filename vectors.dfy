/** A 2-D vector (src/vec2.ts).
  *
  * The source's `Vec2` is an object with mutable `x`/`y` fields: its value
  * operations build a new object, its in-place twins overwrite the receiver.
  * The datatype `V2` is the value view of such an object and specifies both
  * kinds of operation; the class `Vec2` is the object itself.
  *
  * Numbers are `real`. `Math.sqrt` is a runtime function the model cannot
  * see: operations that need it take it as a parameter `sqrt` and require
  * `IsSqrt(sqrt)`, the defining law of a square root.
  */
module Vectors {

  /** The square of a number; written `x * x` or `Math.pow(x, 2)` in the source. */
  function Sq(a: real): real {
    a * a
  }

  /** `sqrt` maps every non-negative number to its non-negative square root. */
  ghost predicate IsSqrt(sqrt: real -> real) {
    forall s :: 0.0 <= s ==> 0.0 <= sqrt(s) && Sq(sqrt(s)) == s
  }

  /** The value of a vector: its two components. */
  datatype V2 = V2(x: real, y: real) {

    predicate IsZero() {
      x == 0.0 && y == 0.0
    }

    function Add(other: V2): V2 {
      V2(x + other.x, y + other.y)
    }

    function Sub(other: V2): V2 {
      V2(x - other.x, y - other.y)
    }

    function Mul(other: V2): V2 {
      V2(x * other.x, y * other.y)
    }

    function MulScalar(scalar: real): V2 {
      V2(x * scalar, y * scalar)
    }

    function DivElemWise(other: V2): V2
      requires other.x != 0.0 && other.y != 0.0
    {
      V2(x / other.x, y / other.y)
    }

    function DivScalar(scalar: real): V2
      requires scalar != 0.0
    {
      V2(x / scalar, y / scalar)
    }

    /** The squared length is never negative, and is zero only for the zero vector. */
    function AbsSq(): (r: real)
      ensures 0.0 <= r
      ensures r == 0.0 <==> IsZero()
    {
      SqSign(x);
      SqSign(y);
      Sq(x) + Sq(y)
    }

    /** The length: the non-negative root of the squared length. */
    function Abs(sqrt: real -> real): (r: real)
      requires IsSqrt(sqrt)
      ensures 0.0 <= r && Sq(r) == AbsSq()
      ensures r == 0.0 <==> IsZero()
    {
      RootOf(sqrt, AbsSq());
      sqrt(AbsSq())
    }

    /** The squared distance to `other` is the squared length of their
      * difference; it is zero exactly when the two are equal. */
    function DistanceFromSq(other: V2): (r: real)
      ensures r == Sub(other).AbsSq()
      ensures 0.0 <= r
      ensures r == 0.0 <==> this == other
    {
      var d := Sub(other);
      assert d.IsZero() <==> this == other;
      assert d.AbsSq() == Sq(d.x) + Sq(d.y);
      Sq(x - other.x) + Sq(y - other.y)
    }

    /** The distance to `other`: the non-negative root of the squared distance. */
    function DistanceFrom(other: V2, sqrt: real -> real): (r: real)
      requires IsSqrt(sqrt)
      ensures 0.0 <= r && Sq(r) == DistanceFromSq(other)
      ensures r == 0.0 <==> this == other
    {
      RootOf(sqrt, DistanceFromSq(other));
      sqrt(DistanceFromSq(other))
    }

    /** The unit vector in the direction of a non-zero vector: its squared
      * length is 1, and scaling it back by the length gives the vector. */
    function Normalize(sqrt: real -> real): (r: V2)
      requires IsSqrt(sqrt) && !IsZero()
      ensures r.AbsSq() == 1.0
      ensures r.MulScalar(Abs(sqrt)) == this
    {
      var abs := Abs(sqrt);
      UnitQuotient(x, y, abs);
      V2(x / abs, y / abs)
    }

    /** What `normalizeTo(length)` leaves in a non-zero vector: the unit
      * vector scaled by `length`, of squared length `length * length`. */
    function NormalizedTo(length: real, sqrt: real -> real): (r: V2)
      requires IsSqrt(sqrt) && !IsZero()
      ensures r == Normalize(sqrt).MulScalar(length)
      ensures r.AbsSq() == Sq(length)
    {
      var abs := Abs(sqrt);
      var u := Normalize(sqrt);
      ScaledUnit(u.x, u.y, length);
      V2((x / abs) * length, (y / abs) * length)
    }
  }

  /** The zero vector. */
  const Zero := V2(0.0, 0.0)

  // Facts of real arithmetic the vector operations rest on.

  /** A square is never negative, and is zero only for zero. */
  lemma SqSign(a: real)
    ensures 0.0 <= Sq(a)
    ensures Sq(a) == 0.0 <==> a == 0.0
  {
    if a != 0.0 {
      assert Sq(a) / a == a;
    } else {
      assert Sq(a) == 0.0 * 0.0;
    }
  }

  lemma ProductZero(a: real, b: real)
    requires a * b == 0.0 && b != 0.0
    ensures a == 0.0
  {
  }

  lemma SqQuotient(a: real, d: real)
    requires d != 0.0
    ensures Sq(a / d) * Sq(d) == Sq(a)
  {
    var q := a / d;
    assert q * d == a;
    assert Sq(q) * Sq(d) == (q * d) * (q * d);
  }

  lemma SqProduct(a: real, k: real)
    ensures Sq(a * k) == Sq(a) * Sq(k)
  {
  }

  /** What the square-root law gives at one point: a root that is zero only for zero. */
  lemma RootOf(sqrt: real -> real, s: real)
    requires IsSqrt(sqrt) && 0.0 <= s
    ensures 0.0 <= sqrt(s) && Sq(sqrt(s)) == s
    ensures sqrt(s) == 0.0 <==> s == 0.0
  {
    SqSign(sqrt(s));
  }

  /** Dividing both components by the length leaves squared length 1. */
  lemma UnitQuotient(x: real, y: real, abs: real)
    requires 0.0 < abs && Sq(abs) == Sq(x) + Sq(y)
    ensures Sq(x / abs) + Sq(y / abs) == 1.0
  {
    var t := Sq(x / abs) + Sq(y / abs);
    SqQuotient(x, abs);
    SqQuotient(y, abs);
    assert t * Sq(abs) == Sq(x / abs) * Sq(abs) + Sq(y / abs) * Sq(abs);
    assert (t - 1.0) * Sq(abs) == 0.0;
    SqSign(abs);
    ProductZero(t - 1.0, Sq(abs));
  }

  /** Scaling a vector of squared length 1 by `k` gives squared length `k * k`. */
  lemma ScaledUnit(ux: real, uy: real, k: real)
    requires Sq(ux) + Sq(uy) == 1.0
    ensures Sq(ux * k) + Sq(uy * k) == Sq(k)
  {
    SqProduct(ux, k);
    SqProduct(uy, k);
    assert Sq(ux) * Sq(k) + Sq(uy) * Sq(k) == (Sq(ux) + Sq(uy)) * Sq(k);
  }

  // Partners of the value operations: algebraic laws that tie each to another.

  /** `a.add(b)` and `b.add(a)` have the same components. */
  lemma AddCommutes(a: V2, b: V2)
    ensures a.Add(b) == b.Add(a)
  {
  }

  /** Adding three vectors does not depend on how they are grouped. */
  lemma AddAssociative(a: V2, b: V2, c: V2)
    ensures a.Add(b).Add(c) == a.Add(b.Add(c))
  {
  }

  /** Subtracting what was added gives back the original vector, and conversely. */
  lemma SubUndoesAdd(a: V2, b: V2)
    ensures a.Add(b).Sub(b) == a
    ensures a.Sub(b).Add(b) == a
  {
  }

  /** Element-wise division undoes element-wise multiplication by a vector
    * with non-zero components, and conversely. */
  lemma DivElemWiseUndoesMul(a: V2, b: V2)
    requires b.x != 0.0 && b.y != 0.0
    ensures a.Mul(b).DivElemWise(b) == a
    ensures a.DivElemWise(b).Mul(b) == a
  {
  }

  /** Division by a non-zero scalar undoes multiplication by it, and conversely. */
  lemma DivScalarUndoesMulScalar(a: V2, s: real)
    requires s != 0.0
    ensures a.MulScalar(s).DivScalar(s) == a
    ensures a.DivScalar(s).MulScalar(s) == a
  {
  }

  /** The squared distance and the distance do not depend on the order of the two vectors. */
  lemma DistanceSymmetric(a: V2, b: V2, sqrt: real -> real)
    requires IsSqrt(sqrt)
    ensures a.DistanceFromSq(b) == b.DistanceFromSq(a)
    ensures a.DistanceFrom(b, sqrt) == b.DistanceFrom(a, sqrt)
  {
  }

  /** The distance between two vectors is the length of their difference. */
  lemma DistanceIsAbsOfSub(a: V2, b: V2, sqrt: real -> real)
    requires IsSqrt(sqrt)
    ensures a.DistanceFrom(b, sqrt) == a.Sub(b).Abs(sqrt)
  {
  }

  /** `normalizeTo(1)` leaves the receiver equal to what `normalize()` returns. */
  lemma NormalizedToOne(a: V2, sqrt: real -> real)
    requires IsSqrt(sqrt) && !a.IsZero()
    ensures a.NormalizedTo(1.0, sqrt) == a.Normalize(sqrt)
  {
  }

  /** A `Vec2` object: two mutable components. */
  class Vec2 {
    var x: real
    var y: real

    /** The current value of the object. */
    function View(): V2
      reads this
    {
      V2(x, y)
    }

    constructor (x: real, y: real)
      ensures View() == V2(x, y)
    {
      this.x := x;
      this.y := y;
    }

    function AbsSq(): (r: real)
      reads this
      ensures 0.0 <= r && r == View().AbsSq()
    {
      View().AbsSq()
    }

    function Abs(sqrt: real -> real): (r: real)
      requires IsSqrt(sqrt)
      reads this
      ensures 0.0 <= r && Sq(r) == AbsSq()
    {
      View().Abs(sqrt)
    }

    function DistanceFromSq(other: Vec2): (r: real)
      reads this, other
      ensures 0.0 <= r && r == View().Sub(other.View()).AbsSq()
      ensures other == this ==> r == 0.0
    {
      View().DistanceFromSq(other.View())
    }

    function DistanceFrom(other: Vec2, sqrt: real -> real): (r: real)
      requires IsSqrt(sqrt)
      reads this, other
      ensures 0.0 <= r && Sq(r) == DistanceFromSq(other)
    {
      View().DistanceFrom(other.View(), sqrt)
    }

    // Value operations: each returns a new object and changes nothing.

    method Add(other: Vec2) returns (r: Vec2)
      ensures fresh(r) && r.View() == View().Add(other.View())
      ensures unchanged(this, other)
    {
      r := new Vec2(x + other.x, y + other.y);
    }

    method Sub(other: Vec2) returns (r: Vec2)
      ensures fresh(r) && r.View() == View().Sub(other.View())
      ensures unchanged(this, other)
    {
      r := new Vec2(x - other.x, y - other.y);
    }

    method Mul(other: Vec2) returns (r: Vec2)
      ensures fresh(r) && r.View() == View().Mul(other.View())
      ensures unchanged(this, other)
    {
      r := new Vec2(x * other.x, y * other.y);
    }

    method MulScalar(scalar: real) returns (r: Vec2)
      ensures fresh(r) && r.View() == View().MulScalar(scalar)
      ensures unchanged(this)
    {
      r := new Vec2(x * scalar, y * scalar);
    }

    method DivElemWise(other: Vec2) returns (r: Vec2)
      requires other.x != 0.0 && other.y != 0.0
      ensures fresh(r) && r.View() == View().DivElemWise(other.View())
      ensures unchanged(this, other)
    {
      r := new Vec2(x / other.x, y / other.y);
    }

    method DivScalar(scalar: real) returns (r: Vec2)
      requires scalar != 0.0
      ensures fresh(r) && r.View() == View().DivScalar(scalar)
      ensures unchanged(this)
    {
      r := new Vec2(x / scalar, y / scalar);
    }

    method Normalize(sqrt: real -> real) returns (r: Vec2)
      requires IsSqrt(sqrt) && !View().IsZero()
      ensures fresh(r) && r.View() == View().Normalize(sqrt)
      ensures r.AbsSq() == 1.0
      ensures unchanged(this)
    {
      var abs := Abs(sqrt);
      r := new Vec2(x / abs, y / abs);
    }

    // In-place twins: each leaves the receiver equal to what its value
    // counterpart returns, and changes no other object. The argument's value
    // is read before the receiver is written, so `v.AddBy(v)` doubles `v`.

    method AddBy(other: Vec2)
      modifies this
      ensures View() == old(View()).Add(old(other.View()))
      ensures other != this ==> unchanged(other)
    {
      x := x + other.x;
      y := y + other.y;
    }

    method SubBy(other: Vec2)
      modifies this
      ensures View() == old(View()).Sub(old(other.View()))
      ensures other != this ==> unchanged(other)
    {
      x := x - other.x;
      y := y - other.y;
    }

    method MulBy(other: Vec2)
      modifies this
      ensures View() == old(View()).Mul(old(other.View()))
      ensures other != this ==> unchanged(other)
    {
      x := x * other.x;
      y := y * other.y;
    }

    method MulScalarBy(scalar: real)
      modifies this
      ensures View() == old(View()).MulScalar(scalar)
    {
      x := x * scalar;
      y := y * scalar;
    }

    method DivElemWiseBy(other: Vec2)
      requires other.x != 0.0 && other.y != 0.0
      modifies this
      ensures View() == old(View()).DivElemWise(old(other.View()))
      ensures other != this ==> unchanged(other)
    {
      x := x / other.x;
      y := y / other.y;
    }

    method DivScalarBy(scalar: real)
      requires scalar != 0.0
      modifies this
      ensures View() == old(View()).DivScalar(scalar)
    {
      x := x / scalar;
      y := y / scalar;
    }

    method NormalizeTo(length: real, sqrt: real -> real)
      requires IsSqrt(sqrt) && !View().IsZero()
      modifies this
      ensures View() == old(View()).NormalizedTo(length, sqrt)
      ensures AbsSq() == Sq(length)
    {
      var abs := Abs(sqrt);
      x := (x / abs) * length;
      y := (y / abs) * length;
    }
  }
}
