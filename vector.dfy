/** `Vec2` of src/vector.ts: an immutable 2D vector over the reals. Every
    operation returns a new value, so no operation can alter its receiver. */
module Vector {
  import opened JsMath

  datatype Vec2 = Vec2(x: real, y: real) {

    function Add(other: Vec2): Vec2 {
      Vec2(x + other.x, y + other.y)
    }

    function Subtract(other: Vec2): Vec2 {
      Vec2(x - other.x, y - other.y)
    }

    function Scale(scalar: real): Vec2 {
      Vec2(x * scalar, y * scalar)
    }

    function Dot(other: Vec2): real {
      x * other.x + y * other.y
    }

    /** The length of the vector, through the caller's square root. */
    function Magnitude(sqrt: real -> real): real {
      sqrt(x * x + y * y)
    }

    /** The unit vector in the same direction; the zero vector when the
        magnitude is zero. */
    function Normalize(sqrt: real -> real): Vec2 {
      var magnitude := Magnitude(sqrt);
      if magnitude == 0.0 then Vec2(0.0, 0.0) else Scale(1.0 / magnitude)
    }

    /** The vector turned 90 degrees counter-clockwise. */
    function Perpendicular(): Vec2 {
      Vec2(-y, x)
    }

    /** The z-component of the 3D cross product. */
    function Cross(other: Vec2): real {
      x * other.y - y * other.x
    }

    function DistanceTo(other: Vec2, sqrt: real -> real): real {
      sqrt((x - other.x) * (x - other.x) + (y - other.y) * (y - other.y))
    }

    predicate Equals(other: Vec2) {
      x == other.x && y == other.y
    }

    function Clone(): Vec2 {
      Vec2(x, y)
    }
  }

  /** `new Vec2()`: both coordinates default to 0. */
  const ZERO: Vec2 := Vec2(0.0, 0.0)

  lemma AddSubtractRoundTrip(a: Vec2, b: Vec2)
    ensures a.Add(b).Subtract(b) == a
    ensures a.Subtract(b).Add(b) == a
  {
  }

  lemma AddCommutative(a: Vec2, b: Vec2)
    ensures a.Add(b) == b.Add(a)
  {
  }

  lemma AddAssociative(a: Vec2, b: Vec2, c: Vec2)
    ensures a.Add(b).Add(c) == a.Add(b.Add(c))
  {
  }

  /** Subtracting is adding the vector scaled by -1, and scaling distributes
      over scalar sums: the operations act componentwise. */
  lemma ComponentwiseAlgebra(a: Vec2, b: Vec2, k: real, j: real)
    ensures a.Subtract(b) == a.Add(b.Scale(-1.0))
    ensures a.Scale(k).Add(a.Scale(j)) == a.Scale(k + j)
    ensures a.Add(b).Scale(k) == a.Scale(k).Add(b.Scale(k))
    ensures a.Add(ZERO) == a && a.Scale(1.0) == a
  {
  }

  lemma DotSymmetric(a: Vec2, b: Vec2)
    ensures a.Dot(b) == b.Dot(a)
  {
  }

  lemma CrossAntisymmetric(a: Vec2, b: Vec2)
    ensures a.Cross(b) == -b.Cross(a)
    ensures a.Cross(a) == 0.0
  {
  }

  /** The perpendicular is orthogonal to the vector, as long as it, and two
      quarter turns make a half turn. */
  lemma PerpendicularProperties(v: Vec2)
    ensures v.Perpendicular().Dot(v) == 0.0
    ensures v.Perpendicular().Dot(v.Perpendicular()) == v.Dot(v)
    ensures v.Perpendicular().Perpendicular() == v.Scale(-1.0)
    ensures v.Cross(v.Perpendicular()) == v.Dot(v)
  {
  }

  lemma NormalizeZero(sqrt: real -> real)
    ensures ZERO.Normalize(sqrt) == ZERO
  {
  }

  /** A length is never negative. */
  lemma MagnitudeNonNegative(v: Vec2, sqrt: real -> real)
    requires IsSqrt(sqrt)
    ensures 0.0 <= v.Magnitude(sqrt)
  {
    assert 0.0 <= v.x * v.x + v.y * v.y;
  }

  lemma DistanceSymmetric(a: Vec2, b: Vec2, sqrt: real -> real)
    ensures a.DistanceTo(b, sqrt) == b.DistanceTo(a, sqrt)
  {
    assert (a.x - b.x) * (a.x - b.x) == (b.x - a.x) * (b.x - a.x);
    assert (a.y - b.y) * (a.y - b.y) == (b.y - a.y) * (b.y - a.y);
  }

  /** Comparing the components is value equality, so `equals` is reflexive
      and symmetric, and a clone equals its original. */
  lemma EqualsIsEquality(a: Vec2, b: Vec2)
    ensures a.Equals(b) <==> a == b
    ensures a.Equals(a)
    ensures a.Equals(b) == b.Equals(a)
    ensures a.Clone().Equals(a) && a.Clone() == a
  {
  }
}
