/** Colliders of src/physics.ts. */
module Physics {
  import opened JsMath
  import opened Vector

  /** An axis-aligned box, stored by its centre and half its extent.
      Build it with `Create`, which takes the full size like the class
      constructor does. */
  datatype BoxColliderAABB = BoxColliderAABB(center: Vec2, halfSize: Vec2) {

    /** The class constructor: the half-size is half the given size. */
    static function Create(center: Vec2, size: Vec2): BoxColliderAABB {
      BoxColliderAABB(center, Vec2(size.x * 0.5, size.y * 0.5))
    }

    /** Closed-interval overlap on both axes: touching boxes intersect. */
    predicate Intersects(other: BoxColliderAABB) {
      var dx := Abs(center.x - other.center.x);
      var dy := Abs(center.y - other.center.y);
      var combinedHalfWidth := halfSize.x + other.halfSize.x;
      var combinedHalfHeight := halfSize.y + other.halfSize.y;
      dx <= combinedHalfWidth && dy <= combinedHalfHeight
    }

    predicate ContainsPoint(point: Vec2) {
      && point.x >= center.x - halfSize.x
      && point.x <= center.x + halfSize.x
      && point.y >= center.y - halfSize.y
      && point.y <= center.y + halfSize.y
    }

    /** `move` as written: the current half-size is handed to the
        constructor's `size` parameter, which halves it again. */
    function Move(offset: Vec2): BoxColliderAABB {
      Create(Vec2(center.x + offset.x, center.y + offset.y), halfSize)
    }

    /** `move` as its documentation describes it: the same box, shifted. */
    function MoveKeepingSize(offset: Vec2): BoxColliderAABB {
      BoxColliderAABB(center.Add(offset), halfSize)
    }
  }

  /** The arguments `new BoxColliderOBB(position, size, rotation)` receives.
      The class itself is not part of this model, so its intersection test is
      a parameter wherever it is needed. */
  datatype BoxColliderOBB = BoxColliderOBB(center: Vec2, size: Vec2, rotation: real)

  /** The half-size is half the size on each axis, so a box of non-negative
      size has a non-negative half-size. */
  lemma CreateHalvesSize(center: Vec2, size: Vec2)
    ensures BoxColliderAABB.Create(center, size).center == center
    ensures BoxColliderAABB.Create(center, size).halfSize.Scale(2.0) == size
    ensures 0.0 <= size.x && 0.0 <= size.y ==>
              0.0 <= BoxColliderAABB.Create(center, size).halfSize.x && 0.0 <= BoxColliderAABB.Create(center, size).halfSize.y
  {
  }

  lemma IntersectsSymmetric(a: BoxColliderAABB, b: BoxColliderAABB)
    ensures a.Intersects(b) == b.Intersects(a)
  {
  }

  /** Boxes with the same centre and non-negative half-sizes intersect. */
  lemma SameCenterIntersects(a: BoxColliderAABB, b: BoxColliderAABB)
    requires a.center == b.center
    requires 0.0 <= a.halfSize.x && 0.0 <= a.halfSize.y
    requires 0.0 <= b.halfSize.x && 0.0 <= b.halfSize.y
    ensures a.Intersects(b)
  {
  }

  /** On each axis the test is `gap <= combined half-extent`: a gap equal to
      the combined half-extent still intersects, any larger gap separates. */
  lemma IntersectsIffGapsWithinExtents(a: BoxColliderAABB, b: BoxColliderAABB)
    ensures a.Intersects(b) <==>
              && -(a.halfSize.x + b.halfSize.x) <= a.center.x - b.center.x <= a.halfSize.x + b.halfSize.x
              && -(a.halfSize.y + b.halfSize.y) <= a.center.y - b.center.y <= a.halfSize.y + b.halfSize.y
  {
  }

  lemma TouchingIntersects(a: BoxColliderAABB, b: BoxColliderAABB)
    requires 0.0 <= a.halfSize.x + b.halfSize.x
    requires b.center.x - a.center.x == a.halfSize.x + b.halfSize.x
    requires Abs(a.center.y - b.center.y) <= a.halfSize.y + b.halfSize.y
    ensures a.Intersects(b)
  {
  }

  lemma SeparatedOnAxisDisjoint(a: BoxColliderAABB, b: BoxColliderAABB)
    requires a.halfSize.x + b.halfSize.x < Abs(a.center.x - b.center.x)
          || a.halfSize.y + b.halfSize.y < Abs(a.center.y - b.center.y)
    ensures !a.Intersects(b)
  {
  }

  lemma ContainsOwnCenter(a: BoxColliderAABB)
    requires 0.0 <= a.halfSize.x && 0.0 <= a.halfSize.y
    ensures a.ContainsPoint(a.center)
  {
  }

  /** A point is inside a box exactly when the box meets the zero-size box
      at that point. */
  lemma ContainsPointIffIntersectsPointBox(a: BoxColliderAABB, p: Vec2)
    ensures a.ContainsPoint(p) <==> a.Intersects(BoxColliderAABB.Create(p, ZERO))
  {
  }

  /** `move` shifts the centre by exactly the offset and returns a new box;
      but the half-size of the result is half the original half-size. */
  lemma MoveHalvesHalfSize(a: BoxColliderAABB, offset: Vec2)
    ensures a.Move(offset).center == a.center.Add(offset)
    ensures a.Move(offset).halfSize == a.halfSize.Scale(0.5)
  {
  }

  /** A concrete box that stops containing one of its own points when it
      is moved by nothing. */
  lemma MoveShrinksBox()
    ensures var box := BoxColliderAABB.Create(ZERO, Vec2(2.0, 2.0));
            box.ContainsPoint(Vec2(1.0, 0.0)) && !box.Move(ZERO).ContainsPoint(Vec2(1.0, 0.0))
  {
  }

  /** The corrected move is a translation: it keeps the half-size, and
      a point is in the moved box exactly when the point moved back is in
      the original; moving two boxes alike keeps whether they intersect. */
  lemma MoveKeepingSizeTranslates(a: BoxColliderAABB, b: BoxColliderAABB, offset: Vec2, p: Vec2)
    ensures a.MoveKeepingSize(offset).center == a.center.Add(offset)
    ensures a.MoveKeepingSize(offset).halfSize == a.halfSize
    ensures a.MoveKeepingSize(offset).ContainsPoint(p.Add(offset)) <==> a.ContainsPoint(p)
    ensures a.MoveKeepingSize(offset).Intersects(b.MoveKeepingSize(offset)) <==> a.Intersects(b)
    ensures a.MoveKeepingSize(ZERO) == a
  {
    assert (a.center.x + offset.x) - (b.center.x + offset.x) == a.center.x - b.center.x;
    assert (a.center.y + offset.y) - (b.center.y + offset.y) == a.center.y - b.center.y;
  }
}
