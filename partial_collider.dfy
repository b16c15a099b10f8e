/** `PartialCollider`: a collider with a proportional active area, which
    pairs with other partial colliders through a PartialCollision. */
module PartialColliders {
  import opened Wrappers
  import opened Overlap
  import opened Collisions
  import opened ProportionalBoxes
  import opened PartialCollisions

  /** Any collider, tagged with whether it is a PartialCollider (the
      `isinstance` check). */
  datatype AnyCollider = PlainCollider(plain: Collider) | PartialColliderObject(partial: PartialCollider)

  /** What `getCollisionWith` returns: a Collision or a PartialCollision. */
  datatype AnyCollision = PlainCollision(plain: Collision) | PartialCollisionObject(partial: PartialCollision)

  /** An argument to `setActiveArea`, tagged with whether it is a
      ProportionalBB (any other Python object is `OtherValue`). */
  datatype ActiveAreaArgument = BoxValue(box: ProportionalBB) | OtherValue

  /** The TypeError `setActiveArea` raises. */
  datatype ColliderError = NotAProportionalBB

  class PartialCollider {
    /** The state inherited from Collider: the reported dimension ranges. */
    const collider: Collider
    var activeArea: ProportionalBB

    /** Runs the base initialiser, then sets the full default active area. */
    constructor (collider: Collider)
      ensures this.collider == collider
      ensures fresh(activeArea) && activeArea.Value() == FullArea
    {
      this.collider := collider;
      var area := NewFullArea();
      activeArea := area;
    }

    /** A PartialCollision when the other object is a PartialCollider;
        otherwise what the base Collider gives, a plain Collision. */
    method GetCollisionWith(other: AnyCollider) returns (c: AnyCollision)
      ensures c.PartialCollisionObject? <==> other.PartialColliderObject?
      ensures c.PartialCollisionObject? ==>
        && fresh(c.partial) && fresh(c.partial.collision)
        && c.partial.collision.collisionSource == collider
        && c.partial.collision.collidedWith == other.partial.collider
        && c.partial.collision.RecordedFields() == InitialFields(collider.ranges, other.partial.collider.ranges)
        && c.partial.collisionSourceActiveArea.Value() == FullArea
        && c.partial.collidedWithActiveArea.Value() == FullArea
      ensures c.PlainCollision? ==>
        && fresh(c.plain)
        && c.plain.collisionSource == collider
        && c.plain.collidedWith == other.plain
        && c.plain.RecordedFields() == InitialFields(collider.ranges, other.plain.ranges)
    {
      match other
      case PartialColliderObject(p) =>
        var pc := new PartialCollision(collider, p.collider);
        c := PartialCollisionObject(pc);
      case PlainCollider(o) =>
        var pc := new Collision(collider, o);
        c := PlainCollision(pc);
    }

    /** Replaces the active area with the given box (the object itself, not
        a copy); anything that is not a ProportionalBB is rejected and the
        active area is kept. */
    method SetActiveArea(newActiveArea: ActiveAreaArgument) returns (r: Outcome<ColliderError>)
      modifies this
      ensures r.Fail? <==> newActiveArea.OtherValue?
      ensures r.Fail? ==> r.error == NotAProportionalBB && activeArea == old(activeArea)
      ensures r.Pass? ==> activeArea == newActiveArea.box
    {
      if !newActiveArea.BoxValue? {
        return Fail(NotAProportionalBB);
      } else {
        activeArea := newActiveArea.box;
        return Pass;
      }
    }
  }
}
