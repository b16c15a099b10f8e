/** `PartialCollision`: a Collision that also carries one proportional
    active area per participant. The Python subclass is modelled by
    composition: the base part is a `Collision` object of its own. */
module PartialCollisions {
  import opened Wrappers
  import opened Overlap
  import opened Collisions
  import opened ProportionalBoxes

  /** The default active-area bounds: the whole area. */
  const DefaultActiveStart: real := 0.0
  const DefaultActiveEnd: real := 1.0

  /** The default active area as bounds. */
  const FullArea: Bounds := Bounds(DefaultActiveStart, DefaultActiveEnd, DefaultActiveStart, DefaultActiveEnd)

  /** The full area passes validation unchanged. */
  lemma FullAreaIsValid()
    ensures Validated(FullArea) == Success(FullArea)
  {
    ValidatedKeepsOrderedBox(FullArea);
  }

  /** Builds a new default active area. */
  method NewFullArea() returns (bb: ProportionalBB)
    ensures fresh(bb) && bb.Value() == FullArea && !bb.silent
  {
    FullAreaIsValid();
    var r := ProportionalBB.New(DefaultActiveStart, DefaultActiveEnd, DefaultActiveStart, DefaultActiveEnd, false);
    assert r.Success?;
    bb := r.value;
  }

  class PartialCollision {
    /** The state inherited from Collision: participants, area, bindings. */
    const collision: Collision
    var collisionSourceActiveArea: ProportionalBB
    var collidedWithActiveArea: ProportionalBB

    /** Runs the base constructor, which computes the area before any
        active area exists, then gives each participant its own full
        active area. */
    constructor (collisionSource: Collider, collidedWith: Collider)
      ensures fresh(collision)
      ensures collision.collisionSource == collisionSource && collision.collidedWith == collidedWith
      ensures collision.RecordedFields() == InitialFields(collisionSource.ranges, collidedWith.ranges)
      ensures collision.AreaConsistent()
      ensures collision.collisionSourceFuncId == None && collision.collidedWithFuncId == None
      ensures fresh(collisionSourceActiveArea) && fresh(collidedWithActiveArea)
      ensures collisionSourceActiveArea != collidedWithActiveArea
      ensures collisionSourceActiveArea.Value() == FullArea && collidedWithActiveArea.Value() == FullArea
    {
      collision := new Collision(collisionSource, collidedWith);
      var sourceArea := NewFullArea();
      var otherArea := NewFullArea();
      collisionSourceActiveArea := sourceArea;
      collidedWithActiveArea := otherArea;
    }
  }

  /** A partial collision records the same area as a plain collision built
      on the same pair at the same time. */
  method SameAreaAsPlainCollision(source: Collider, other: Collider) returns (plain: Fields, partial: Fields)
    ensures plain == partial
    ensures plain == InitialFields(source.ranges, other.ranges)
  {
    var c := new Collision(source, other);
    var p := new PartialCollision(source, other);
    plain, partial := c.RecordedFields(), p.collision.RecordedFields();
  }

  /** The two active areas are separate objects: revalidating or changing
      one leaves the other as it was. */
  method ActiveAreasIndependent(source: Collider, other: Collider, b: Bounds)
    returns (sourceArea: Bounds, otherArea: Bounds)
    ensures sourceArea == b && otherArea == FullArea
  {
    var p := new PartialCollision(source, other);
    p.collisionSourceActiveArea.xStart := b.xStart;
    p.collisionSourceActiveArea.xEnd := b.xEnd;
    p.collisionSourceActiveArea.yStart := b.yStart;
    p.collisionSourceActiveArea.yEnd := b.yEnd;
    sourceArea, otherArea := p.collisionSourceActiveArea.Value(), p.collidedWithActiveArea.Value();
  }
}
