/** The `Collision` record: two participants, the cached overlap area held
    in four optional fields, and the two optional binding ids that keep the
    area up to date while the participants are resized. */
module Collisions {
  import opened Wrappers
  import opened Overlap

  /** A collision participant, seen only through the dimension ranges
      `((x0, x1), (y0, y1))` it currently reports. Resizing or moving the
      widget is an assignment to `ranges` made by the toolkit. */
  class Collider {
    var ranges: Rect

    constructor (ranges: Rect)
      ensures this.ranges == ranges
    {
      this.ranges := ranges;
    }
  }

  /** The opaque id the toolkit returns when a resize callback is bound. */
  datatype FuncId = FuncId(id: nat)

  /** The accessor that raised the error. */
  datatype Accessor = X | Y | Width | Height | Origin | Dimensions | Geometry | Corners

  /** The errors the Collision methods raise: reading an unset area
      field, or adding bindings when some already exist. */
  datatype Error = NotSet(accessor: Accessor) | BindingsExist

  /** The four area fields, each possibly unset. */
  datatype Fields = Fields(x: Option<int>, y: Option<int>, width: Option<int>, height: Option<int>)

  /** All four fields unset. */
  const NoArea: Fields := Fields(None, None, None, None)

  /** The fields recording a known overlap area. */
  function AreaFields(a: Area): (f: Fields)
    ensures f.x.Some? && f.y.Some? && f.width.Some? && f.height.Some?
  {
    Fields(Some(a.x), Some(a.y), Some(a.width), Some(a.height))
  }

  /** The fields a fresh Collision holds: the overlap of the two rectangles
      if there is one, otherwise all unset. */
  function InitialFields(source: Rect, other: Rect): (f: Fields)
    ensures RectangleOverlap(source, other).None? ==> f == NoArea
    ensures RectangleOverlap(source, other).Some? ==> f == AreaFields(RectangleOverlap(source, other).value)
  {
    match RectangleOverlap(source, other)
    case Some(a) => AreaFields(a)
    case None => NoArea
  }

  class Collision {
    const collisionSource: Collider
    const collidedWith: Collider

    var collisionX: Option<int>
    var collisionY: Option<int>
    var collisionWidth: Option<int>
    var collisionHeight: Option<int>

    var collisionSourceFuncId: Option<FuncId>
    var collidedWithFuncId: Option<FuncId>

    /** The four area fields taken together. */
    function RecordedFields(): Fields
      reads this
    {
      Fields(collisionX, collisionY, collisionWidth, collisionHeight)
    }

    /** The area fields are either all set or all unset. The methods that
        recompute or clear the area keep this; per-field updates may not. */
    ghost predicate AreaConsistent()
      reads this
    {
      collisionX.Some? == collisionY.Some? == collisionWidth.Some? == collisionHeight.Some?
    }

    /** The area fields start unset, the area is calculated once, then both
        binding ids start unset. */
    constructor (collisionSource: Collider, collidedWith: Collider)
      ensures this.collisionSource == collisionSource && this.collidedWith == collidedWith
      ensures RecordedFields() == InitialFields(collisionSource.ranges, collidedWith.ranges)
      ensures AreaConsistent()
      ensures collisionSourceFuncId == None && collidedWithFuncId == None
    {
      this.collisionSource := collisionSource;
      this.collidedWith := collidedWith;
      collisionX, collisionY, collisionWidth, collisionHeight := None, None, None, None;
      new;
      var found := CalculateCollision();
      collisionSourceFuncId := None;
      collidedWithFuncId := None;
    }

    /** Recomputes the overlap of the participants' current ranges. When
        there is an overlap all four fields are set and the result is true;
        when there is none the result is false and NO field is changed, so a
        previously recorded area survives. */
    method CalculateCollision() returns (found: bool)
      modifies this
      ensures found <==> RectangleOverlap(collisionSource.ranges, collidedWith.ranges).Some?
      ensures found ==> RecordedFields() == AreaFields(RectangleOverlap(collisionSource.ranges, collidedWith.ranges).value)
      ensures !found ==> RecordedFields() == old(RecordedFields())
      ensures old(AreaConsistent()) ==> AreaConsistent()
      ensures collisionSourceFuncId == old(collisionSourceFuncId) && collidedWithFuncId == old(collidedWithFuncId)
    {
      var srcRanges := collisionSource.ranges;
      var objRanges := collidedWith.ranges;
      var collisionArea := RectangleOverlap(srcRanges, objRanges);
      if collisionArea.None? {
        return false;
      } else {
        collisionX := Some(collisionArea.value.x);
        collisionY := Some(collisionArea.value.y);
        collisionWidth := Some(collisionArea.value.width);
        collisionHeight := Some(collisionArea.value.height);
        return true;
      }
    }

    /** The resize callback: recalculates and discards the result. */
    method UpdateCollision()
      modifies this
      ensures RectangleOverlap(collisionSource.ranges, collidedWith.ranges).Some? ==>
        RecordedFields() == AreaFields(RectangleOverlap(collisionSource.ranges, collidedWith.ranges).value)
      ensures RectangleOverlap(collisionSource.ranges, collidedWith.ranges).None? ==> RecordedFields() == old(RecordedFields())
      ensures collisionSourceFuncId == old(collisionSourceFuncId) && collidedWithFuncId == old(collidedWithFuncId)
    {
      var _ := CalculateCollision();
    }

    /** Records the ids of two new resize bindings. Existing bindings are
        first removed when `overwrite` holds; otherwise their presence is an
        error and nothing changes. The ids are what the toolkit's bind call
        returned for each participant. */
    method AddBindings(overwrite: bool, sourceId: FuncId, otherId: FuncId) returns (r: Outcome<Error>)
      modifies this
      ensures r.Fail? <==> !overwrite && (old(collisionSourceFuncId).Some? || old(collidedWithFuncId).Some?)
      ensures r.Fail? ==> r.error == BindingsExist
      ensures r.Fail? ==> collisionSourceFuncId == old(collisionSourceFuncId) && collidedWithFuncId == old(collidedWithFuncId)
      ensures r.Pass? ==> collisionSourceFuncId == Some(sourceId) && collidedWithFuncId == Some(otherId)
      ensures RecordedFields() == old(RecordedFields())
    {
      if collisionSourceFuncId.Some? || collidedWithFuncId.Some? {
        if overwrite {
          var _ := RemoveBindings();
        } else {
          return Fail(BindingsExist);
        }
      }
      collisionSourceFuncId := Some(sourceId);
      collidedWithFuncId := Some(otherId);
      r := Pass;
    }

    /** Unbinds both callbacks. Returns true iff both were set; afterwards
        neither is. */
    method RemoveBindings() returns (bothWereSet: bool)
      modifies this
      ensures bothWereSet <==> old(collisionSourceFuncId).Some? && old(collidedWithFuncId).Some?
      ensures collisionSourceFuncId == None && collidedWithFuncId == None
      ensures RecordedFields() == old(RecordedFields())
    {
      bothWereSet := true;
      if collisionSourceFuncId.Some? {
        collisionSourceFuncId := None;
      } else {
        bothWereSet := false;
      }
      if collidedWithFuncId.Some? {
        collidedWithFuncId := None;
      } else {
        bothWereSet := false;
      }
    }

    /** All four area fields are set. */
    predicate HasCollisionArea()
      reads this
      ensures HasCollisionArea() <==> GetCollisionOrigin().Success? && GetCollisionDimensions().Success?
    {
      collisionX.Some? && collisionY.Some? && collisionWidth.Some? && collisionHeight.Some?
    }

    /** Overwrites exactly the fields that are given. */
    method SetCollisionArea(x: Option<int>, y: Option<int>, width: Option<int>, height: Option<int>)
      modifies this
      ensures collisionX == (if x.Some? then x else old(collisionX))
      ensures collisionY == (if y.Some? then y else old(collisionY))
      ensures collisionWidth == (if width.Some? then width else old(collisionWidth))
      ensures collisionHeight == (if height.Some? then height else old(collisionHeight))
      ensures collisionSourceFuncId == old(collisionSourceFuncId) && collidedWithFuncId == old(collidedWithFuncId)
    {
      if x.Some? { collisionX := x; }
      if y.Some? { collisionY := y; }
      if width.Some? { collisionWidth := width; }
      if height.Some? { collisionHeight := height; }
    }

    /** Clears exactly the selected fields, or all four when `all` holds. */
    method DelCollisionArea(x: bool, y: bool, width: bool, height: bool, all: bool)
      modifies this
      ensures collisionX == (if all || x then None else old(collisionX))
      ensures collisionY == (if all || y then None else old(collisionY))
      ensures collisionWidth == (if all || width then None else old(collisionWidth))
      ensures collisionHeight == (if all || height then None else old(collisionHeight))
      ensures all ==> RecordedFields() == NoArea && AreaConsistent()
      ensures collisionSourceFuncId == old(collisionSourceFuncId) && collidedWithFuncId == old(collidedWithFuncId)
    {
      if all || x { collisionX := None; }
      if all || y { collisionY := None; }
      if all || width { collisionWidth := None; }
      if all || height { collisionHeight := None; }
    }

    /** The x field; fails iff it is unset. */
    function GetCollisionX(): (r: Result<int, Error>)
      reads this
      ensures r.Failure? <==> collisionX.None?
      ensures r.Success? ==> Some(r.value) == collisionX
      ensures r.Failure? ==> r.error == NotSet(X)
    {
      if collisionX.None? then Failure(NotSet(X)) else Success(collisionX.value)
    }

    /** The y field; fails iff it is unset. */
    function GetCollisionY(): (r: Result<int, Error>)
      reads this
      ensures r.Failure? <==> collisionY.None?
      ensures r.Success? ==> Some(r.value) == collisionY
      ensures r.Failure? ==> r.error == NotSet(Y)
    {
      if collisionY.None? then Failure(NotSet(Y)) else Success(collisionY.value)
    }

    /** The width field; fails iff it is unset. */
    function GetCollisionWidth(): (r: Result<int, Error>)
      reads this
      ensures r.Failure? <==> collisionWidth.None?
      ensures r.Success? ==> Some(r.value) == collisionWidth
      ensures r.Failure? ==> r.error == NotSet(Width)
    {
      if collisionWidth.None? then Failure(NotSet(Width)) else Success(collisionWidth.value)
    }

    /** The height field; fails iff it is unset. */
    function GetCollisionHeight(): (r: Result<int, Error>)
      reads this
      ensures r.Failure? <==> collisionHeight.None?
      ensures r.Success? ==> Some(r.value) == collisionHeight
      ensures r.Failure? ==> r.error == NotSet(Height)
    {
      if collisionHeight.None? then Failure(NotSet(Height)) else Success(collisionHeight.value)
    }

    /** `(x, y)`; fails, with its own error, iff either getter fails. */
    function GetCollisionOrigin(): (r: Result<(int, int), Error>)
      reads this
      ensures r.Failure? <==> GetCollisionX().Failure? || GetCollisionY().Failure?
      ensures r.Success? ==> r.value == (GetCollisionX().value, GetCollisionY().value)
      ensures r.Failure? ==> r.error == NotSet(Origin)
    {
      var x := GetCollisionX();
      var y := GetCollisionY();
      if x.Failure? || y.Failure? then Failure(NotSet(Origin)) else Success((x.value, y.value))
    }

    /** `(width, height)`; fails, with its own error, iff either getter fails. */
    function GetCollisionDimensions(): (r: Result<(int, int), Error>)
      reads this
      ensures r.Failure? <==> GetCollisionWidth().Failure? || GetCollisionHeight().Failure?
      ensures r.Success? ==> r.value == (GetCollisionWidth().value, GetCollisionHeight().value)
      ensures r.Failure? ==> r.error == NotSet(Dimensions)
    {
      var w := GetCollisionWidth();
      var h := GetCollisionHeight();
      if w.Failure? || h.Failure? then Failure(NotSet(Dimensions)) else Success((w.value, h.value))
    }

    /** `(x, y, width, height)`; fails iff not all four fields are set, and
        otherwise agrees with the origin and dimension accessors. */
    function GetCollisionGeometry(): (r: Result<Area, Error>)
      reads this
      ensures r.Success? <==> GetCollisionOrigin().Success? && GetCollisionDimensions().Success?
      ensures r.Success? ==> r.value == Area(GetCollisionOrigin().value.0, GetCollisionOrigin().value.1,
                                                     GetCollisionDimensions().value.0, GetCollisionDimensions().value.1)
      ensures r.Failure? ==> r.error == NotSet(Geometry)
    {
      if HasCollisionArea() then
        Success(Area(GetCollisionX().value, GetCollisionY().value,
                             GetCollisionWidth().value, GetCollisionHeight().value))
      else
        Failure(NotSet(Geometry))
    }

    /** The top-left and bottom-right corners of the area; fails iff the
        geometry does. */
    function GetCollisionCorners(): (r: Result<((int, int), (int, int)), Error>)
      reads this
      ensures r.Success? <==> GetCollisionGeometry().Success?
      ensures r.Success? ==>
        var g := GetCollisionGeometry().value;
        r.value == ((g.x, g.y), (g.x + g.width, g.y + g.height))
      ensures r.Failure? ==> r.error == NotSet(Corners)
    {
      if HasCollisionArea() then
        var g := GetCollisionGeometry().value;
        var cornerTL := (g.x, g.y);
        var cornerBR := (g.x + g.width, g.y + g.height);
        Success((cornerTL, cornerBR))
      else
        Failure(NotSet(Corners))
    }
  }

  /** While the area fields are all set or all unset, every accessor fails
      exactly when no area is recorded. */
  lemma AccessorsFailTogether(c: Collision)
    requires c.AreaConsistent()
    ensures c.GetCollisionX().Failure? <==> !c.HasCollisionArea()
    ensures c.GetCollisionY().Failure? <==> !c.HasCollisionArea()
    ensures c.GetCollisionWidth().Failure? <==> !c.HasCollisionArea()
    ensures c.GetCollisionHeight().Failure? <==> !c.HasCollisionArea()
    ensures c.GetCollisionGeometry().Failure? <==> !c.HasCollisionArea()
    ensures c.GetCollisionOrigin().Failure? <==> !c.HasCollisionArea()
    ensures c.GetCollisionDimensions().Failure? <==> !c.HasCollisionArea()
    ensures c.GetCollisionCorners().Failure? <==> !c.HasCollisionArea()
  {
  }

  /** The geometry read back from recorded fields is the area they record,
      and the corners are its top-left and bottom-right points. */
  lemma GeometryOfRecordedArea(c: Collision, a: Area)
    requires c.RecordedFields() == AreaFields(a)
    ensures c.HasCollisionArea()
    ensures c.GetCollisionGeometry() == Success(a)
    ensures c.GetCollisionCorners() == Success(((a.x, a.y), (a.x + a.width, a.y + a.height)))
  {
  }

  /** A collision whose participants overlap exposes the area computed by
      RectangleOverlap; one whose participants are disjoint has no area and
      every accessor fails. */
  method NewCollisionGeometry(source: Collider, other: Collider) returns (c: Collision)
    ensures RectangleOverlap(source.ranges, other.ranges).Some? ==>
      c.GetCollisionGeometry() == Success(RectangleOverlap(source.ranges, other.ranges).value)
    ensures RectangleOverlap(source.ranges, other.ranges).None? ==>
      !c.HasCollisionArea() && c.GetCollisionX().Failure? && c.GetCollisionY().Failure?
      && c.GetCollisionWidth().Failure? && c.GetCollisionHeight().Failure?
      && c.GetCollisionOrigin().Failure? && c.GetCollisionDimensions().Failure?
      && c.GetCollisionGeometry().Failure? && c.GetCollisionCorners().Failure?
  {
    c := new Collision(source, other);
    if RectangleOverlap(source.ranges, other.ranges).Some? {
      GeometryOfRecordedArea(c, RectangleOverlap(source.ranges, other.ranges).value);
    }
  }

  /** Because the recalculation leaves the fields alone when the overlap
      disappears, a collision whose participants are moved apart and then
      recalculated still reports its old area. */
  method StaleAreaAfterSeparation() returns (overlapsNow: bool, hasArea: bool, geometry: Result<Area, Error>)
    ensures !overlapsNow && hasArea
    ensures geometry == Success(Area(5, 5, 5, 5))
  {
    var a := new Collider(Rect(Range(0, 10), Range(0, 10)));
    var b := new Collider(Rect(Range(5, 15), Range(5, 15)));
    var c := new Collision(a, b);
    b.ranges := Rect(Range(20, 30), Range(20, 30));
    var found := c.CalculateCollision();
    overlapsNow := found;
    hasArea := c.HasCollisionArea();
    geometry := c.GetCollisionGeometry();
  }
}
