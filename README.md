# Rectangle overlap and collision records of py_traffic_light, in Dafny

This project models the collision-detection layer of a Tkinter traffic-intersection
simulator, together with two small pieces of widget state that sit beside it.

- **Overlap** (`overlap.dfy`): `Collision.getRangeOverlap` orders each 1-D range and
  intersects the two ranges. The boundary is inclusive, so ranges that only touch give
  a zero-length overlap. `Collision.getRectangleOverlap` combines the x and y overlaps
  into `(x, y, width, height)`, or `None`.
- **Collisions** (`collisions.dfy`): the `Collision` object, a class. It holds two
  participants, four optional area fields and two optional binding ids. It has
  methods for recalculation, binding, per-field updates and fail-fast getters.
  A participant (`Collider`) is seen only through the dimension ranges
  `((x0, x1), (y0, y1))` it currently reports. A resize is an assignment to those ranges.
- **ProportionalBoxes** (`proportional_bb.dfy`): the `ProportionalBB` data class.
  Its `Validate` method rewrites the four fractional bounds in place. `New` is
  construction followed by `__post_init__`. Both are specified by the function
  `Validated`, and the quirks of the code as written are proved about that function.
- **PartialCollisions** (`partial_collision.dfy`) and **PartialColliders**
  (`partial_collider.dfy`): a collision or collider with a default full active area.
  There is no inheritance here. Each one holds its base part, a `Collision` or a
  `Collider`, as a field. The `isinstance` checks become tagged datatypes.
- **PositionReporting** (`position_reporter.dfy`): border-adjusted position, size and
  corners of a widget, as pure functions of what the toolkit reports. The dispatch
  between the static and the instance versions is modelled.
- **PrimaryFrames** (`primary_frame.dfy`): the four light names, their grid cells, and
  the cyclic selection of a light.

The model follows the code as written, including these behaviours:

- When no overlap is found, `calculateCollision` leaves the area fields as they were
  (collision.py:102-105). It does not clear them, so a recalculated collision can keep
  reporting a stale area. `StaleAreaAfterSeparation` exhibits this.
- `addBindings` overwrites existing bindings by default (`overwrite = True`,
  collision.py:149).
- `PartialCollision` does not narrow the rectangles by its active areas. Its area is
  the one the base constructor computes (partial_collision.py:30).
- `validate` does not check `yStart` against the upper bound. Its y checks are part of
  the same `elif` chain as the x checks (see Findings).

## Model

| member | source | states |
|---|---|---|
| Overlap.Normalize | collision.py:22-32 | the ordered range has start ≤ stop and is the input or the input swapped |
| Overlap.RangeOverlap | collision.py:19-49 | None iff one normalised range starts after the other ends; otherwise an ordered range inside both normalised ranges |
| Overlap.RangeOverlapIgnoresOrder | collision.py:25-32 | giving either range reversed does not change the overlap |
| Overlap.RangeOverlapFlipped | collision.py:25-32 | the overlap is the same whichever of the two ranges is reversed |
| Overlap.RangeOverlapSymmetric | collision.py:38-43 | the overlap of A and B equals the overlap of B and A |
| Overlap.RangeOverlapIsCommonPoints | collision.py:35-49 | None iff the normalised ranges share no point; otherwise the overlap holds exactly their common points |
| Overlap.TouchingRangesOverlapInPoint | collision.py:38-43 | ranges meeting only at p overlap in (p, p), in either order |
| Overlap.RangeOverlapExamples | collision.py:38-49 | (0,5),(5,10) give (5,5); (0,5),(6,10) give None; a reversed range is normalised first |
| Overlap.RectangleOverlap | collision.py:56-85 | None iff either axis overlap is None; otherwise origin at the axis-overlap starts, width and height ≥ 0 reaching the axis-overlap ends |
| Overlap.RectangleOverlapSymmetric | collision.py:62-85 | rectangle overlap does not depend on the order of the two rectangles |
| Overlap.RectangleOverlapIgnoresOrder | collision.py:62-85 | rectangle overlap does not depend on the order in which any of the four ranges is given |
| Overlap.RectangleOverlapByAxes | collision.py:62-85 | two pairs of rectangles with equal axis overlaps have equal rectangle overlaps |
| Overlap.RectangleOverlapIsCommonPoints | collision.py:62-85 | None iff no point lies in both rectangles; otherwise the area holds exactly the common points |
| Overlap.RectangleOverlapExample | collision.py:76-85 | two 10×10 squares offset by 5 meet in (5, 5, 5, 5) |
| Collisions.Collider.constructor | partial_collider.py:42-44 | a participant reports the dimension ranges it was given |
| Collisions.AreaFields | collision.py:107-113 | recording an area sets all four fields |
| Collisions.InitialFields | collision.py:128-136 | the fields after construction: the overlap if there is one, else all unset |
| Collisions.Collision.constructor | collision.py:122-141 | keeps both participants, records the initial overlap (all fields or none), binding ids unset |
| Collisions.Collision.CalculateCollision | collision.py:93-114 | true iff the current ranges overlap; then all four fields hold the overlap; otherwise no field changes; binding ids unchanged |
| Collisions.Collision.UpdateCollision | collision.py:116-118 | the resize callback recalculates with the same effect on the area |
| Collisions.Collision.AddBindings | collision.py:149-160 | fails iff overwrite is off and a binding id is set, changing nothing; otherwise both ids are the new ones; area unchanged |
| Collisions.Collision.RemoveBindings | collision.py:166-184 | returns true iff both ids were set; afterwards both are unset; area unchanged |
| Collisions.Collision.HasCollisionArea | collision.py:195-202 | holds iff all four area fields are set, i.e. iff the origin and dimension accessors both succeed |
| Collisions.Collision.SetCollisionArea | collision.py:207-215 | overwrites exactly the given fields |
| Collisions.Collision.DelCollisionArea | collision.py:221-229 | clears exactly the selected fields, all four when `all` is set |
| Collisions.Collision.GetCollisionX | collision.py:234-238 | fails iff x is unset, else returns it |
| Collisions.Collision.GetCollisionY | collision.py:240-244 | fails iff y is unset, else returns it |
| Collisions.Collision.GetCollisionWidth | collision.py:246-250 | fails iff width is unset, else returns it |
| Collisions.Collision.GetCollisionHeight | collision.py:252-256 | fails iff height is unset, else returns it |
| Collisions.Collision.GetCollisionOrigin | collision.py:262-273 | fails, with its own error, iff the x or y getter fails; else (x, y) |
| Collisions.Collision.GetCollisionDimensions | collision.py:280-291 | fails, with its own error, iff the width or height getter fails; else (width, height) |
| Collisions.Collision.GetCollisionGeometry | collision.py:297-310 | succeeds iff origin and dimensions both do (all four fields set), and then agrees with them |
| Collisions.Collision.GetCollisionCorners | collision.py:318-329 | succeeds iff the geometry does; then ((x, y), (x + width, y + height)) |
| Collisions.AccessorsFailTogether | collision.py:195-256 | while the fields are all set or all unset, each accessor fails iff there is no collision area |
| Collisions.GeometryOfRecordedArea | collision.py:297-325 | the geometry read back from recorded fields is the recorded area, with matching corners |
| Collisions.NewCollisionGeometry | collision.py:122-136 | a new collision's geometry is the rectangle overlap of its participants; with no overlap every accessor fails |
| Collisions.StaleAreaAfterSeparation | collision.py:102-105 | participants moved apart and recalculated: no overlap is found, yet the old area (5, 5, 5, 5) is still reported |
| ProportionalBoxes.OutOfRangeBound | proportional_bb.py:60-71 | no bound is named iff xStart, xEnd, yEnd lie in [0,1] and yStart ≥ 0; the x bounds are named first |
| ProportionalBoxes.Validated | proportional_bb.py:60-108 | a named bound is an OutOfRange error; on success x is strictly ordered and each axis keeps its pair of values |
| ProportionalBoxes.ProportionalBB.Init | proportional_bb.py:11-19 | the data-class initialiser stores the four bounds and `silent` |
| ProportionalBoxes.ProportionalBB.Validate | proportional_bb.py:26-108 | in place, the bounds become Validated's result; on an error they are unchanged and the error is returned |
| ProportionalBoxes.ProportionalBB.New | proportional_bb.py:111-113 | construction always validates: a fresh box holding Validated's result, or its error |
| ProportionalBoxes.RangeCheckRejects | proportional_bb.py:63-76 | rejected as out of range iff xStart, xEnd or yEnd is outside [0,1] or yStart < 0 |
| ProportionalBoxes.YStartAboveOneAccepted | proportional_bb.py:68 | (0, 1, 2, 0.5) validates to (0, 1, 0.5, 2); a yEnd of 2 is reported as yStart |
| ProportionalBoxes.RangeCheckBeforeSwap | proportional_bb.py:63-84 | an out-of-range box is rejected in either x order; the range check does not depend on x order |
| ProportionalBoxes.ReversedXSwapped | proportional_bb.py:84-90 | reversed x bounds in range are swapped and y is left as given |
| ProportionalBoxes.EqualXRejected | proportional_bb.py:91-92 | equal x bounds in range give a zero-size x error |
| ProportionalBoxes.YExaminedOnlyAfterOrderedX | proportional_bb.py:84-103 | y is swapped or rejected only when x was strictly ordered; when x is swapped, y is untouched |
| ProportionalBoxes.ReversedYSurvivesXSwap | proportional_bb.py:84-103 | (1, 0, 1, 0) validates to (0, 1, 1, 0); (1, 0, 0.5, 0.5) is accepted |
| ProportionalBoxes.ValidatedNotIdempotent | proportional_bb.py:64-103 | a second validation can change the box again, (0, 1, 1, 0) to (0, 1, 0, 1), or reject it, (0, 1, 0.5, 2) as a bad yStart |
| ProportionalBoxes.ValidatedKeepsOrderedBox | proportional_bb.py:84-103 | a box in range and strictly ordered on both axes is left unchanged |
| ProportionalBoxes.IntendedValidated | proportional_bb.py:21-25 | the corrected validation: on success every bound is in [0,1] and both axes are strictly ordered; a bound outside [0,1] is an OutOfRange error |
| ProportionalBoxes.IntendedValidatedCorrect | proportional_bb.py:21-25 | the corrected validation succeeds iff every bound is in [0,1] and no axis has zero size, and then is strictly ordered and keeps each pair |
| ProportionalBoxes.ValidatedAgreesWhenOrdered | proportional_bb.py:63-103 | with yStart, yEnd ≤ 1 and not (x reversed while y is not increasing), the code as written equals the corrected validation |
| PartialCollisions.FullAreaIsValid | partial_collision.py:22-23 | the default (0, 1, 0, 1) passes validation unchanged |
| PartialCollisions.NewFullArea | partial_collision.py:35-40 | constructing the default box yields a fresh box holding (0, 1, 0, 1) |
| PartialCollisions.PartialCollision.constructor | partial_collision.py:27-47 | base constructor area as for a plain Collision, ids unset; two fresh, distinct active areas, each (0, 1, 0, 1) |
| PartialCollisions.SameAreaAsPlainCollision | partial_collision.py:30 | a PartialCollision records the same area as a plain Collision on the same pair |
| PartialCollisions.ActiveAreasIndependent | partial_collision.py:35-47 | changing the source's active area leaves the other one at (0, 1, 0, 1) |
| PartialColliders.PartialCollider.constructor | partial_collider.py:21-30 | keeps the base collider; the active area is a fresh (0, 1, 0, 1) box |
| PartialColliders.PartialCollider.GetCollisionWith | partial_collider.py:35-39 | a PartialCollision iff the other object is a PartialCollider, else a plain Collision; either is built on this pair |
| PartialColliders.PartialCollider.SetActiveArea | partial_collider.py:60-65 | a ProportionalBB replaces the active area by reference; anything else is a TypeError and the area is kept |
| PositionReporting.GetPosOfWidget | position_reporter.py:42-63 | on every dispatch path, (raw x − parent border, raw y − parent border) |
| PositionReporting.GetPos | position_reporter.py:72-77 | the default getPos forces the static path and gives the border-adjusted position |
| PositionReporting.GetDimensionsOfWidget | position_reporter.py:83-92 | on every dispatch path, (width, height) as reported |
| PositionReporting.GetDimensions | position_reporter.py:97-98 | the default getDimensions forces the static path and gives the reported size |
| PositionReporting.GetCornersOfWidget | position_reporter.py:104-124 | the top-left corner is the position; the bottom-right one is that plus (width, height) |
| PositionReporting.GetCorners | position_reporter.py:128-129 | the top-left corner equals getPos(); the bottom-right one is that plus getDimensions() |
| PositionReporting.CornersFromMeasurements | position_reporter.py:104-124 | on either path the corners are fixed by the raw position, border and size |
| PrimaryFrames.IndexOf | primary_frame.py:143 | the index of the first occurrence of the name |
| PrimaryFrames.NextLightName | primary_frame.py:141-156 | the next name is again a light name |
| PrimaryFrames.PrimaryFrame.constructor | primary_frame.py:133 | the selection starts at the first name, "north" |
| PrimaryFrames.PrimaryFrame.GetSelectedLightName | primary_frame.py:137-138 | the selected name is a light name with a grid cell |
| PrimaryFrames.PrimaryFrame.IncrementSelectedLightName | primary_frame.py:141-156 | the selection moves to the next name and stays a light name |
| PrimaryFrames.NextLightNameOrder | primary_frame.py:143-156 | name i is followed by name (i + 1) mod 4, in north, east, south, west order |
| PrimaryFrames.WestWrapsToNorth | primary_frame.py:155-156 | after "west" comes "north" |
| PrimaryFrames.FourIncrementsReturn | primary_frame.py:141-156 | four increments return to the starting name |
| PrimaryFrames.CoordinatesCoverNamesDistinctly | primary_frame.py:17-31 | the names with a grid cell are exactly the light names, and no two share a cell |

## Findings

| source | as written | input that shows it | evidently intended | confidence | as-written member | corrected member |
|---|---|---|---|---|---|---|
| proportional_bb.py:68 | the yStart range test compares `yEnd` with 1, not `yStart` | (0, 1, 2, 0.5) is accepted and becomes (0, 1, 0.5, 2), with yEnd outside [0, 1]; (0, 1, 0.5, 2) is reported as a bad yStart | every bound is checked against [0, 1], as the comments at lines 21-25 say | high; not executed | ProportionalBoxes.YStartAboveOneAccepted | ProportionalBoxes.IntendedValidatedCorrect |
| proportional_bb.py:84-103 | the x and y ordering checks form one `elif` chain, so y is skipped whenever x is swapped | (1, 0, 1, 0) becomes (0, 1, 1, 0), with y still reversed; (1, 0, 0.5, 0.5) is accepted with zero height | each axis is swapped when reversed and rejected when of zero size, as the comments at lines 21-25 say | high; not executed | ProportionalBoxes.ReversedYSurvivesXSwap | ProportionalBoxes.IntendedValidatedCorrect |

In both rows the corrected definition is `ProportionalBoxes.IntendedValidated`, and
`IntendedValidatedCorrect` is the property proved about it.
`ValidatedAgreesWhenOrdered` shows that it agrees with the code wherever neither
defect is reached. That covers every box this model constructs: the default
(0, 1, 0, 1) is one. The `ProportionalBB` class keeps the validation as written.

## Left out

- Tkinter plumbing: `bind`/`unbind`, `winfo_*`, `cget`, layout, the event loop. Binding ids are opaque `FuncId` values passed in to `AddBindings`. Widget measurements are the fields of `PositionReporting.Widget`, and a participant's ranges are a field of `Collisions.Collider`.
- The trailing comma at collision.py:159 stores the source binding id inside a one-element tuple. The model treats both stored ids as opaque handles. Whether the toolkit's `unbind` accepts that tuple is toolkit behaviour and is not modelled.
- `print` warnings, including those in `updateCollision`, `addBindings`, `removeBindings` and `validate`. Also `__enter__`/`__exit__`, `__repr__` and `__str__`. These are diagnostics and formatting only. The `silent` flag is stored but affects only printing.
- The float conversion in `validate` (proportional_bb.py:28-58) and its TypeError. Bounds are modelled as reals that are already numeric.
- NaN bounds cannot be represented by reals. The source accepts them: a NaN bound is already a float, so no cast happens, and every comparison at proportional_bb.py:64-103 is false, so `validate` leaves a box such as (nan, 0.5, 0.0, 1.0) unchanged. `Validated` promises xStart < xEnd on success, which such a box does not meet.
- `PartialCollider.getActiveAreaRanges` and `getActiveArea` (partial_collider.py:45-56). They call `calculateDimensionRanges` and `getCopy`, which proportional_bb.py does not define.
- `Collider.getDimensionRanges` and the base `Collider.getCollisionWith` are not part of this model. Participants are abstract range providers. The non-partial branch of `GetCollisionWith` is taken to construct a plain `Collision`, as the comment at partial_collider.py:34 says.
- `Collider.getCollidingObjects` (collider.py:15-30) enumerates siblings through the toolkit and then raises `NotImplementedError`, so there is no behaviour to model.
- Overridden `getPos`/`getDimensions` in subclasses of PositionReporter. Only the default methods are modelled.
- `PrimaryFrame.getSelectedLight` and `incrementSelectedLight`. The first looks up a traffic-light widget; the second is an alias of `incrementSelectedLightName`. Widget construction in the `PrimaryFrame` constructor is also left out.
- road.py, road_intersection.py, traffic_light.py, trafficlight.py, vehicle.py and py_traffic_light.py. These are drawing and widget construction.
