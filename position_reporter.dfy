/** `PositionReporter`: a widget's position, size and corners within its
    parent, computed from what the toolkit reports about the widget. */
module PositionReporting {

  /** What the toolkit reports for a widget: its raw position, its
      parent's border width, its width and height, and whether the widget
      is itself a PositionReporter (the `isinstance` check). */
  datatype Widget = Widget(
    winfoX: int, winfoY: int, parentBorderWidth: int,
    winfoWidth: int, winfoHeight: int,
    isPositionReporter: bool)

  /** The position of a widget within its parent. A PositionReporter is
      asked through its own `getPos` unless `forceStatic` holds; either way
      the result is the raw position less the parent's border width. */
  function GetPosOfWidget(w: Widget, forceStatic: bool): (p: (int, int))
    ensures p == (w.winfoX - w.parentBorderWidth, w.winfoY - w.parentBorderWidth)
    decreases if forceStatic then 0 else 2
  {
    if !forceStatic && w.isPositionReporter then
      GetPos(w)
    else
      var baseX := w.winfoX;
      var baseY := w.winfoY;
      var parentBorderWidth := w.parentBorderWidth;
      (baseX - parentBorderWidth, baseY - parentBorderWidth)
  }

  /** The default `getPos` of a PositionReporter: the static path, forced,
      so that the dispatch in GetPosOfWidget does not come back here. */
  function GetPos(w: Widget): (p: (int, int))
    requires w.isPositionReporter
    ensures p == (w.winfoX - w.parentBorderWidth, w.winfoY - w.parentBorderWidth)
    decreases 1
  {
    GetPosOfWidget(w, true)
  }

  /** The size of a widget as reported, through its own `getDimensions`
      for a PositionReporter unless `forceStatic` holds. */
  function GetDimensionsOfWidget(w: Widget, forceStatic: bool): (d: (int, int))
    ensures d == (w.winfoWidth, w.winfoHeight)
    decreases if forceStatic then 0 else 2
  {
    if !forceStatic && w.isPositionReporter then
      GetDimensions(w)
    else
      (w.winfoWidth, w.winfoHeight)
  }

  /** The default `getDimensions`: the static path, forced. */
  function GetDimensions(w: Widget): (d: (int, int))
    requires w.isPositionReporter
    ensures d == (w.winfoWidth, w.winfoHeight)
    decreases 1
  {
    GetDimensionsOfWidget(w, true)
  }

  /** The top-left corner is the widget's position, the bottom-right one
      that position moved by the widget's width and height. */
  function GetCornersOfWidget(w: Widget, forceStatic: bool): (c: ((int, int), (int, int)))
    ensures c.0 == GetPosOfWidget(w, forceStatic)
    ensures c.1 == (c.0.0 + GetDimensionsOfWidget(w, forceStatic).0, c.0.1 + GetDimensionsOfWidget(w, forceStatic).1)
  {
    var cornerTL := if !forceStatic && w.isPositionReporter then GetPos(w) else GetPosOfWidget(w, false);
    var dims := if !forceStatic && w.isPositionReporter then GetDimensions(w) else GetDimensionsOfWidget(w, false);
    var cornerBR := (cornerTL.0 + dims.0, cornerTL.1 + dims.1);
    (cornerTL, cornerBR)
  }

  /** The corners of a PositionReporter: the top-left one is `getPos()`. */
  function GetCorners(w: Widget): (c: ((int, int), (int, int)))
    requires w.isPositionReporter
    ensures c.0 == GetPos(w)
    ensures c.1 == (c.0.0 + GetDimensions(w).0, c.0.1 + GetDimensions(w).1)
  {
    GetCornersOfWidget(w, false)
  }

  /** Whichever path is taken, the corners are the border-adjusted position
      and that position plus the reported size. */
  lemma CornersFromMeasurements(w: Widget, forceStatic: bool)
    ensures GetCornersOfWidget(w, forceStatic) ==
      ((w.winfoX - w.parentBorderWidth, w.winfoY - w.parentBorderWidth),
       (w.winfoX - w.parentBorderWidth + w.winfoWidth, w.winfoY - w.parentBorderWidth + w.winfoHeight))
  {
  }
}
