/** Interval and rectangle overlap: the static helpers
    `Collision.getRangeOverlap` and `Collision.getRectangleOverlap`. */
module Overlap {
  import opened Wrappers

  /** A 1-D range `(start, stop)`; callers may give it in either order. */
  datatype Range = Range(start: int, stop: int)

  /** Dimension ranges `((x0, x1), (y0, y1))` of a widget. */
  datatype Rect = Rect(x: Range, y: Range)

  /** An overlap area `(x, y, width, height)`. */
  datatype Area = Area(x: int, y: int, width: int, height: int)

  /** The same range with its two ends exchanged. */
  function Flip(r: Range): Range {
    Range(r.stop, r.start)
  }

  /** The rectangle with the ends of each of its ranges exchanged as asked. */
  function FlipRect(r: Rect, flipX: bool, flipY: bool): Rect {
    Rect(if flipX then Flip(r.x) else r.x, if flipY then Flip(r.y) else r.y)
  }

  /** Point `p` lies in the (ordered) range `r`; boundaries are inclusive. */
  predicate InRange(r: Range, p: int) {
    r.start <= p <= r.stop
  }

  /** Point `(px, py)` lies in the area `a`, boundaries included. */
  predicate InArea(a: Area, px: int, py: int) {
    a.x <= px <= a.x + a.width && a.y <= py <= a.y + a.height
  }

  /** Each range is ordered so that its first value is at most its second. */
  function Normalize(r: Range): (n: Range)
    ensures n.start <= n.stop
    ensures n == r || n == Flip(r)
  {
    if r.start > r.stop then Range(r.stop, r.start) else r
  }

  /** The intersection of two ranges, or None when they do not meet.
      Touching ends count as meeting and give a zero-length overlap. */
  function RangeOverlap(a: Range, b: Range): (r: Option<Range>)
    ensures r.None? <==> Normalize(a).start > Normalize(b).stop || Normalize(b).start > Normalize(a).stop
    ensures r.Some? ==> r.value.start <= r.value.stop
    ensures r.Some? ==> Normalize(a).start <= r.value.start && r.value.stop <= Normalize(a).stop
    ensures r.Some? ==> Normalize(b).start <= r.value.start && r.value.stop <= Normalize(b).stop
  {
    var a := Normalize(a);
    var b := Normalize(b);
    if a.start <= b.stop && b.start <= a.stop then
      var overlapStart := if a.start > b.start then a.start else b.start;
      var overlapEnd := if a.stop < b.stop then a.stop else b.stop;
      Some(Range(overlapStart, overlapEnd))
    else
      None
  }

  /** The overlap of two rectangles as `(x, y, width, height)`, or None
      when they do not overlap on both axes. */
  function RectangleOverlap(a: Rect, b: Rect): (r: Option<Area>)
    ensures r.None? <==> RangeOverlap(a.x, b.x).None? || RangeOverlap(a.y, b.y).None?
    ensures r.Some? ==> r.value.width >= 0 && r.value.height >= 0
    ensures r.Some? ==> r.value.x == RangeOverlap(a.x, b.x).value.start
    ensures r.Some? ==> r.value.x + r.value.width == RangeOverlap(a.x, b.x).value.stop
    ensures r.Some? ==> r.value.y == RangeOverlap(a.y, b.y).value.start
    ensures r.Some? ==> r.value.y + r.value.height == RangeOverlap(a.y, b.y).value.stop
  {
    var xOverlap := RangeOverlap(a.x, b.x);
    if xOverlap.None? then None
    else
      var yOverlap := RangeOverlap(a.y, b.y);
      if yOverlap.None? then None
      else
        Some(Area(xOverlap.value.start, yOverlap.value.start,
                  xOverlap.value.stop - xOverlap.value.start,
                  yOverlap.value.stop - yOverlap.value.start))
  }

  /** Swapping the two ends of either input range does not change the result. */
  lemma RangeOverlapIgnoresOrder(a: Range, b: Range)
    ensures RangeOverlap(Flip(a), b) == RangeOverlap(a, b)
    ensures RangeOverlap(a, Flip(b)) == RangeOverlap(a, b)
  {
    assert Normalize(Flip(a)) == Normalize(a);
    assert Normalize(Flip(b)) == Normalize(b);
  }

  /** The overlap does not depend on which range comes first. */
  lemma RangeOverlapSymmetric(a: Range, b: Range)
    ensures RangeOverlap(a, b) == RangeOverlap(b, a)
  {
  }

  /** The overlap is exactly the set of points the two normalised ranges
      have in common: None iff they share no point, otherwise a range
      holding every common point and no other. */
  lemma RangeOverlapIsCommonPoints(a: Range, b: Range)
    ensures RangeOverlap(a, b).None?
        <==> !exists p :: InRange(Normalize(a), p) && InRange(Normalize(b), p)
    ensures RangeOverlap(a, b).Some? ==>
      forall p :: InRange(RangeOverlap(a, b).value, p)
              <==> InRange(Normalize(a), p) && InRange(Normalize(b), p)
  {
    var na, nb := Normalize(a), Normalize(b);
    if RangeOverlap(a, b).Some? {
      var r := RangeOverlap(a, b).value;
      assert InRange(r, r.start) && InRange(na, r.start) && InRange(nb, r.start);
      assert forall p :: InRange(na, p) && InRange(nb, p) ==> InRange(r, p) by {
        forall p | InRange(na, p) && InRange(nb, p) ensures InRange(r, p) {
          assert r.start == na.start || r.start == nb.start;
          assert r.stop == na.stop || r.stop == nb.stop;
        }
      }
    }
  }

  /** Ranges that only touch at `p` overlap in the zero-length range `(p, p)`. */
  lemma TouchingRangesOverlapInPoint(s: int, p: int, e: int)
    requires s <= p <= e
    ensures RangeOverlap(Range(s, p), Range(p, e)) == Some(Range(p, p))
    ensures RangeOverlap(Range(p, e), Range(s, p)) == Some(Range(p, p))
  {
  }

  /** Rectangle overlap does not depend on which rectangle comes first. */
  lemma RectangleOverlapSymmetric(a: Rect, b: Rect)
    ensures RectangleOverlap(a, b) == RectangleOverlap(b, a)
  {
    RangeOverlapSymmetric(a.x, b.x);
    RangeOverlapSymmetric(a.y, b.y);
  }

  /** Per-axis form of RangeOverlapIgnoresOrder: either, both or neither
      range may be given reversed. */
  lemma RangeOverlapFlipped(a: Range, b: Range, fa: bool, fb: bool)
    ensures RangeOverlap(if fa then Flip(a) else a, if fb then Flip(b) else b) == RangeOverlap(a, b)
  {
    RangeOverlapIgnoresOrder(a, b);
    RangeOverlapIgnoresOrder(Flip(a), b);
  }

  /** Rectangle overlap does not depend on the order in which any of the
      four ranges is given. */
  lemma RectangleOverlapIgnoresOrder(a: Rect, b: Rect, fax: bool, fay: bool, fbx: bool, fby: bool)
    ensures RectangleOverlap(FlipRect(a, fax, fay), FlipRect(b, fbx, fby)) == RectangleOverlap(a, b)
  {
    var a', b' := FlipRect(a, fax, fay), FlipRect(b, fbx, fby);
    RangeOverlapFlipped(a.x, b.x, fax, fbx);
    RangeOverlapFlipped(a.y, b.y, fay, fby);
    RectangleOverlapByAxes(a', b', a, b);
  }

  /** Rectangle overlap is determined by the two axis overlaps. */
  lemma RectangleOverlapByAxes(a: Rect, b: Rect, c: Rect, d: Rect)
    requires RangeOverlap(a.x, b.x) == RangeOverlap(c.x, d.x)
    requires RangeOverlap(a.y, b.y) == RangeOverlap(c.y, d.y)
    ensures RectangleOverlap(a, b) == RectangleOverlap(c, d)
  {
    var xo, yo := RangeOverlap(a.x, b.x), RangeOverlap(a.y, b.y);
    if xo.Some? && yo.Some? {
      assert RectangleOverlap(a, b) == Some(Area(xo.value.start, yo.value.start,
        xo.value.stop - xo.value.start, yo.value.stop - yo.value.start));
    }
  }

  /** The overlap area holds exactly the points that lie in both
      (normalised) rectangles, and is None iff there is no such point. */
  lemma RectangleOverlapIsCommonPoints(a: Rect, b: Rect)
    ensures RectangleOverlap(a, b).None? <==>
      !exists px, py :: InRange(Normalize(a.x), px) && InRange(Normalize(b.x), px)
                     && InRange(Normalize(a.y), py) && InRange(Normalize(b.y), py)
    ensures RectangleOverlap(a, b).Some? ==>
      forall px, py :: InArea(RectangleOverlap(a, b).value, px, py) <==>
        (InRange(Normalize(a.x), px) && InRange(Normalize(b.x), px)
         && InRange(Normalize(a.y), py) && InRange(Normalize(b.y), py))
  {
    RangeOverlapIsCommonPoints(a.x, b.x);
    RangeOverlapIsCommonPoints(a.y, b.y);
    if RectangleOverlap(a, b).None? {
      if RangeOverlap(a.x, b.x).None? {
        assert forall px :: !(InRange(Normalize(a.x), px) && InRange(Normalize(b.x), px));
      } else {
        assert forall py :: !(InRange(Normalize(a.y), py) && InRange(Normalize(b.y), py));
      }
    } else {
      var xo, yo := RangeOverlap(a.x, b.x).value, RangeOverlap(a.y, b.y).value;
      assert InRange(xo, xo.start) && InRange(yo, yo.start);
    }
  }

  /** Touching ranges count as overlapping; a gap of one does not. */
  lemma RangeOverlapExamples()
    ensures RangeOverlap(Range(0, 5), Range(5, 10)) == Some(Range(5, 5))
    ensures RangeOverlap(Range(0, 5), Range(6, 10)) == None
    ensures RangeOverlap(Range(10, 0), Range(5, 15)) == Some(Range(5, 10))
  {
  }

  /** Two 10 by 10 squares offset by 5 on both axes meet in a 5 by 5 square. */
  lemma RectangleOverlapExample()
    ensures RectangleOverlap(Rect(Range(0, 10), Range(0, 10)), Rect(Range(5, 15), Range(5, 15)))
         == Some(Area(5, 5, 5, 5))
  {
  }
}
