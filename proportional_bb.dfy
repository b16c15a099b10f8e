/** `ProportionalBB`: a bounding box given as fractions of some rectangle,
    with the range checks and the swapping done by `validate`. */
module ProportionalBoxes {
  import opened Wrappers

  /** The four bounds, as reals (the float conversion is not modelled). */
  datatype Bounds = Bounds(xStart: real, xEnd: real, yStart: real, yEnd: real)

  /** The name of a bound or of a dimension, as carried by the error. */
  datatype BoundName = XStart | XEnd | YStart | YEnd
  datatype DimensionName = X | Y

  /** `validate`'s ValueErrors: a bound out of range, or a zero-size dimension. */
  datatype BoxError = OutOfRange(bound: BoundName) | ZeroSize(dimension: DimensionName)

  /** `v` lies in [0, 1]. */
  predicate InUnit(v: real) {
    0.0 <= v <= 1.0
  }

  /** The bound that the range check names, taking the four tests in order.
      The third test, meant for `yStart`, compares `yEnd` with the upper limit,
      so a `yStart` above 1 is never named (and a `yEnd` above 1 is named
      as `yStart`). */
  function OutOfRangeBound(b: Bounds): (r: Option<BoundName>)
    ensures r.None? <==> InUnit(b.xStart) && InUnit(b.xEnd) && 0.0 <= b.yStart && InUnit(b.yEnd)
    ensures r == Some(XStart) <==> !InUnit(b.xStart)
    ensures r == Some(XEnd) <==> InUnit(b.xStart) && !InUnit(b.xEnd)
  {
    if b.xStart < 0.0 || b.xStart > 1.0 then Some(XStart)
    else if b.xEnd < 0.0 || b.xEnd > 1.0 then Some(XEnd)
    else if b.yStart < 0.0 || b.yEnd > 1.0 then Some(YStart)
    else if b.yEnd < 0.0 || b.yEnd > 1.0 then Some(YEnd)
    else None
  }

  /** The outcome of `validate` on bounds `b`, as written: the range check,
      then ONE elif chain that swaps reversed x bounds, rejects equal x
      bounds, and only when x was already strictly ordered swaps reversed
      y bounds or rejects equal y bounds. */
  function Validated(b: Bounds): (r: Result<Bounds, BoxError>)
    ensures OutOfRangeBound(b).Some? ==> r == Failure(OutOfRange(OutOfRangeBound(b).value))
    ensures r.Success? ==> r.value.xStart < r.value.xEnd
    ensures r.Success? ==> multiset{r.value.xStart, r.value.xEnd} == multiset{b.xStart, b.xEnd}
    ensures r.Success? ==> multiset{r.value.yStart, r.value.yEnd} == multiset{b.yStart, b.yEnd}
  {
    match OutOfRangeBound(b)
    case Some(name) => Failure(OutOfRange(name))
    case None =>
      if b.xStart > b.xEnd then Success(Bounds(b.xEnd, b.xStart, b.yStart, b.yEnd))
      else if b.xStart == b.xEnd then Failure(ZeroSize(X))
      else if b.yStart > b.yEnd then Success(Bounds(b.xStart, b.xEnd, b.yEnd, b.yStart))
      else if b.yStart == b.yEnd then Failure(ZeroSize(Y))
      else Success(b)
  }

  class ProportionalBB {
    var xStart: real
    var xEnd: real
    var yStart: real
    var yEnd: real
    var silent: bool

    /** The four bounds as a value. */
    function Value(): Bounds
      reads this
    {
      Bounds(xStart, xEnd, yStart, yEnd)
    }

    /** The generated dataclass initialiser, which only stores its arguments. */
    constructor Init(xStart: real, xEnd: real, yStart: real, yEnd: real, silent: bool)
      ensures Value() == Bounds(xStart, xEnd, yStart, yEnd) && this.silent == silent
    {
      this.xStart, this.xEnd, this.yStart, this.yEnd := xStart, xEnd, yStart, yEnd;
      this.silent := silent;
    }

    /** Checks the bounds in place and swaps reversed ones, through a
        temporary, as `Validated` describes; on an error nothing changes. */
    method Validate() returns (r: Outcome<BoxError>)
      modifies this
      ensures Validated(old(Value())).Success? ==> r == Pass && Value() == Validated(old(Value())).value
      ensures Validated(old(Value())).Failure? ==> r == Fail(Validated(old(Value())).error) && Value() == old(Value())
      ensures silent == old(silent)
    {
      var erroringBoundName: Option<BoundName> := None;
      if xStart < 0.0 || xStart > 1.0 {
        erroringBoundName := Some(XStart);
      } else if xEnd < 0.0 || xEnd > 1.0 {
        erroringBoundName := Some(XEnd);
      } else if yStart < 0.0 || yEnd > 1.0 {
        erroringBoundName := Some(YStart);
      } else if yEnd < 0.0 || yEnd > 1.0 {
        erroringBoundName := Some(YEnd);
      }
      if erroringBoundName.Some? {
        return Fail(OutOfRange(erroringBoundName.value));
      }

      var erroringDimensionName: Option<DimensionName> := None;
      if xStart > xEnd {
        var temp := xStart;
        xStart := xEnd;
        xEnd := temp;
      } else if xStart == xEnd {
        erroringDimensionName := Some(X);
      } else if yStart > yEnd {
        var temp := yStart;
        yStart := yEnd;
        yEnd := temp;
      } else if yStart == yEnd {
        erroringDimensionName := Some(Y);
      }
      if erroringDimensionName.Some? {
        return Fail(ZeroSize(erroringDimensionName.value));
      }
      r := Pass;
    }

    /** Construction: the initialiser followed by `__post_init__`, which
        runs `validate`; a raised error means no box is obtained. */
    static method New(xStart: real, xEnd: real, yStart: real, yEnd: real, silent: bool)
      returns (r: Result<ProportionalBB, BoxError>)
      ensures r.Success? <==> Validated(Bounds(xStart, xEnd, yStart, yEnd)).Success?
      ensures r.Success? ==> fresh(r.value) && r.value.silent == silent
      ensures r.Success? ==> r.value.Value() == Validated(Bounds(xStart, xEnd, yStart, yEnd)).value
      ensures r.Failure? ==> r.error == Validated(Bounds(xStart, xEnd, yStart, yEnd)).error
    {
      var bb := new ProportionalBB.Init(xStart, xEnd, yStart, yEnd, silent);
      var outcome := bb.Validate();
      if outcome.Fail? {
        return Failure(outcome.error);
      }
      return Success(bb);
    }
  }

  /** Exchanges the two x bounds, or the two y bounds. */
  function SwapX(b: Bounds): Bounds {
    Bounds(b.xEnd, b.xStart, b.yStart, b.yEnd)
  }

  function SwapY(b: Bounds): Bounds {
    Bounds(b.xStart, b.xEnd, b.yEnd, b.yStart)
  }

  /** The range check rejects exactly: `xStart`, `xEnd` or `yEnd` outside
      [0, 1], or `yStart` below 0. */
  lemma RangeCheckRejects(b: Bounds)
    ensures Validated(b).Failure? && Validated(b).error.OutOfRange?
        <==> !InUnit(b.xStart) || !InUnit(b.xEnd) || b.yStart < 0.0 || !InUnit(b.yEnd)
  {
  }

  /** A `yStart` above 1 passes the range check: with `yEnd` smaller it is
      swapped into `yEnd`, so a validated box can end above 1. A `yEnd`
      above 1 is reported under the name `yStart`. */
  lemma YStartAboveOneAccepted()
    ensures OutOfRangeBound(Bounds(0.0, 1.0, 2.0, 0.5)).None?
    ensures Validated(Bounds(0.0, 1.0, 2.0, 0.5)) == Success(Bounds(0.0, 1.0, 0.5, 2.0))
    ensures Validated(Bounds(0.0, 1.0, 0.5, 2.0)) == Failure(OutOfRange(YStart))
  {
  }

  /** The range check runs before any swap: an out-of-range box is rejected
      in either x order, and the check itself does not depend on the x order. */
  lemma RangeCheckBeforeSwap(b: Bounds)
    ensures OutOfRangeBound(b).Some? ==> Validated(b).Failure? && Validated(SwapX(b)).Failure?
    ensures OutOfRangeBound(b).None? <==> OutOfRangeBound(SwapX(b)).None?
  {
  }

  /** Reversed x bounds inside the range are swapped, and y is left as given. */
  lemma ReversedXSwapped(b: Bounds)
    requires OutOfRangeBound(b).None? && b.xStart > b.xEnd
    ensures Validated(b) == Success(SwapX(b))
  {
  }

  /** Equal x bounds inside the range are rejected as a zero-size x dimension. */
  lemma EqualXRejected(b: Bounds)
    requires OutOfRangeBound(b).None? && b.xStart == b.xEnd
    ensures Validated(b) == Failure(ZeroSize(X))
  {
  }

  /** The y bounds are swapped or rejected only when x was already strictly
      ordered; when x is swapped, y is returned untouched whatever it is. */
  lemma YExaminedOnlyAfterOrderedX(b: Bounds)
    requires OutOfRangeBound(b).None?
    ensures b.xStart < b.xEnd && b.yStart > b.yEnd ==> Validated(b) == Success(SwapY(b))
    ensures b.xStart < b.xEnd && b.yStart == b.yEnd ==> Validated(b) == Failure(ZeroSize(Y))
    ensures b.xStart > b.xEnd ==> Validated(b).Success? && Validated(b).value.yStart == b.yStart
                                  && Validated(b).value.yEnd == b.yEnd
  {
  }

  /** Reversed y bounds survive when x is swapped too: (1, 0, 1, 0) validates
      to (0, 1, 1, 0); equal y bounds are accepted in the same way. */
  lemma ReversedYSurvivesXSwap()
    ensures Validated(Bounds(1.0, 0.0, 1.0, 0.0)) == Success(Bounds(0.0, 1.0, 1.0, 0.0))
    ensures Validated(Bounds(1.0, 0.0, 0.5, 0.5)) == Success(Bounds(0.0, 1.0, 0.5, 0.5))
  {
  }

  /** Validating twice is not the same as validating once: a second run can
      swap the y bounds that the first run skipped, or reject the box that
      the first run produced. */
  lemma ValidatedNotIdempotent()
    ensures Validated(Bounds(1.0, 0.0, 1.0, 0.0)) == Success(Bounds(0.0, 1.0, 1.0, 0.0))
    ensures Validated(Bounds(0.0, 1.0, 1.0, 0.0)) == Success(Bounds(0.0, 1.0, 0.0, 1.0))
    ensures Validated(Bounds(0.0, 1.0, 2.0, 0.5)) == Success(Bounds(0.0, 1.0, 0.5, 2.0))
    ensures Validated(Bounds(0.0, 1.0, 0.5, 2.0)) == Failure(OutOfRange(YStart))
  {
  }

  /** A box in range with both dimensions strictly ordered is left as it is. */
  lemma ValidatedKeepsOrderedBox(b: Bounds)
    requires InUnit(b.xStart) && InUnit(b.xEnd) && InUnit(b.yStart) && InUnit(b.yEnd)
    requires b.xStart < b.xEnd && b.yStart < b.yEnd
    ensures Validated(b) == Success(b)
  {
  }

  /** Validation as the comments at proportional_bb.py describe it: every
      bound in [0, 1], and each dimension independently swapped when
      reversed and rejected when of zero size. */
  function IntendedValidated(b: Bounds): (r: Result<Bounds, BoxError>)
    ensures r.Success? ==> InUnit(r.value.xStart) && InUnit(r.value.xEnd)
                           && InUnit(r.value.yStart) && InUnit(r.value.yEnd)
    ensures r.Success? ==> r.value.xStart < r.value.xEnd && r.value.yStart < r.value.yEnd
    ensures !(InUnit(b.xStart) && InUnit(b.xEnd) && InUnit(b.yStart) && InUnit(b.yEnd))
            ==> r.Failure? && r.error.OutOfRange?
  {
    if !InUnit(b.xStart) then Failure(OutOfRange(XStart))
    else if !InUnit(b.xEnd) then Failure(OutOfRange(XEnd))
    else if !InUnit(b.yStart) then Failure(OutOfRange(YStart))
    else if !InUnit(b.yEnd) then Failure(OutOfRange(YEnd))
    else if b.xStart == b.xEnd then Failure(ZeroSize(X))
    else if b.yStart == b.yEnd then Failure(ZeroSize(Y))
    else
      var x := if b.xStart > b.xEnd then SwapX(b) else b;
      if x.yStart > x.yEnd then Success(SwapY(x)) else Success(x)
  }

  /** The corrected validation succeeds exactly on boxes with all bounds in
      [0, 1] and no zero-size dimension, and then yields the box with both
      dimensions strictly ordered and each pair of bounds kept. */
  lemma IntendedValidatedCorrect(b: Bounds)
    ensures IntendedValidated(b).Success?
        <==> InUnit(b.xStart) && InUnit(b.xEnd) && InUnit(b.yStart) && InUnit(b.yEnd)
             && b.xStart != b.xEnd && b.yStart != b.yEnd
    ensures IntendedValidated(b).Success? ==>
      var r := IntendedValidated(b).value;
      && InUnit(r.xStart) && InUnit(r.xEnd) && InUnit(r.yStart) && InUnit(r.yEnd)
      && r.xStart < r.xEnd && r.yStart < r.yEnd
      && multiset{r.xStart, r.xEnd} == multiset{b.xStart, b.xEnd}
      && multiset{r.yStart, r.yEnd} == multiset{b.yStart, b.yEnd}
  {
    if IntendedValidated(b).Success? {
      var r := IntendedValidated(b).value;
      assert r == Bounds(if b.xStart > b.xEnd then b.xEnd else b.xStart,
                         if b.xStart > b.xEnd then b.xStart else b.xEnd,
                         if b.yStart > b.yEnd then b.yEnd else b.yStart,
                         if b.yStart > b.yEnd then b.yStart else b.yEnd);
    }
  }

  /** Where neither quirk is reached, the code as written and the corrected
      validation agree (bounds, errors and the names they carry). */
  lemma ValidatedAgreesWhenOrdered(b: Bounds)
    requires b.yStart <= 1.0 && b.yEnd <= 1.0
    requires b.xStart <= b.xEnd || b.yStart < b.yEnd
    ensures Validated(b) == IntendedValidated(b)
  {
  }
}
