/** The traffic-light selection of `PrimaryFrame`: four named lights and a
    selected name that steps through them cyclically. */
module PrimaryFrames {

  /** The light names, in selection order. */
  const TLightNames: seq<string> := ["north", "east", "south", "west"]

  /** The grid cell `(row, column)` of each light. */
  const TLightCoordinates: map<string, (int, int)> :=
    map["north" := (0, 1), "south" := (2, 1), "east" := (1, 2), "west" := (1, 0)]

  /** The index of the first occurrence of `x` in `s` (`tuple.index`). */
  function IndexOf(s: seq<string>, x: string): (i: nat)
    requires x in s
    ensures i < |s| && s[i] == x
    ensures forall j :: 0 <= j < i ==> s[j] != x
  {
    if s[0] == x then 0 else 1 + IndexOf(s[1..], x)
  }

  /** The name after `name` in selection order, wrapping to the first. */
  function NextLightName(name: string): (n: string)
    requires name in TLightNames
    ensures n in TLightNames
  {
    var nextIndex := IndexOf(TLightNames, name) + 1;
    if nextIndex < |TLightNames| then TLightNames[nextIndex] else TLightNames[0]
  }

  class PrimaryFrame {
    var selectedLightName: string

    /** The selected name is one of the light names. */
    ghost predicate Valid()
      reads this
    {
      selectedLightName in TLightNames
    }

    /** The selection starts at the first name. The widget construction
        that precedes it is not modelled. */
    constructor ()
      ensures Valid() && selectedLightName == TLightNames[0] == "north"
    {
      selectedLightName := TLightNames[0];
    }

    /** The currently selected name, always a light name. */
    function GetSelectedLightName(): (n: string)
      reads this
      requires Valid()
      ensures n in TLightNames
      ensures n in TLightCoordinates
    {
      selectedLightName
    }

    /** Moves the selection to the next name, wrapping after the last. */
    method IncrementSelectedLightName()
      requires Valid()
      modifies this
      ensures Valid()
      ensures selectedLightName == NextLightName(old(selectedLightName))
    {
      var selectedLightIndex := IndexOf(TLightNames, selectedLightName);
      var nextIndex := selectedLightIndex + 1;
      if nextIndex < |TLightNames| {
        selectedLightName := TLightNames[nextIndex];
      } else {
        selectedLightName := TLightNames[0];
      }
    }
  }

  /** Each name is followed by the next one in the list, and the last by
      the first. */
  lemma NextLightNameOrder(i: nat)
    requires i < |TLightNames|
    ensures NextLightName(TLightNames[i]) == TLightNames[(i + 1) % |TLightNames|]
  {
    assert IndexOf(TLightNames, TLightNames[i]) == i;
  }

  /** Incrementing from "west" wraps round to "north". */
  lemma WestWrapsToNorth()
    ensures NextLightName("west") == "north"
  {
    NextLightNameOrder(3);
  }

  /** Four increments bring the selection back to where it started. */
  lemma FourIncrementsReturn(name: string)
    requires name in TLightNames
    ensures NextLightName(NextLightName(NextLightName(NextLightName(name)))) == name
  {
    var i := IndexOf(TLightNames, name);
    NextLightNameOrder(i);
    NextLightNameOrder((i + 1) % 4);
    NextLightNameOrder((i + 2) % 4);
    NextLightNameOrder((i + 3) % 4);
  }

  /** Every light has a coordinate, every coordinate belongs to a light, and
      no two lights share a cell. */
  lemma CoordinatesCoverNamesDistinctly()
    ensures forall n :: n in TLightNames <==> n in TLightCoordinates
    ensures forall i, j :: 0 <= i < j < |TLightNames| ==>
      TLightCoordinates[TLightNames[i]] != TLightCoordinates[TLightNames[j]]
  {
  }
}
