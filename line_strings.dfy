/**
 * Sources/KMLLineString.swift: a `<LineString>` geometry under construction. Its text is
 * buffered as received and, when `coordinatesParse` closes, tokenized into its points.
 */
module LineStrings {
  import opened Wrappers
  import opened ElementType

  /** The stored properties of a `KMLLineString`. */
  datatype LineStringState = LineStringState(
    identifier: Option<string>,
    points: seq<Coordinate>,
    coordinatesIsParsed: bool,
    accumulatedData: Option<string>)
  {
    /** Every point lies within the coordinate bounds. */
    predicate PointsValid() {
      forall k :: 0 <= k < |points| ==> IsValid(points[k])
    }
  }

  /** `KMLLineString(identifier:)`: no points yet. */
  function NewLineString(identifier: Option<string>): (s: LineStringState)
    ensures s.identifier == identifier && s.points == []
    ensures !s.coordinatesIsParsed && s.accumulatedData == None
  {
    LineStringState(identifier, [], false, None)
  }

  /** `append(data:)`: the fragment is added to the buffer as it is, whitespace included. */
  function AfterAppend(s: LineStringState, data: string): (r: LineStringState)
    ensures r == s.(accumulatedData := r.accumulatedData)
    ensures r.accumulatedData.Some? && r.accumulatedData.value == s.accumulatedData.GetOr("") + data
  {
    s.(accumulatedData := Accumulated(s.accumulatedData, data))
  }

  /** Text split over two `append` calls ends up in the buffer exactly as if sent at once. */
  lemma AfterAppendConcat(s: LineStringState, x: string, y: string)
    ensures AfterAppend(AfterAppend(s, x), y) == AfterAppend(s, x + y)
  {
    AccumulatedConcat(s.accumulatedData, x, y);
  }

  /**
   * `coordinatesParse(isStarted:)`. Opening only raises the flag; closing with nothing buffered
   * only lowers it. Closing with a buffer replaces the points (it does not add to them) by the
   * tokenization of the buffer, and clears the buffer.
   */
  function AfterCoordinatesParse(s: LineStringState, isStarted: bool): (r: LineStringState)
    ensures isStarted ==> r == s.(coordinatesIsParsed := true)
    ensures !isStarted && s.accumulatedData.None? ==> r == s.(coordinatesIsParsed := false)
    ensures !isStarted && s.accumulatedData.Some? ==>
      r == s.(coordinatesIsParsed := false, points := r.points, accumulatedData := None)
      && r.points == LocationCoordinates(s.accumulatedData.value)
    ensures s.PointsValid() ==> r.PointsValid()
  {
    if isStarted || s.accumulatedData.None? then s.(coordinatesIsParsed := isStarted)
    else s.(coordinatesIsParsed := false, points := LocationCoordinates(s.accumulatedData.value), accumulatedData := None)
  }

  /** The second `coordinates` element of a line string wins: the earlier points are dropped. */
  lemma LastCoordinatesWin(s: LineStringState, first: string, second: string)
    ensures var afterFirst := AfterCoordinatesParse(AfterAppend(AfterCoordinatesParse(s, true), first), false);
      var afterSecond := AfterCoordinatesParse(AfterAppend(AfterCoordinatesParse(afterFirst, true), second), false);
      afterFirst.points == LocationCoordinates(s.accumulatedData.GetOr("") + first)
      && afterSecond.points == LocationCoordinates(second)
      && afterSecond.accumulatedData == None
  {
    var started := AfterCoordinatesParse(s, true);
    var filled := AfterAppend(started, first);
    assert filled.accumulatedData.Some?;
    var afterFirst := AfterCoordinatesParse(filled, false);
    var reopened := AfterCoordinatesParse(afterFirst, true);
    assert reopened.accumulatedData == None;
    var refilled := AfterAppend(reopened, second);
    assert "" + second == second;
    assert refilled.accumulatedData == Some(second);
  }

  /** `KMLLineString` */
  class KMLLineString {
    var points: seq<Coordinate>
    const identifier: Option<string>
    var coordinatesIsParsed: bool
    var accumulatedData: Option<string>

    function State(): LineStringState
      reads this
    {
      LineStringState(identifier, points, coordinatesIsParsed, accumulatedData)
    }

    constructor (identifier: Option<string>)
      ensures State() == NewLineString(identifier)
    {
      this.identifier := identifier;
      points, coordinatesIsParsed, accumulatedData := [], false, None;
    }

    method Append(data: string)
      modifies this
      ensures State() == AfterAppend(old(State()), data)
    {
      accumulatedData := Some(accumulatedData.GetOr("") + data);
    }

    method ClearData()
      modifies this`accumulatedData
      ensures accumulatedData == None
    {
      accumulatedData := None;
    }

    method CoordinatesParse(isStarted: bool, iOS13Available: bool)
      modifies this
      ensures State() == AfterCoordinatesParse(old(State()), isStarted)
    {
      coordinatesIsParsed := isStarted;
      if coordinatesIsParsed || accumulatedData.None? {
        return;
      }
      points := MakeLocationCoordinates(accumulatedData.value, iOS13Available);
      ClearData();
    }
  }
}
