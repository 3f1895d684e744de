/**
 * Sources/KMLPoint.swift: a `<Point>` geometry under construction. Its text is buffered as
 * received and, when `coordinateParse` closes, scanned as one tuple.
 */
module Points {
  import opened Wrappers
  import opened Platform
  import opened ElementType

  /** The stored properties of a `KMLPoint`. */
  datatype PointState = PointState(
    identifier: Option<string>,
    point: Option<Coordinate>,
    coordinateIsParsed: bool,
    accumulatedData: Option<string>)

  /** `KMLPoint(identifier:)`: no point yet. */
  function NewPoint(identifier: Option<string>): (s: PointState)
    ensures s.identifier == identifier && s.point == None
    ensures !s.coordinateIsParsed && s.accumulatedData == None
  {
    PointState(identifier, None, false, None)
  }

  /** `append(data:)`: the fragment is added to the buffer as it is, whitespace included. */
  function AfterAppend(s: PointState, data: string): (r: PointState)
    ensures r == s.(accumulatedData := r.accumulatedData)
    ensures r.accumulatedData.Some? && r.accumulatedData.value == s.accumulatedData.GetOr("") + data
  {
    s.(accumulatedData := Accumulated(s.accumulatedData, data))
  }

  /** Text split over two `append` calls ends up in the buffer exactly as if sent at once. */
  lemma AfterAppendConcat(s: PointState, x: string, y: string)
    ensures AfterAppend(AfterAppend(s, x), y) == AfterAppend(s, x + y)
  {
    AccumulatedConcat(s.accumulatedData, x, y);
  }

  /**
   * `coordinateParse(isStarted:)`. Opening only raises the flag; closing with nothing buffered
   * only lowers it. Closing with a buffer replaces the point by the scan of the whole buffer as
   * a single tuple, a missing point included, and clears the buffer.
   */
  function AfterCoordinateParse(s: PointState, isStarted: bool): (r: PointState)
    ensures isStarted ==> r == s.(coordinateIsParsed := true)
    ensures !isStarted && s.accumulatedData.None? ==> r == s.(coordinateIsParsed := false)
    ensures !isStarted && s.accumulatedData.Some? ==>
      r == s.(coordinateIsParsed := false, point := r.point, accumulatedData := None)
      && r.point == LocationCoordinate(s.accumulatedData.value)
    ensures r.point != s.point ==> r.point.None? || IsValid(r.point.value)
  {
    if isStarted || s.accumulatedData.None? then s.(coordinateIsParsed := isStarted)
    else s.(coordinateIsParsed := false, point := LocationCoordinate(s.accumulatedData.value), accumulatedData := None)
  }

  /**
   * The point is read from the first tuple only: when the buffer starts with a tuple that gives
   * a coordinate, whitespace and any further tuples after it do not change the point.
   */
  lemma PointIsFirstTuple(s: PointState, tuple: string, w: char, rest: string)
    requires s.accumulatedData == Some(tuple + [w] + rest)
    requires IsWhitespace(w) && LocationCoordinate(tuple).Some?
    ensures AfterCoordinateParse(s, false).point == LocationCoordinate(tuple)
  {
    LocationCoordinateIgnoresTrailing(tuple, w, rest);
  }

  /** `KMLPoint` */
  class KMLPoint {
    var point: Option<Coordinate>
    const identifier: Option<string>
    var coordinateIsParsed: bool
    var accumulatedData: Option<string>

    function State(): PointState
      reads this
    {
      PointState(identifier, point, coordinateIsParsed, accumulatedData)
    }

    constructor (identifier: Option<string>)
      ensures State() == NewPoint(identifier)
    {
      this.identifier := identifier;
      point, coordinateIsParsed, accumulatedData := None, false, None;
    }

    method Append(data: string)
      modifies this
      ensures State() == AfterAppend(old(State()), data)
    {
      accumulatedData := Some(accumulatedData.GetOr("") + data);
    }

    method ClearData()
      modifies this`accumulatedData
      ensures accumulatedData == None
    {
      accumulatedData := None;
    }

    /** Nothing in the parser calls this: geometries are closed through `coordinatesParse`. */
    method CoordinateParse(isStarted: bool, iOS13Available: bool)
      modifies this
      ensures State() == AfterCoordinateParse(old(State()), isStarted)
    {
      coordinateIsParsed := isStarted;
      if coordinateIsParsed || accumulatedData.None? {
        return;
      }
      point := MakeLocationCoordinate(accumulatedData.value, iOS13Available);
      ClearData();
    }
  }
}
