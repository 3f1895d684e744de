/**
 * Sources/KMLPolygon.swift: a `<Polygon>` geometry under construction. The text of each
 * boundary is kept as raw text, one outer ring and a list of inner rings; `recalculateShape`
 * turns the rings into coordinates.
 */
module Polygons {
  import opened Wrappers
  import opened ElementType

  // ---------------------------------------------------------------------------------------
  // `KMLPolygonAltitudeKind`
  // ---------------------------------------------------------------------------------------

  datatype AltitudeKind = Absolute | ClampToGround | ClampToSeaFloor | RelativeToGround | RelativeToSeaFloor

  /** The raw value of each case: its name, spelt exactly. */
  function RawValue(kind: AltitudeKind): string {
    match kind
    case Absolute => "absolute"
    case ClampToGround => "clampToGround"
    case ClampToSeaFloor => "clampToSeaFloor"
    case RelativeToGround => "relativeToGround"
    case RelativeToSeaFloor => "relativeToSeaFloor"
  }

  /** `KMLPolygonAltitudeKind(rawValue:)`: the case whose raw value is exactly the text, if any. */
  function AltitudeKindOf(rawValue: string): (r: Option<AltitudeKind>)
    ensures r.Some? ==> RawValue(r.value) == rawValue
  {
    if rawValue == "absolute" then Some(Absolute)
    else if rawValue == "clampToGround" then Some(ClampToGround)
    else if rawValue == "clampToSeaFloor" then Some(ClampToSeaFloor)
    else if rawValue == "relativeToGround" then Some(RelativeToGround)
    else if rawValue == "relativeToSeaFloor" then Some(RelativeToSeaFloor)
    else None
  }

  /** Every case is recognised from its raw value, so the two conversions are inverse. */
  lemma AltitudeKindRoundTrip(kind: AltitudeKind)
    ensures AltitudeKindOf(RawValue(kind)) == Some(kind)
  {
  }

  /** A text is recognised exactly when it is the raw value of some case: matching is case-sensitive. */
  lemma AltitudeKindOfExact(rawValue: string)
    ensures AltitudeKindOf(rawValue).None? <==> forall kind: AltitudeKind :: RawValue(kind) != rawValue
  {
    if AltitudeKindOf(rawValue).None? {
      forall kind: AltitudeKind ensures RawValue(kind) != rawValue {
        AltitudeKindRoundTrip(kind);
      }
    }
  }

  // ---------------------------------------------------------------------------------------
  // The polygon under construction
  // ---------------------------------------------------------------------------------------

  /** The `MKPolygon` that `recalculateShape` builds: its outer coordinates and its interior polygons. */
  datatype PolygonShape = PolygonShape(coordinates: seq<Coordinate>, interiorPolygons: seq<seq<Coordinate>>)

  /** The stored properties of a `KMLPolygon`. */
  datatype PolygonState = PolygonState(
    identifier: Option<string>,
    shape: Option<PolygonShape>,
    outerRingCoordinates: Option<string>,
    innerRingsCoordinates: seq<string>,
    altitudeKind: Option<AltitudeKind>,
    outerBoundaryIsParsed: bool,
    innerBoundaryIsParsed: bool,
    linearRingIsParsed: bool,
    extrudeIsParsed: bool,
    altitudeModeIsParsed: bool,
    accumulatedData: Option<string>)
  {
    /** `canAddString`: text is wanted inside a `LinearRing`. */
    predicate CanAddString() {
      linearRingIsParsed
    }
  }

  /** `KMLPolygon(identifier:)`: no rings, no altitude mode, no shape. */
  function NewPolygon(identifier: Option<string>): (s: PolygonState)
    ensures s.identifier == identifier && s.shape == None
    ensures s.outerRingCoordinates == None && s.innerRingsCoordinates == [] && s.altitudeKind == None
    ensures !s.CanAddString() && s.accumulatedData == None
  {
    PolygonState(identifier, None, None, [], None, false, false, false, false, false, None)
  }

  /** `append(data:)`: the fragment is added to the buffer as it is, whether or not a ring is open. */
  function AfterAppend(s: PolygonState, data: string): (r: PolygonState)
    ensures r == s.(accumulatedData := r.accumulatedData)
    ensures r.accumulatedData.Some? && r.accumulatedData.value == s.accumulatedData.GetOr("") + data
  {
    s.(accumulatedData := Accumulated(s.accumulatedData, data))
  }

  /** Text split over two `append` calls ends up in the buffer exactly as if sent at once. */
  lemma AfterAppendConcat(s: PolygonState, x: string, y: string)
    ensures AfterAppend(AfterAppend(s, x), y) == AfterAppend(s, x + y)
  {
    AccumulatedConcat(s.accumulatedData, x, y);
  }

  /**
   * `outerBoundaryParse(isStarted:)`. Closing stores the buffer, even an empty one, as the outer
   * ring, replacing any earlier one; with nothing buffered the ring is kept. The buffer is
   * cleared either way.
   */
  function AfterOuterBoundaryParse(s: PolygonState, isStarted: bool): (r: PolygonState)
    ensures isStarted ==> r == s.(outerBoundaryIsParsed := true)
    ensures !isStarted ==>
      r == s.(outerBoundaryIsParsed := false, accumulatedData := None, outerRingCoordinates := r.outerRingCoordinates)
    ensures !isStarted && s.accumulatedData.Some? ==> r.outerRingCoordinates == s.accumulatedData
    ensures !isStarted && s.accumulatedData.None? ==> r.outerRingCoordinates == s.outerRingCoordinates
  {
    if isStarted then s.(outerBoundaryIsParsed := true)
    else if s.accumulatedData.Some? then
      s.(outerBoundaryIsParsed := false, outerRingCoordinates := s.accumulatedData, accumulatedData := None)
    else s.(outerBoundaryIsParsed := false)
  }

  /**
   * `innerBoundaryParse(isStarted:)`. Closing adds the buffer as one more inner ring, after the
   * earlier ones, and clears the buffer; with nothing buffered no ring is added.
   */
  function AfterInnerBoundaryParse(s: PolygonState, isStarted: bool): (r: PolygonState)
    ensures isStarted ==> r == s.(innerBoundaryIsParsed := true)
    ensures !isStarted ==>
      r == s.(innerBoundaryIsParsed := false, accumulatedData := None, innerRingsCoordinates := r.innerRingsCoordinates)
    ensures !isStarted && s.accumulatedData.Some? ==>
      |r.innerRingsCoordinates| == |s.innerRingsCoordinates| + 1
      && r.innerRingsCoordinates[..|s.innerRingsCoordinates|] == s.innerRingsCoordinates
      && r.innerRingsCoordinates[|s.innerRingsCoordinates|] == s.accumulatedData.value
    ensures !isStarted && s.accumulatedData.None? ==> r.innerRingsCoordinates == s.innerRingsCoordinates
  {
    if isStarted then s.(innerBoundaryIsParsed := true)
    else if s.accumulatedData.Some? then
      s.(innerBoundaryIsParsed := false, innerRingsCoordinates := s.innerRingsCoordinates + [s.accumulatedData.value],
         accumulatedData := None)
    else s.(innerBoundaryIsParsed := false)
  }

  /** `linearRingParse(isStarted:)`: only the flag. */
  function AfterLinearRingParse(s: PolygonState, isStarted: bool): (r: PolygonState)
    ensures r.CanAddString() == isStarted
    ensures r == s.(linearRingIsParsed := r.linearRingIsParsed)
  {
    s.(linearRingIsParsed := isStarted)
  }

  /** `extrudeParse(isStarted:)`: the text of `extrude` is read and thrown away. */
  function AfterExtrudeParse(s: PolygonState, isStarted: bool): (r: PolygonState)
    ensures isStarted ==> r == s.(extrudeIsParsed := true)
    ensures !isStarted ==> r == s.(extrudeIsParsed := false, accumulatedData := None)
  {
    s.(extrudeIsParsed := isStarted, accumulatedData := if isStarted then s.accumulatedData else None)
  }

  /**
   * `altitudeModeParse(isStarted:)`. Closing with a buffer sets the altitude mode to the case
   * the text names exactly, and to none when it names none, replacing any earlier mode; then
   * the buffer is cleared.
   */
  function AfterAltitudeModeParse(s: PolygonState, isStarted: bool): (r: PolygonState)
    ensures isStarted ==> r == s.(altitudeModeIsParsed := true)
    ensures !isStarted ==>
      r == s.(altitudeModeIsParsed := false, accumulatedData := None, altitudeKind := r.altitudeKind)
    ensures !isStarted && s.accumulatedData.Some? ==>
      (r.altitudeKind.Some? <==> exists kind: AltitudeKind :: RawValue(kind) == s.accumulatedData.value)
    ensures !isStarted && s.accumulatedData.Some? && r.altitudeKind.Some? ==>
      RawValue(r.altitudeKind.value) == s.accumulatedData.value
    ensures !isStarted && s.accumulatedData.None? ==> r.altitudeKind == s.altitudeKind
  {
    if isStarted then s.(altitudeModeIsParsed := true)
    else if s.accumulatedData.Some? then
      AltitudeKindOfExact(s.accumulatedData.value);
      s.(altitudeModeIsParsed := false, altitudeKind := AltitudeKindOf(s.accumulatedData.value), accumulatedData := None)
    else s.(altitudeModeIsParsed := false)
  }

  // ---------------------------------------------------------------------------------------
  // `recalculateShape`
  // ---------------------------------------------------------------------------------------

  /** Each inner ring tokenized, in order. */
  function InnerPolygons(rings: seq<string>): (r: seq<seq<Coordinate>>)
    ensures |r| == |rings|
    ensures forall k :: 0 <= k < |r| ==> r[k] == LocationCoordinates(rings[k])
  {
    seq(|rings|, k requires 0 <= k < |rings| => LocationCoordinates(rings[k]))
  }

  /** Inner polygons computed one ring at a time are the inner polygons of the rings. */
  lemma InnerPolygonsPointwise(rings: seq<string>, polygons: seq<seq<Coordinate>>)
    requires |polygons| == |rings|
    requires forall k :: 0 <= k < |rings| ==> polygons[k] == LocationCoordinates(rings[k])
    ensures polygons == InnerPolygons(rings)
  {
  }

  /**
   * The shape the raw rings describe: the outer ring tokenized (no coordinates when there is no
   * outer ring) and every inner ring tokenized, in order. All its coordinates are valid.
   */
  function MaterializedShape(s: PolygonState): (r: PolygonShape)
    ensures r.coordinates == if s.outerRingCoordinates.Some? then LocationCoordinates(s.outerRingCoordinates.value) else []
    ensures |r.interiorPolygons| == |s.innerRingsCoordinates|
    ensures forall k :: 0 <= k < |r.interiorPolygons| ==> r.interiorPolygons[k] == LocationCoordinates(s.innerRingsCoordinates[k])
    ensures forall k :: 0 <= k < |r.coordinates| ==> IsValid(r.coordinates[k])
  {
    var coordinates := if s.outerRingCoordinates.Some? then LocationCoordinates(s.outerRingCoordinates.value) else [];
    PolygonShape(coordinates, InnerPolygons(s.innerRingsCoordinates))
  }

  /** `recalculateShape()`: the shape is rebuilt from the rings; nothing else changes. */
  function AfterRecalculateShape(s: PolygonState): (r: PolygonState)
    ensures r == s.(shape := r.shape)
    ensures r.shape == Some(MaterializedShape(s))
  {
    s.(shape := Some(MaterializedShape(s)))
  }

  /** The rings are left as they were, so rebuilding the shape a second time changes nothing. */
  lemma RecalculateShapeIdempotent(s: PolygonState)
    ensures AfterRecalculateShape(AfterRecalculateShape(s)) == AfterRecalculateShape(s)
  {
    assert MaterializedShape(AfterRecalculateShape(s)) == MaterializedShape(s);
  }

  /** Every interior polygon holds only valid coordinates. */
  lemma InteriorPolygonsValid(s: PolygonState, k: nat, j: nat)
    requires k < |MaterializedShape(s).interiorPolygons|
    requires j < |MaterializedShape(s).interiorPolygons[k]|
    ensures IsValid(MaterializedShape(s).interiorPolygons[k][j])
  {
  }

  /** The loop over the inner rings in `recalculateShape()`: one polygon per ring, in order. */
  method MakeInnerPolygons(rings: seq<string>, iOS13Available: bool) returns (innerPolygons: seq<seq<Coordinate>>)
    ensures innerPolygons == InnerPolygons(rings)
  {
    innerPolygons := [];
    if rings != [] {
      for i := 0 to |rings|
        invariant innerPolygons == InnerPolygons(rings[..i])
      {
        var coordinates := MakeLocationCoordinates(rings[i], iOS13Available);
        InnerPolygonsSnoc(rings, i);
        innerPolygons := innerPolygons + [coordinates];
      }
    }
    assert rings[..|rings|] == rings;
  }

  /** One more ring adds its polygon at the end. */
  lemma InnerPolygonsSnoc(rings: seq<string>, i: nat)
    requires i < |rings|
    ensures InnerPolygons(rings[..i + 1]) == InnerPolygons(rings[..i]) + [LocationCoordinates(rings[i])]
  {
    var longer, shorter := rings[..i + 1], rings[..i];
    var extended := InnerPolygons(shorter) + [LocationCoordinates(rings[i])];
    forall k | 0 <= k < |longer| ensures extended[k] == LocationCoordinates(longer[k]) {
      if k < i {
        assert longer[k] == shorter[k];
      } else {
        assert k == i;
      }
    }
    InnerPolygonsPointwise(longer, extended);
  }

  // ---------------------------------------------------------------------------------------
  // The class
  // ---------------------------------------------------------------------------------------

  /** `KMLPolygon` */
  class KMLPolygon {
    var shape: Option<PolygonShape>
    var outerRingCoordinates: Option<string>
    var innerRingsCoordinates: seq<string>
    var altitudeKind: Option<AltitudeKind>
    const identifier: Option<string>
    var outerBoundaryIsParsed: bool
    var innerBoundaryIsParsed: bool
    var linearRingIsParsed: bool
    var extrudeIsParsed: bool
    var altitudeModeIsParsed: bool
    var accumulatedData: Option<string>

    function State(): PolygonState
      reads this
    {
      PolygonState(identifier, shape, outerRingCoordinates, innerRingsCoordinates, altitudeKind,
        outerBoundaryIsParsed, innerBoundaryIsParsed, linearRingIsParsed, extrudeIsParsed,
        altitudeModeIsParsed, accumulatedData)
    }

    constructor (identifier: Option<string>)
      ensures State() == NewPolygon(identifier)
    {
      this.identifier := identifier;
      shape, outerRingCoordinates, innerRingsCoordinates, altitudeKind := None, None, [], None;
      outerBoundaryIsParsed, innerBoundaryIsParsed, linearRingIsParsed := false, false, false;
      extrudeIsParsed, altitudeModeIsParsed, accumulatedData := false, false, None;
    }

    method Append(data: string)
      modifies this
      ensures State() == AfterAppend(old(State()), data)
    {
      accumulatedData := Some(accumulatedData.GetOr("") + data);
    }

    method ClearData()
      modifies this`accumulatedData
      ensures accumulatedData == None
    {
      accumulatedData := None;
    }

    method OuterBoundaryParse(isStarted: bool)
      modifies this
      ensures State() == AfterOuterBoundaryParse(old(State()), isStarted)
    {
      outerBoundaryIsParsed := isStarted;
      if !outerBoundaryIsParsed {
        if accumulatedData.Some? {
          outerRingCoordinates := accumulatedData;
        }
        ClearData();
      }
    }

    method InnerBoundaryParse(isStarted: bool)
      modifies this
      ensures State() == AfterInnerBoundaryParse(old(State()), isStarted)
    {
      innerBoundaryIsParsed := isStarted;
      if !innerBoundaryIsParsed {
        if accumulatedData.Some? {
          innerRingsCoordinates := innerRingsCoordinates + [accumulatedData.value];
        }
        ClearData();
      }
    }

    method LinearRingParse(isStarted: bool)
      modifies this
      ensures State() == AfterLinearRingParse(old(State()), isStarted)
    {
      linearRingIsParsed := isStarted;
    }

    method ExtrudeParse(isStarted: bool)
      modifies this
      ensures State() == AfterExtrudeParse(old(State()), isStarted)
    {
      extrudeIsParsed := isStarted;
      if !extrudeIsParsed {
        ClearData();
      }
    }

    method AltitudeModeParse(isStarted: bool)
      modifies this
      ensures State() == AfterAltitudeModeParse(old(State()), isStarted)
    {
      altitudeModeIsParsed := isStarted;
      if !altitudeModeIsParsed {
        if accumulatedData.Some? {
          altitudeKind := AltitudeKindOf(accumulatedData.value);
        }
        ClearData();
      }
    }

    method RecalculateShape(iOS13Available: bool)
      modifies this
      ensures State() == AfterRecalculateShape(old(State()))
    {
      ghost var before := State();
      var rings, outerRing := innerRingsCoordinates, outerRingCoordinates;
      var innerPolygons := MakeInnerPolygons(rings, iOS13Available);
      var coordinates: seq<Coordinate> := [];
      if outerRing.Some? {
        coordinates := MakeLocationCoordinates(outerRing.value, iOS13Available);
      }
      var newShape := PolygonShape(coordinates, innerPolygons);
      assert newShape == MaterializedShape(before);
      shape := Some(newShape);
    }
  }
}
