/**
 * Sources/KMLGeometryType.swift: what every geometry answers to. A geometry that does not
 * implement `coordinatesParse`, `recalculateShape` or `canAddString` itself gets the default:
 * nothing happens, or `false`. `KMLPoint` implements none of the three (its `coordinateParse`
 * has a different name), `KMLLineString` implements `coordinatesParse`, and `KMLPolygon`
 * implements `recalculateShape` and `canAddString`.
 */
module Geometries {
  import opened Wrappers
  import Points
  import LineStrings
  import Polygons

  /** A placemark item's geometry: a reference to one of the three geometry builders. */
  datatype Geometry =
    | Point(point: Points.KMLPoint)
    | LineString(lineString: LineStrings.KMLLineString)
    | Polygon(polygon: Polygons.KMLPolygon)
  {
    /** The builder object itself. */
    function Object(): object {
      match this
      case Point(p) => p
      case LineString(l) => l
      case Polygon(g) => g
    }

    /** The builder's properties as one value. */
    function State(): (r: GeometryState)
      reads Object()
      ensures r.OfPoint? == Point? && r.OfLineString? == LineString? && r.OfPolygon? == Polygon?
    {
      match this
      case Point(p) => OfPoint(p.State())
      case LineString(l) => OfLineString(l.State())
      case Polygon(g) => OfPolygon(g.State())
    }
  }

  /** The properties of a geometry, whichever kind it is. */
  datatype GeometryState =
    | OfPoint(point: Points.PointState)
    | OfLineString(lineString: LineStrings.LineStringState)
    | OfPolygon(polygon: Polygons.PolygonState)
  {
    /** The `id` attribute the geometry was created with. */
    function Identifier(): Option<string> {
      match this
      case OfPoint(p) => p.identifier
      case OfLineString(l) => l.identifier
      case OfPolygon(p) => p.identifier
    }

    /** The text collected and not yet consumed. */
    function AccumulatedData(): Option<string> {
      match this
      case OfPoint(p) => p.accumulatedData
      case OfLineString(l) => l.accumulatedData
      case OfPolygon(p) => p.accumulatedData
    }
  }

  /** `canAddString`: only a polygon overrides the default `false`. */
  function CanAddString(g: GeometryState): (r: bool)
    ensures r ==> g.OfPolygon?
    ensures g.OfPolygon? ==> r == g.polygon.CanAddString()
  {
    match g
    case OfPolygon(p) => p.CanAddString()
    case _ => false
  }

  /** `append(data:)`, which every geometry implements. */
  function AfterAppend(g: GeometryState, data: string): (r: GeometryState)
    ensures r.OfPoint? == g.OfPoint? && r.OfLineString? == g.OfLineString? && r.OfPolygon? == g.OfPolygon?
    ensures g.OfPoint? ==> r.point == Points.AfterAppend(g.point, data)
    ensures g.OfLineString? ==> r.lineString == LineStrings.AfterAppend(g.lineString, data)
    ensures g.OfPolygon? ==> r.polygon == Polygons.AfterAppend(g.polygon, data)
  {
    match g
    case OfPoint(p) => OfPoint(Points.AfterAppend(p, data))
    case OfLineString(l) => OfLineString(LineStrings.AfterAppend(l, data))
    case OfPolygon(p) => OfPolygon(Polygons.AfterAppend(p, data))
  }

  /** `coordinatesParse(isStarted:)`: only a line string implements it; for the others it does nothing. */
  function AfterCoordinatesParse(g: GeometryState, isStarted: bool): (r: GeometryState)
    ensures !g.OfLineString? ==> r == g
    ensures g.OfLineString? ==> r == OfLineString(LineStrings.AfterCoordinatesParse(g.lineString, isStarted))
  {
    match g
    case OfLineString(l) => OfLineString(LineStrings.AfterCoordinatesParse(l, isStarted))
    case _ => g
  }

  /** `recalculateShape()`: only a polygon implements it; for the others it does nothing. */
  function AfterRecalculateShape(g: GeometryState): (r: GeometryState)
    ensures !g.OfPolygon? ==> r == g
    ensures g.OfPolygon? ==> r == OfPolygon(Polygons.AfterRecalculateShape(g.polygon))
  {
    match g
    case OfPolygon(p) => OfPolygon(Polygons.AfterRecalculateShape(p))
    case _ => g
  }

  /**
   * A point keeps whatever point it has through every call a geometry answers to: only the
   * point's own `coordinateParse`, which nothing calls, could set it.
   */
  lemma PointUnchangedByGeometryCalls(g: GeometryState, data: string, isStarted: bool)
    requires g.OfPoint?
    ensures AfterAppend(g, data).point.point == g.point.point
    ensures AfterCoordinatesParse(g, isStarted) == g
    ensures AfterRecalculateShape(g) == g
  {
  }

  method Append(g: Geometry, data: string)
    modifies g.Object()
    ensures g.State() == AfterAppend(old(g.State()), data)
  {
    match g
    case Point(p) => p.Append(data);
    case LineString(l) => l.Append(data);
    case Polygon(p) => p.Append(data);
  }

  method CoordinatesParse(g: Geometry, isStarted: bool, iOS13Available: bool)
    modifies g.Object()
    ensures g.State() == AfterCoordinatesParse(old(g.State()), isStarted)
  {
    match g
    case Point(_) =>
    case LineString(l) => l.CoordinatesParse(isStarted, iOS13Available);
    case Polygon(_) =>
  }

  method RecalculateShape(g: Geometry, iOS13Available: bool)
    modifies g.Object()
    ensures g.State() == AfterRecalculateShape(old(g.State()))
  {
    match g
    case Point(_) =>
    case LineString(_) =>
    case Polygon(p) => p.RecalculateShape(iOS13Available);
  }

  // ---------------------------------------------------------------------------------------
  // Sequences of geometries: a placemark's items
  // ---------------------------------------------------------------------------------------

  /** The builder objects of a sequence of geometries. */
  function Objects(gs: seq<Geometry>): set<object> {
    set k | 0 <= k < |gs| :: gs[k].Object()
  }

  /** No builder object appears twice. */
  predicate Distinct(gs: seq<Geometry>) {
    forall i, j :: 0 <= i < j < |gs| ==> gs[i].Object() != gs[j].Object()
  }

  /** The properties of each geometry, in order. */
  function States(gs: seq<Geometry>): (r: seq<GeometryState>)
    reads Objects(gs)
    ensures |r| == |gs|
    ensures forall k :: 0 <= k < |gs| ==> r[k] == gs[k].State()
    decreases |gs|
  {
    if gs == [] then []
    else
      assert Objects(gs[..|gs| - 1]) <= Objects(gs);
      States(gs[..|gs| - 1]) + [gs[|gs| - 1].State()]
  }

  /** When only the last geometry's object changes, only the last state changes. */
  twostate lemma StatesAfterLastChanged(gs: seq<Geometry>)
    requires gs != [] && Distinct(gs)
    requires forall k :: 0 <= k < |gs| - 1 ==> unchanged(gs[k].Object())
    ensures States(gs) == old(States(gs))[..|gs| - 1] + [gs[|gs| - 1].State()]
  {
    var prefix := gs[..|gs| - 1];
    assert forall o :: o in Objects(prefix) ==> unchanged(o) by {
      forall o | o in Objects(prefix) ensures unchanged(o) {
        var k :| 0 <= k < |prefix| && prefix[k].Object() == o;
        assert gs[k] == prefix[k];
      }
    }
    assert States(prefix) == old(States(prefix));
  }

  /** Adding a geometry at the end adds its object. */
  lemma ObjectsSnoc(gs: seq<Geometry>, g: Geometry)
    ensures Objects(gs + [g]) == Objects(gs) + {g.Object()}
  {
    var r := gs + [g];
    forall o | o in Objects(gs) ensures o in Objects(r) {
      var k :| 0 <= k < |gs| && gs[k].Object() == o;
      assert r[k] == gs[k];
    }
    assert r[|gs|] == g;
  }

  /** Adding a geometry at the end adds its state. */
  lemma StatesSnoc(gs: seq<Geometry>, g: Geometry)
    ensures States(gs + [g]) == States(gs) + [g.State()]
  {
    assert (gs + [g])[..|gs|] == gs;
  }

  /** Adding a new object at the end keeps the objects distinct. */
  lemma DistinctSnoc(gs: seq<Geometry>, g: Geometry)
    requires Distinct(gs) && g.Object() !in Objects(gs)
    ensures Distinct(gs + [g])
  {
    var r := gs + [g];
    forall i, j | 0 <= i < j < |r| ensures r[i].Object() != r[j].Object() {
      assert r[i] == gs[i];
      if j < |gs| {
        assert r[j] == gs[j];
      } else {
        assert gs[i].Object() in Objects(gs);
      }
    }
  }
}
