/**
 * Sources/KMLParser.swift: the XML parser delegate that routes element and text events to the
 * builders, stores each finished document-level style under its identifier and each finished
 * placemark in order, and, once the document is read, resolves placemarks' `styleURL`s.
 */
module Parsing {
  import opened Wrappers
  import opened Platform
  import Styles
  import Polygons
  import Geometries
  import Placemarks

  // ---------------------------------------------------------------------------------------
  // `KMLElementName`
  // ---------------------------------------------------------------------------------------

  /** The elements the parser reacts to; every other element is ignored. */
  datatype ElementName =
    | Style | PolyStyle | LineStyle | LabelStyle
    | Color | Scale | Width | Fill | Outline
    | Placemark | Name | Description | StyleURL
    | MultiGeometry | Polygon | LineString | Point
    | Coordinates | OuterBoundaryIs | InnerBoundaryIs | LinearRing | Extrude | AltitudeMode

  /** The raw value of each case: the element's name, letter case included. */
  function RawValue(e: ElementName): string {
    match e
    case Style => "style"
    case PolyStyle => "PolyStyle"
    case LineStyle => "LineStyle"
    case LabelStyle => "LabelStyle"
    case Color => "color"
    case Scale => "scale"
    case Width => "width"
    case Fill => "fill"
    case Outline => "outline"
    case Placemark => "Placemark"
    case Name => "name"
    case Description => "description"
    case StyleURL => "styleURL"
    case MultiGeometry => "MultiGeometry"
    case Polygon => "Polygon"
    case LineString => "LineString"
    case Point => "Point"
    case Coordinates => "coordinates"
    case OuterBoundaryIs => "outerBoundaryIs"
    case InnerBoundaryIs => "innerBoundaryIs"
    case LinearRing => "LinearRing"
    case Extrude => "extrude"
    case AltitudeMode => "altitudeMode"
  }

  /** The cases in declaration order, the order Swift's synthesized `init?(rawValue:)` tries them. */
  const AllElementNames: seq<ElementName> := [
    Style, PolyStyle, LineStyle, LabelStyle,
    Color, Scale, Width, Fill, Outline,
    Placemark, Name, Description, StyleURL,
    MultiGeometry, Polygon, LineString, Point,
    Coordinates, OuterBoundaryIs, InnerBoundaryIs, LinearRing, Extrude, AltitudeMode]

  /** Every case is listed. */
  lemma AllElementNamesListed(e: ElementName)
    ensures e in AllElementNames
  {
    match e
    case Style => assert AllElementNames[0] == e;
    case PolyStyle => assert AllElementNames[1] == e;
    case LineStyle => assert AllElementNames[2] == e;
    case LabelStyle => assert AllElementNames[3] == e;
    case Color => assert AllElementNames[4] == e;
    case Scale => assert AllElementNames[5] == e;
    case Width => assert AllElementNames[6] == e;
    case Fill => assert AllElementNames[7] == e;
    case Outline => assert AllElementNames[8] == e;
    case Placemark => assert AllElementNames[9] == e;
    case Name => assert AllElementNames[10] == e;
    case Description => assert AllElementNames[11] == e;
    case StyleURL => assert AllElementNames[12] == e;
    case MultiGeometry => assert AllElementNames[13] == e;
    case Polygon => assert AllElementNames[14] == e;
    case LineString => assert AllElementNames[15] == e;
    case Point => assert AllElementNames[16] == e;
    case Coordinates => assert AllElementNames[17] == e;
    case OuterBoundaryIs => assert AllElementNames[18] == e;
    case InnerBoundaryIs => assert AllElementNames[19] == e;
    case LinearRing => assert AllElementNames[20] == e;
    case Extrude => assert AllElementNames[21] == e;
    case AltitudeMode => assert AllElementNames[22] == e;
  }

  /** The first of `names` whose raw value is exactly `rawValue`, if any. */
  function FirstNamed(rawValue: string, names: seq<ElementName>): (r: Option<ElementName>)
    ensures r.Some? ==> r.value in names && RawValue(r.value) == rawValue
    ensures r.None? ==> forall e :: e in names ==> RawValue(e) != rawValue
  {
    if names == [] then None
    else if RawValue(names[0]) == rawValue then Some(names[0])
    else FirstNamed(rawValue, names[1..])
  }

  /** `KMLElementName(rawValue:)`: the case whose raw value is exactly the given name, if any. */
  function ElementNameOf(rawValue: string): (r: Option<ElementName>)
    ensures r.Some? ==> RawValue(r.value) == rawValue
    ensures r.None? ==> forall e: ElementName :: RawValue(e) != rawValue
  {
    var r := FirstNamed(rawValue, AllElementNames);
    assert r.None? ==> forall e: ElementName :: RawValue(e) != rawValue by {
      forall e: ElementName ensures r.None? ==> RawValue(e) != rawValue {
        AllElementNamesListed(e);
      }
    }
    r
  }

  /** No two cases share a raw value. */
  lemma RawValueInjective(a: ElementName, b: ElementName)
    requires RawValue(a) == RawValue(b)
    ensures a == b
  {
  }

  /** Each case is recognised from its own raw value. */
  lemma ElementNameRoundTrip(e: ElementName)
    ensures ElementNameOf(RawValue(e)) == Some(e)
  {
    AllElementNamesListed(e);
    var r := ElementNameOf(RawValue(e));
    RawValueInjective(r.value, e);
  }

  /**
   * Names are matched with their letter case: the standard KML spellings `Style` and
   * `styleUrl` are the raw value of no case (the cases use `style` and `styleURL`), so
   * `ElementNameOf` does not recognise them.
   */
  lemma ElementNamesAreCaseSensitive()
    ensures forall e: ElementName :: RawValue(e) != "Style" && RawValue(e) != "styleUrl"
    ensures RawValue(Style) == "style" && RawValue(StyleURL) == "styleURL"
  {
  }

  // ---------------------------------------------------------------------------------------
  // Events and the parser's state
  // ---------------------------------------------------------------------------------------

  /** The `XMLParserDelegate` callbacks the parser implements, as the XML reader delivers them. */
  datatype Event =
    | StartElement(elementName: string, attributes: map<string, string>)
    | EndElement(elementName: string)
    | Characters(text: string)

  /** `attributeDict["id"]` */
  function IdentifierOf(attributes: map<string, string>): (r: Option<string>)
    ensures r.Some? <==> "id" in attributes
    ensures r.Some? ==> r.value == attributes["id"]
  {
    if "id" in attributes then Some(attributes["id"]) else None
  }

  /**
   * The stored properties of a `KMLParser`: the finished document styles by identifier, the
   * finished placemarks in document order, and the style and placemark being read, if any.
   */
  datatype ParserState = ParserState(
    styles: map<string, Styles.StyleState>,
    placemarks: seq<Placemarks.PlacemarkState>,
    style: Option<Styles.StyleState>,
    placemark: Option<Placemarks.PlacemarkState>)

  /** A parser that has read nothing. */
  function NewParser(): (ps: ParserState)
    ensures ps.styles == map[] && ps.placemarks == [] && ps.style == None && ps.placemark == None
  {
    ParserState(map[], [], None, None)
  }

  // ---------------------------------------------------------------------------------------
  // Style sub-elements: `elementStyle`
  // ---------------------------------------------------------------------------------------

  /** What an opening or closing style sub-element does to the style it describes. */
  datatype StyleOp =
    | SetPolyStyle(isPolyStyle: bool)
    | SetLineStyle(isLineStyle: bool)
    | SetLabelStyle(isLabelStyle: bool)
    | ColorParse(isStarted: bool)
    | ScaleParse(isStarted: bool)
    | WidthParse(isStarted: bool)
    | FillParse(isStarted: bool)
    | OutlineParse(isStarted: bool)

  /** The style after the operation. Its identifier never changes. */
  function ApplyStyleOp(s: Styles.StyleState, op: StyleOp, f: Foundation): (r: Styles.StyleState)
    ensures r.identifier == s.identifier
    ensures op.SetPolyStyle? ==> r == s.(isPolyStyle := op.isPolyStyle)
    ensures op.SetLineStyle? ==> r == s.(isLineStyle := op.isLineStyle)
    ensures op.SetLabelStyle? ==> r == s.(isLabelStyle := op.isLabelStyle)
  {
    match op
    case SetPolyStyle(b) => s.(isPolyStyle := b)
    case SetLineStyle(b) => s.(isLineStyle := b)
    case SetLabelStyle(b) => s.(isLabelStyle := b)
    case ColorParse(b) => Styles.AfterColorParse(s, b, f.scanHexInt64)
    case ScaleParse(b) => Styles.AfterScaleParse(s, b, f.numberFromString, f.floatValue)
    case WidthParse(b) => Styles.AfterWidthParse(s, b, f.numberFromString, f.floatValue)
    case FillParse(b) => Styles.AfterFillParse(s, b)
    case OutlineParse(b) => Styles.AfterOutlineParse(s, b, f.numberFromString)
  }

  /** `elementStyle`: the open placemark's style when it has one, else the open document style. */
  function ElementStyle(ps: ParserState): Option<Styles.StyleState> {
    if ps.placemark.Some? && ps.placemark.value.style.Some? then ps.placemark.value.style else ps.style
  }

  /**
   * A style sub-element acts on `elementStyle` and on nothing else; with no style to act on
   * it does nothing.
   */
  function AfterStyleOp(ps: ParserState, op: StyleOp, f: Foundation): (r: ParserState)
    ensures r.styles == ps.styles && r.placemarks == ps.placemarks
    ensures ElementStyle(ps).None? ==> r == ps
    ensures ElementStyle(ps).Some? ==> ElementStyle(r) == Some(ApplyStyleOp(ElementStyle(ps).value, op, f))
    ensures r.placemark.Some? == ps.placemark.Some?
    ensures ps.placemark.Some? ==> r.placemark.value == ps.placemark.value.(style := r.placemark.value.style)
    ensures r.style != ps.style ==> ps.placemark.None? || ps.placemark.value.style.None?
    ensures r.style.Some? == ps.style.Some?
    ensures ps.style.Some? ==> r.style.value.identifier == ps.style.value.identifier
    ensures ps.placemark.Some? && ps.placemark.value.style.Some? ==> r.style == ps.style
    ensures ps.placemark.None? || ps.placemark.value.style.None? ==> r.placemark == ps.placemark
    ensures (ps.placemark.None? || ps.placemark.value.style.None?) && ps.style.Some? ==>
      r.style == Some(ApplyStyleOp(ps.style.value, op, f))
  {
    if ps.placemark.Some? && ps.placemark.value.style.Some? then
      var p := ps.placemark.value;
      ps.(placemark := Some(p.(style := Some(ApplyStyleOp(p.style.value, op, f)))))
    else if ps.style.Some? then
      ps.(style := Some(ApplyStyleOp(ps.style.value, op, f)))
    else ps
  }

  // ---------------------------------------------------------------------------------------
  // Geometry sub-elements: `placemark?.items.last?`
  // ---------------------------------------------------------------------------------------

  /** What an opening or closing geometry sub-element does to the last geometry. */
  datatype GeometryOp =
    | CoordinatesParse(isStarted: bool)
    | OuterBoundaryParse(isStarted: bool)
    | InnerBoundaryParse(isStarted: bool)
    | LinearRingParse(isStarted: bool)
    | ExtrudeParse(isStarted: bool)
    | AltitudeModeParse(isStarted: bool)

  /**
   * `coordinates` goes through the geometry's `coordinatesParse`; the other five reach only a
   * polygon (`items.last?.polygon?`) and leave any other geometry as it is.
   */
  function ApplyGeometryOp(g: Geometries.GeometryState, op: GeometryOp): (r: Geometries.GeometryState)
    ensures r.OfPoint? == g.OfPoint? && r.OfLineString? == g.OfLineString? && r.OfPolygon? == g.OfPolygon?
    ensures g.OfPoint? ==> r == g
    ensures op.CoordinatesParse? ==> r == Geometries.AfterCoordinatesParse(g, op.isStarted)
    ensures !op.CoordinatesParse? && !g.OfPolygon? ==> r == g
  {
    match op
    case CoordinatesParse(b) => Geometries.AfterCoordinatesParse(g, b)
    case _ =>
      match g
      case OfPolygon(p) =>
        Geometries.OfPolygon(
          match op
          case OuterBoundaryParse(b) => Polygons.AfterOuterBoundaryParse(p, b)
          case InnerBoundaryParse(b) => Polygons.AfterInnerBoundaryParse(p, b)
          case LinearRingParse(b) => Polygons.AfterLinearRingParse(p, b)
          case ExtrudeParse(b) => Polygons.AfterExtrudeParse(p, b)
          case AltitudeModeParse(b) => Polygons.AfterAltitudeModeParse(p, b)
          case CoordinatesParse(_) => p)
      case _ => g
  }

  /** A geometry sub-element acts on the open placemark's last geometry, if there is one. */
  function AfterGeometryOp(ps: ParserState, op: GeometryOp): (r: ParserState)
    ensures r == ps.(placemark := r.placemark)
    ensures ps.placemark.None? || ps.placemark.value.items == [] ==> r == ps
    ensures ps.placemark.Some? && ps.placemark.value.items != [] ==>
      var p := ps.placemark.value;
      r.placemark == Some(p.(items := Placemarks.UpdateLast(p.items, ApplyGeometryOp(p.items[|p.items| - 1], op))))
  {
    if ps.placemark.Some? && ps.placemark.value.items != [] then
      var p := ps.placemark.value;
      ps.(placemark := Some(p.(items := Placemarks.UpdateLast(p.items, ApplyGeometryOp(p.items[|p.items| - 1], op)))))
    else ps
  }

  // ---------------------------------------------------------------------------------------
  // Placemark sub-elements: `placemark?`
  // ---------------------------------------------------------------------------------------

  /** What an opening or closing placemark sub-element asks of the open placemark. */
  datatype PlacemarkOp =
    | NameParse(isStarted: bool)
    | DescriptionParse(isStarted: bool)
    | StyleURLParse(isStarted: bool)
    | EnableStyle(identifier: Option<string>)
    | DisableStyle
    | EnableGeometry(typeName: string, identifier: Option<string>)
    | DisableGeometry

  function ApplyPlacemarkOp(p: Placemarks.PlacemarkState, op: PlacemarkOp): (r: Placemarks.PlacemarkState)
    ensures r.identifier == p.identifier
  {
    match op
    case NameParse(b) => Placemarks.AfterNameParse(p, b)
    case DescriptionParse(b) => Placemarks.AfterDescriptionParse(p, b)
    case StyleURLParse(b) => Placemarks.AfterStyleURLParse(p, b)
    case EnableStyle(identifier) => Placemarks.AfterEnableStyle(p, identifier)
    case DisableStyle => Placemarks.AfterDisableStyle(p)
    case EnableGeometry(typeName, identifier) => Placemarks.AfterEnableGeometry(p, typeName, identifier)
    case DisableGeometry => Placemarks.AfterDisableGeometry(p)
  }

  /** A placemark sub-element acts on the open placemark only; with none open it does nothing. */
  function AfterPlacemarkOp(ps: ParserState, op: PlacemarkOp): (r: ParserState)
    ensures r == ps.(placemark := r.placemark)
    ensures ps.placemark.None? ==> r == ps
    ensures ps.placemark.Some? ==> r.placemark == Some(ApplyPlacemarkOp(ps.placemark.value, op))
  {
    if ps.placemark.Some? then ps.(placemark := Some(ApplyPlacemarkOp(ps.placemark.value, op))) else ps
  }

  // ---------------------------------------------------------------------------------------
  // The three callbacks
  // ---------------------------------------------------------------------------------------

  /** What one recognised element does when it opens or closes: one arm of the delegate's `switch`. */
  datatype Action =
    | Nothing
    | OpenStyle(identifier: Option<string>)
    | CloseStyle
    | OpenPlacemark(identifier: Option<string>)
    | ClosePlacemark
    | OnElementStyle(styleOp: StyleOp)
    | OnPlacemark(placemarkOp: PlacemarkOp)
    | OnLastGeometry(geometryOp: GeometryOp)

  /** The arms of the `switch` in `parser(_:didStartElement:...)`. */
  function StartAction(element: ElementName, elementName: string, identifier: Option<string>): (r: Action)
    ensures !r.CloseStyle? && !r.ClosePlacemark?
    ensures r.OpenStyle? <==> element == Style
    ensures r.OpenPlacemark? <==> element == Placemark
  {
    match element
    case Style => OpenStyle(identifier)
    case PolyStyle => OnElementStyle(SetPolyStyle(true))
    case LineStyle => OnElementStyle(SetLineStyle(true))
    case LabelStyle => OnElementStyle(SetLabelStyle(true))
    case Color => OnElementStyle(ColorParse(true))
    case Scale => OnElementStyle(ScaleParse(true))
    case Width => OnElementStyle(WidthParse(true))
    case Fill => OnElementStyle(FillParse(true))
    case Outline => OnElementStyle(OutlineParse(true))
    case Placemark => OpenPlacemark(identifier)
    case Name => OnPlacemark(NameParse(true))
    case Description => OnPlacemark(DescriptionParse(true))
    case StyleURL => OnPlacemark(StyleURLParse(true))
    case MultiGeometry => Nothing
    case Polygon => OnPlacemark(EnableGeometry(elementName, identifier))
    case LineString => OnPlacemark(EnableGeometry(elementName, identifier))
    case Point => OnPlacemark(EnableGeometry(elementName, identifier))
    case Coordinates => OnLastGeometry(CoordinatesParse(true))
    case OuterBoundaryIs => OnLastGeometry(OuterBoundaryParse(true))
    case InnerBoundaryIs => OnLastGeometry(InnerBoundaryParse(true))
    case LinearRing => OnLastGeometry(LinearRingParse(true))
    case Extrude => OnLastGeometry(ExtrudeParse(true))
    case AltitudeMode => OnLastGeometry(AltitudeModeParse(true))
  }

  /** The arms of the `switch` in `parser(_:didEndElement:...)`. */
  function EndAction(element: ElementName): (r: Action)
    ensures !r.OpenStyle? && !r.OpenPlacemark?
    ensures r.CloseStyle? <==> element == Style
    ensures r.ClosePlacemark? <==> element == Placemark
  {
    match element
    case Style => CloseStyle
    case PolyStyle => OnElementStyle(SetPolyStyle(false))
    case LineStyle => OnElementStyle(SetLineStyle(false))
    case LabelStyle => OnElementStyle(SetLabelStyle(false))
    case Color => OnElementStyle(ColorParse(false))
    case Scale => OnElementStyle(ScaleParse(false))
    case Width => OnElementStyle(WidthParse(false))
    case Fill => OnElementStyle(FillParse(false))
    case Outline => OnElementStyle(OutlineParse(false))
    case Placemark => ClosePlacemark
    case Name => OnPlacemark(NameParse(false))
    case Description => OnPlacemark(DescriptionParse(false))
    case StyleURL => OnPlacemark(StyleURLParse(false))
    case MultiGeometry => Nothing
    case Polygon => OnPlacemark(DisableGeometry)
    case LineString => OnPlacemark(DisableGeometry)
    case Point => OnPlacemark(DisableGeometry)
    case Coordinates => OnLastGeometry(CoordinatesParse(false))
    case OuterBoundaryIs => OnLastGeometry(OuterBoundaryParse(false))
    case InnerBoundaryIs => OnLastGeometry(InnerBoundaryParse(false))
    case LinearRing => OnLastGeometry(LinearRingParse(false))
    case Extrude => OnLastGeometry(ExtrudeParse(false))
    case AltitudeMode => OnLastGeometry(AltitudeModeParse(false))
  }

  /**
   * The parser after an action. Only closing a `Placemark` adds to the finished placemarks,
   * at the end, and only closing a `style` outside a placemark stores a style, under the
   * style's identifier.
   */
  function Perform(ps: ParserState, action: Action, f: Foundation): (r: ParserState)
    ensures action.Nothing? ==> r == ps
    ensures !action.ClosePlacemark? ==> r.placemarks == ps.placemarks
    ensures action.ClosePlacemark? && ps.placemark.Some? ==>
      r == ps.(placemarks := ps.placemarks + [ps.placemark.value], placemark := None)
    ensures !action.CloseStyle? ==> r.styles == ps.styles
    ensures action.CloseStyle? && ps.placemark.None? && ps.style.Some? && ps.style.value.identifier.Some? ==>
      r == ps.(styles := ps.styles[ps.style.value.identifier.value := ps.style.value], style := None)
    ensures ps.styles.Keys <= r.styles.Keys
    ensures action.OpenPlacemark? ==> r == ps.(placemark := Some(Placemarks.NewPlacemark(action.identifier)))
    ensures action.ClosePlacemark? && ps.placemark.None? ==> r == ps
    ensures action.OpenStyle? && ps.placemark.Some? ==>
      r == ps.(placemark := Some(Placemarks.AfterEnableStyle(ps.placemark.value, action.identifier)))
    ensures action.OpenStyle? && ps.placemark.None? ==>
      r == if action.identifier.Some? then ps.(style := Some(Styles.NewStyle(action.identifier))) else ps
    ensures action.CloseStyle? && ps.placemark.Some? ==>
      r == ps.(placemark := Some(Placemarks.AfterDisableStyle(ps.placemark.value)))
    ensures action.CloseStyle? && ps.placemark.None? && (ps.style.None? || ps.style.value.identifier.None?) ==> r == ps
  {
    match action
    case Nothing => ps
    case OpenStyle(identifier) =>
      if ps.placemark.Some? then AfterPlacemarkOp(ps, EnableStyle(identifier))
      else if identifier.Some? then ps.(style := Some(Styles.NewStyle(identifier)))
      else ps
    case CloseStyle =>
      if ps.placemark.Some? then AfterPlacemarkOp(ps, DisableStyle)
      else if ps.style.Some? && ps.style.value.identifier.Some? then
        ps.(styles := ps.styles[ps.style.value.identifier.value := ps.style.value], style := None)
      else ps
    case OpenPlacemark(identifier) => ps.(placemark := Some(Placemarks.NewPlacemark(identifier)))
    case ClosePlacemark =>
      if ps.placemark.None? then ps
      else ps.(placemarks := ps.placemarks + [ps.placemark.value], placemark := None)
    case OnElementStyle(op) => AfterStyleOp(ps, op, f)
    case OnPlacemark(op) => AfterPlacemarkOp(ps, op)
    case OnLastGeometry(op) => AfterGeometryOp(ps, op)
  }

  /** `parser(_:didStartElement:...)`: an unrecognised element changes nothing. */
  function AfterStart(ps: ParserState, elementName: string, identifier: Option<string>, f: Foundation): (r: ParserState)
    ensures ElementNameOf(elementName).None? ==> r == ps
    ensures r.styles == ps.styles && r.placemarks == ps.placemarks
  {
    match ElementNameOf(elementName)
    case None => ps
    case Some(element) => Perform(ps, StartAction(element, elementName, identifier), f)
  }

  /** `parser(_:didEndElement:...)`: an unrecognised element changes nothing. */
  function AfterEnd(ps: ParserState, elementName: string, f: Foundation): (r: ParserState)
    ensures ElementNameOf(elementName).None? ==> r == ps
    ensures ElementNameOf(elementName) != Some(Placemark) ==> r.placemarks == ps.placemarks
    ensures ElementNameOf(elementName) != Some(Style) ==> r.styles == ps.styles
    ensures ps.styles.Keys <= r.styles.Keys
  {
    match ElementNameOf(elementName)
    case None => ps
    case Some(element) => Perform(ps, EndAction(element), f)
  }

  /**
   * `parser(_:foundCharacters:)`: text goes to the open placemark, else to the open document
   * style, else nowhere. Text never finishes anything.
   */
  function AfterCharacters(ps: ParserState, text: string): (r: ParserState)
    ensures r.styles == ps.styles && r.placemarks == ps.placemarks
    ensures ps.placemark.Some? ==> r == ps.(placemark := Some(Placemarks.AfterAppend(ps.placemark.value, text)))
    ensures ps.placemark.None? && ps.style.Some? ==> r == ps.(style := Some(Styles.AfterAppend(ps.style.value, text)))
    ensures ps.placemark.None? && ps.style.None? ==> r == ps
  {
    if ps.placemark.Some? then ps.(placemark := Some(Placemarks.AfterAppend(ps.placemark.value, text)))
    else if ps.style.Some? then ps.(style := Some(Styles.AfterAppend(ps.style.value, text)))
    else ps
  }

  /**
   * One callback. It either leaves the finished placemarks alone or finishes the open one;
   * it never forgets a stored style's identifier.
   */
  function Step(ps: ParserState, event: Event, f: Foundation): (r: ParserState)
    ensures || r.placemarks == ps.placemarks
            || (ps.placemark.Some? && r.placemarks == ps.placemarks + [ps.placemark.value] && r.placemark == None)
    ensures ps.styles.Keys <= r.styles.Keys
  {
    match event
    case StartElement(elementName, attributes) => AfterStart(ps, elementName, IdentifierOf(attributes), f)
    case EndElement(elementName) => AfterEnd(ps, elementName, f)
    case Characters(text) => AfterCharacters(ps, text)
  }

  /** The callbacks in order. */
  function Run(ps: ParserState, events: seq<Event>, f: Foundation): ParserState
    decreases |events|
  {
    if events == [] then ps else Run(Step(ps, events[0], f), events[1..], f)
  }

  /** Finished placemarks are only ever added at the end: those finished before stay, in order. */
  lemma {:induction false} RunExtendsPlacemarks(ps: ParserState, events: seq<Event>, f: Foundation)
    ensures var r := Run(ps, events, f);
      |ps.placemarks| <= |r.placemarks| && r.placemarks[..|ps.placemarks|] == ps.placemarks
    decreases |events|
  {
    if events != [] {
      var next := Step(ps, events[0], f);
      RunExtendsPlacemarks(next, events[1..], f);
      assert next.placemarks[..|ps.placemarks|] == ps.placemarks;
    }
  }

  // ---------------------------------------------------------------------------------------
  // Invariants of a run
  // ---------------------------------------------------------------------------------------

  /**
   * Every stored style sits under its own identifier, and the open document style has one:
   * the parser creates a document style only for a `style` element with an `id`, so the
   * `if let identifier` on closing it always succeeds.
   */
  ghost predicate StylesKeyed(ps: ParserState) {
    && (forall k :: k in ps.styles ==> ps.styles[k].identifier == Some(k))
    && (ps.style.Some? ==> ps.style.value.identifier.Some?)
  }

  lemma PerformKeepsStylesKeyed(ps: ParserState, action: Action, f: Foundation)
    requires StylesKeyed(ps)
    ensures StylesKeyed(Perform(ps, action, f))
  {
    var r := Perform(ps, action, f);
    match action {
      case CloseStyle =>
        if ps.placemark.None? && ps.style.Some? && ps.style.value.identifier.Some? {
          assert r.styles == ps.styles[ps.style.value.identifier.value := ps.style.value];
        }
      case OnElementStyle(op) =>
      case _ =>
    }
  }

  lemma StepKeepsStylesKeyed(ps: ParserState, event: Event, f: Foundation)
    requires StylesKeyed(ps)
    ensures StylesKeyed(Step(ps, event, f))
  {
    match event
    case StartElement(elementName, attributes) =>
      if ElementNameOf(elementName).Some? {
        PerformKeepsStylesKeyed(ps, StartAction(ElementNameOf(elementName).value, elementName, IdentifierOf(attributes)), f);
      }
    case EndElement(elementName) =>
      if ElementNameOf(elementName).Some? {
        PerformKeepsStylesKeyed(ps, EndAction(ElementNameOf(elementName).value), f);
      }
    case Characters(text) =>
  }

  lemma {:induction false} RunKeepsStylesKeyed(ps: ParserState, events: seq<Event>, f: Foundation)
    requires StylesKeyed(ps)
    ensures StylesKeyed(Run(ps, events, f))
    decreases |events|
  {
    if events != [] {
      StepKeepsStylesKeyed(ps, events[0], f);
      RunKeepsStylesKeyed(Step(ps, events[0], f), events[1..], f);
    }
  }

  /** A `KMLPoint` that has no coordinate. */
  predicate Unlocated(g: Geometries.GeometryState) {
    g.OfPoint? ==> g.point.point == None
  }

  predicate ItemsUnlocated(p: Placemarks.PlacemarkState) {
    forall k :: 0 <= k < |p.items| ==> Unlocated(p.items[k])
  }

  /**
   * No point of any placemark ever gets a coordinate: the only code that sets `point` is
   * `KMLPoint.coordinateParse`, and the parser calls `coordinatesParse`, whose default does
   * nothing for a point.
   */
  ghost predicate PointsUnlocated(ps: ParserState) {
    && (forall i :: 0 <= i < |ps.placemarks| ==> ItemsUnlocated(ps.placemarks[i]))
    && (ps.placemark.Some? ==> ItemsUnlocated(ps.placemark.value))
  }

  lemma UpdateLastUnlocated(items: seq<Geometries.GeometryState>, g: Geometries.GeometryState)
    requires items != [] && Unlocated(g)
    requires forall k :: 0 <= k < |items| ==> Unlocated(items[k])
    ensures var r := Placemarks.UpdateLast(items, g); forall k :: 0 <= k < |r| ==> Unlocated(r[k])
  {
  }

  lemma PlacemarkOpKeepsUnlocated(p: Placemarks.PlacemarkState, op: PlacemarkOp)
    requires ItemsUnlocated(p)
    ensures ItemsUnlocated(ApplyPlacemarkOp(p, op))
  {
    match op
    case EnableGeometry(typeName, identifier) =>
      var r := Placemarks.AfterEnableGeometry(p, typeName, identifier);
      if Placemarks.TypeNameOf(typeName).Some? {
        assert forall k :: 0 <= k < |p.items| ==> r.items[k] == p.items[k];
      }
    case DisableGeometry =>
      if p.items != [] {
        var last := p.items[|p.items| - 1];
        assert Unlocated(last);
        UpdateLastUnlocated(p.items, Geometries.AfterRecalculateShape(last));
      }
    case _ =>
  }

  lemma AppendKeepsUnlocated(p: Placemarks.PlacemarkState, text: string)
    requires ItemsUnlocated(p)
    ensures ItemsUnlocated(Placemarks.AfterAppend(p, text))
  {
    if !p.hasStyle && p.hasGeometry && p.items != [] {
      var last := p.items[|p.items| - 1];
      assert Unlocated(last);
      if last.OfPoint? {
        Geometries.PointUnchangedByGeometryCalls(last, text, false);
      }
      UpdateLastUnlocated(p.items, Geometries.AfterAppend(last, text));
    }
  }

  lemma GeometryOpKeepsUnlocated(p: Placemarks.PlacemarkState, op: GeometryOp)
    requires ItemsUnlocated(p) && p.items != []
    ensures ItemsUnlocated(p.(items := Placemarks.UpdateLast(p.items, ApplyGeometryOp(p.items[|p.items| - 1], op))))
  {
    var last := p.items[|p.items| - 1];
    assert Unlocated(last);
    UpdateLastUnlocated(p.items, ApplyGeometryOp(last, op));
  }

  lemma PerformKeepsPointsUnlocated(ps: ParserState, action: Action, f: Foundation)
    requires PointsUnlocated(ps)
    ensures PointsUnlocated(Perform(ps, action, f))
  {
    var r := Perform(ps, action, f);
    if ps.placemark.Some? {
      var p := ps.placemark.value;
      match action {
        case OpenStyle(identifier) => PlacemarkOpKeepsUnlocated(p, EnableStyle(identifier));
        case CloseStyle => PlacemarkOpKeepsUnlocated(p, DisableStyle);
        case ClosePlacemark =>
          assert forall i :: 0 <= i < |r.placemarks| ==> r.placemarks[i] == (ps.placemarks + [p])[i];
        case OnPlacemark(op) => PlacemarkOpKeepsUnlocated(p, op);
        case OnLastGeometry(op) => if p.items != [] { GeometryOpKeepsUnlocated(p, op); }
        case _ =>
      }
    }
  }

  lemma StepKeepsPointsUnlocated(ps: ParserState, event: Event, f: Foundation)
    requires PointsUnlocated(ps)
    ensures PointsUnlocated(Step(ps, event, f))
  {
    match event
    case StartElement(elementName, attributes) =>
      if ElementNameOf(elementName).Some? {
        PerformKeepsPointsUnlocated(ps, StartAction(ElementNameOf(elementName).value, elementName, IdentifierOf(attributes)), f);
      }
    case EndElement(elementName) =>
      if ElementNameOf(elementName).Some? {
        PerformKeepsPointsUnlocated(ps, EndAction(ElementNameOf(elementName).value), f);
      }
    case Characters(text) =>
      if ps.placemark.Some? {
        AppendKeepsUnlocated(ps.placemark.value, text);
      }
  }

  lemma {:induction false} RunKeepsPointsUnlocated(ps: ParserState, events: seq<Event>, f: Foundation)
    requires PointsUnlocated(ps)
    ensures PointsUnlocated(Run(ps, events, f))
    decreases |events|
  {
    if events != [] {
      StepKeepsPointsUnlocated(ps, events[0], f);
      RunKeepsPointsUnlocated(Step(ps, events[0], f), events[1..], f);
    }
  }

  // ---------------------------------------------------------------------------------------
  // `assignStyles()`
  // ---------------------------------------------------------------------------------------

  /** `firstIndex(of: "#")` */
  function FirstHash(url: string): (r: Option<nat>)
    ensures r.None? ==> forall k :: 0 <= k < |url| ==> url[k] != '#'
    ensures r.Some? ==> r.value < |url| && url[r.value] == '#' && forall k :: 0 <= k < r.value ==> url[k] != '#'
  {
    if url == [] then None
    else if url[0] == '#' then Some(0)
    else match FirstHash(url[1..])
      case None => None
      case Some(k) => Some(k + 1)
  }

  /**
   * The style identifier a `styleURL` refers to: everything after its first `#`, provided that
   * is not empty. A URL with no `#` refers to nothing.
   */
  function StyleReference(url: string): (r: Option<string>)
    ensures (forall k :: 0 <= k < |url| ==> url[k] != '#') ==> r == None
    ensures r.Some? ==>
      var k := |url| - |r.value| - 1;
      && r.value != []
      && 0 <= k && url == url[..k] + "#" + r.value
      && forall j :: 0 <= j < k ==> url[j] != '#'
  {
    match FirstHash(url)
    case None => None
    case Some(referenceCharacterIndex) =>
      var styleStartIndex := referenceCharacterIndex + 1;
      if styleStartIndex == |url| then None
      else
        assert url == url[..referenceCharacterIndex] + "#" + url[styleStartIndex..];
        Some(url[styleStartIndex..])
  }

  /** A reference written as `prefix#identifier`, with no `#` in the prefix, names the identifier. */
  lemma StyleReferenceOf(prefix: string, identifier: string)
    requires forall k :: 0 <= k < |prefix| ==> prefix[k] != '#'
    ensures StyleReference(prefix + "#" + identifier) == if identifier == [] then None else Some(identifier)
  {
    var url := prefix + "#" + identifier;
    assert url[|prefix|] == '#';
    assert forall k :: 0 <= k < |prefix| ==> url[k] == prefix[k];
    assert url[|prefix| + 1..] == identifier;
  }

  /**
   * One step of the loop in `assignStyles()`: a placemark without a style takes the stored
   * style its `styleURL` refers to, or none when no style is stored under that identifier.
   * Nothing else about the placemark changes, and a placemark with its own style keeps it.
   */
  function AssignedStyle(p: Placemarks.PlacemarkState, styles: map<string, Styles.StyleState>): (r: Placemarks.PlacemarkState)
    ensures r == p.(style := r.style)
    ensures p.style.Some? ==> r == p
    ensures p.style.None? && p.styleURL.Some? && StyleReference(p.styleURL.value).Some? ==>
      var styleIdentifier := StyleReference(p.styleURL.value).value;
      r.style == if styleIdentifier in styles then Some(styles[styleIdentifier]) else None
    ensures p.styleURL.None? || StyleReference(p.styleURL.value).None? ==> r == p
  {
    if p.style.None? && p.styleURL.Some? then
      match StyleReference(p.styleURL.value)
      case None => p
      case Some(styleIdentifier) => p.(style := if styleIdentifier in styles then Some(styles[styleIdentifier]) else None)
    else p
  }

  /** `assignStyles()` over all finished placemarks. */
  function AssignedStyles(placemarks: seq<Placemarks.PlacemarkState>, styles: map<string, Styles.StyleState>): (r: seq<Placemarks.PlacemarkState>)
    ensures |r| == |placemarks|
    ensures forall i :: 0 <= i < |placemarks| ==> r[i] == AssignedStyle(placemarks[i], styles)
  {
    seq(|placemarks|, i requires 0 <= i < |placemarks| => AssignedStyle(placemarks[i], styles))
  }

  /** Resolving the references a second time changes nothing. */
  lemma AssignedStylesIdempotent(placemarks: seq<Placemarks.PlacemarkState>, styles: map<string, Styles.StyleState>)
    ensures AssignedStyles(AssignedStyles(placemarks, styles), styles) == AssignedStyles(placemarks, styles)
  {
    var once := AssignedStyles(placemarks, styles);
    forall i | 0 <= i < |placemarks|
      ensures AssignedStyle(once[i], styles) == once[i]
    {
      var p := placemarks[i];
      if p.style.None? && p.styleURL.Some? && StyleReference(p.styleURL.value).Some? {
        var styleIdentifier := StyleReference(p.styleURL.value).value;
        if styleIdentifier !in styles {
          assert once[i] == p;
        }
      }
    }
  }

  /**
   * With the styles keyed by identifier, a placemark that had no style and whose `styleURL`
   * is `prefix#identifier` ends up with the style stored under that identifier, whose own
   * identifier is that one.
   */
  lemma AssignedStyleResolves(p: Placemarks.PlacemarkState, ps: ParserState, prefix: string, identifier: string)
    requires StylesKeyed(ps) && identifier in ps.styles && identifier != []
    requires forall k :: 0 <= k < |prefix| ==> prefix[k] != '#'
    requires p.style.None? && p.styleURL == Some(prefix + "#" + identifier)
    ensures var r := AssignedStyle(p, ps.styles);
      r.style == Some(ps.styles[identifier]) && r.style.value.identifier == Some(identifier)
  {
    StyleReferenceOf(prefix, identifier);
  }

  /** `parse()`: the reader's callbacks, then `assignStyles()`. */
  function Parsed(ps: ParserState, events: seq<Event>, f: Foundation): (r: ParserState)
    ensures var run := Run(ps, events, f);
      r == run.(placemarks := r.placemarks) && r.placemarks == AssignedStyles(run.placemarks, run.styles)
  {
    var run := Run(ps, events, f);
    run.(placemarks := AssignedStyles(run.placemarks, run.styles))
  }

  /**
   * What parsing a whole document from a fresh parser gives: the stored styles sit under their
   * own identifiers, and no point of any placemark has a coordinate.
   */
  lemma ParsedDocument(events: seq<Event>, f: Foundation)
    ensures var r := Parsed(NewParser(), events, f);
      forall k :: k in r.styles ==> r.styles[k].identifier == Some(k)
    ensures PointsUnlocated(Parsed(NewParser(), events, f))
  {
    RunKeepsStylesKeyed(NewParser(), events, f);
    RunKeepsPointsUnlocated(NewParser(), events, f);
    var run := Run(NewParser(), events, f);
    var r := Parsed(NewParser(), events, f);
    forall i | 0 <= i < |r.placemarks| ensures ItemsUnlocated(r.placemarks[i]) {
      assert r.placemarks[i].items == run.placemarks[i].items;
    }
    assert r.styles == run.styles && r.placemark == run.placemark;
  }

  // ---------------------------------------------------------------------------------------
  // The class
  // ---------------------------------------------------------------------------------------

  /** A style sub-element's effect on a style builder. */
  method ApplyStyleOpTo(s: Styles.KMLStyle, op: StyleOp, f: Foundation)
    modifies s
    ensures s.State() == ApplyStyleOp(old(s.State()), op, f)
  {
    match op
    case SetPolyStyle(b) => s.isPolyStyle := b;
    case SetLineStyle(b) => s.isLineStyle := b;
    case SetLabelStyle(b) => s.isLabelStyle := b;
    case ColorParse(b) => s.ColorParse(b, f.scanHexInt64);
    case ScaleParse(b) => s.ScaleParse(b, f.numberFromString, f.floatValue);
    case WidthParse(b) => s.WidthParse(b, f.numberFromString, f.floatValue);
    case FillParse(b) => s.FillParse(b);
    case OutlineParse(b) => s.OutlineParse(b, f.numberFromString);
  }

  /** A geometry sub-element's effect on a geometry builder. */
  method ApplyGeometryOpTo(g: Geometries.Geometry, op: GeometryOp, iOS13Available: bool)
    modifies g.Object()
    ensures g.State() == ApplyGeometryOp(old(g.State()), op)
  {
    match op
    case CoordinatesParse(b) => Geometries.CoordinatesParse(g, b, iOS13Available);
    case OuterBoundaryParse(b) => if g.Polygon? { g.polygon.OuterBoundaryParse(b); }
    case InnerBoundaryParse(b) => if g.Polygon? { g.polygon.InnerBoundaryParse(b); }
    case LinearRingParse(b) => if g.Polygon? { g.polygon.LinearRingParse(b); }
    case ExtrudeParse(b) => if g.Polygon? { g.polygon.ExtrudeParse(b); }
    case AltitudeModeParse(b) => if g.Polygon? { g.polygon.AltitudeModeParse(b); }
  }

  /** A placemark sub-element's effect on a placemark builder. */
  method ApplyPlacemarkOpTo(placemark: Placemarks.KMLPlacemark, op: PlacemarkOp, iOS13Available: bool)
    requires placemark.Valid()
    modifies placemark.Repr()
    ensures placemark.Valid() && fresh(placemark.Repr() - old(placemark.Repr()))
    ensures placemark.State() == ApplyPlacemarkOp(old(placemark.State()), op)
  {
    match op
    case NameParse(b) => placemark.NameParse(b);
    case DescriptionParse(b) => placemark.DescriptionParse(b);
    case StyleURLParse(b) => placemark.StyleURLParse(b);
    case EnableStyle(identifier) => placemark.EnableStyle(identifier);
    case DisableStyle => placemark.DisableStyle();
    case EnableGeometry(typeName, identifier) => placemark.EnableGeometry(typeName, identifier);
    case DisableGeometry => placemark.DisableGeometry(iOS13Available);
  }

  /** `placemark.items.last?.…` on a placemark with at least one item. */
  method UpdateLastItem(placemark: Placemarks.KMLPlacemark, op: GeometryOp, iOS13Available: bool)
    requires placemark.Valid() && placemark.items != []
    modifies placemark.Repr()
    ensures placemark.Valid() && placemark.Repr() == old(placemark.Repr())
    ensures var before := old(placemark.State());
      placemark.State() == before.(items := Placemarks.UpdateLast(before.items, ApplyGeometryOp(before.items[|before.items| - 1], op)))
  {
    var last := placemark.items[|placemark.items| - 1];
    ghost var before := placemark.State();
    assert last.Object() in Geometries.Objects(placemark.items);
    ApplyGeometryOpTo(last, op, iOS13Available);
    placemark.OnlyLastItemChanged();
    assert last.State() == ApplyGeometryOp(before.items[|before.items| - 1], op);
  }

  /** `KMLParser`, fed the events its XML reader would deliver. */
  class KMLParser {
    var styles: map<string, Styles.StyleState>
    var placemarks: seq<Placemarks.PlacemarkState>
    var style: Styles.KMLStyle?
    var placemark: Placemarks.KMLPlacemark?
    const foundation: Foundation

    /** The objects the parser's state is made of. */
    ghost function Repr(): set<object>
      reads this, placemark
    {
      {this} + (if style == null then {} else {style}) + (if placemark == null then {} else placemark.Repr())
    }

    /** The open placemark is well formed and shares neither the parser nor the open document style. */
    ghost predicate Valid()
      reads this, placemark
    {
      placemark != null ==>
        && placemark.Valid()
        && this !in placemark.Repr()
        && (style == null || style !in placemark.Repr())
    }

    function State(): ParserState
      reads this, style, placemark, if placemark == null then {} else placemark.Repr()
    {
      ParserState(styles, placemarks,
        if style == null then None else Some(style.State()),
        if placemark == null then None else Some(placemark.State()))
    }

    /** `init(url:)`, without the XML reader. */
    constructor (foundation: Foundation)
      ensures Valid() && State() == NewParser() && this.foundation == foundation
    {
      this.foundation := foundation;
      styles, placemarks := map[], [];
      style, placemark := null, null;
    }

    /** `elementStyle?.…` */
    method UpdateElementStyle(op: StyleOp)
      requires Valid()
      modifies Repr()
      ensures Valid() && Repr() == old(Repr())
      ensures State() == AfterStyleOp(old(State()), op, foundation)
    {
      if placemark != null && placemark.style != null {
        UpdatePlacemarkStyle(op);
      } else if style != null {
        UpdateDocumentStyle(op);
      }
    }

    /** `elementStyle` is the open placemark's style. */
    method UpdatePlacemarkStyle(op: StyleOp)
      requires Valid() && placemark != null && placemark.style != null
      modifies placemark.style
      ensures Valid() && Repr() == old(Repr())
      ensures State() == AfterStyleOp(old(State()), op, foundation)
    {
      ApplyStyleOpTo(placemark.style, op, foundation);
      placemark.OnlyStyleChanged();
      OnlyPlacemarkChanged();
    }

    /** `elementStyle` is the document style: no placemark is open, or it has no style. */
    method UpdateDocumentStyle(op: StyleOp)
      requires Valid() && style != null && (placemark == null || placemark.style == null)
      modifies style
      ensures Valid() && Repr() == old(Repr())
      ensures State() == AfterStyleOp(old(State()), op, foundation)
    {
      ApplyStyleOpTo(style, op, foundation);
      OnlyStyleChanged();
    }

    /** `placemark?.…` */
    method UpdatePlacemark(op: PlacemarkOp)
      requires Valid()
      modifies Repr()
      ensures Valid() && fresh(Repr() - old(Repr()))
      ensures State() == AfterPlacemarkOp(old(State()), op)
    {
      if placemark != null {
        ApplyPlacemarkOpTo(placemark, op, foundation.iOS13Available);
        OnlyPlacemarkChanged();
      }
    }

    /** When only the document style's fields changed, only the document style's state did. */
    twostate lemma OnlyStyleChanged()
      requires old(Valid()) && unchanged(this) && style != null
      requires placemark == old(placemark) && (placemark != null ==> unchanged(old(placemark.Repr())))
      ensures Valid() && Repr() == old(Repr())
      ensures State() == old(State()).(style := Some(style.State()))
    {
    }

    /** When only the finished placemarks changed, only they did in the state. */
    twostate lemma OnlyPlacemarksChanged()
      requires old(Valid()) && style == old(style) && placemark == old(placemark) && styles == old(styles)
      requires style != null ==> unchanged(style)
      requires placemark != null ==> unchanged(old(placemark.Repr()))
      ensures Valid() && Repr() == old(Repr())
      ensures State() == old(State()).(placemarks := placemarks)
    {
    }

    /** When only the open placemark's objects changed, only the open placemark's state did. */
    twostate lemma OnlyPlacemarkChanged()
      requires old(Valid()) && placemark != null && old(placemark) == placemark
      requires unchanged(this) && (style != null ==> unchanged(style))
      requires placemark.Valid() && fresh(placemark.Repr() - old(placemark.Repr()))
      ensures Valid() && fresh(Repr() - old(Repr()))
      ensures State() == old(State()).(placemark := Some(placemark.State()))
    {
    }

    /** `placemark?.items.last?.…` */
    method UpdateLastGeometry(op: GeometryOp)
      requires Valid()
      modifies Repr()
      ensures Valid() && Repr() == old(Repr())
      ensures State() == AfterGeometryOp(old(State()), op)
    {
      if placemark != null && placemark.items != [] {
        UpdateLastItem(placemark, op, foundation.iOS13Available);
        OnlyPlacemarkChanged();
      }
    }

    /** One arm of the delegate's `switch`. */
    method Dispatch(action: Action)
      requires Valid()
      modifies Repr()
      ensures Valid() && fresh(Repr() - old(Repr()))
      ensures State() == Perform(old(State()), action, foundation)
    {
      match action
      case Nothing =>
      case OpenStyle(identifier) =>
        if placemark != null {
          UpdatePlacemark(EnableStyle(identifier));
        } else {
          StartDocumentStyle(identifier);
        }
      case CloseStyle =>
        if placemark != null {
          UpdatePlacemark(DisableStyle);
        } else {
          EndDocumentStyle();
        }
      case OpenPlacemark(identifier) => StartPlacemark(identifier);
      case ClosePlacemark => EndPlacemark();
      case OnElementStyle(op) => UpdateElementStyle(op);
      case OnPlacemark(op) => UpdatePlacemark(op);
      case OnLastGeometry(op) => UpdateLastGeometry(op);
    }

    /** An opening `style` outside any placemark: a document style, when it has an identifier. */
    method StartDocumentStyle(identifier: Option<string>)
      requires Valid() && placemark == null
      modifies this
      ensures Valid() && fresh(Repr() - old(Repr()))
      ensures State() == Perform(old(State()), OpenStyle(identifier), foundation)
    {
      if identifier.Some? {
        style := new Styles.KMLStyle(identifier);
      }
    }

    /** A closing `style` outside any placemark: the document style is stored under its identifier. */
    method EndDocumentStyle()
      requires Valid() && placemark == null
      modifies this
      ensures Valid() && Repr() <= old(Repr())
      ensures State() == Perform(old(State()), CloseStyle, foundation)
    {
      if style != null && style.identifier.Some? {
        styles := styles[style.identifier.value := style.State()];
        style := null;
      }
    }

    /** An opening `Placemark`: a new placemark replaces any open one. */
    method StartPlacemark(identifier: Option<string>)
      requires Valid()
      modifies this
      ensures Valid() && fresh(Repr() - old(Repr()))
      ensures State() == Perform(old(State()), OpenPlacemark(identifier), foundation)
    {
      placemark := new Placemarks.KMLPlacemark(identifier);
    }

    /** A closing `Placemark`: the open placemark joins the finished ones. */
    method EndPlacemark()
      requires Valid()
      modifies this
      ensures Valid() && Repr() <= old(Repr())
      ensures State() == Perform(old(State()), ClosePlacemark, foundation)
    {
      if placemark != null {
        placemarks := placemarks + [placemark.State()];
        placemark := null;
      }
    }

    /** `parser(_:didStartElement:namespaceURI:qualifiedName:attributes:)` */
    method DidStartElement(elementName: string, attributes: map<string, string>)
      requires Valid()
      modifies Repr()
      ensures Valid() && fresh(Repr() - old(Repr()))
      ensures State() == AfterStart(old(State()), elementName, IdentifierOf(attributes), foundation)
    {
      var identifier := IdentifierOf(attributes);
      match ElementNameOf(elementName) {
        case None =>
        case Some(element) => Dispatch(StartAction(element, elementName, identifier));
      }
    }

    /** `parser(_:didEndElement:namespaceURI:qualifiedName:)` */
    method DidEndElement(elementName: string)
      requires Valid()
      modifies Repr()
      ensures Valid() && fresh(Repr() - old(Repr()))
      ensures State() == AfterEnd(old(State()), elementName, foundation)
    {
      match ElementNameOf(elementName) {
        case None =>
        case Some(element) => Dispatch(EndAction(element));
      }
    }

    /** `parser(_:foundCharacters:)` */
    method FoundCharacters(text: string)
      requires Valid()
      modifies Repr()
      ensures Valid() && Repr() == old(Repr())
      ensures State() == AfterCharacters(old(State()), text)
    {
      if placemark != null {
        placemark.Append(text);
      } else if style != null {
        style.Append(text);
      }
    }

    /** `assignStyles()` */
    method AssignStyles()
      requires Valid()
      modifies this`placemarks
      ensures Valid() && Repr() == old(Repr())
      ensures State() == old(State()).(placemarks := AssignedStyles(old(placemarks), styles))
    {
      ResolveStyleURLs();
      OnlyPlacemarksChanged();
    }

    /** The loop of `assignStyles()`, over the finished placemarks. */
    method ResolveStyleURLs()
      modifies this`placemarks
      ensures placemarks == AssignedStyles(old(placemarks), styles)
    {
      for i := 0 to |placemarks|
        invariant |placemarks| == |old(placemarks)|
        invariant forall j {:trigger placemarks[j]} :: 0 <= j < i ==> placemarks[j] == AssignedStyle(old(placemarks)[j], styles)
        invariant forall j :: i <= j < |placemarks| ==> placemarks[j] == old(placemarks)[j]
      {
        var resolved := ResolveStyleURL(placemarks[i]);
        placemarks := placemarks[i := resolved];
      }
    }

    /** One pass of that loop: the placemark with its style reference resolved against the shared styles. */
    method ResolveStyleURL(p: Placemarks.PlacemarkState) returns (r: Placemarks.PlacemarkState)
      ensures r == AssignedStyle(p, styles)
    {
      r := p;
      if p.style.None? && p.styleURL.Some? {
        var styleURL := p.styleURL.value;
        match FirstHash(styleURL) {
          case None =>
          case Some(referenceCharacterIndex) =>
            var styleStartIndex := referenceCharacterIndex + 1;
            if styleStartIndex != |styleURL| {
              var styleIdentifier := styleURL[styleStartIndex..];
              r := p.(style := if styleIdentifier in styles then Some(styles[styleIdentifier]) else None);
            }
        }
      }
    }

    /** The XML reader calling the delegate method for one event. */
    method Deliver(event: Event)
      requires Valid()
      modifies Repr()
      ensures Valid() && fresh(Repr() - old(Repr()))
      ensures State() == Step(old(State()), event, foundation)
    {
      match event
      case StartElement(elementName, attributes) => DidStartElement(elementName, attributes);
      case EndElement(elementName) => DidEndElement(elementName);
      case Characters(text) => FoundCharacters(text);
    }

    /** The XML reader calling the delegate methods for every event, in order. */
    method DeliverAll(events: seq<Event>)
      requires Valid()
      modifies Repr()
      ensures Valid()
      ensures State() == Run(old(State()), events, foundation)
      decreases |events|
    {
      if events != [] {
        Deliver(events[0]);
        DeliverAll(events[1..]);
      }
    }

    /** `parse()`: the reader's callbacks in order, then `assignStyles()`. */
    method Parse(events: seq<Event>)
      requires Valid()
      modifies Repr()
      ensures Valid()
      ensures State() == Parsed(old(State()), events, foundation)
    {
      DeliverAll(events);
      AssignStyles();
    }
  }
}
