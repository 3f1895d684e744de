/**
 * Sources/KMLPlacemark.swift: a `<Placemark>` under construction. Its text goes to its inline
 * style while one is open, else to its last geometry while one is open, else to its own
 * buffer, from which `name`, `description` and `styleURL` are read when they close.
 */
module Placemarks {
  import opened Wrappers
  import opened Platform
  import opened ElementType
  import Styles
  import Points
  import LineStrings
  import Polygons
  import Geometries

  // ---------------------------------------------------------------------------------------
  // `KMLTypeName`: the geometry element names a placemark recognises
  // ---------------------------------------------------------------------------------------

  datatype TypeName = PointType | PolygonType | LineStringType

  function TypeRawValue(t: TypeName): string {
    match t
    case PointType => "Point"
    case PolygonType => "Polygon"
    case LineStringType => "LineString"
  }

  /** `KMLTypeName(rawValue:)`: exact, case-sensitive match. */
  function TypeNameOf(rawValue: string): (r: Option<TypeName>)
    ensures r.Some? ==> TypeRawValue(r.value) == rawValue
    ensures r.None? ==> forall t: TypeName :: TypeRawValue(t) != rawValue
  {
    if rawValue == "Point" then Some(PointType)
    else if rawValue == "Polygon" then Some(PolygonType)
    else if rawValue == "LineString" then Some(LineStringType)
    else None
  }

  /** A fresh geometry of the given kind, as `enableGeometry` creates it. */
  function NewGeometry(t: TypeName, identifier: Option<string>): (g: Geometries.GeometryState)
    ensures g.OfPoint? == (t == PointType) && g.OfPolygon? == (t == PolygonType)
    ensures g.OfLineString? == (t == LineStringType)
    ensures g.Identifier() == identifier && g.AccumulatedData() == None
    ensures g.OfPoint? ==> g.point.point == None
    ensures g.OfLineString? ==> g.lineString.points == []
  {
    match t
    case PointType => Geometries.OfPoint(Points.NewPoint(identifier))
    case PolygonType => Geometries.OfPolygon(Polygons.NewPolygon(identifier))
    case LineStringType => Geometries.OfLineString(LineStrings.NewLineString(identifier))
  }

  // ---------------------------------------------------------------------------------------
  // The placemark under construction
  // ---------------------------------------------------------------------------------------

  /** The stored properties of a `KMLPlacemark`, its style and its geometries included. */
  datatype PlacemarkState = PlacemarkState(
    identifier: Option<string>,
    style: Option<Styles.StyleState>,
    items: seq<Geometries.GeometryState>,
    name: Option<string>,
    description: Option<string>,
    styleURL: Option<string>,
    nameIsParsed: bool,
    descriptionIsParsed: bool,
    styleURLIsParsed: bool,
    hasStyle: bool,
    hasGeometry: bool,
    accumulatedData: Option<string>)
  {
    /** `canAddString`. Nothing consults it: text is accumulated whichever element is open. */
    predicate CanAddString() {
      nameIsParsed || descriptionIsParsed || styleURLIsParsed
    }
  }

  /** `KMLPlacemark(identifier:)`: no style, no geometry, no text. */
  function NewPlacemark(identifier: Option<string>): (p: PlacemarkState)
    ensures p.identifier == identifier && p.style == None && p.items == []
    ensures p.name == None && p.description == None && p.styleURL == None
    ensures !p.hasStyle && !p.hasGeometry && !p.CanAddString() && p.accumulatedData == None
  {
    PlacemarkState(identifier, None, [], None, None, None, false, false, false, false, false, None)
  }

  /** The items with the last one replaced. */
  function UpdateLast(items: seq<Geometries.GeometryState>, g: Geometries.GeometryState): (r: seq<Geometries.GeometryState>)
    requires items != []
    ensures |r| == |items| && r[..|items| - 1] == items[..|items| - 1] && r[|items| - 1] == g
  {
    items[..|items| - 1] + [g]
  }

  /**
   * `append(data:)`. While an inline style is open the text goes to the style; otherwise, while
   * a geometry is open, to the last geometry; otherwise, without its whitespace, to the
   * placemark's own buffer, whichever of `name`, `description` or `styleURL` is open, if any.
   */
  function AfterAppend(p: PlacemarkState, data: string): (r: PlacemarkState)
    ensures p.hasStyle ==> r == p.(style := r.style)
    ensures p.hasStyle && p.style.Some? ==> r.style == Some(Styles.AfterAppend(p.style.value, data))
    ensures !p.hasStyle && p.hasGeometry ==> r == p.(items := r.items)
    ensures !p.hasStyle && p.hasGeometry && p.items != [] ==>
      r.items == UpdateLast(p.items, Geometries.AfterAppend(p.items[|p.items| - 1], data))
    ensures !p.hasStyle && !p.hasGeometry ==>
      r == p.(accumulatedData := AccumulatedStripped(p.accumulatedData, data))
  {
    if p.hasStyle then
      if p.style.Some? then p.(style := Some(Styles.AfterAppend(p.style.value, data))) else p
    else if p.hasGeometry then
      if p.items != [] then p.(items := UpdateLast(p.items, Geometries.AfterAppend(p.items[|p.items| - 1], data))) else p
    else p.(accumulatedData := AccumulatedStripped(p.accumulatedData, data))
  }

  /** `nameParse(isStarted:)`: closing moves the buffer, absent or not, into `name` and clears it. */
  function AfterNameParse(p: PlacemarkState, isStarted: bool): (r: PlacemarkState)
    ensures isStarted ==> r == p.(nameIsParsed := true)
    ensures !isStarted ==> r == p.(nameIsParsed := false, name := p.accumulatedData, accumulatedData := None)
  {
    if isStarted then p.(nameIsParsed := true)
    else p.(nameIsParsed := false, name := p.accumulatedData, accumulatedData := None)
  }

  /** `descriptionParse(isStarted:)`: closing moves the buffer into `description` and clears it. */
  function AfterDescriptionParse(p: PlacemarkState, isStarted: bool): (r: PlacemarkState)
    ensures isStarted ==> r == p.(descriptionIsParsed := true)
    ensures !isStarted ==> r == p.(descriptionIsParsed := false, description := p.accumulatedData, accumulatedData := None)
  {
    if isStarted then p.(descriptionIsParsed := true)
    else p.(descriptionIsParsed := false, description := p.accumulatedData, accumulatedData := None)
  }

  /** `styleURLParse(isStarted:)`: closing moves the buffer into `styleURL` and clears it. */
  function AfterStyleURLParse(p: PlacemarkState, isStarted: bool): (r: PlacemarkState)
    ensures isStarted ==> r == p.(styleURLIsParsed := true)
    ensures !isStarted ==> r == p.(styleURLIsParsed := false, styleURL := p.accumulatedData, accumulatedData := None)
  {
    if isStarted then p.(styleURLIsParsed := true)
    else p.(styleURLIsParsed := false, styleURL := p.accumulatedData, accumulatedData := None)
  }

  /**
   * The text between the opening and the closing of `name` becomes the name, without its
   * whitespace, when nothing else is open in the placemark; no text at all gives no name.
   */
  lemma NameIsStrippedText(p: PlacemarkState, text: string)
    requires !p.hasStyle && !p.hasGeometry && p.accumulatedData == None
    ensures var r := AfterNameParse(AfterAppend(AfterNameParse(p, true), text), false);
      r.name == (if Strip(text) == [] then None else Some(Strip(text))) && r.accumulatedData == None
  {
    assert "" + Strip(text) == Strip(text);
  }

  /** `enableStyle(with:)`: an inline style opens, replacing any earlier one by a fresh one. */
  function AfterEnableStyle(p: PlacemarkState, identifier: Option<string>): (r: PlacemarkState)
    ensures r == p.(hasStyle := true, style := r.style)
    ensures r.style == Some(Styles.NewStyle(identifier))
  {
    p.(hasStyle := true, style := Some(Styles.NewStyle(identifier)))
  }

  /** `disableStyle()`: the inline style closes but stays the placemark's style. */
  function AfterDisableStyle(p: PlacemarkState): (r: PlacemarkState)
    ensures r == p.(hasStyle := false)
  {
    p.(hasStyle := false)
  }

  /**
   * `enableGeometry(of:with:)`. An element name other than `Point`, `Polygon` or `LineString`
   * changes nothing. A known one opens a geometry: exactly one fresh geometry of that kind is
   * added after the existing items, which are kept as they are.
   */
  function AfterEnableGeometry(p: PlacemarkState, typeName: string, identifier: Option<string>): (r: PlacemarkState)
    ensures TypeNameOf(typeName).None? ==> r == p
    ensures TypeNameOf(typeName).Some? ==>
      && r == p.(hasGeometry := true, items := r.items)
      && |r.items| == |p.items| + 1
      && r.items[..|p.items|] == p.items
      && r.items[|p.items|] == NewGeometry(TypeNameOf(typeName).value, identifier)
  {
    match TypeNameOf(typeName)
    case None => p
    case Some(t) => p.(hasGeometry := true, items := p.items + [NewGeometry(t, identifier)])
  }

  /** `disableGeometry()`: the geometry closes and only the last item recalculates its shape. */
  function AfterDisableGeometry(p: PlacemarkState): (r: PlacemarkState)
    ensures r == p.(hasGeometry := false, items := r.items)
    ensures p.items == [] ==> r.items == []
    ensures p.items != [] ==> r.items == UpdateLast(p.items, Geometries.AfterRecalculateShape(p.items[|p.items| - 1]))
  {
    p.(hasGeometry := false,
       items := if p.items == [] then [] else UpdateLast(p.items, Geometries.AfterRecalculateShape(p.items[|p.items| - 1])))
  }

  /** The `switch` of `enableGeometry(of:with:)`: a fresh builder of the given kind. */
  method MakeGeometry(t: TypeName, identifier: Option<string>) returns (geometry: Geometries.Geometry)
    ensures fresh(geometry.Object())
    ensures geometry.State() == NewGeometry(t, identifier)
  {
    match t {
      case PointType =>
        var point := new Points.KMLPoint(identifier);
        geometry := Geometries.Point(point);
      case PolygonType =>
        var polygon := new Polygons.KMLPolygon(identifier);
        geometry := Geometries.Polygon(polygon);
      case LineStringType =>
        var lineString := new LineStrings.KMLLineString(identifier);
        geometry := Geometries.LineString(lineString);
    }
  }

  // ---------------------------------------------------------------------------------------
  // The class
  // ---------------------------------------------------------------------------------------

  /** `KMLPlacemark` */
  class KMLPlacemark {
    var style: Styles.KMLStyle?
    var items: seq<Geometries.Geometry>
    var name: Option<string>
    var description: Option<string>
    var styleURL: Option<string>
    const identifier: Option<string>
    var nameIsParsed: bool
    var descriptionIsParsed: bool
    var styleURLIsParsed: bool
    var hasStyle: bool
    var hasGeometry: bool
    var accumulatedData: Option<string>

    /** The objects this placemark's state is made of: itself, its style and its geometries. */
    ghost function Repr(): set<object>
      reads this
    {
      {this} + (if style == null then {} else {style}) + Geometries.Objects(items)
    }

    /** The geometries are distinct objects, apart from the placemark and its style. */
    ghost predicate Valid()
      reads this
    {
      && Geometries.Distinct(items)
      && this !in Geometries.Objects(items)
      && (style != null ==> style !in Geometries.Objects(items))
    }

    function State(): PlacemarkState
      reads this, style, Geometries.Objects(items)
    {
      PlacemarkState(identifier, if style == null then None else Some(style.State()),
        Geometries.States(items), name, description, styleURL,
        nameIsParsed, descriptionIsParsed, styleURLIsParsed, hasStyle, hasGeometry, accumulatedData)
    }

    constructor (identifier: Option<string>)
      ensures Valid() && State() == NewPlacemark(identifier) && fresh(Repr())
    {
      this.identifier := identifier;
      style, items := null, [];
      name, description, styleURL := None, None, None;
      nameIsParsed, descriptionIsParsed, styleURLIsParsed := false, false, false;
      hasStyle, hasGeometry, accumulatedData := false, false, None;
    }
  
    /** When only the style's fields changed, only the style's state did. */
    twostate lemma OnlyStyleChanged()
      requires old(Valid()) && unchanged(this) && style != null
      requires unchanged(Geometries.Objects(items))
      ensures Valid() && Repr() == old(Repr())
      ensures State() == old(State()).(style := Some(style.State()))
    {
    }

    /** When only the placemark's own fields changed, only those parts of its state did. */
    twostate lemma OnlyOwnFieldsChanged()
      requires old(Valid()) && items == old(items) && style == old(style)
      requires style != null ==> unchanged(style)
      requires unchanged(Geometries.Objects(items))
      ensures Valid() && Repr() == old(Repr())
      ensures State() == old(State()).(name := name, description := description, styleURL := styleURL,
        nameIsParsed := nameIsParsed, descriptionIsParsed := descriptionIsParsed,
        styleURLIsParsed := styleURLIsParsed, hasStyle := hasStyle, hasGeometry := hasGeometry,
        accumulatedData := accumulatedData)
    {
    }

    /** When only the last geometry's fields changed, only the last item's state did. */
    twostate lemma OnlyLastItemChanged()
      requires old(Valid()) && unchanged(this) && items != []
      requires style != null ==> unchanged(style)
      requires forall k :: 0 <= k < |items| - 1 ==> unchanged(items[k].Object())
      ensures Valid() && Repr() == old(Repr())
      ensures State() == old(State()).(items := UpdateLast(old(State()).items, items[|items| - 1].State()))
    {
      Geometries.StatesAfterLastChanged(items);
    }

    method Append(data: string)
      requires Valid()
      modifies Repr()
      ensures Valid() && Repr() == old(Repr())
      ensures State() == AfterAppend(old(State()), data)
    {
      if hasStyle {
        if style != null {
          style.Append(data);
          OnlyStyleChanged();
        }
      } else if hasGeometry {
        if items != [] {
          var last := items[|items| - 1];
          assert last.Object() in Geometries.Objects(items);
          Geometries.Append(last, data);
          OnlyLastItemChanged();
        }
      } else {
        var filteredData := Strip(data);
        if filteredData != [] {
          accumulatedData := Some(accumulatedData.GetOr("") + filteredData);
          OnlyOwnFieldsChanged();
        }
      }
    }

    method ClearData()
      modifies this`accumulatedData
      ensures accumulatedData == None
    {
      accumulatedData := None;
    }

    method NameParse(isStarted: bool)
      requires Valid()
      modifies this
      ensures Valid() && Repr() == old(Repr())
      ensures State() == AfterNameParse(old(State()), isStarted)
    {
      nameIsParsed := isStarted;
      if !nameIsParsed {
        name := accumulatedData;
        ClearData();
      }
      OnlyOwnFieldsChanged();
    }

    method DescriptionParse(isStarted: bool)
      requires Valid()
      modifies this
      ensures Valid() && Repr() == old(Repr())
      ensures State() == AfterDescriptionParse(old(State()), isStarted)
    {
      descriptionIsParsed := isStarted;
      if !descriptionIsParsed {
        description := accumulatedData;
        ClearData();
      }
      OnlyOwnFieldsChanged();
    }

    method StyleURLParse(isStarted: bool)
      requires Valid()
      modifies this
      ensures Valid() && Repr() == old(Repr())
      ensures State() == AfterStyleURLParse(old(State()), isStarted)
    {
      styleURLIsParsed := isStarted;
      if !styleURLIsParsed {
        styleURL := accumulatedData;
        ClearData();
      }
      OnlyOwnFieldsChanged();
    }

    method EnableStyle(identifier: Option<string>)
      requires Valid()
      modifies this
      ensures Valid() && fresh(style) && items == old(items)
      ensures Repr() == old(Repr()) - (if old(style) == null then {} else {old(style)}) + {style}
      ensures State() == AfterEnableStyle(old(State()), identifier)
    {
      hasStyle := true;
      OnlyOwnFieldsChanged();
      ReplaceStyle(identifier);
    }

    /** `style = KMLStyle(with: identifier)`: a fresh style takes the place of any earlier one. */
    method ReplaceStyle(identifier: Option<string>)
      requires Valid()
      modifies this`style
      ensures Valid() && fresh(style) && items == old(items)
      ensures Repr() == old(Repr()) - (if old(style) == null then {} else {old(style)}) + {style}
      ensures State() == old(State()).(style := Some(Styles.NewStyle(identifier)))
    {
      ghost var states := Geometries.States(items);
      var newStyle := new Styles.KMLStyle(identifier);
      assert Geometries.States(items) == states;
      style := newStyle;
    }

    method DisableStyle()
      requires Valid()
      modifies this
      ensures Valid() && Repr() == old(Repr())
      ensures State() == AfterDisableStyle(old(State()))
    {
      hasStyle := false;
    }

    method EnableGeometry(typeName: string, identifier: Option<string>)
      requires Valid()
      modifies this
      ensures Valid() && style == old(style) && fresh(Repr() - old(Repr()))
      ensures State() == AfterEnableGeometry(old(State()), typeName, identifier)
    {
      match TypeNameOf(typeName)
      case None =>
      case Some(t) => OpenGeometry(t, identifier);
    }

    /** The known-type branch of `enableGeometry(typeName:identifier:)`. */
    method OpenGeometry(t: TypeName, identifier: Option<string>)
      requires Valid()
      modifies this
      ensures Valid() && style == old(style) && fresh(Repr() - old(Repr()))
      ensures State() == old(State()).(hasGeometry := true, items := old(State()).items + [NewGeometry(t, identifier)])
    {
      hasGeometry := true;
      OnlyOwnFieldsChanged();
      AddGeometry(t, identifier);
    }

    /** The `switch` of `enableGeometry(of:with:)` and the `items.append` after it. */
    method AddGeometry(t: TypeName, identifier: Option<string>)
      requires Valid()
      modifies this`items
      ensures Valid() && fresh(Repr() - old(Repr()))
      ensures State() == old(State()).(items := old(State()).items + [NewGeometry(t, identifier)])
    {
      var geometry := MakeGeometry(t, identifier);
      assert State() == old(State());
      AppendItem(geometry);
    }

    /** `items.append(item)` with a geometry that belongs to no other placemark part. */
    method AppendItem(geometry: Geometries.Geometry)
      requires Valid() && geometry.Object() !in Repr()
      modifies this`items
      ensures Valid() && Repr() == old(Repr()) + {geometry.Object()}
      ensures State() == old(State()).(items := old(State()).items + [geometry.State()])
    {
      Geometries.DistinctSnoc(items, geometry);
      Geometries.ObjectsSnoc(items, geometry);
      Geometries.StatesSnoc(items, geometry);
      items := items + [geometry];
    }

    /** `disableGeometry()`; the shape's title and subtitle are not part of this model. */
    method DisableGeometry(iOS13Available: bool)
      requires Valid()
      modifies Repr()
      ensures Valid() && Repr() == old(Repr())
      ensures State() == AfterDisableGeometry(old(State()))
    {
      hasGeometry := false;
      if items != [] {
        OnlyOwnFieldsChanged();
        var lastGeometry := items[|items| - 1];
        assert lastGeometry.Object() in Geometries.Objects(items);
        ghost var before := State();
        label Started:
        Geometries.RecalculateShape(lastGeometry, iOS13Available);
        OnlyLastItemChanged@Started();
        assert State() == before.(items := UpdateLast(before.items, lastGeometry.State()));
      } else {
        OnlyOwnFieldsChanged();
      }
    }
  }
}
