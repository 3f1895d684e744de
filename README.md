# KML parser model

A Dafny model of the builder core of the `KMLParser` iOS library. An `XMLParser` delegate, the
router (`KMLParser`), receives a stream of start-element, end-element and text callbacks. It
builds two things from them:

- the document's identified styles, as a map from identifier to style;
- the placemarks, in document order. Each holds an optional inline style, a name, a description,
  a style URL, and point, line-string and polygon geometries.

The model covers:

- **The per-entity builders.** `KMLStyle`, `KMLPlacemark`, `KMLPoint`, `KMLLineString` and
  `KMLPolygon` are Dafny classes. Their fields are the Swift stored properties: the
  "currently parsing X" flags, the optional text buffer and the typed values.
- **Contracts on every mutating method.** Each method's `ensures` gives the object's whole new
  state, `State()`, as a pure transition function of the old state. The properties the library
  promises are proved about those functions.
- **The router.** `KMLParser` holds the current-style and current-placemark slots, the finished
  `styles` map and the `placemarks` list. Each of its three callbacks and `parse` is proved
  equal to a pure step function (`Step`, `Run`, `Parsed`) over a value snapshot of the whole
  parser.
- **The coordinate tokenizer.** `makeLocationCoordinates` is a loop method and
  `makeLocationCoordinate` a method branching on `#available(iOS 13, *)`. Each is proved
  equal to a functional specification (`LocationCoordinates`, `LocationCoordinate`).
- **The 8-digit hex colour decoder**, kept as the red, green, blue and alpha bytes it extracts.

The module layout follows the source files:

| module | source file |
|---|---|
| `ElementType` | `KMLElementType.swift` |
| `Styles` | `KMLStyle.swift` |
| `Points` | `KMLPoint.swift` |
| `LineStrings` | `KMLLineString.swift` |
| `Polygons` | `KMLPolygon.swift` |
| `Geometries` | `KMLGeometryType.swift`, with the item's `geometry` |
| `Placemarks` | `KMLPlacemark.swift` |
| `Parsing` | `KMLParser.swift` |

`Platform` gathers what the code takes from Foundation and the Swift standard library.

Behaviours of the code that the model keeps as written:

- Element names match case-sensitively, including the lowercase raw values `style` and
  `styleURL`.
- A top-level `style` without an `id` is ignored.
- An unknown `altitudeMode` clears the altitude mode.
- A `Point` never gets its coordinates through the router. `KMLPoint` defines
  `coordinateParse` (singular), so the router's `coordinatesParse` call reaches the empty
  default of `KMLGeometryType`.

## Model

| member | source | states |
|---|---|---|
| `ElementType.AccumulatedStripped` | Sources/KMLStyle.swift:73-79 | A fragment with no whitespace is appended to the buffer (a missing buffer counts as empty); a whitespace-only fragment leaves the buffer, even a missing one, unchanged |
| `ElementType.AccumulatedConcat` | Sources/KMLPoint.swift:41-43 | Appending two fragments one after the other buffers the same text as appending their concatenation (`ElementType.Accumulated` is the unfiltered `accumulatedData = (accumulatedData ?? "") + data`) |
| `ElementType.AccumulatedStrippedConcat` | Sources/KMLPlacemark.swift:73-77 | The whitespace-stripping append is insensitive to how the text is split into fragments |
| `ElementType.Separators` | Sources/KMLElementType.swift:32 | The separators `components(separatedBy: .whitespacesAndNewlines)` splits at are exactly whitespace characters |
| `ElementType.Components` | Sources/KMLElementType.swift:32 | The split yields one more piece than there are separators, and no piece contains whitespace (every whitespace character separates, so empty pieces occur) |
| `ElementType.ComponentsRoundTrip` | Sources/KMLElementType.swift:32 | Interleaving the pieces with the separators gives back the original text: the split loses nothing |
| `ElementType.ComponentsAppend` | Sources/KMLElementType.swift:32 | Splitting `a + w + b`, where `w` is whitespace, gives the pieces of `a` followed by the pieces of `b` |
| `ElementType.SkipCommas` | Sources/KMLElementType.swift:45 | The scanner skips exactly the run of commas at the cursor |
| `ElementType.DigitsEnd` | Sources/KMLElementType.swift:48 | The end of the run of decimal digits at the cursor |
| `ElementType.ScanMagnitude` | Sources/KMLElementType.swift:48 | An unsigned decimal `digits[.digits]` scans to a non-negative value and moves the cursor past at least one character |
| `ElementType.ScanDouble` | Sources/KMLElementType.swift:48 | `scanDouble` skips commas, takes an optional sign and a decimal; on success the cursor advances and stays within the text |
| `ElementType.LocationCoordinate` | Sources/KMLElementType.swift:43-67 | Yields a coordinate exactly when two numbers scan in sequence and the pair is within the bounds; the first number is the longitude and the second the latitude; every result is valid |
| `ElementType.MakeLocationCoordinate` | Sources/KMLElementType.swift:43-67 | Both the iOS 13 branch and the legacy branch compute `LocationCoordinate` of the tuple |
| `ElementType.Denoted` | Sources/KMLElementType.swift:35-37 | One piece contributes at most one coordinate |
| `ElementType.CoordinatesOf` | Sources/KMLElementType.swift:34-38 | There are no more coordinates than pieces, and every coordinate is within the bounds |
| `ElementType.LocationCoordinates` | Sources/KMLElementType.swift:29-41 | There are no more coordinates than whitespace-separated pieces, and every coordinate is within the latitude and longitude bounds |
| `ElementType.MakeLocationCoordinates` | Sources/KMLElementType.swift:29-41 | The loop over the pieces returns exactly `LocationCoordinates` of the text |
| `ElementType.CoordinatesOfAppend` | Sources/KMLElementType.swift:34-38 | The coordinates of two runs of pieces are the coordinates of the first followed by those of the second: output order follows piece order |
| `ElementType.CoordinatesOfMembership` | Sources/KMLElementType.swift:34-38 | A coordinate is in the output if and only if some piece scans to it |
| `ElementType.LocationCoordinatesSplit` | Sources/KMLElementType.swift:32-38 | Each piece is parsed on its own: the text on either side of a whitespace character is tokenized independently, so a bad piece never aborts the rest |
| `ElementType.LocationCoordinatesMembership` | Sources/KMLElementType.swift:29-41 | A coordinate is in the output if and only if some piece of the text scans to it |
| `ElementType.LocationCoordinatesBlank` | Sources/KMLElementType.swift:29-41 | The empty text, or whitespace only, yields no coordinates |
| `ElementType.LocationCoordinateIgnoresTrailing` | Sources/KMLElementType.swift:48-52 | Once a tuple yields a coordinate, a comma or whitespace and anything after it (an altitude, say) changes nothing |
| `ElementType.ExampleTuple` | Sources/KMLElementType.swift:48-49 | `"-1.5,2"` yields longitude -1.5 and latitude 2: the pair is stored swapped |
| `ElementType.ExampleOutOfRange` | Sources/KMLElementType.swift:50 | `"200,1"` yields nothing: a longitude beyond 180 fails the validity check |
| `ElementType.LocationCoordinatesOfTuple` | Sources/KMLElementType.swift:32-38 | A text without whitespace is a single piece and yields at most its own coordinate |
| `ElementType.LocationCoordinatesOfTwoTuples` | Sources/KMLElementType.swift:32-38 | Two tuples separated by one whitespace character yield their coordinates in order |
| `Platform.IntValueTruncates` | Sources/KMLStyle.swift:161 | `intValue` (`Platform.IntValue`) truncates toward zero and is 0 exactly on the open interval (-1, 1) |
| `Platform.Strip` | Sources/KMLStyle.swift:74 | Filtering whitespace leaves no whitespace, is the identity on text without whitespace, and empties whitespace-only text (`Platform.IsWhitespace` is `Character.isWhitespace`, the Unicode White_Space set) |
| `Platform.StripConcat` | Sources/KMLStyle.swift:74 | Filtering distributes over concatenation |
| `Styles.PackOfChannels` | Sources/KMLStyle.swift:189-192 | The four channel bytes (`Styles.Channels`) hold exactly the low 32 bits of the scanned number, which `Styles.Pack` rebuilds |
| `Styles.ChannelsOfPack` | Sources/KMLStyle.swift:189-192 | Extracting the channels of the packed bytes gives back the same colour |
| `Styles.WithoutHash` | Sources/KMLStyle.swift:180-182 | Exactly one leading `#` is dropped, and nothing else |
| `Styles.HexColor` | Sources/KMLStyle.swift:177-200 | Decodes if and only if exactly 8 characters remain after the optional `#` and the hex scan succeeds; the channels are bytes 24, 16, 8 and 0 of the scanned number |
| `Styles.HexColorHashOptional` | Sources/KMLStyle.swift:180-182 | A leading `#` makes no difference to the decoded colour |
| `Styles.StyleState.StrokeColor` | Sources/KMLStyle.swift:39-41 | The stroke colour is present if and only if the outline is on and an outline colour is set, and is then that colour |
| `Styles.NewStyle` | Sources/KMLStyle.swift:65-67 | A new style has its identifier, an empty buffer, no open sub-element, every kind flag and the outline off, and no width, scale, fill, label or outline colour |
| `Styles.AfterAppend` | Sources/KMLStyle.swift:73-79 | Only the buffer changes: whitespace-free text is appended, whitespace-only text changes nothing, and a buffer that is missing or non-empty and whitespace-free stays so |
| `Styles.AfterAppendConcat` | Sources/KMLStyle.swift:73-79 | Text split over two calls is buffered as if sent at once |
| `Styles.AppendAllConcat` | Sources/KMLStyle.swift:73-79 | Any sequence of fragments is buffered as their concatenation |
| `Styles.CanAddStringFollowsFlags` | Sources/KMLStyle.swift:35-37 | `canAddString` holds after opening any of the five sub-elements and fails once all five are closed, with the buffer then empty |
| `Styles.AfterColorParse` | Sources/KMLStyle.swift:85-106 | Opening only raises the flag. Closing empties the buffer and changes at most one colour: the outline colour of a line style, else the fill colour of a polygon style, else the label colour, set to the decoded buffer. With no buffer or an undecodable one, closing only lowers the flag and empties the buffer |
| `Styles.StoredColor` | Sources/KMLStyle.swift:98-104 | The colour goes to exactly one field, chosen by the line, polygon and label flags in that priority order; no flag means nothing changes |
| `Styles.ColorParseWrites` | Sources/KMLStyle.swift:98-104 | A decodable buffer is written to the field the style kind selects |
| `Styles.AfterScaleParse` | Sources/KMLStyle.swift:108-123 | Opening only raises the flag; closing empties the buffer and sets the label scale to the parsed number rounded to single precision (`floatValue`), keeping the old scale when the parse fails |
| `Styles.AfterWidthParse` | Sources/KMLStyle.swift:125-140 | Opening only raises the flag; closing empties the buffer and sets the stroke width to the parsed number rounded to single precision (`floatValue`), keeping the old width when the parse fails |
| `Styles.AfterFillParse` | Sources/KMLStyle.swift:142-148 | Opening only raises the flag; closing only empties the buffer |
| `Styles.AfterOutlineParse` | Sources/KMLStyle.swift:150-165 | Opening only raises the flag; closing empties the buffer; the outline switch changes only on a close whose text parses as a number, and keeps its value otherwise |
| `Styles.OutlineFollowsNumber` | Sources/KMLStyle.swift:158-163 | When the number parses, the outline is on if and only if its integer part is non-zero, that is the number is at least 1 in magnitude |
| `Styles.KMLStyle.constructor` | Sources/KMLStyle.swift:65-67 | The new object's state is `NewStyle` |
| `Styles.KMLStyle.Append` | Sources/KMLStyle.swift:73-79 | The new state is `AfterAppend` of the old one |
| `Styles.KMLStyle.ClearData` | Sources/KMLStyle.swift:81-83 | The buffer is emptied and nothing else is touched |
| `Styles.KMLStyle.ColorParse` | Sources/KMLStyle.swift:85-106 | The new state is `AfterColorParse` of the old one |
| `Styles.KMLStyle.StoreColor` | Sources/KMLStyle.swift:98-104 | The new state is `StoredColor` of the old one; only the three colour fields may change |
| `Styles.KMLStyle.ScaleParse` | Sources/KMLStyle.swift:108-123 | The new state is `AfterScaleParse` of the old one |
| `Styles.KMLStyle.WidthParse` | Sources/KMLStyle.swift:125-140 | The new state is `AfterWidthParse` of the old one |
| `Styles.KMLStyle.FillParse` | Sources/KMLStyle.swift:142-148 | The new state is `AfterFillParse` of the old one |
| `Styles.KMLStyle.OutlineParse` | Sources/KMLStyle.swift:150-165 | The new state is `AfterOutlineParse` of the old one |
| `Points.NewPoint` | Sources/KMLPoint.swift:26-35 | A new point has no coordinate, no open element and no buffer |
| `Points.AfterAppend` | Sources/KMLPoint.swift:41-43 | Only the buffer changes, and the fragment is appended unfiltered |
| `Points.AfterAppendConcat` | Sources/KMLPoint.swift:41-43 | Text split over two calls is buffered as if sent at once |
| `Points.AfterCoordinateParse` | Sources/KMLPoint.swift:49-56 | Opening only raises the flag; closing with no buffer only lowers it. Closing with a buffer sets the point to the single-tuple scan of the whole buffer (possibly none, overwriting) and empties the buffer. A changed point is within the bounds |
| `Points.PointIsFirstTuple` | Sources/KMLPoint.swift:54-55 | The whole buffer is scanned as one tuple, so the point comes from the first tuple; whitespace and further tuples after it are ignored |
| `Points.KMLPoint.constructor` | Sources/KMLPoint.swift:33-35 | The new object's state is `NewPoint` |
| `Points.KMLPoint.Append` | Sources/KMLPoint.swift:41-43 | The new state is `AfterAppend` of the old one |
| `Points.KMLPoint.ClearData` | Sources/KMLPoint.swift:45-47 | The buffer is emptied and nothing else is touched |
| `Points.KMLPoint.CoordinateParse` | Sources/KMLPoint.swift:49-56 | The new state is `AfterCoordinateParse` of the old one |
| `LineStrings.NewLineString` | Sources/KMLLineString.swift:19-28 | A new line string has no points, no open element and no buffer |
| `LineStrings.AfterAppend` | Sources/KMLLineString.swift:34-36 | Only the buffer changes, and the fragment is appended unfiltered |
| `LineStrings.AfterAppendConcat` | Sources/KMLLineString.swift:34-36 | Text split over two calls is buffered as if sent at once |
| `LineStrings.AfterCoordinatesParse` | Sources/KMLLineString.swift:42-49 | Opening only raises the flag; closing with no buffer only lowers it. Closing with a buffer replaces the points by the tokenized buffer and empties the buffer. Points within the bounds stay within the bounds |
| `LineStrings.LastCoordinatesWin` | Sources/KMLLineString.swift:47-48 | A second `coordinates` element replaces the points of the first rather than adding to them |
| `LineStrings.KMLLineString.constructor` | Sources/KMLLineString.swift:26-28 | The new object's state is `NewLineString` |
| `LineStrings.KMLLineString.Append` | Sources/KMLLineString.swift:34-36 | The new state is `AfterAppend` of the old one |
| `LineStrings.KMLLineString.ClearData` | Sources/KMLLineString.swift:38-40 | The buffer is emptied and nothing else is touched |
| `LineStrings.KMLLineString.CoordinatesParse` | Sources/KMLLineString.swift:42-49 | The new state is `AfterCoordinatesParse` of the old one |
| `Polygons.AltitudeKindOf` | Sources/KMLPolygon.swift:10-16 | A recognised text is exactly the raw value (`Polygons.RawValue`) of the case returned |
| `Polygons.AltitudeKindRoundTrip` | Sources/KMLPolygon.swift:10-16 | Every case is recognised from its raw value |
| `Polygons.AltitudeKindOfExact` | Sources/KMLPolygon.swift:10-16 | A text is rejected if and only if it is no case's raw value: matching is exact |
| `Polygons.NewPolygon` | Sources/KMLPolygon.swift:51-53 | A new polygon has no rings, no altitude mode, no shape and no buffer, and does not want text |
| `Polygons.AfterAppend` | Sources/KMLPolygon.swift:59-61 | Only the buffer changes: the fragment is appended unfiltered, whether or not a ring is open |
| `Polygons.AfterAppendConcat` | Sources/KMLPolygon.swift:59-61 | Text split over two calls is buffered as if sent at once |
| `Polygons.AfterOuterBoundaryParse` | Sources/KMLPolygon.swift:67-77 | Opening only raises the flag. Closing empties the buffer; a buffer, even an empty one, becomes the outer ring (the last one wins), and a missing buffer keeps the old ring |
| `Polygons.AfterInnerBoundaryParse` | Sources/KMLPolygon.swift:79-89 | Opening only raises the flag. Closing empties the buffer; a buffer adds exactly one inner ring at the end and keeps the earlier ones |
| `Polygons.AfterLinearRingParse` | Sources/KMLPolygon.swift:31-33 | Only the ring flag changes, and `canAddString` then equals it |
| `Polygons.AfterExtrudeParse` | Sources/KMLPolygon.swift:103-109 | Opening only raises the flag; closing only lowers it and empties the buffer |
| `Polygons.AfterAltitudeModeParse` | Sources/KMLPolygon.swift:111-121 | Closing with a buffer sets the altitude mode to the case whose raw value is exactly the buffer, or to none if there is no such case, and empties the buffer; a missing buffer keeps the mode |
| `Polygons.InnerPolygons` | Sources/KMLPolygon.swift:126-133 | One coordinate list per inner ring, in order, each the tokenization of its ring |
| `Polygons.MaterializedShape` | Sources/KMLPolygon.swift:123-142 | The outer coordinates are the tokenized outer ring, or none without one; the interior polygons are the inner rings tokenized in order; every outer coordinate is within the bounds |
| `Polygons.AfterRecalculateShape` | Sources/KMLPolygon.swift:123-142 | Only the shape changes, and it becomes the shape the rings describe |
| `Polygons.RecalculateShapeIdempotent` | Sources/KMLPolygon.swift:123-142 | The raw rings are never modified, so recalculating twice gives the same state as once |
| `Polygons.InteriorPolygonsValid` | Sources/KMLPolygon.swift:126-133 | Every interior coordinate is within the bounds |
| `Polygons.MakeInnerPolygons` | Sources/KMLPolygon.swift:126-133 | The loop over the inner rings returns `InnerPolygons` of the rings |
| `Polygons.InnerPolygonsSnoc` | Sources/KMLPolygon.swift:126-133 | Each loop iteration appends the current ring's coordinates to the result |
| `Polygons.KMLPolygon.constructor` | Sources/KMLPolygon.swift:51-53 | The new object's state is `NewPolygon` |
| `Polygons.KMLPolygon.Append` | Sources/KMLPolygon.swift:59-61 | The new state is `AfterAppend` of the old one |
| `Polygons.KMLPolygon.ClearData` | Sources/KMLPolygon.swift:63-65 | The buffer is emptied and nothing else is touched |
| `Polygons.KMLPolygon.OuterBoundaryParse` | Sources/KMLPolygon.swift:67-77 | The new state is `AfterOuterBoundaryParse` of the old one |
| `Polygons.KMLPolygon.InnerBoundaryParse` | Sources/KMLPolygon.swift:79-89 | The new state is `AfterInnerBoundaryParse` of the old one |
| `Polygons.KMLPolygon.LinearRingParse` | Sources/KMLPolygon.swift:91-93 | The new state is `AfterLinearRingParse` of the old one |
| `Polygons.KMLPolygon.ExtrudeParse` | Sources/KMLPolygon.swift:103-109 | The new state is `AfterExtrudeParse` of the old one |
| `Polygons.KMLPolygon.AltitudeModeParse` | Sources/KMLPolygon.swift:111-121 | The new state is `AfterAltitudeModeParse` of the old one |
| `Polygons.KMLPolygon.RecalculateShape` | Sources/KMLPolygon.swift:123-142 | The new state is `AfterRecalculateShape` of the old one |
| `Geometries.CanAddString` | Sources/KMLGeometryType.swift:19-21 | Only a polygon can want text (the default is false), and a polygon wants it as its own `canAddString` says |
| `Geometries.AfterAppend` | Sources/KMLGeometryType.swift:10-16 | Every geometry kind accepts text through its own `append` and keeps its kind |
| `Geometries.AfterCoordinatesParse` | Sources/KMLGeometryType.swift:27 | Only a line string reacts to `coordinatesParse`; a point or a polygon takes the empty default and is unchanged |
| `Geometries.AfterRecalculateShape` | Sources/KMLGeometryType.swift:33 | Only a polygon reacts to `recalculateShape`; a point or a line string takes the empty default and is unchanged |
| `Geometries.PointUnchangedByGeometryCalls` | Sources/KMLGeometryType.swift:27-33 | Nothing the router sends to a geometry changes a point's coordinate |
| `Geometries.Append` | Sources/KMLGeometryType.swift:10-16 | The geometry's new state is `AfterAppend` of its old one |
| `Geometries.CoordinatesParse` | Sources/KMLGeometryType.swift:27 | The geometry's new state is `AfterCoordinatesParse` of its old one |
| `Geometries.RecalculateShape` | Sources/KMLGeometryType.swift:33 | The geometry's new state is `AfterRecalculateShape` of its old one |
| `Placemarks.TypeNameOf` | Sources/KMLPlacemark.swift:10-14 | A recognised name is exactly the raw value (`Placemarks.TypeRawValue`) of the kind returned; no kind has a rejected name as its raw value |
| `Placemarks.NewGeometry` | Sources/KMLPlacemark.swift:128-135 | The new geometry has the kind named, the identifier given, no buffer and no coordinates |
| `Placemarks.NewPlacemark` | Sources/KMLPlacemark.swift:59-61 | A new placemark has its identifier, no style, no geometry, no name, description or style URL, and no buffer |
| `Placemarks.UpdateLast` | Sources/KMLPlacemark.swift:74 | Only the last item is replaced; the length and the earlier items are kept |
| `Placemarks.AfterAppend` | Sources/KMLPlacemark.swift:67-79 | Text goes to the style while one is open, else to the last geometry while one is open, else whitespace-stripped to the placemark's own buffer whatever is open; nothing else changes |
| `Placemarks.AfterNameParse` | Sources/KMLPlacemark.swift:85-92 | Opening only raises the flag; closing moves the buffer, missing or not, into the name and empties it |
| `Placemarks.AfterDescriptionParse` | Sources/KMLPlacemark.swift:94-101 | Opening only raises the flag; closing moves the buffer into the description and empties it |
| `Placemarks.AfterStyleURLParse` | Sources/KMLPlacemark.swift:103-110 | Opening only raises the flag; closing moves the buffer into the style URL and empties it |
| `Placemarks.NameIsStrippedText` | Sources/KMLPlacemark.swift:73-92 | The name is the whitespace-stripped text between the tags, and is missing when that is empty |
| `Placemarks.AfterEnableStyle` | Sources/KMLPlacemark.swift:112-115 | The style flag is raised and the style replaced by a new one with the given identifier; nothing else changes |
| `Placemarks.AfterDisableStyle` | Sources/KMLPlacemark.swift:117-119 | Only the style flag is lowered; the style is kept |
| `Placemarks.AfterEnableGeometry` | Sources/KMLPlacemark.swift:121-139 | An unknown name changes nothing. A known one raises the geometry flag and adds exactly one new geometry of that kind after the earlier items |
| `Placemarks.AfterDisableGeometry` | Sources/KMLPlacemark.swift:141-148 | The geometry flag is lowered and only the last item has its shape recalculated |
| `Placemarks.MakeGeometry` | Sources/KMLPlacemark.swift:128-135 | Returns a fresh object in the state `NewGeometry` |
| `Placemarks.KMLPlacemark.constructor` | Sources/KMLPlacemark.swift:59-61 | The new object's state is `NewPlacemark` |
| `Placemarks.KMLPlacemark.Append` | Sources/KMLPlacemark.swift:67-79 | The new state, style and geometries included, is `AfterAppend` of the old one |
| `Placemarks.KMLPlacemark.ClearData` | Sources/KMLPlacemark.swift:81-83 | The buffer is emptied and nothing else is touched |
| `Placemarks.KMLPlacemark.NameParse` | Sources/KMLPlacemark.swift:85-92 | The new state is `AfterNameParse` of the old one |
| `Placemarks.KMLPlacemark.DescriptionParse` | Sources/KMLPlacemark.swift:94-101 | The new state is `AfterDescriptionParse` of the old one |
| `Placemarks.KMLPlacemark.StyleURLParse` | Sources/KMLPlacemark.swift:103-110 | The new state is `AfterStyleURLParse` of the old one |
| `Placemarks.KMLPlacemark.EnableStyle` | Sources/KMLPlacemark.swift:112-115 | The new state is `AfterEnableStyle` of the old one, with a fresh style object |
| `Placemarks.KMLPlacemark.DisableStyle` | Sources/KMLPlacemark.swift:117-119 | The new state is `AfterDisableStyle` of the old one |
| `Placemarks.KMLPlacemark.EnableGeometry` | Sources/KMLPlacemark.swift:121-139 | The new state is `AfterEnableGeometry` of the old one; the style object is kept |
| `Placemarks.KMLPlacemark.ReplaceStyle` | Sources/KMLPlacemark.swift:114 | A fresh style object in the `NewStyle` state replaces the old one; the items are kept |
| `Placemarks.KMLPlacemark.OpenGeometry` | Sources/KMLPlacemark.swift:123-138 | For a known type the flag is raised and exactly one new geometry of that type is appended |
| `Placemarks.KMLPlacemark.AddGeometry` | Sources/KMLPlacemark.swift:127-138 | The `switch` builds a fresh geometry in the `NewGeometry` state and appends it after the earlier items |
| `Placemarks.KMLPlacemark.AppendItem` | Sources/KMLPlacemark.swift:138 | `items.append` adds the geometry's state at the end and keeps the placemark's parts distinct |
| `Placemarks.KMLPlacemark.DisableGeometry` | Sources/KMLPlacemark.swift:141-148 | The new state is `AfterDisableGeometry` of the old one |
| `Parsing.AllElementNamesListed` | Sources/KMLParser.swift:10-34 | The list of element names the recognizer searches is complete |
| `Parsing.FirstNamed` | Sources/KMLParser.swift:10-34 | A name found is in the list and has exactly the raw value searched for; when none is found, no listed name has it |
| `Parsing.ElementNameOf` | Sources/KMLParser.swift:10-34 | `KMLElementName(rawValue:)` returns a case whose raw value (`Parsing.RawValue`, the table of raw values) is exactly the text, and none when no case has it |
| `Parsing.RawValueInjective` | Sources/KMLParser.swift:10-34 | No two element names share a raw value |
| `Parsing.ElementNameRoundTrip` | Sources/KMLParser.swift:10-34 | Every element name is recognised from its raw value |
| `Parsing.ElementNamesAreCaseSensitive` | Sources/KMLParser.swift:11-23 | The style element is recognised as `style` and the URL element as `styleURL`; the KML spellings `Style` and `styleUrl` are not recognised |
| `Parsing.IdentifierOf` | Sources/KMLParser.swift:100 | The identifier is present exactly when the attributes hold `id`, and is then its value |
| `Parsing.NewParser` | Sources/KMLParser.swift:44-48 | A new parser has no styles, no placemarks and empty slots |
| `Parsing.ApplyStyleOp` | Sources/KMLParser.swift:112-127 | A style sub-element keeps the style's identifier, and the three kind elements only set their flag |
| `Parsing.AfterStyleOp` | Sources/KMLParser.swift:101 | A style sub-element acts on `elementStyle` (`Parsing.ElementStyle`): the open placemark's style when it has one (even after its `style` closed), and then the top-level style slot is kept; else the top-level style, and then the placemark slot is kept; else nothing changes. The finished styles and placemarks are untouched |
| `Parsing.ApplyGeometryOp` | Sources/KMLParser.swift:142-153 | A geometry keeps its kind; `coordinates` goes through `coordinatesParse`; the other elements reach only a polygon and leave a point unchanged |
| `Parsing.AfterGeometryOp` | Sources/KMLParser.swift:142-153 | A geometry sub-element changes only the open placemark's last item, and nothing without an open placemark or an item |
| `Parsing.ApplyPlacemarkOp` | Sources/KMLParser.swift:130-141 | A placemark sub-element keeps the placemark's identifier |
| `Parsing.AfterPlacemarkOp` | Sources/KMLParser.swift:130-141 | A placemark sub-element changes only the open placemark, and nothing when none is open |
| `Parsing.StartAction` | Sources/KMLParser.swift:105-154 | Opening an element never closes a slot; only `style` opens the style slot and only `Placemark` opens the placemark slot |
| `Parsing.EndAction` | Sources/KMLParser.swift:167-220 | Closing an element never opens a slot; only `style` closes the style slot and only `Placemark` closes the placemark slot |
| `Parsing.Perform` | Sources/KMLParser.swift:105-220 | Only closing `Placemark` adds to the placemarks: the open one, at the end, emptying the slot, and nothing without one. Only closing `style` outside a placemark stores a style, under its identifier, replacing an earlier one. An anonymous top-level style is ignored. Inside a placemark `style` enables and disables its inline style. Opening `Placemark` replaces the slot. No style is ever removed |
| `Parsing.AfterStart` | Sources/KMLParser.swift:93-155 | An unrecognised element changes nothing; an opening never changes the finished styles or placemarks |
| `Parsing.AfterEnd` | Sources/KMLParser.swift:157-221 | An unrecognised element changes nothing; only `Placemark` changes the placemarks, only `style` the styles, and no style is removed |
| `Parsing.AfterCharacters` | Sources/KMLParser.swift:223-226 | Text goes to the open placemark if any, else to the open style, else it is dropped |
| `Parsing.Step` | Sources/KMLParser.swift:93-226 | An event either leaves the placemarks alone or appends the open placemark and empties its slot; style identifiers only accumulate |
| `Parsing.RunExtendsPlacemarks` | Sources/KMLParser.swift:191-195 | Over any event stream (`Parsing.Run`, the delegate callbacks in order) the earlier placemarks stay, in order, as a prefix |
| `Parsing.PerformKeepsStylesKeyed` | Sources/KMLParser.swift:168-174 | Storing a style keeps every stored style under its own identifier |
| `Parsing.StepKeepsStylesKeyed` | Sources/KMLParser.swift:93-226 | Each event keeps every stored style under its own identifier |
| `Parsing.RunKeepsStylesKeyed` | Sources/KMLParser.swift:93-226 | Any event stream keeps every stored style under its own identifier |
| `Parsing.UpdateLastUnlocated` | Sources/KMLParser.swift:142-153 | Replacing the last item by a point without a coordinate keeps all points without one |
| `Parsing.PlacemarkOpKeepsUnlocated` | Sources/KMLPlacemark.swift:121-148 | Placemark operations never give a point a coordinate |
| `Parsing.AppendKeepsUnlocated` | Sources/KMLPlacemark.swift:67-79 | Text never gives a point a coordinate |
| `Parsing.GeometryOpKeepsUnlocated` | Sources/KMLParser.swift:142-143 | Geometry sub-elements never give a point a coordinate, because `coordinatesParse` is the empty default for a point |
| `Parsing.PerformKeepsPointsUnlocated` | Sources/KMLParser.swift:105-220 | No action gives a point a coordinate |
| `Parsing.StepKeepsPointsUnlocated` | Sources/KMLParser.swift:93-226 | No event gives a point a coordinate |
| `Parsing.RunKeepsPointsUnlocated` | Sources/KMLParser.swift:93-226 | Through the router no point ever gets a coordinate |
| `Parsing.FirstHash` | Sources/KMLParser.swift:77 | `firstIndex(of: "#")`: the index of the first `#`, or none when there is none |
| `Parsing.StyleReference` | Sources/KMLParser.swift:77-81 | The reference is the non-empty text after the first `#`; a URL without `#` has none |
| `Parsing.StyleReferenceOf` | Sources/KMLParser.swift:77-81 | For a `#`-free prefix, `prefix#id` references `id`, and nothing when `id` is empty |
| `Parsing.AssignedStyle` | Sources/KMLParser.swift:75-84 | Only a placemark without a style whose URL has a reference changes, and only its style: it becomes the stored style of that identifier, or none when there is no such style |
| `Parsing.AssignedStyles` | Sources/KMLParser.swift:73-87 | The count and order of the placemarks are kept, and each is resolved on its own |
| `Parsing.AssignedStylesIdempotent` | Sources/KMLParser.swift:73-87 | Assigning styles twice gives the same placemarks as once |
| `Parsing.AssignedStyleResolves` | Sources/KMLParser.swift:73-87 | A placemark referring to a stored style by `#id` receives exactly that style, whose identifier is `id` |
| `Parsing.Parsed` | Sources/KMLParser.swift:64-67 | Parsing runs the whole event stream and then assigns styles; only the placemarks are affected by the assignment |
| `Parsing.ParsedDocument` | Sources/KMLParser.swift:64-67 | After a parse from scratch, every stored style is under its own identifier and no point has a coordinate |
| `Parsing.ApplyStyleOpTo` | Sources/KMLParser.swift:112-127 | The style object's new state is `ApplyStyleOp` of its old one |
| `Parsing.ApplyGeometryOpTo` | Sources/KMLParser.swift:142-153 | The geometry object's new state is `ApplyGeometryOp` of its old one |
| `Parsing.ApplyPlacemarkOpTo` | Sources/KMLParser.swift:130-141 | The placemark object's new state is `ApplyPlacemarkOp` of its old one |
| `Parsing.UpdateLastItem` | Sources/KMLParser.swift:142-153 | Only the placemark's last item changes, as `ApplyGeometryOp` says |
| `Parsing.KMLParser.constructor` | Sources/KMLParser.swift:44-58 | The new parser's state is `NewParser` |
| `Parsing.KMLParser.UpdateElementStyle` | Sources/KMLParser.swift:101 | The new state is `AfterStyleOp` of the old one |
| `Parsing.KMLParser.UpdatePlacemarkStyle` | Sources/KMLParser.swift:112-127 | When the open placemark has a style, operating on that style object gives the state `AfterStyleOp` of the old one |
| `Parsing.KMLParser.UpdateDocumentStyle` | Sources/KMLParser.swift:112-127 | When `elementStyle` is the top-level style, operating on that object gives the state `AfterStyleOp` of the old one |
| `Parsing.KMLParser.UpdatePlacemark` | Sources/KMLParser.swift:130-141 | The new state is `AfterPlacemarkOp` of the old one |
| `Parsing.KMLParser.UpdateLastGeometry` | Sources/KMLParser.swift:142-153 | The new state is `AfterGeometryOp` of the old one |
| `Parsing.KMLParser.Dispatch` | Sources/KMLParser.swift:105-220 | The new state is `Perform` of the old one |
| `Parsing.KMLParser.StartDocumentStyle` | Sources/KMLParser.swift:109-110 | The new state is `Perform` of opening a top-level style |
| `Parsing.KMLParser.EndDocumentStyle` | Sources/KMLParser.swift:170-173 | The new state is `Perform` of closing a top-level style |
| `Parsing.KMLParser.StartPlacemark` | Sources/KMLParser.swift:128-129 | The new state is `Perform` of opening a placemark |
| `Parsing.KMLParser.EndPlacemark` | Sources/KMLParser.swift:191-195 | The new state is `Perform` of closing a placemark |
| `Parsing.KMLParser.DidStartElement` | Sources/KMLParser.swift:93-155 | The new state is `AfterStart` of the old one with the `id` attribute |
| `Parsing.KMLParser.DidEndElement` | Sources/KMLParser.swift:157-221 | The new state is `AfterEnd` of the old one |
| `Parsing.KMLParser.FoundCharacters` | Sources/KMLParser.swift:223-226 | The new state is `AfterCharacters` of the old one |
| `Parsing.KMLParser.AssignStyles` | Sources/KMLParser.swift:73-87 | Only the placemarks change, to `AssignedStyles` of the old placemarks and the styles |
| `Parsing.KMLParser.ResolveStyleURLs` | Sources/KMLParser.swift:74-86 | The loop over the placemark indices leaves exactly `AssignedStyles` of the old placemarks |
| `Parsing.KMLParser.ResolveStyleURL` | Sources/KMLParser.swift:75-84 | Returns `AssignedStyle` of the placemark |
| `Parsing.KMLParser.Deliver` | Sources/KMLParser.swift:93-226 | The new state is `Step` of the old one |
| `Parsing.KMLParser.DeliverAll` | Sources/KMLParser.swift:65 | The new state is `Run` of the old one over the whole stream |
| `Parsing.KMLParser.Parse` | Sources/KMLParser.swift:64-67 | The new state is `Parsed` of the old one: all events, then the style assignment |

## Left out

- XML tokenizing and file loading are not modelled: `init(url:)` and the delegate wiring.
  `parse` takes the callbacks as a sequence of `Event` values instead of reading them from
  `XMLParser`. Namespace and qualified-name arguments are ignored by the source and are not
  parameters.
- MapKit and UIKit objects are left out. This covers the `MKPolygon`, `MKPolyline` and
  `MKPointAnnotation` shapes, `createOverlayPathRenderer`, `apply(to:)`, and the shapes'
  title and subtitle set in `disableGeometry`. Foreign framework objects are out of scope. A
  polygon's shape is the pair of its outer coordinates and its interior coordinate lists,
  and `shape` of a point or a line string is not represented.
- `Sources/KMLPlacemarkItem.swift` is not part of this model. It holds MapKit accessors. An
  item is its geometry, and the `polygon` downcast is a test of the geometry's kind.
- Finished placemarks and stored styles are values, not shared references. The router never
  changes a style once its slot is emptied, nor a placemark once it is appended, so no
  aliasing is lost. The placemark and style being read are objects.
- Colours are kept as their four channel bytes. The division by 255 into `CGFloat` and the
  `UIColor` value are left out as floating point.
- Foundation services are parameters (`Platform.Foundation`):
  - `NumberFormatter.number(from:)` is a locale-dependent parse;
  - `NSNumber.floatValue`, widened to `CGFloat`, is a rounding function on reals;
  - `Scanner.scanHexInt64` is modelled only as succeeding with a value or failing; its
    partial-prefix behaviour is not;
  - `#available(iOS 13, *)` is a parameter.
- ElementType.ScanDouble: `Scanner.scanDouble` is modelled as commas skipped, an optional sign
  and `digits[.digits]`. Exponents, hexadecimal floats, `inf`, `nan`, leading whitespace and
  the rounding of `Double` are not modelled, so numbers are exact reals.
- Styles.AfterScaleParse and Styles.AfterWidthParse store `floatValue` of the parsed number,
  which is a real. A number beyond the range of `Float` becomes infinity in Swift, which no
  real represents, so that overflow is not modelled.
- Styles.HexColor counts and strips characters as Unicode scalars. Swift's `count == 8`,
  `hasPrefix("#")` and `removeFirst()` work on grapheme clusters, so a digit followed by a
  combining mark counts once in Swift and twice here.
- Parsing.FirstHash and Parsing.StyleReference find `#` among Unicode scalars, where
  `firstIndex(of:)` searches grapheme clusters. A `#` followed by a combining mark is a
  different `Character` in Swift, but here it is found.
- Parsing.AssignedStyle looks up the `styles` dictionary by exact scalar sequence. A Swift
  `String` key compares under canonical equivalence, so `"#caf\u{E9}"` finds a style stored
  under `"cafe\u{301}"` in Swift but not here.
- Parsing.ElementNameOf, Polygons.AltitudeKindOf and Placemarks.TypeNameOf compare raw values
  by scalar sequence rather than by canonical equivalence. A spelling that Swift treats as
  equal to a raw value but that uses other scalars is recognised in Swift and not here.
- Platform.IsWhitespace works per Unicode scalar, not per grapheme cluster. A whitespace
  character combined with a following mark counts as whitespace here.
- `CLLocationCoordinate2DIsValid` is the closed bounds check on reals.
- `KMLElementType`'s default `canAddString` is the constant `false` of
  `Geometries.CanAddString` for points and line strings; the placemark and the style define
  their own.
- `Styles.StyleState.CanAddString` and `Placemarks.PlacemarkState.CanAddString` are modelled
  as predicates. No code consults them, so nothing depends on them.
- `Styles.KMLStyle.ClearData` and the `ClearData` methods of the other builders state only the
  cleared buffer and their `modifies` frame, not the whole state.
