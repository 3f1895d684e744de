/**
 * Sources/KMLStyle.swift: a `<style>` element under construction. Its sub-elements `color`,
 * `scale`, `width`, `fill` and `outline` are each opened (a flag is raised), receive text (the
 * buffer grows), and are closed (the buffer is converted into a field and cleared).
 */
module Styles {
  import opened Wrappers
  import opened Platform
  import opened ElementType

  // ---------------------------------------------------------------------------------------
  // Colours: `UIColor(hexString:)`
  // ---------------------------------------------------------------------------------------

  /** A decoded colour, as its four byte channels (the division by 255 is not modelled). */
  datatype Color = Color(red: bv8, green: bv8, blue: bv8, alpha: bv8)

  /** The 32-bit number whose bytes, from the most significant, are the channels. */
  function Pack(c: Color): bv64 {
    (c.red as bv64 << 24) | (c.green as bv64 << 16) | (c.blue as bv64 << 8) | c.alpha as bv64
  }

  /**
   * The channels of a scanned number: `(n & 0xff000000) >> 24`, `(n & 0x00ff0000) >> 16`,
   * `(n & 0x0000ff00) >> 8` and `n & 0x000000ff`. Only the low 32 bits are looked at.
   */
  function Channels(n: bv64): Color {
    Color(
      ((n & 0xff00_0000) >> 24) as bv8,
      ((n & 0x00ff_0000) >> 16) as bv8,
      ((n & 0x0000_ff00) >> 8) as bv8,
      (n & 0x0000_00ff) as bv8)
  }

  /** The channels keep all of the low 32 bits and nothing of the high ones. */
  lemma PackOfChannels(n: bv64)
    ensures Pack(Channels(n)) == n & 0xffff_ffff
  {
  }

  /** Every colour is the decoding of some number: packing and taking the channels apart are inverse. */
  lemma ChannelsOfPack(c: Color)
    ensures Channels(Pack(c)) == c
  {
  }

  /** `hexColor.hasPrefix("#")` then `removeFirst()`: one leading `#` is dropped. */
  function WithoutHash(hexString: string): (r: string)
    ensures |hexString| > 0 && hexString[0] == '#' ==> r == hexString[1..]
    ensures (|hexString| == 0 || hexString[0] != '#') ==> r == hexString
    ensures |r| >= |hexString| - 1
  {
    if |hexString| > 0 && hexString[0] == '#' then hexString[1..] else hexString
  }

  /**
   * `UIColor(hexString:)`: after dropping one leading `#`, exactly eight characters must remain
   * and the hexadecimal scan of them must succeed; the colour is then made of the channels of
   * the scanned number.
   */
  function HexColor(hexString: string, scanHexInt64: string -> Option<bv64>): (r: Option<Color>)
    ensures r.Some? <==> |WithoutHash(hexString)| == 8 && scanHexInt64(WithoutHash(hexString)).Some?
    ensures r.Some? ==> r.value == Channels(scanHexInt64(WithoutHash(hexString)).value)
  {
    var hexColor := WithoutHash(hexString);
    if |hexColor| == 8 then
      match scanHexInt64(hexColor)
      case Some(hexNumber) => Some(Channels(hexNumber))
      case None => None
    else None
  }

  /** A `#` prefix is optional: `#aabbggrr` and `aabbggrr` decode alike (when the digits do not start with `#`). */
  lemma HexColorHashOptional(digits: string, scanHexInt64: string -> Option<bv64>)
    requires |digits| == 0 || digits[0] != '#'
    ensures HexColor("#" + digits, scanHexInt64) == HexColor(digits, scanHexInt64)
  {
    assert ("#" + digits)[1..] == digits;
  }

  // ---------------------------------------------------------------------------------------
  // The style under construction
  // ---------------------------------------------------------------------------------------

  /** All the stored properties of a `KMLStyle`, at one moment. */
  datatype StyleState = StyleState(
    identifier: Option<string>,
    isLineStyle: bool,
    isPolyStyle: bool,
    isLabelStyle: bool,
    strokeWidth: Option<real>,
    fillColor: Option<Color>,
    labelScale: Option<real>,
    labelColor: Option<Color>,
    colorIsParsed: bool,
    scaleIsParsed: bool,
    widthIsParsed: bool,
    fillIsParsed: bool,
    outlineIsParsed: bool,
    hasOutline: bool,
    outlineColor: Option<Color>,
    accumulatedData: Option<string>)
  {
    /** `canAddString`: some sub-element whose text matters is open. */
    predicate CanAddString() {
      colorIsParsed || scaleIsParsed || widthIsParsed || fillIsParsed || outlineIsParsed
    }

    /** `strokeColor`: the outline colour, shown only when the outline is on. */
    function StrokeColor(): (r: Option<Color>)
      ensures r.Some? <==> hasOutline && outlineColor.Some?
      ensures r.Some? ==> r == outlineColor
    {
      if hasOutline then outlineColor else None
    }

    /** The buffer holds no whitespace and is never the empty text. */
    predicate BufferClean() {
      accumulatedData.Some? ==> accumulatedData.value != [] && NoWhitespace(accumulatedData.value)
    }
  }

  /** `KMLStyle(identifier:)`: every flag down, every field unset. */
  function NewStyle(identifier: Option<string>): (s: StyleState)
    ensures s.identifier == identifier && s.accumulatedData == None
    ensures !s.CanAddString() && s.StrokeColor() == None
    ensures !s.isLineStyle && !s.isPolyStyle && !s.isLabelStyle && !s.hasOutline
    ensures s.strokeWidth == None && s.labelScale == None
    ensures s.fillColor == None && s.labelColor == None && s.outlineColor == None
    ensures s.BufferClean()
  {
    StyleState(identifier, false, false, false, None, None, None, None,
      false, false, false, false, false, false, None, None)
  }

  /** `append(data:)`: the text without its whitespace is added to the buffer, if anything is left. */
  function AfterAppend(s: StyleState, data: string): (r: StyleState)
    ensures r == s.(accumulatedData := r.accumulatedData)
    ensures NoWhitespace(data) && data != [] ==> r.accumulatedData == Some(s.accumulatedData.GetOr("") + data)
    ensures (forall k :: 0 <= k < |data| ==> IsWhitespace(data[k])) ==> r == s
    ensures s.BufferClean() ==> r.BufferClean()
  {
    s.(accumulatedData := AccumulatedStripped(s.accumulatedData, data))
  }

  /** Text split over several `append` calls ends up in the buffer exactly as if sent at once. */
  lemma AfterAppendConcat(s: StyleState, x: string, y: string)
    ensures AfterAppend(AfterAppend(s, x), y) == AfterAppend(s, x + y)
  {
    AccumulatedStrippedConcat(s.accumulatedData, x, y);
  }

  /** However the text of an element is split into `append` calls, the style ends up the same. */
  lemma {:induction false} AppendAllConcat(s: StyleState, fragments: seq<string>)
    ensures AppendAll(s, fragments) == AfterAppend(s, Concat(fragments))
    decreases |fragments|
  {
    if fragments == [] {
      assert AfterAppend(s, []) == s;
    } else {
      var n := |fragments| - 1;
      AppendAllConcat(s, fragments[..n]);
      AfterAppendConcat(s, Concat(fragments[..n]), fragments[n]);
    }
  }

  /** The style after each fragment in turn is appended. */
  function AppendAll(s: StyleState, fragments: seq<string>): StyleState {
    if fragments == [] then s else AfterAppend(AppendAll(s, fragments[..|fragments| - 1]), fragments[|fragments| - 1])
  }

  /** `canAddString` is raised by opening any of the five sub-elements and lowered once all are closed. */
  lemma CanAddStringFollowsFlags(s: StyleState, f: Foundation)
    ensures AfterColorParse(s, true, f.scanHexInt64).CanAddString()
    ensures AfterScaleParse(s, true, f.numberFromString, f.floatValue).CanAddString()
    ensures AfterWidthParse(s, true, f.numberFromString, f.floatValue).CanAddString()
    ensures AfterFillParse(s, true).CanAddString()
    ensures AfterOutlineParse(s, true, f.numberFromString).CanAddString()
    ensures var closed := AfterOutlineParse(AfterFillParse(AfterWidthParse(AfterScaleParse(
        AfterColorParse(s, false, f.scanHexInt64), false, f.numberFromString, f.floatValue), false,
        f.numberFromString, f.floatValue),
        false), false, f.numberFromString);
      !closed.CanAddString() && closed.accumulatedData == None
  {
  }

  /**
   * `colorParse(isStarted:)`. Opening only raises the flag. Closing lowers it, clears the
   * buffer and, when the buffer decodes as a colour, stores it in exactly one field chosen by
   * the enclosing element: the outline colour in a `LineStyle`, else the fill colour in a
   * `PolyStyle`, else the label colour in a `LabelStyle`.
   */
  function AfterColorParse(s: StyleState, isStarted: bool, scanHexInt64: string -> Option<bv64>): (r: StyleState)
    ensures isStarted ==> r == s.(colorIsParsed := true)
    ensures !isStarted ==> !r.colorIsParsed && r.accumulatedData == None
    ensures !isStarted ==>
      r.(outlineColor := s.outlineColor, fillColor := s.fillColor, labelColor := s.labelColor)
        == s.(colorIsParsed := false, accumulatedData := None)
    ensures r.outlineColor != s.outlineColor ==>
      && !isStarted && s.isLineStyle && s.accumulatedData.Some?
      && r.outlineColor == HexColor(s.accumulatedData.value, scanHexInt64)
    ensures r.fillColor != s.fillColor ==>
      && !isStarted && !s.isLineStyle && s.isPolyStyle && s.accumulatedData.Some?
      && r.fillColor == HexColor(s.accumulatedData.value, scanHexInt64)
    ensures r.labelColor != s.labelColor ==>
      && !isStarted && !s.isLineStyle && !s.isPolyStyle && s.isLabelStyle && s.accumulatedData.Some?
      && r.labelColor == HexColor(s.accumulatedData.value, scanHexInt64)
    ensures !isStarted && (s.accumulatedData.None? || HexColor(s.accumulatedData.value, scanHexInt64).None?) ==>
      r == s.(colorIsParsed := false, accumulatedData := None)
  {
    if isStarted then s.(colorIsParsed := true)
    else
      var cleared := s.(colorIsParsed := false, accumulatedData := None);
      if s.accumulatedData.None? then cleared
      else match HexColor(s.accumulatedData.value, scanHexInt64)
        case None => cleared
        case Some(color) =>
          StoredColor(cleared, color)
  }

  /**
   * A decoded colour goes to the field the enclosing element selects: the outline colour in a
   * `LineStyle`, else the fill colour in a `PolyStyle`, else the label colour in a `LabelStyle`;
   * outside all three it is dropped.
   */
  function StoredColor(s: StyleState, color: Color): (r: StyleState)
    ensures r.(outlineColor := s.outlineColor, fillColor := s.fillColor, labelColor := s.labelColor) == s
    ensures r.outlineColor != s.outlineColor ==> s.isLineStyle && r.outlineColor == Some(color)
    ensures r.fillColor != s.fillColor ==> !s.isLineStyle && s.isPolyStyle && r.fillColor == Some(color)
    ensures r.labelColor != s.labelColor ==>
      !s.isLineStyle && !s.isPolyStyle && s.isLabelStyle && r.labelColor == Some(color)
    ensures s.isLineStyle ==> r.outlineColor == Some(color)
    ensures !s.isLineStyle && s.isPolyStyle ==> r.fillColor == Some(color)
    ensures !s.isLineStyle && !s.isPolyStyle && s.isLabelStyle ==> r.labelColor == Some(color)
  {
    if s.isLineStyle then s.(outlineColor := Some(color))
    else if s.isPolyStyle then s.(fillColor := Some(color))
    else if s.isLabelStyle then s.(labelColor := Some(color))
    else s
  }

  /** A close of `color` whose buffer decodes writes the colour into the field its enclosing element selects. */
  lemma ColorParseWrites(s: StyleState, scanHexInt64: string -> Option<bv64>)
    requires s.accumulatedData.Some? && HexColor(s.accumulatedData.value, scanHexInt64).Some?
    ensures var r := AfterColorParse(s, false, scanHexInt64);
      var color := HexColor(s.accumulatedData.value, scanHexInt64);
      && (s.isLineStyle ==> r.outlineColor == color)
      && (!s.isLineStyle && s.isPolyStyle ==> r.fillColor == color)
      && (!s.isLineStyle && !s.isPolyStyle && s.isLabelStyle ==> r.labelColor == color)
  {
  }

  /**
   * `scaleParse(isStarted:)`. Closing lowers the flag and clears the buffer; the label scale
   * takes the number the buffer holds, rounded to single precision, and keeps its value when
   * there is none.
   */
  function AfterScaleParse(s: StyleState, isStarted: bool, numberFromString: string -> Option<real>, floatValue: real -> real): (r: StyleState)
    ensures isStarted ==> r == s.(scaleIsParsed := true)
    ensures !isStarted ==> r == s.(scaleIsParsed := false, accumulatedData := None, labelScale := r.labelScale)
    ensures r.labelScale != s.labelScale ==>
      !isStarted && s.accumulatedData.Some? && numberFromString(s.accumulatedData.value).Some? &&
      r.labelScale == Some(floatValue(numberFromString(s.accumulatedData.value).value))
    ensures !isStarted && s.accumulatedData.Some? && numberFromString(s.accumulatedData.value).Some? ==>
      r.labelScale == Some(floatValue(numberFromString(s.accumulatedData.value).value))
    ensures !isStarted && (s.accumulatedData.None? || numberFromString(s.accumulatedData.value).None?) ==>
      r.labelScale == s.labelScale
  {
    if isStarted then s.(scaleIsParsed := true)
    else
      var cleared := s.(scaleIsParsed := false, accumulatedData := None);
      if s.accumulatedData.None? then cleared
      else match numberFromString(s.accumulatedData.value)
        case None => cleared
        case Some(scale) => cleared.(labelScale := Some(floatValue(scale)))
  }

  /** `widthParse(isStarted:)`: as `scaleParse`, for the stroke width. */
  function AfterWidthParse(s: StyleState, isStarted: bool, numberFromString: string -> Option<real>, floatValue: real -> real): (r: StyleState)
    ensures isStarted ==> r == s.(widthIsParsed := true)
    ensures !isStarted ==> r == s.(widthIsParsed := false, accumulatedData := None, strokeWidth := r.strokeWidth)
    ensures r.strokeWidth != s.strokeWidth ==>
      !isStarted && s.accumulatedData.Some? && numberFromString(s.accumulatedData.value).Some? &&
      r.strokeWidth == Some(floatValue(numberFromString(s.accumulatedData.value).value))
    ensures !isStarted && s.accumulatedData.Some? && numberFromString(s.accumulatedData.value).Some? ==>
      r.strokeWidth == Some(floatValue(numberFromString(s.accumulatedData.value).value))
    ensures !isStarted && (s.accumulatedData.None? || numberFromString(s.accumulatedData.value).None?) ==>
      r.strokeWidth == s.strokeWidth
  {
    if isStarted then s.(widthIsParsed := true)
    else
      var cleared := s.(widthIsParsed := false, accumulatedData := None);
      if s.accumulatedData.None? then cleared
      else match numberFromString(s.accumulatedData.value)
        case None => cleared
        case Some(width) => cleared.(strokeWidth := Some(floatValue(width)))
  }

  /** `fillParse(isStarted:)`: the text of `fill` is read and thrown away. */
  function AfterFillParse(s: StyleState, isStarted: bool): (r: StyleState)
    ensures isStarted ==> r == s.(fillIsParsed := true)
    ensures !isStarted ==> r == s.(fillIsParsed := false, accumulatedData := None)
  {
    s.(fillIsParsed := isStarted, accumulatedData := if isStarted then s.accumulatedData else None)
  }

  /**
   * `outlineParse(isStarted:)`. Closing lowers the flag and clears the buffer; when the buffer
   * holds a number, the outline is on exactly when the number, truncated toward zero, is not 0.
   */
  function AfterOutlineParse(s: StyleState, isStarted: bool, numberFromString: string -> Option<real>): (r: StyleState)
    ensures isStarted ==> r == s.(outlineIsParsed := true)
    ensures !isStarted ==> r == s.(outlineIsParsed := false, accumulatedData := None, hasOutline := r.hasOutline)
    ensures r.hasOutline != s.hasOutline ==> !isStarted && s.accumulatedData.Some?
    ensures !isStarted && (s.accumulatedData.None? || numberFromString(s.accumulatedData.value).None?) ==>
      r.hasOutline == s.hasOutline
  {
    if isStarted then s.(outlineIsParsed := true)
    else
      var cleared := s.(outlineIsParsed := false, accumulatedData := None);
      if s.accumulatedData.None? then cleared
      else match numberFromString(s.accumulatedData.value)
        case None => cleared
        case Some(hasOutlineValue) => cleared.(hasOutline := IntValue(hasOutlineValue) != 0)
  }
  /** A number in the buffer turns the outline on exactly when it is at least 1 away from zero. */
  lemma OutlineFollowsNumber(s: StyleState, numberFromString: string -> Option<real>)
    requires s.accumulatedData.Some? && numberFromString(s.accumulatedData.value).Some?
    ensures var x := numberFromString(s.accumulatedData.value).value;
      AfterOutlineParse(s, false, numberFromString).hasOutline <==> (x <= -1.0 || 1.0 <= x)
  {
    IntValueTruncates(numberFromString(s.accumulatedData.value).value);
  }


  // ---------------------------------------------------------------------------------------
  // The class
  // ---------------------------------------------------------------------------------------

  /** `KMLStyle` */
  class KMLStyle {
    var isLineStyle: bool
    var isPolyStyle: bool
    var isLabelStyle: bool
    var strokeWidth: Option<real>
    var fillColor: Option<Color>
    var labelScale: Option<real>
    var labelColor: Option<Color>
    const identifier: Option<string>
    var colorIsParsed: bool
    var scaleIsParsed: bool
    var widthIsParsed: bool
    var fillIsParsed: bool
    var outlineIsParsed: bool
    var hasOutline: bool
    var outlineColor: Option<Color>
    var accumulatedData: Option<string>

    /** The style's properties as one value. */
    function State(): StyleState
      reads this
    {
      StyleState(identifier, isLineStyle, isPolyStyle, isLabelStyle, strokeWidth, fillColor,
        labelScale, labelColor, colorIsParsed, scaleIsParsed, widthIsParsed, fillIsParsed,
        outlineIsParsed, hasOutline, outlineColor, accumulatedData)
    }

    constructor (identifier: Option<string>)
      ensures State() == NewStyle(identifier)
    {
      this.identifier := identifier;
      isLineStyle, isPolyStyle, isLabelStyle := false, false, false;
      strokeWidth, fillColor, labelScale, labelColor := None, None, None, None;
      colorIsParsed, scaleIsParsed, widthIsParsed, fillIsParsed, outlineIsParsed := false, false, false, false, false;
      hasOutline, outlineColor, accumulatedData := false, None, None;
    }

    method Append(data: string)
      modifies this
      ensures State() == AfterAppend(old(State()), data)
    {
      var filteredData := Strip(data);
      if filteredData != [] {
        accumulatedData := Some(accumulatedData.GetOr("") + filteredData);
      }
    }

    method ClearData()
      modifies this`accumulatedData
      ensures accumulatedData == None
    {
      accumulatedData := None;
    }

    method ColorParse(isStarted: bool, scanHexInt64: string -> Option<bv64>)
      modifies this
      ensures State() == AfterColorParse(old(State()), isStarted, scanHexInt64)
    {
      colorIsParsed := isStarted;
      if !colorIsParsed {
        var data := accumulatedData;
        ClearData();
        if data.Some? {
          var color := HexColor(data.value, scanHexInt64);
          if color.Some? {
            StoreColor(color.value);
          }
        }
      }
    }

    /** The `if isLineStyle … else if isPolyStyle … else if isLabelStyle` of `colorParse`. */
    method StoreColor(color: Color)
      modifies this`outlineColor, this`fillColor, this`labelColor
      ensures State() == StoredColor(old(State()), color)
    {
      if isLineStyle {
        outlineColor := Some(color);
      } else if isPolyStyle {
        fillColor := Some(color);
      } else if isLabelStyle {
        labelColor := Some(color);
      }
    }

    method ScaleParse(isStarted: bool, numberFromString: string -> Option<real>, floatValue: real -> real)
      modifies this
      ensures State() == AfterScaleParse(old(State()), isStarted, numberFromString, floatValue)
    {
      scaleIsParsed := isStarted;
      if !scaleIsParsed {
        var data := accumulatedData;
        ClearData();
        if data.Some? {
          var scale := numberFromString(data.value);
          if scale.Some? {
            labelScale := Some(floatValue(scale.value));
          }
        }
      }
    }

    method WidthParse(isStarted: bool, numberFromString: string -> Option<real>, floatValue: real -> real)
      modifies this
      ensures State() == AfterWidthParse(old(State()), isStarted, numberFromString, floatValue)
    {
      widthIsParsed := isStarted;
      if !widthIsParsed {
        var data := accumulatedData;
        ClearData();
        if data.Some? {
          var width := numberFromString(data.value);
          if width.Some? {
            strokeWidth := Some(floatValue(width.value));
          }
        }
      }
    }

    method FillParse(isStarted: bool)
      modifies this
      ensures State() == AfterFillParse(old(State()), isStarted)
    {
      fillIsParsed := isStarted;
      if !fillIsParsed {
        ClearData();
      }
    }

    method OutlineParse(isStarted: bool, numberFromString: string -> Option<real>)
      modifies this
      ensures State() == AfterOutlineParse(old(State()), isStarted, numberFromString)
    {
      outlineIsParsed := isStarted;
      if !outlineIsParsed {
        var data := accumulatedData;
        ClearData();
        if data.Some? {
          var hasOutlineValue := numberFromString(data.value);
          if hasOutlineValue.Some? {
            hasOutline := IntValue(hasOutlineValue.value) != 0;
          }
        }
      }
    }
  }
}
