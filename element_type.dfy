/**
 * Sources/KMLElementType.swift: what every builder shares — the text buffer protocol
 * (`append`, `clearData`) — and the coordinate tokenizer `makeLocationCoordinates` with its
 * single-tuple scanner `makeLocationCoordinate`.
 */
module ElementType {
  import opened Wrappers
  import opened Platform

  // ---------------------------------------------------------------------------------------
  // Text accumulation
  // ---------------------------------------------------------------------------------------

  /** `accumulatedData = (accumulatedData ?? "") + data`: points, line strings and polygons. */
  function Accumulated(buffer: Option<string>, data: string): Option<string> {
    Some(buffer.GetOr("") + data)
  }

  /**
   * Style and placemark `append`: the fragment without its whitespace is concatenated to the
   * buffer, unless nothing is left of it.
   */
  function AccumulatedStripped(buffer: Option<string>, data: string): (r: Option<string>)
    ensures NoWhitespace(data) && data != [] ==> r == Some(buffer.GetOr("") + data)
    ensures (forall k :: 0 <= k < |data| ==> IsWhitespace(data[k])) ==> r == buffer
  {
    var filteredData := Strip(data);
    if filteredData != [] then Some(buffer.GetOr("") + filteredData) else buffer
  }

  /** The concatenation of text fragments, in order. */
  function Concat(fragments: seq<string>): string {
    if fragments == [] then [] else Concat(fragments[..|fragments| - 1]) + fragments[|fragments| - 1]
  }

  /** Text delivered in two fragments accumulates exactly as if delivered in one. */
  lemma AccumulatedConcat(buffer: Option<string>, x: string, y: string)
    ensures Accumulated(Accumulated(buffer, x), y) == Accumulated(buffer, x + y)
  {
    assert buffer.GetOr("") + x + y == buffer.GetOr("") + (x + y);
  }

  /** The same holds for the whitespace-stripping buffers of styles and placemarks. */
  lemma AccumulatedStrippedConcat(buffer: Option<string>, x: string, y: string)
    ensures AccumulatedStripped(AccumulatedStripped(buffer, x), y) == AccumulatedStripped(buffer, x + y)
  {
    StripConcat(x, y);
    if Strip(x) != [] && Strip(y) != [] {
      assert buffer.GetOr("") + Strip(x) + Strip(y) == buffer.GetOr("") + (Strip(x) + Strip(y));
    } else if Strip(x) == [] {
      assert Strip(x + y) == Strip(y);
    } else {
      assert Strip(x + y) == Strip(x);
    }
  }

  // ---------------------------------------------------------------------------------------
  // Splitting on whitespace: `string.components(separatedBy: .whitespacesAndNewlines)`
  // ---------------------------------------------------------------------------------------

  /** The whitespace characters of `s`, in order: the separators `components` splits on. */
  function Separators(s: string): (r: string)
    ensures forall k :: 0 <= k < |r| ==> IsWhitespace(r[k])
  {
    if s == [] then []
    else if IsWhitespace(s[0]) then [s[0]] + Separators(s[1..])
    else Separators(s[1..])
  }

  /**
   * The pieces between single whitespace characters. Every separator character ends a piece,
   * so two adjacent separators yield an empty piece, and the empty string yields one empty piece.
   */
  function Components(s: string): (r: seq<string>)
    ensures |r| == |Separators(s)| + 1
    ensures forall k :: 0 <= k < |r| ==> NoWhitespace(r[k])
  {
    if s == [] then [""]
    else
      var rest := Components(s[1..]);
      if IsWhitespace(s[0]) then [""] + rest
      else [[s[0]] + rest[0]] + rest[1..]
  }

  /** Pieces glued back together with their separators. */
  function Interleave(pieces: seq<string>, separators: string): string
    requires |pieces| == |separators| + 1
  {
    if separators == [] then pieces[0]
    else pieces[0] + [separators[0]] + Interleave(pieces[1..], separators[1..])
  }

  /** Splitting loses nothing: the pieces and the separators give back the text. */
  lemma {:induction false} ComponentsRoundTrip(s: string)
    ensures Interleave(Components(s), Separators(s)) == s
  {
    if s != [] {
      ComponentsRoundTrip(s[1..]);
      var rest := Components(s[1..]);
      if IsWhitespace(s[0]) {
        assert Components(s)[1..] == rest;
      } else {
        var seps := Separators(s[1..]);
        assert Separators(s) == seps;
        if seps == [] {
          assert Interleave(Components(s), Separators(s)) == [s[0]] + rest[0];
        } else {
          assert Components(s)[1..] == rest[1..];
          assert Interleave(Components(s), seps)
              == [s[0]] + (rest[0] + [seps[0]] + Interleave(rest[1..], seps[1..]));
        }
      }
    }
  }

  /** The first element and the rest of a sequence with a known element in it. */
  lemma SplitFirst<T>(a: seq<T>, w: T, b: seq<T>)
    ensures a == [] ==> a + [w] + b == [w] + b && (a + [w] + b)[0] == w && (a + [w] + b)[1..] == b
    ensures a != [] ==> (a + [w] + b)[0] == a[0] && (a + [w] + b)[1..] == a[1..] + [w] + b
  {
  }

  /** A separator splits the pieces of the text before it from the pieces of the text after it. */
  lemma {:induction false} ComponentsAppend(a: string, w: char, b: string)
    requires IsWhitespace(w)
    ensures Components(a + [w] + b) == Components(a) + Components(b)
  {
    SplitFirst(a, w, b);
    if a != [] {
      ComponentsAppend(a[1..], w, b);
    }
  }

  // ---------------------------------------------------------------------------------------
  // Scanning numbers: `Scanner.scanDouble` with `charactersToBeSkipped = ","`
  // ---------------------------------------------------------------------------------------

  predicate IsDigit(c: char) {
    '0' <= c <= '9'
  }

  /** The position of the first character at or after `i` that is not a comma. */
  function SkipCommas(s: string, i: nat): (j: nat)
    requires i <= |s|
    ensures i <= j <= |s|
    ensures forall k :: i <= k < j ==> s[k] == ','
    ensures j < |s| ==> s[j] != ','
    decreases |s| - i
  {
    if i < |s| && s[i] == ',' then SkipCommas(s, i + 1) else i
  }

  /** The end of the run of decimal digits that starts at `i`. */
  function DigitsEnd(s: string, i: nat): (j: nat)
    requires i <= |s|
    ensures i <= j <= |s|
    ensures forall k :: i <= k < j ==> IsDigit(s[k])
    ensures j < |s| ==> !IsDigit(s[j])
    decreases |s| - i
  {
    if i < |s| && IsDigit(s[i]) then DigitsEnd(s, i + 1) else i
  }

  /** The value of a run of decimal digits. */
  function DigitsValue(digits: string): nat {
    if digits == [] then 0
    else
      var last := digits[|digits| - 1];
      DigitsValue(digits[..|digits| - 1]) * 10 + (if IsDigit(last) then last as int - '0' as int else 0)
  }

  function Pow10(n: nat): (r: nat)
    ensures r >= 1
  {
    if n == 0 then 1 else 10 * Pow10(n - 1)
  }

  /** Past an optional sign at `k`. */
  function SignEnd(s: string, k: nat): (m: nat)
    requires k <= |s|
    ensures k <= m <= |s|
  {
    if k < |s| && (s[k] == '-' || s[k] == '+') then k + 1 else k
  }

  /**
   * An unsigned decimal at `m`: a run of digits, then optionally a dot and a second run of
   * digits, with at least one digit in all. Gives its value and the position after it.
   */
  function ScanMagnitude(s: string, m: nat): (r: Option<(real, nat)>)
    requires m <= |s|
    ensures r.Some? ==> m < r.value.1 <= |s|
    ensures r.Some? ==> 0.0 <= r.value.0
  {
    var e1 := DigitsEnd(s, m);
    if e1 < |s| && s[e1] == '.' then
      var e2 := DigitsEnd(s, e1 + 1);
      if e1 == m && e2 == e1 + 1 then None
      else Some((DigitsValue(s[m..e1]) as real + DigitsValue(s[e1 + 1..e2]) as real / Pow10(e2 - e1 - 1) as real, e2))
    else if e1 == m then None
    else Some((DigitsValue(s[m..e1]) as real, e1))
  }

  /**
   * `scanDouble` from position `i`: skips commas, then reads an optional sign and an unsigned
   * decimal. On success it gives the number and the position after it.
   */
  function ScanDouble(s: string, i: nat): (r: Option<(real, nat)>)
    requires i <= |s|
    ensures r.Some? ==> i < r.value.1 <= |s|
  {
    var k := SkipCommas(s, i);
    match ScanMagnitude(s, SignEnd(s, k))
    case None => None
    case Some((magnitude, next)) =>
      Some((if k < |s| && s[k] == '-' then -magnitude else magnitude, next))
  }

  // ---------------------------------------------------------------------------------------
  // One tuple: `makeLocationCoordinate(from:)`
  // ---------------------------------------------------------------------------------------

  /** `CLLocationCoordinate2D` */
  datatype Coordinate = Coordinate(latitude: real, longitude: real)

  /** `CLLocationCoordinate2DIsValid` */
  predicate IsValid(c: Coordinate) {
    -90.0 <= c.latitude <= 90.0 && -180.0 <= c.longitude <= 180.0
  }

  /**
   * The coordinate a tuple denotes: two numbers scanned one after the other, the first the
   * longitude and the second the latitude, kept only when valid. Whatever follows the latitude
   * (an altitude, say) is not looked at.
   */
  function LocationCoordinate(tuple: string): (r: Option<Coordinate>)
    ensures r.Some? ==> IsValid(r.value)
    ensures var first := ScanDouble(tuple, 0);
      r.Some? <==>
        && first.Some?
        && var second := ScanDouble(tuple, first.value.1);
        && second.Some?
        && IsValid(Coordinate(second.value.0, first.value.0))
    ensures var first := ScanDouble(tuple, 0);
      r.Some? ==>
        && first.Some?
        && r.value.longitude == first.value.0
        && r.value.latitude == ScanDouble(tuple, first.value.1).value.0
  {
    match ScanDouble(tuple, 0)
    case None => None
    case Some((longitude, next)) =>
      match ScanDouble(tuple, next)
      case None => None
      case Some((latitude, _)) =>
        var c := Coordinate(latitude, longitude);
        if IsValid(c) then Some(c) else None
  }

  /**
   * `makeLocationCoordinate(from:)`, both availability branches: a scanner whose location
   * advances over the tuple. Either branch computes `LocationCoordinate(tuple)`.
   */
  method MakeLocationCoordinate(tuple: string, iOS13Available: bool) returns (r: Option<Coordinate>)
    ensures r == LocationCoordinate(tuple)
  {
    var scanLocation: nat := 0;
    if iOS13Available {
      var longitude := ScanDouble(tuple, scanLocation);
      if longitude.Some? {
        scanLocation := longitude.value.1;
        var latitude := ScanDouble(tuple, scanLocation);
        if latitude.Some? {
          scanLocation := latitude.value.1;
          var locationCoordinate := Coordinate(latitude.value.0, longitude.value.0);
          if IsValid(locationCoordinate) {
            return Some(locationCoordinate);
          }
        }
      }
    } else {
      var longitude: real := 0.0;
      var latitude: real := 0.0;
      var scanned := ScanDouble(tuple, scanLocation);
      var scannedLongitude := scanned.Some?;
      if scannedLongitude {
        longitude, scanLocation := scanned.value.0, scanned.value.1;
        scanned := ScanDouble(tuple, scanLocation);
        var scannedLatitude := scanned.Some?;
        if scannedLatitude {
          latitude, scanLocation := scanned.value.0, scanned.value.1;
          var locationCoordinate := Coordinate(latitude, longitude);
          if IsValid(locationCoordinate) {
            return Some(locationCoordinate);
          }
        }
      }
    }
    return None;
  }

  // ---------------------------------------------------------------------------------------
  // A whole text: `makeLocationCoordinates(from:)`
  // ---------------------------------------------------------------------------------------

  /** What one tuple contributes to the result: its coordinate, or nothing. */
  function Denoted(tuple: string): (r: seq<Coordinate>)
    ensures |r| <= 1
  {
    match LocationCoordinate(tuple)
    case Some(c) => [c]
    case None => []
  }

  /** The coordinates of a sequence of tuples, in order, skipping the tuples that give none. */
  function CoordinatesOf(tuples: seq<string>): (r: seq<Coordinate>)
    ensures |r| <= |tuples|
    ensures forall k :: 0 <= k < |r| ==> IsValid(r[k])
  {
    if tuples == [] then [] else Denoted(tuples[0]) + CoordinatesOf(tuples[1..])
  }

  /** The coordinates of a text: one per piece that denotes a valid coordinate. */
  function LocationCoordinates(s: string): (r: seq<Coordinate>)
    ensures |r| <= |Components(s)|
    ensures forall k :: 0 <= k < |r| ==> IsValid(r[k])
  {
    CoordinatesOf(Components(s))
  }

  /** Tuples are converted independently: the result for a concatenation concatenates the results. */
  lemma {:induction false} CoordinatesOfAppend(a: seq<string>, b: seq<string>)
    ensures CoordinatesOf(a + b) == CoordinatesOf(a) + CoordinatesOf(b)
  {
    if a == [] {
      assert a + b == b;
    } else {
      assert (a + b)[0] == a[0];
      assert (a + b)[1..] == a[1..] + b;
      CoordinatesOfAppend(a[1..], b);
      calc {
        CoordinatesOf(a + b);
        Denoted(a[0]) + CoordinatesOf(a[1..] + b);
        Denoted(a[0]) + (CoordinatesOf(a[1..]) + CoordinatesOf(b));
        (Denoted(a[0]) + CoordinatesOf(a[1..])) + CoordinatesOf(b);
      }
    }
  }

  /** One more tuple adds what it denotes at the end. */
  lemma CoordinatesOfSnoc(tuples: seq<string>, i: nat)
    requires i < |tuples|
    ensures CoordinatesOf(tuples[..i + 1]) == CoordinatesOf(tuples[..i]) + Denoted(tuples[i])
  {
    assert CoordinatesOf([tuples[i]]) == Denoted(tuples[i]) + CoordinatesOf([]);
    assert tuples[..i + 1] == tuples[..i] + [tuples[i]];
    CoordinatesOfAppend(tuples[..i], [tuples[i]]);
  }

  /** A coordinate is in the result exactly when some tuple denotes it. */
  lemma {:induction false} CoordinatesOfMembership(tuples: seq<string>, c: Coordinate)
    ensures c in CoordinatesOf(tuples) <==> exists k :: 0 <= k < |tuples| && LocationCoordinate(tuples[k]) == Some(c)
  {
    if tuples != [] {
      CoordinatesOfMembership(tuples[1..], c);
      if c in CoordinatesOf(tuples[1..]) {
        var k :| 0 <= k < |tuples[1..]| && LocationCoordinate(tuples[1..][k]) == Some(c);
        assert LocationCoordinate(tuples[k + 1]) == Some(c);
      }
      if exists k :: 0 <= k < |tuples| && LocationCoordinate(tuples[k]) == Some(c) {
        var k :| 0 <= k < |tuples| && LocationCoordinate(tuples[k]) == Some(c);
        if k > 0 {
          assert LocationCoordinate(tuples[1..][k - 1]) == Some(c);
        }
      }
    }
  }

  /**
   * A malformed or out-of-range tuple is skipped without affecting the others: splitting the
   * text at any whitespace character splits the result in the same place.
   */
  lemma LocationCoordinatesSplit(a: string, w: char, b: string)
    requires IsWhitespace(w)
    ensures LocationCoordinates(a + [w] + b) == LocationCoordinates(a) + LocationCoordinates(b)
  {
    ComponentsAppend(a, w, b);
    CoordinatesOfAppend(Components(a), Components(b));
  }

  /** Every coordinate of the result comes from one tuple of the text, and every valid tuple gives one. */
  lemma LocationCoordinatesMembership(s: string, c: Coordinate)
    ensures c in LocationCoordinates(s) <==>
      exists k :: 0 <= k < |Components(s)| && LocationCoordinate(Components(s)[k]) == Some(c)
  {
    var tuples := Components(s);
    TuplesMembership(LocationCoordinates(s), tuples, c);
    if c in LocationCoordinates(s) {
      var k :| 0 <= k < |tuples| && LocationCoordinate(tuples[k]) == Some(c);
      assert 0 <= k < |Components(s)| && LocationCoordinate(Components(s)[k]) == Some(c);
    }
  }

  /** `CoordinatesOfMembership` for a result already known to come from `tuples`. */
  lemma TuplesMembership(coordinates: seq<Coordinate>, tuples: seq<string>, c: Coordinate)
    requires coordinates == CoordinatesOf(tuples)
    ensures c in coordinates <==> exists k :: 0 <= k < |tuples| && LocationCoordinate(tuples[k]) == Some(c)
  {
    CoordinatesOfMembership(tuples, c);
  }

  /** A text of whitespace only, the empty text included, gives no coordinate. */
  lemma {:induction false} LocationCoordinatesBlank(s: string)
    requires forall k :: 0 <= k < |s| ==> IsWhitespace(s[k])
    ensures LocationCoordinates(s) == []
  {
    assert Components("") == [""];
    assert ScanDouble("", 0).None?;
    assert LocationCoordinates("") == [];
    if s != [] {
      LocationCoordinatesBlank(s[1..]);
      SplitFirst([], s[0], s[1..]);
      LocationCoordinatesSplit([], s[0], s[1..]);
    }
  }

  /**
   * `makeLocationCoordinates(from:)`: splits the text into tuples and appends, in order, the
   * coordinate of each tuple that gives one.
   */
  method MakeLocationCoordinates(text: string, iOS13Available: bool) returns (coordinates: seq<Coordinate>)
    ensures coordinates == LocationCoordinates(text)
  {
    coordinates := [];
    var tuples := Components(text);
    for i := 0 to |tuples|
      invariant coordinates == CoordinatesOf(tuples[..i])
    {
      var locationCoordinate := MakeLocationCoordinate(tuples[i], iOS13Available);
      if locationCoordinate.Some? {
        coordinates := coordinates + [locationCoordinate.value];
      }
      CoordinatesOfSnoc(tuples, i);
    }
    assert tuples[..|tuples|] == tuples;
  }

  // ---------------------------------------------------------------------------------------
  // Trailing text after the latitude
  // ---------------------------------------------------------------------------------------

  /** A slice inside a prefix of `u` is the same slice of that prefix. */
  lemma PrefixSlice(s: string, u: string, a: nat, b: nat)
    requires a <= b <= |s| <= |u| && u[..|s|] == s
    ensures u[a..b] == s[a..b]
  {
    assert forall k | a <= k < b :: u[k] == u[..|s|][k];
  }

  /** Scanning over commas does not look past the first character that is not a comma. */
  lemma {:induction false} SkipCommasExtended(s: string, u: string, i: nat)
    requires i <= |s| < |u| && u[..|s|] == s
    requires SkipCommas(s, i) < |s|
    ensures SkipCommas(u, i) == SkipCommas(s, i)
    decreases |s| - i
  {
    assert u[i] == s[i];
    if s[i] == ',' {
      SkipCommasExtended(s, u, i + 1);
    }
  }

  /** A run of digits ends at the same place when the text is extended by a non-digit. */
  lemma {:induction false} DigitsEndExtended(s: string, u: string, i: nat)
    requires i <= |s| < |u| && u[..|s|] == s && !IsDigit(u[|s|])
    ensures DigitsEnd(u, i) == DigitsEnd(s, i)
    decreases |s| - i
  {
    if i < |s| {
      assert u[i] == s[i];
      if IsDigit(s[i]) {
        DigitsEndExtended(s, u, i + 1);
      }
    }
  }

  /**
   * A character that can neither continue a run of digits nor start a fraction ends a number:
   * a comma before an altitude, or the whitespace before the next tuple.
   */
  predicate EndsNumber(c: char) {
    !IsDigit(c) && c != '.'
  }

  /** An unsigned decimal that scans in `s` scans the same way once `s` is followed by such a character. */
  lemma ScanMagnitudeExtended(s: string, u: string, m: nat)
    requires m <= |s| < |u| && u[..|s|] == s && EndsNumber(u[|s|])
    requires ScanMagnitude(s, m).Some?
    ensures ScanMagnitude(u, m) == ScanMagnitude(s, m)
  {
    DigitsEndExtended(s, u, m);
    var e1 := DigitsEnd(s, m);
    PrefixSlice(s, u, m, e1);
    if e1 < |s| {
      assert u[e1] == s[e1];
      if s[e1] == '.' {
        DigitsEndExtended(s, u, e1 + 1);
        PrefixSlice(s, u, e1 + 1, DigitsEnd(s, e1 + 1));
      }
    }
  }

  /** A number that scans in `s` scans the same way whatever follows `s`, after such a character. */
  lemma ScanDoubleExtended(s: string, u: string, i: nat)
    requires i <= |s| < |u| && u[..|s|] == s && EndsNumber(u[|s|])
    requires ScanDouble(s, i).Some?
    ensures ScanDouble(u, i) == ScanDouble(s, i)
  {
    var k := SkipCommas(s, i);
    assert k < |s|;
    SkipCommasExtended(s, u, i);
    assert u[k] == s[k];
    assert SignEnd(u, k) == SignEnd(s, k);
    ScanMagnitudeExtended(s, u, SignEnd(s, k));
  }

  /**
   * Anything after the latitude is ignored: a tuple that gives a coordinate gives the same
   * coordinate with `,altitude` appended, or with whitespace and further tuples appended.
   */
  lemma LocationCoordinateIgnoresTrailing(tuple: string, c: char, rest: string)
    requires LocationCoordinate(tuple).Some?
    requires c == ',' || IsWhitespace(c)
    ensures LocationCoordinate(tuple + [c] + rest) == LocationCoordinate(tuple)
  {
    var u := tuple + [c] + rest;
    assert u[..|tuple|] == tuple;
    ScanDoubleExtended(tuple, u, 0);
    ScanDoubleExtended(tuple, u, ScanDouble(tuple, 0).value.1);
  }

  // ---------------------------------------------------------------------------------------
  // Examples
  // ---------------------------------------------------------------------------------------

  /** A text without whitespace is a single tuple. */
  lemma {:induction false} ComponentsOfTuple(s: string)
    requires NoWhitespace(s)
    ensures Components(s) == [s]
  {
    if s != [] {
      ComponentsOfTuple(s[1..]);
      assert [s[0]] + s[1..] == s;
    }
  }

  lemma DigitsValueOfOne(a: char)
    requires IsDigit(a)
    ensures DigitsValue([a]) == a as int - '0' as int
  {
    assert [a][..0] == [];
  }

  lemma DigitsValueOfTwo(a: char, b: char)
    requires IsDigit(a) && IsDigit(b)
    ensures DigitsValue([a, b]) == 10 * (a as int - '0' as int) + (b as int - '0' as int)
  {
    assert [a, b][..1] == [a];
    DigitsValueOfOne(a);
  }

  lemma DigitsValueOfThree(a: char, b: char, c: char)
    requires IsDigit(a) && IsDigit(b) && IsDigit(c)
    ensures DigitsValue([a, b, c]) == 100 * (a as int - '0' as int) + 10 * (b as int - '0' as int) + (c as int - '0' as int)
  {
    assert [a, b, c][..2] == [a, b];
    DigitsValueOfTwo(a, b);
  }

  /** The tuple `-1.5,2`: longitude -1.5, latitude 2. */
  lemma ExampleTuple()
    ensures LocationCoordinate("-1.5,2") == Some(Coordinate(2.0, -1.5))
  {
    var t := "-1.5,2";
    assert SignEnd(t, SkipCommas(t, 0)) == 1;
    assert DigitsEnd(t, 1) == 2;
    assert DigitsEnd(t, 3) == 4;
    assert t[1..2] == ['1'] && t[3..4] == ['5'];
    DigitsValueOfOne('1');
    DigitsValueOfOne('5');
    assert Pow10(1) == 10;
    assert ScanDouble(t, 0) == Some((-1.5, 4));
    assert SkipCommas(t, 4) == 5;
    assert DigitsEnd(t, 5) == 6;
    assert t[5..6] == ['2'];
    DigitsValueOfOne('2');
    assert ScanDouble(t, 4) == Some((2.0, 6));
  }

  /** A longitude out of range: the tuple `200,1` gives no coordinate. */
  lemma ExampleOutOfRange()
    ensures LocationCoordinate("200,1") == None
  {
    var t := "200,1";
    assert SkipCommas(t, 0) == 0 && SignEnd(t, 0) == 0;
    assert DigitsEnd(t, 0) == 3;
    assert t[0..3] == ['2', '0', '0'];
    DigitsValueOfThree('2', '0', '0');
    assert ScanDouble(t, 0) == Some((200.0, 3));
  }

  /** A text made of one tuple gives what that tuple denotes. */
  lemma LocationCoordinatesOfTuple(t: string)
    requires NoWhitespace(t)
    ensures LocationCoordinates(t) == Denoted(t)
  {
    ComponentsOfTuple(t);
    assert CoordinatesOf([t]) == Denoted(t) + CoordinatesOf([]);
  }

  /** Two tuples separated by one whitespace character give what each denotes, in order. */
  lemma LocationCoordinatesOfTwoTuples(a: string, w: char, b: string)
    requires NoWhitespace(a) && IsWhitespace(w) && NoWhitespace(b)
    ensures LocationCoordinates(a + [w] + b) == Denoted(a) + Denoted(b)
  {
    LocationCoordinatesSplit(a, w, b);
    LocationCoordinatesOfTuple(a);
    LocationCoordinatesOfTuple(b);
  }
}
