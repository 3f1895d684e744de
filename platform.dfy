/**
 * What the KML builders take from the platform: Apple's Foundation conversions, the
 * `#available(iOS 13, *)` query and the Unicode character classes of Swift's standard library.
 * Conversions whose behaviour depends on locale or on Foundation internals are parameters.
 */
module Platform {
  import opened Wrappers

  /**
   * The Foundation services the source calls.
   *  - `iOS13Available`: the answer to `#available(iOS 13, *)`.
   *  - `scanHexInt64`: `Scanner(string: s).scanHexInt64(&n)`, `Some(n)` when it succeeds.
   *  - `numberFromString`: `NumberFormatter().number(from: s)`, a locale-dependent parse.
   *  - `floatValue`: `CGFloat(n.floatValue)` of a parsed number, its rounding to single precision.
   */
  datatype Foundation = Foundation(
    iOS13Available: bool,
    scanHexInt64: string -> Option<bv64>,
    numberFromString: string -> Option<real>,
    floatValue: real -> real)

  /** `NSNumber.intValue` of a parsed number: truncation toward zero. */
  function IntValue(x: real): int {
    if x >= 0.0 then x.Floor else -((-x).Floor)
  }

  /** The truncated value is the integer next to `x` on the side of zero; it is 0 exactly on (-1, 1). */
  lemma IntValueTruncates(x: real)
    ensures 0.0 <= x ==> IntValue(x) as real <= x < IntValue(x) as real + 1.0
    ensures x < 0.0 ==> IntValue(x) as real - 1.0 < x <= IntValue(x) as real
    ensures IntValue(x) == 0 <==> -1.0 < x < 1.0
  {
  }

  /**
   * Swift's `Character.isWhitespace`, which is also the set `CharacterSet.whitespacesAndNewlines`:
   * the Unicode White_Space characters.
   */
  predicate IsWhitespace(c: char) {
    || ('\t' <= c <= '\r')
    || c == ' '
    || c == '\U{85}'
    || c == '\U{A0}'
    || c == '\U{1680}'
    || ('\U{2000}' <= c <= '\U{200A}')
    || c == '\U{2028}'
    || c == '\U{2029}'
    || c == '\U{202F}'
    || c == '\U{205F}'
    || c == '\U{3000}'
  }

  predicate NoWhitespace(s: string) {
    forall k :: 0 <= k < |s| ==> !IsWhitespace(s[k])
  }

  /** `s.filter { !$0.isWhitespace }` */
  function Strip(s: string): (r: string)
    ensures |r| <= |s|
    ensures NoWhitespace(r)
    ensures NoWhitespace(s) ==> r == s
    ensures (forall k :: 0 <= k < |s| ==> IsWhitespace(s[k])) ==> r == []
  {
    if s == [] then []
    else if IsWhitespace(s[0]) then Strip(s[1..])
    else [s[0]] + Strip(s[1..])
  }

  /** Removing whitespace from a text split into fragments removes it from each fragment. */
  lemma {:induction false} StripConcat(a: string, b: string)
    ensures Strip(a + b) == Strip(a) + Strip(b)
  {
    if a == [] {
      assert a + b == b;
    } else {
      assert (a + b)[1..] == a[1..] + b;
      StripConcat(a[1..], b);
    }
  }
}
