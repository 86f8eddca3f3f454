/**
 * Quantity parsing: the fraction-glyph table `utils::NUMERIC` with its lookup
 * `numeric`, and `parse_float`, which turns the quantity text of a measurement
 * into a number.
 *
 * Quantities are exact `real`s. The decimal parser of the standard library
 * (`str::parse::<f64>`) is not modelled; it is the parameter `dec`, a partial
 * function from text to a number. ASCII-ness and whitespace splitting are
 * modelled exactly.
 */
module Quantity {
  import opened Wrappers

  /** The twenty glyphs of the table: the vulgar fractions U+00BC..U+00BE and
      U+2150..U+215F, and the "zero thirds" glyph U+2189. */
  const Glyphs: set<char> := {
    '\U{00BC}', '\U{00BD}', '\U{00BE}',
    '\U{2150}', '\U{2151}', '\U{2152}', '\U{2153}', '\U{2154}',
    '\U{2155}', '\U{2156}', '\U{2157}', '\U{2158}', '\U{2159}',
    '\U{215A}', '\U{215B}', '\U{215C}', '\U{215D}', '\U{215E}',
    '\U{215F}', '\U{2189}'
  }

  /** `utils::numeric`: the exact value of a fraction glyph, None for any
      other character. */
  function Numeric(c: char): (r: Option<real>)
    ensures r.Some? <==> c in Glyphs
    ensures r.Some? ==> 0.0 <= r.value <= 1.0
  {
    match c
    case '\U{00BC}' => Some(0.25)        // one quarter
    case '\U{00BD}' => Some(0.5)         // one half
    case '\U{00BE}' => Some(0.75)        // three quarters
    case '\U{2150}' => Some(1.0 / 7.0)   // one seventh
    case '\U{2151}' => Some(1.0 / 9.0)   // one ninth
    case '\U{2152}' => Some(0.1)         // one tenth
    case '\U{2153}' => Some(1.0 / 3.0)   // one third
    case '\U{2154}' => Some(2.0 / 3.0)   // two thirds
    case '\U{2155}' => Some(0.2)         // one fifth
    case '\U{2156}' => Some(0.4)         // two fifths
    case '\U{2157}' => Some(0.6)         // three fifths
    case '\U{2158}' => Some(0.8)         // four fifths
    case '\U{2159}' => Some(1.0 / 6.0)   // one sixth
    case '\U{215A}' => Some(5.0 / 6.0)   // five sixths
    case '\U{215B}' => Some(0.125)       // one eighth
    case '\U{215C}' => Some(0.375)       // three eighths
    case '\U{215D}' => Some(0.625)       // five eighths
    case '\U{215E}' => Some(0.875)       // seven eighths
    case '\U{215F}' => Some(1.0)         // fraction numerator one
    case '\U{2189}' => Some(0.0)         // zero thirds
    case _ => None
  }

  /** Rust's `char::is_whitespace`: the Unicode White_Space property. */
  predicate IsWhitespace(c: char) {
    || ('\t' <= c <= '\r')
    || c == ' '
    || c == '\U{0085}'
    || c == '\U{00A0}'
    || c == '\U{1680}'
    || ('\U{2000}' <= c <= '\U{200A}')
    || c == '\U{2028}'
    || c == '\U{2029}'
    || c == '\U{202F}'
    || c == '\U{205F}'
    || c == '\U{3000}'
  }

  predicate NoWhitespace(s: string) {
    forall i :: 0 <= i < |s| ==> !IsWhitespace(s[i])
  }

  predicate AllWhitespace(s: string) {
    forall i :: 0 <= i < |s| ==> IsWhitespace(s[i])
  }

  /** `str::is_ascii`. */
  predicate IsAscii(s: string) {
    forall i :: 0 <= i < |s| ==> s[i] < '\U{0080}'
  }

  /** Length of the run of non-whitespace characters that starts `s`. */
  function WordLength(s: string): (n: nat)
    ensures n <= |s|
    ensures NoWhitespace(s[..n])
    ensures n < |s| ==> IsWhitespace(s[n])
  {
    if s == [] || IsWhitespace(s[0]) then 0
    else
      var n := 1 + WordLength(s[1..]);
      assert s[..n] == [s[0]] + s[1..][..n - 1];
      n
  }

  /** `str::split_whitespace`: the maximal runs of non-whitespace characters,
      in order. */
  function SplitWhitespace(s: string): (r: seq<string>)
    ensures forall k :: 0 <= k < |r| ==> r[k] != [] && NoWhitespace(r[k])
    ensures r == [] <==> AllWhitespace(s)
    decreases |s|
  {
    if s == [] then []
    else if IsWhitespace(s[0]) then
      var r := SplitWhitespace(s[1..]);
      assert AllWhitespace(s) <==> AllWhitespace(s[1..]) by {
        if AllWhitespace(s[1..]) {
          forall i | 0 <= i < |s| ensures IsWhitespace(s[i]) {
            if i > 0 { assert s[i] == s[1..][i - 1]; }
          }
        }
      }
      r
    else
      var n := WordLength(s);
      [s[..n]] + SplitWhitespace(s[n..])
  }

  /** The failures of `parse_float`: the "Not a fraction" error it returns,
      and the three panics (an `unwrap` of a whole part that is not a number,
      an `unwrap` of an unknown glyph, and the "BIG PROBLEM" panic, which
      carries the offending text). */
  datatype ParseFailure =
    | NotAFraction
    | WholePartPanic
    | GlyphPanic
    | ShapePanic(text: string)

  /** `parse_float`, the quantity deserializer, as written. */
  function ParseFloat(s: string, dec: string -> Option<real>): (r: Result<real, ParseFailure>)
    // an ASCII decimal is read by the decimal parser, and nothing else fails
    ensures IsAscii(s) && dec(s).Some? ==> r == Ok(dec(s).value)
    ensures r.Err? ==> !(IsAscii(s) && dec(s).Some?)
    // two tokens: a whole part and a glyph, each of which may panic
    ensures var tokens := SplitWhitespace(s);
            !(IsAscii(s) && dec(s).Some?) && |tokens| == 2 ==>
              (r == Err(WholePartPanic) <==> dec(tokens[0]).None?)
              && (dec(tokens[0]).Some? ==> (r == Err(GlyphPanic) <==> Numeric(tokens[1][0]).None?))
              && (r.Ok? ==> r.value == dec(tokens[0]).value + Numeric(tokens[1][0]).value)
    // one token: the first character of the text must be a glyph
    ensures !(IsAscii(s) && dec(s).Some?) && |SplitWhitespace(s)| == 1 ==>
              |s| > 0
              && (r.Ok? <==> s[0] in Glyphs)
              && (r.Ok? ==> r.value == Numeric(s[0]).value)
              && (r.Err? ==> r.error == NotAFraction)
    // any other number of tokens, none included, is the "BIG PROBLEM" panic
    ensures !(IsAscii(s) && dec(s).Some?) && |SplitWhitespace(s)| != 1 && |SplitWhitespace(s)| != 2 ==>
              r == Err(ShapePanic(s))
    ensures r.Err? && r.error.ShapePanic? ==>
              r.error.text == s && |SplitWhitespace(s)| != 1 && |SplitWhitespace(s)| != 2
  {
    var tokens := SplitWhitespace(s);
    if IsAscii(s) && dec(s).Some? then
      Ok(dec(s).value)
    else if 1 < |tokens| < 3 then
      // mixed number: a whole part and the first character of the second token
      var whole := dec(tokens[0]);
      var fraction := Numeric(tokens[1][0]);
      if whole.None? then Err(WholePartPanic)
      else if fraction.None? then Err(GlyphPanic)
      else Ok(whole.value + fraction.value)
    else if |tokens| == 1 then
      // the first character of the whole text, not of its only token
      match Numeric(s[0])
      case Some(v) => Ok(v)
      case None => Err(NotAFraction)
    else
      Err(ShapePanic(s))
  }

  /** `parse_float` as evidently intended in its single-token branch: the
      glyph is the first character of the token, as the mixed-number branch
      already does. */
  function ParseFloatTrimmed(s: string, dec: string -> Option<real>): (r: Result<real, ParseFailure>)
  {
    var tokens := SplitWhitespace(s);
    if IsAscii(s) && dec(s).Some? then
      Ok(dec(s).value)
    else if 1 < |tokens| < 3 then
      var whole := dec(tokens[0]);
      var fraction := Numeric(tokens[1][0]);
      if whole.None? then Err(WholePartPanic)
      else if fraction.None? then Err(GlyphPanic)
      else Ok(whole.value + fraction.value)
    else if |tokens| == 1 then
      match Numeric(tokens[0][0])
      case Some(v) => Ok(v)
      case None => Err(NotAFraction)
    else
      Err(ShapePanic(s))
  }

  /** Every glyph is outside ASCII and is not whitespace. */
  lemma GlyphIsNotAsciiNorSpace(c: char)
    requires c in Glyphs
    ensures c >= '\U{0080}' && !IsWhitespace(c)
  {
  }

  lemma {:induction false} WordLengthOfWord(w: string, rest: string)
    requires NoWhitespace(w)
    requires rest == [] || IsWhitespace(rest[0])
    ensures WordLength(w + rest) == |w|
  {
    if w != [] {
      assert (w + rest)[1..] == w[1..] + rest;
      WordLengthOfWord(w[1..], rest);
    } else {
      assert w + rest == rest;
    }
  }

  /** Splitting a word followed by whitespace (or by nothing) yields that word
      first. */
  lemma SplitAfterWord(w: string, rest: string)
    requires w != [] && NoWhitespace(w)
    requires rest == [] || IsWhitespace(rest[0])
    ensures SplitWhitespace(w + rest) == [w] + SplitWhitespace(rest)
  {
    WordLengthOfWord(w, rest);
    var s := w + rest;
    assert !IsWhitespace(s[0]);
    assert s[..|w|] == w;
    assert s[|w|..] == rest;
  }

  /** A single glyph parses to its tabulated value. */
  lemma GlyphAlone(c: char, dec: string -> Option<real>)
    requires c in Glyphs
    ensures ParseFloat([c], dec) == Ok(Numeric(c).value)
  {
    GlyphIsNotAsciiNorSpace(c);
    assert [c][0] == c;
    assert !IsAscii([c]);
    SplitAfterWord([c], []);
    assert [c] + [] == [c];
  }

  /** A word, one space and a glyph split into the word and the glyph. */
  lemma SplitMixed(w: string, c: char)
    requires w != [] && NoWhitespace(w)
    requires c in Glyphs
    ensures SplitWhitespace(w + " " + [c]) == [w, [c]]
  {
    GlyphIsNotAsciiNorSpace(c);
    var tail := [' '] + [c];
    assert w + " " + [c] == w + tail;
    SplitAfterWord(w, tail);
    assert tail[1..] == [c];
    SplitAfterWord([c], []);
    assert [c] + [] == [c];
    assert SplitWhitespace(tail) == SplitWhitespace([c]);
  }

  /** A whole part, one space and a glyph parse to their sum. */
  lemma MixedNumber(w: string, c: char, dec: string -> Option<real>)
    requires w != [] && NoWhitespace(w) && dec(w).Some?
    requires c in Glyphs
    ensures ParseFloat(w + " " + [c], dec) == Ok(dec(w).value + Numeric(c).value)
  {
    var s := w + " " + [c];
    SplitMixed(w, c);
    assert !IsAscii(s) by {
      GlyphIsNotAsciiNorSpace(c);
      assert s[|s| - 1] == c;
    }
    TwoTokens(s, dec);
  }

  /** The mixed-number branch, for any text of two tokens that is not an
      ASCII decimal. */
  lemma TwoTokens(s: string, dec: string -> Option<real>)
    requires !IsAscii(s) && |SplitWhitespace(s)| == 2
    requires SplitWhitespace(s)[1] != []
    requires dec(SplitWhitespace(s)[0]).Some? && Numeric(SplitWhitespace(s)[1][0]).Some?
    ensures ParseFloat(s, dec)
            == Ok(dec(SplitWhitespace(s)[0]).value + Numeric(SplitWhitespace(s)[1][0]).value)
  {
  }

  /** "1 ½" is one and a half. */
  lemma OneAndAHalf(dec: string -> Option<real>)
    requires dec("1") == Some(1.0)
    ensures ParseFloat("1 \U{00BD}", dec) == Ok(1.5)
  {
    MixedNumber("1", '\U{00BD}', dec);
    assert "1" + " " + ['\U{00BD}'] == "1 \U{00BD}";
  }

  /** Three whitespace-separated parts that are not a decimal number panic
      with the text itself. */
  lemma ThreePartsPanic(s: string, dec: string -> Option<real>)
    requires |SplitWhitespace(s)| >= 3
    requires !(IsAscii(s) && dec(s).Some?)
    ensures ParseFloat(s, dec) == Err(ShapePanic(s))
  {
  }

  /** Whitespace before a lone glyph makes the as-written parser fail with
      "Not a fraction". */
  lemma LeadingSpaceGlyphRejected(c: char, dec: string -> Option<real>)
    requires c in Glyphs
    ensures ParseFloat([' ', c], dec) == Err(NotAFraction)
  {
    GlyphIsNotAsciiNorSpace(c);
    var s := [' ', c];
    assert s[1] == c && !IsAscii(s);
    assert s[1..] == [c];
    SplitAfterWord([c], []);
    assert [c] + [] == [c];
    assert SplitWhitespace(s) == [[c]];
  }

  /** The intended parser accepts a glyph surrounded by any whitespace. */
  lemma {:induction false} TrimmedGlyphAccepted(pre: string, c: char, post: string, dec: string -> Option<real>)
    requires AllWhitespace(pre) && AllWhitespace(post)
    requires c in Glyphs
    ensures ParseFloatTrimmed(pre + [c] + post, dec) == Ok(Numeric(c).value)
  {
    GlyphIsNotAsciiNorSpace(c);
    var s := pre + [c] + post;
    assert s[|pre|] == c;
    assert !IsAscii(s);
    SplitOfPaddedGlyph(pre, c, post);
  }

  lemma {:induction false} SplitOfPaddedGlyph(pre: string, c: char, post: string)
    requires AllWhitespace(pre) && AllWhitespace(post)
    requires c in Glyphs
    ensures SplitWhitespace(pre + [c] + post) == [[c]]
    decreases |pre|
  {
    GlyphIsNotAsciiNorSpace(c);
    if pre == [] {
      assert pre + [c] + post == [c] + post;
      if post != [] {
        assert IsWhitespace(post[0]);
      }
      SplitAfterWord([c], post);
      assert SplitWhitespace(post) == [];
    } else {
      var s := pre + [c] + post;
      assert IsWhitespace(s[0]);
      assert s[1..] == pre[1..] + [c] + post;
      SplitOfPaddedGlyph(pre[1..], c, post);
    }
  }

  /** Where the as-written and the intended parser differ: only on a single
      token whose text does not start with it. */
  lemma {:induction false} TrimmedAgreesOnUnpadded(s: string, dec: string -> Option<real>)
    requires s == [] || !IsWhitespace(s[0])
    ensures ParseFloatTrimmed(s, dec) == ParseFloat(s, dec)
  {
    if s != [] {
      var n := WordLength(s);
      assert SplitWhitespace(s) == [s[..n]] + SplitWhitespace(s[n..]);
      assert SplitWhitespace(s)[0][0] == s[0];
    }
  }
}
