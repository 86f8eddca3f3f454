/**
 * The two closed enumerations of `utils::models`: the operator's `Rating` of
 * a cooked recipe and the `Mode` the planner is in, with their integer
 * projections, parsing and printing.
 */
module Enums {
  import Wrappers

  datatype Rating = Dislike | None | Like | Love

  /** `Rating::value`: the discriminant, which is what a rating adds to the
      likes of each of the recipe's tags. */
  function RatingValue(r: Rating): (v: int)
    ensures -1 <= v <= 2
    ensures v < 0 <==> r == Dislike
    ensures v == 0 <==> r == None
  {
    match r
    case Dislike => -1
    case None => 0
    case Like => 1
    case Love => 2
  }

  /** `impl Display for Rating`. */
  function RatingToString(r: Rating): (s: string)
    ensures s in Words
  {
    match r
    case Dislike => "dislike"
    case None => "none"
    case Like => "like"
    case Love => "love"
  }

  const Words: set<string> := {"dislike", "none", "like", "love"}

  const RatingMessage: string := "Please enter dislike, none, like, or love."

  /** The lower-case form of one character, as far as it can matter for
      matching the four rating words: the ASCII capitals and the Kelvin sign
      (U+212A), whose lower case is `k`. */
  function LowerChar(c: char): (d: char)
    ensures 'A' <= c <= 'Z' ==> d as int == c as int + 32
    ensures !('A' <= c <= 'Z') && c != '\U{212A}' ==> d == c
    ensures !('A' <= d <= 'Z')
  {
    if 'A' <= c <= 'Z' then (c as int + 32) as char
    else if c == '\U{212A}' then 'k'
    else c
  }

  /** `str::to_lowercase`, character by character. */
  function Lowercase(s: string): (t: string)
    ensures |t| == |s|
    ensures forall i :: 0 <= i < |s| ==> t[i] == LowerChar(s[i])
  {
    if s == [] then [] else [LowerChar(s[0])] + Lowercase(s[1..])
  }

  /** `impl FromStr for Rating`: the lower-cased input must be one of the
      four words; anything else is refused with the prompt's message. */
  function RatingFromStr(s: string): (r: Wrappers.Result<Rating, string>)
    ensures r.Ok? <==> Lowercase(s) in Words
    ensures r.Ok? ==> RatingToString(r.value) == Lowercase(s)
    ensures r.Err? ==> r.error == RatingMessage
  {
    var l := Lowercase(s);
    if l == "dislike" then Wrappers.Ok(Dislike)
    else if l == "none" then Wrappers.Ok(None)
    else if l == "like" then Wrappers.Ok(Like)
    else if l == "love" then Wrappers.Ok(Love)
    else Wrappers.Err(RatingMessage)
  }

  /** Lower-casing twice changes nothing more. */
  lemma {:induction false} LowercaseIdempotent(s: string)
    ensures Lowercase(Lowercase(s)) == Lowercase(s)
  {
    var l := Lowercase(s);
    forall i | 0 <= i < |s| ensures Lowercase(l)[i] == l[i] {
      assert !('A' <= l[i] <= 'Z');
    }
  }

  /** Parsing ignores case: a string and its lower-case form parse alike. */
  lemma CaseInsensitive(s: string)
    ensures RatingFromStr(s) == RatingFromStr(Lowercase(s))
  {
    LowercaseIdempotent(s);
  }

  /** Printing a rating and parsing the text gives the rating back. */
  lemma ParsePrintRoundTrip(r: Rating)
    ensures RatingFromStr(RatingToString(r)) == Wrappers.Ok(r)
  {
    match r
    case Dislike => LowerWordFixed("dislike");
    case None => LowerWordFixed("none");
    case Like => LowerWordFixed("like");
    case Love => LowerWordFixed("love");
  }

  lemma LowerWordFixed(w: string)
    requires forall i :: 0 <= i < |w| ==> 'a' <= w[i] <= 'z'
    ensures Lowercase(w) == w
  {
    assert forall i :: 0 <= i < |w| ==> Lowercase(w)[i] == w[i];
  }

  /** The answer typed in capitals is accepted. */
  lemma ShoutedAnswer()
    ensures RatingFromStr("LOVE") == Wrappers.Ok(Love)
    ensures RatingFromStr("DISLI\U{212A}E") == Wrappers.Ok(Dislike)
  {
    LowercaseIs("LOVE", "love");
    LowercaseIs("DISLI\U{212A}E", "dislike");
  }

  lemma LowercaseIs(s: string, t: string)
    requires |s| == |t| && forall i :: 0 <= i < |s| ==> LowerChar(s[i]) == t[i]
    ensures Lowercase(s) == t
  {
  }

  datatype Mode = Prepare | Review

  /** `Mode::value`: the integer stored in the `mode` column. */
  function ModeValue(m: Mode): (v: int)
    ensures v == 0 || v == 1
    ensures v == 0 <==> m == Prepare
  {
    match m
    case Prepare => 0
    case Review => 1
  }

  /** `impl Into<Mode> for i64`: `None` stands for the panic on a stored mode
      other than 0 or 1. */
  function IntoMode(v: int): (r: Wrappers.Option<Mode>)
    ensures r.Some? <==> v == 0 || v == 1
    ensures r.Some? ==> ModeValue(r.value) == v
  {
    if v == 0 then Wrappers.Some(Prepare)
    else if v == 1 then Wrappers.Some(Review)
    else Wrappers.None
  }

  /** A mode survives being stored and read back. */
  lemma ModeRoundTrip(m: Mode)
    ensures IntoMode(ModeValue(m)) == Wrappers.Some(m)
  {
  }
}
