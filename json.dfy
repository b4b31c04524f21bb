/**
  Values as Python's json module hands them to the engine, and the
  character-level helpers that the engine's string tests rely on.
  Decoding itself (json.loads) is not defined here: every operation that
  decodes text takes the decoder as a parameter.
 */
module Json {

  datatype Option<+T> = None | Some(value: T) {
    function GetOr(default: T): T {
      match this
      case Some(v) => v
      case None => default
    }
  }

  /** A decoded JSON document. Integers and floats are kept apart, as
      Python keeps them apart: str() renders them differently. */
  datatype Json =
    | Null
    | Bool(b: bool)
    | Int(i: int)
    | Float(r: real)
    | Str(s: string)
    | Array(items: seq<Json>)
    | Object(members: map<string, Json>)

  /** The abstract decoder: Some(value) when the text is a JSON document,
      None when json.loads would raise. */
  type Decoder = string -> Option<Json>

  /** The numeric reading of a value used by `*` and `sum`: Python's bool
      is an int subclass, so True and False read as 1 and 0; any other
      non-number makes the arithmetic raise. */
  function NumberValue(v: Json): (r: Option<real>)
    ensures r.Some? <==> v.Int? || v.Float? || v.Bool?
    ensures v.Float? ==> r == Some(v.r)
    ensures v.Int? ==> r == Some(v.i as real)
    ensures v.Bool? ==> r == Some(if v.b then 1.0 else 0.0)
  {
    match v
    case Int(i) => Some(i as real)
    case Float(x) => Some(x)
    case Bool(b) => Some(if b then 1.0 else 0.0)
    case _ => None
  }
}

module Text {

  predicate IsDigit(c: char) {
    '0' <= c <= '9'
  }

  predicate AllDigits(s: string) {
    forall i :: 0 <= i < |s| ==> IsDigit(s[i])
  }

  /** ASCII lower-casing of one character. */
  function LowerChar(c: char): char {
    if 'A' <= c <= 'Z' then (c as int + 32) as char else c
  }

  /** str.lower() restricted to ASCII: the only characters whose lower
      case is one of the letters the engine looks for are the ASCII
      capitals, so substring tests on the result agree with Python's. */
  function Lower(s: string): (r: string)
    ensures |r| == |s|
    ensures forall i :: 0 <= i < |s| ==> r[i] == LowerChar(s[i])
  {
    if s == [] then [] else [LowerChar(s[0])] + Lower(s[1..])
  }

  /** `sub` occurs in `s` starting at index `i`. */
  ghost predicate OccursAt(s: string, sub: string, i: int) {
    0 <= i && i + |sub| <= |s| && s[i..i + |sub|] == sub
  }

  /** Python's `sub in s` for strings. */
  function Contains(s: string, sub: string): (r: bool)
    ensures r <==> exists i :: OccursAt(s, sub, i)
  {
    if |sub| > |s| then
      false
    else if s[..|sub|] == sub then
      assert OccursAt(s, sub, 0);
      true
    else
      assert forall j :: 0 <= j ==> (OccursAt(s[1..], sub, j) <==> OccursAt(s, sub, j + 1)) by {
        forall j | 0 <= j ensures OccursAt(s[1..], sub, j) <==> OccursAt(s, sub, j + 1) {
          if j + 1 + |sub| <= |s| {
            assert s[1..][j..j + |sub|] == s[j + 1..j + 1 + |sub|];
          }
        }
      }
      assert forall i :: OccursAt(s, sub, i) ==> OccursAt(s[1..], sub, i - 1);
      Contains(s[1..], sub)
  }
}
