/**
  Defensive decoding of a language model's reply: decode the whole text,
  else the stretch from the first '{' to the last '}', else give back the
  text itself under the key "raw".
 */
module Parsing {
  import opened Json

  /** str.find for one character: the first index of `c`, or -1. */
  function Find(s: string, c: char): (r: int)
    ensures -1 <= r < |s|
    ensures r == -1 <==> c !in s
    ensures r >= 0 ==> s[r] == c
    ensures forall i :: 0 <= i < |s| && s[i] == c ==> 0 <= r <= i
  {
    if s == [] then
      -1
    else if s[0] == c then
      0
    else
      var k := Find(s[1..], c);
      assert forall i :: 1 <= i < |s| ==> s[1..][i - 1] == s[i];
      if k == -1 then -1 else k + 1
  }

  /** str.rfind for one character: the last index of `c`, or -1. */
  function RFind(s: string, c: char): (r: int)
    ensures -1 <= r < |s|
    ensures r == -1 <==> c !in s
    ensures r >= 0 ==> s[r] == c
    ensures forall j :: 0 <= j < |s| && s[j] == c ==> j <= r
  {
    if s == [] then
      -1
    else if s[|s| - 1] == c then
      |s| - 1
    else
      var k := RFind(s[..|s| - 1], c);
      assert forall j :: 0 <= j < |s| - 1 ==> s[..|s| - 1][j] == s[j];
      k
  }

  lemma FindAt(s: string, c: char, k: nat)
    requires k < |s| && s[k] == c && c !in s[..k]
    ensures Find(s, c) == k
  {
    assert forall i :: 0 <= i < k ==> s[..k][i] == s[i];
  }

  lemma RFindAt(s: string, c: char, k: nat)
    requires k < |s| && s[k] == c && c !in s[k + 1..]
    ensures RFind(s, c) == k
  {
    assert forall j :: k < j < |s| ==> s[k + 1..][j - k - 1] == s[j];
  }

  /** Some '{' stands before some '}'. */
  ghost predicate HasBracePair(text: string) {
    exists i, j :: 0 <= i < j < |text| && text[i] == '{' && text[j] == '}'
  }

  /** The slice text[start:end+1] with start = text.find("{") and
      end = text.rfind("}"), taken only when both exist and end > start. */
  function BraceSlice(text: string): (r: Option<string>)
    ensures r.Some? <==> HasBracePair(text)
    ensures r.Some? ==> |r.value| >= 2 && r.value[0] == '{' && r.value[|r.value| - 1] == '}'
    ensures r.Some? ==> exists i, j :: 0 <= i <= j <= |text| && text[i..j] == r.value
                                        && '{' !in text[..i] && '}' !in text[j..]
  {
    var start, end := Find(text, '{'), RFind(text, '}');
    if start != -1 && end != -1 && end > start then
      assert '{' !in text[..start] && '}' !in text[end + 1..];
      Some(text[start..end + 1])
    else
      None
  }

  /** parse_json_safely: never fails; the first decode that succeeds wins,
      and when none does the text comes back verbatim under "raw". */
  function ParseJsonSafely(text: string, loads: Decoder): (r: Json)
    ensures loads(text).Some? ==> r == loads(text).value
    ensures loads(text).None? && BraceSlice(text).Some? && loads(BraceSlice(text).value).Some?
            ==> r == loads(BraceSlice(text).value).value
    ensures loads(text).None? && (BraceSlice(text).None? || loads(BraceSlice(text).value).None?)
            ==> r == Object(map["raw" := Str(text)])
  {
    match loads(text)
    case Some(v) => v
    case None =>
      match BraceSlice(text)
      case Some(slice) =>
        (match loads(slice)
         case Some(v) => v
         case None => Object(map["raw" := Str(text)]))
      case None => Object(map["raw" := Str(text)])
  }

  /** An object wrapped in prose or a code fence that itself holds no '{'
      before it and no '}' after it is exactly the slice that is tried. */
  lemma WrappedObjectIsTheSlice(pre: string, body: string, post: string)
    requires '{' !in pre && '}' !in post
    requires |body| >= 1 && body[0] == '{' && body[|body| - 1] == '}'
    ensures BraceSlice(pre + body + post) == Some(body)
  {
    var text := pre + body + post;
    var a, b := |pre|, |pre| + |body| - 1;
    assert text[..a] == pre && text[b + 1..] == post && text[a..b + 1] == body;
    FindAt(text, '{', a);
    RFindAt(text, '}', b);
  }

  /** Consequently such a reply decodes to the wrapped object whenever the
      whole reply does not decode but the object does. */
  lemma RecoversWrappedObject(pre: string, body: string, post: string, loads: Decoder)
    requires '{' !in pre && '}' !in post
    requires |body| >= 1 && body[0] == '{' && body[|body| - 1] == '}'
    requires loads(pre + body + post).None? && loads(body).Some?
    ensures ParseJsonSafely(pre + body + post, loads) == loads(body).value
  {
    WrappedObjectIsTheSlice(pre, body, post);
  }

  /** A reply with no '{' at all, or whose '}' all come before its first
      '{', and which does not decode as a whole, comes back verbatim. */
  lemma {:induction false} NoBracesKeepsText(text: string, loads: Decoder)
    requires loads(text).None?
    requires forall i, j :: 0 <= i < j < |text| && text[i] == '{' ==> text[j] != '}'
    ensures ParseJsonSafely(text, loads) == Object(map["raw" := Str(text)])
  {
  }
}
