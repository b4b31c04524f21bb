/**
  Post-extraction validation of a model reply: amount fields whose value
  is not a plain decimal amount lose 30% of their confidence, the record's
  overall confidence is recomputed as the mean of the field confidences,
  and every failure becomes an error value that keeps the reply verbatim.
 */
module Validator {
  import opened Json
  import opened Text

  // ---------------------------------------------------------------------
  // validate_amount: the pattern ^\d+(\.\d{1,2})?$
  // ---------------------------------------------------------------------

  /** The amount language: one or more digits, optionally followed by a
      point and one or two digits. */
  ghost predicate IsAmountText(s: string) {
    exists k :: 0 < k <= |s| && AllDigits(s[..k]) &&
      (k == |s| || (s[k] == '.' && 2 <= |s| - k <= 3 && AllDigits(s[k + 1..])))
  }

  /** Length of the longest all-digit prefix. */
  function LeadingDigits(s: string): (n: nat)
    ensures n <= |s| && AllDigits(s[..n])
    ensures n < |s| ==> !IsDigit(s[n])
  {
    if s == [] || !IsDigit(s[0]) then 0
    else
      var n := LeadingDigits(s[1..]);
      assert s[..n + 1] == [s[0]] + s[1..][..n];
      n + 1
  }

  /** A digit run followed by something that is not a digit is the longest one. */
  lemma LeadingDigitsIsMaximal(s: string, k: nat)
    requires k <= |s| && AllDigits(s[..k]) && (k < |s| ==> !IsDigit(s[k]))
    ensures LeadingDigits(s) == k
  {
    var n := LeadingDigits(s);
    assert forall j :: 0 <= j < k ==> IsDigit(s[j]) by {
      assert forall j :: 0 <= j < k ==> s[..k][j] == s[j];
    }
    assert forall j :: 0 <= j < n ==> IsDigit(s[j]) by {
      assert forall j :: 0 <= j < n ==> s[..n][j] == s[j];
    }
  }

  /** The recogniser: scan the integer digits, then an optional fraction. */
  function MatchesAmount(s: string): bool {
    var n := LeadingDigits(s);
    0 < n && (n == |s| || (s[n] == '.' && var m := LeadingDigits(s[n + 1..]); 1 <= m <= 2 && n + 1 + m == |s|))
  }

  lemma {:induction false} MatchesAmountIsAmountText(s: string)
    ensures MatchesAmount(s) <==> IsAmountText(s)
  {
    var n := LeadingDigits(s);
    if MatchesAmount(s) {
      assert 0 < n <= |s| && AllDigits(s[..n]);
      if n < |s| {
        var m := LeadingDigits(s[n + 1..]);
        assert s[n + 1..][..m] == s[n + 1..];
      }
    }
    if IsAmountText(s) {
      var k :| 0 < k <= |s| && AllDigits(s[..k]) &&
        (k == |s| || (s[k] == '.' && 2 <= |s| - k <= 3 && AllDigits(s[k + 1..])));
      LeadingDigitsIsMaximal(s, k);
      if k < |s| {
        var t := s[k + 1..];
        assert t[..|t|] == t;
        LeadingDigitsIsMaximal(t, |t|);
      }
    }
  }

  /** validate_amount on text. re.match anchors at the start, and `$`
      matches at the very end or just before one final newline. */
  function ValidateAmount(s: string): (r: bool)
    ensures r <==> IsAmountText(s) || (|s| > 0 && s[|s| - 1] == '\n' && IsAmountText(s[..|s| - 1]))
  {
    MatchesAmountIsAmountText(s);
    MatchesAmountIsAmountText(if |s| > 0 then s[..|s| - 1] else s);
    MatchesAmount(s) || (|s| > 0 && s[|s| - 1] == '\n' && MatchesAmount(s[..|s| - 1]))
  }

  /** Digits, a point and one or two digits make an amount. */
  lemma FractionMatches(s: string, n: nat)
    requires 0 < n < |s| && s[n] == '.' && 2 <= |s| - n <= 3
    requires AllDigits(s[..n]) && AllDigits(s[n + 1..])
    ensures MatchesAmount(s)
  {
    var t := s[n + 1..];
    LeadingDigitsIsMaximal(s, n);
    assert t[..|t|] == t;
    LeadingDigitsIsMaximal(t, |t|);
  }

  /** Whole numbers and one or two decimals pass, also before a final newline. */
  lemma AcceptedAmounts()
    ensures ValidateAmount("12") && ValidateAmount("12.5") && ValidateAmount("12.50")
    ensures ValidateAmount("12\n")
  {
    var whole := "12";
    LeadingDigitsIsMaximal(whole, 2);
    assert MatchesAmount(whole);
    assert "12\n"[..2] == whole;
    var one, two := "12.5", "12.50";
    assert one[..2] == whole && one[3..] == "5";
    FractionMatches(one, 2);
    assert two[..2] == whole && two[3..] == "50";
    FractionMatches(two, 2);
  }

  /** Three decimals, letters, no text, no integer part and a bare point fail. */
  lemma RejectedAmounts()
    ensures !ValidateAmount("12.500") && !ValidateAmount("abc") && !ValidateAmount("")
    ensures !ValidateAmount(".5") && !ValidateAmount("12.")
  {
    assert !MatchesAmount("12.500");
  }

  /** Decimal digits of a natural number, as str() writes it. */
  function Digits(n: nat): (s: string)
    ensures |s| > 0 && AllDigits(s)
  {
    var d := ['0' + (n % 10) as char];
    if n < 10 then d else Digits(n / 10) + d
  }

  /** str() of a Python int. */
  function IntText(i: int): string {
    if i >= 0 then Digits(i) else "-" + Digits(-i)
  }

  /** validate_amount(value) for any decoded value: the check runs on
      str(value). str() of a float is CPython's float formatting, which
      is taken as the parameter `floatStr`. */
  function AmountOk(v: Json, floatStr: real -> string): bool {
    match v
    case Str(s) => ValidateAmount(s)
    case Int(i) => ValidateAmount(IntText(i))
    case Float(x) => ValidateAmount(floatStr(x))
    case Null => ValidateAmount("None")
    case Bool(b) => ValidateAmount(if b then "True" else "False")
    // str() of a list or a dict begins with '[' or '{', never a digit
    case Array(_) => false
    case Object(_) => false
  }

  /** An int passes the amount check exactly when it is not negative. */
  lemma {:induction false} IntAmountOk(i: int, floatStr: real -> string)
    ensures AmountOk(Int(i), floatStr) <==> i >= 0
  {
    var s := IntText(i);
    if i >= 0 {
      assert s[..|s|] == s;
      LeadingDigitsIsMaximal(s, |s|);
    } else {
      assert s[0] == '-';
      LeadingDigitsIsMaximal(s, 0);
      var t := s[..|s| - 1];
      if |t| > 0 {
        assert t[0] == '-';
        LeadingDigitsIsMaximal(t, 0);
      }
      assert s[|s| - 1] == Digits(-i)[|Digits(-i)| - 1];
    }
    MatchesAmountIsAmountText(s);
  }

  lemma NonStringAmounts(floatStr: real -> string)
    ensures !AmountOk(Null, floatStr) && !AmountOk(Bool(true), floatStr) && !AmountOk(Bool(false), floatStr)
  {
    assert !MatchesAmount("None") && !MatchesAmount("Non");
    assert !MatchesAmount("True") && !MatchesAmount("Tru");
    assert !MatchesAmount("False") && !MatchesAmount("Fals");
  }

  // ---------------------------------------------------------------------
  // compute_overall_confidence
  // ---------------------------------------------------------------------

  /** Python's sum() over reals. */
  function Sum(xs: seq<real>): real {
    if xs == [] then 0.0 else xs[0] + Sum(xs[1..])
  }

  lemma {:induction false} SumBounds(xs: seq<real>)
    ensures (forall i :: 0 <= i < |xs| ==> 0.0 <= xs[i] <= 1.0) ==> 0.0 <= Sum(xs) <= |xs| as real
  {
    if xs != [] {
      SumBounds(xs[1..]);
      assert forall i :: 1 <= i < |xs| ==> xs[1..][i - 1] == xs[i];
    }
  }

  /** The arithmetic mean, 0.0 for no values. */
  function Mean(xs: seq<real>): (m: real)
    ensures xs == [] ==> m == 0.0
    ensures xs != [] ==> m * (|xs| as real) == Sum(xs)
    ensures (forall i :: 0 <= i < |xs| ==> 0.0 <= xs[i] <= 1.0) ==> 0.0 <= m <= 1.0
  {
    SumBounds(xs);
    if xs == [] then 0.0 else Sum(xs) / (|xs| as real)
  }

  /** f.get("confidence", 0) as a number: a missing key reads as 0; a
      value that is not a dict, or a confidence that is not a number,
      makes the sum raise. */
  function ConfidenceOf(f: Json): Option<real> {
    if !f.Object? then None
    else if "confidence" !in f.members then Some(0.0)
    else NumberValue(f.members["confidence"])
  }

  function Confidences(fields: seq<Json>): (r: Option<seq<real>>)
    ensures r.Some? <==> forall i :: 0 <= i < |fields| ==> ConfidenceOf(fields[i]).Some?
    ensures r.Some? ==> |r.value| == |fields| &&
                        forall i :: 0 <= i < |fields| ==> r.value[i] == ConfidenceOf(fields[i]).value
  {
    if fields == [] then Some([])
    else
      match ConfidenceOf(fields[0])
      case None => None
      case Some(c) =>
        assert forall j :: 0 <= j < |fields| - 1 ==> fields[1..][j] == fields[j + 1];
        match Confidences(fields[1..])
        case None => None
        case Some(cs) => Some([c] + cs)
  }

  /** compute_overall_confidence: 0.0 for no fields, otherwise the mean
      of the field confidences with a missing confidence counted as 0. */
  function ComputeOverallConfidence(fields: seq<Json>): (r: Option<real>)
    ensures fields == [] ==> r == Some(0.0)
    ensures r.Some? <==> forall i :: 0 <= i < |fields| ==> ConfidenceOf(fields[i]).Some?
    ensures r.Some? && fields != [] ==> r.value * (|fields| as real) == Sum(Confidences(fields).value)
    ensures r.Some? && (forall i :: 0 <= i < |fields| ==> 0.0 <= ConfidenceOf(fields[i]).value <= 1.0)
            ==> 0.0 <= r.value <= 1.0
  {
    if fields == [] then Some(0.0)
    else
      match Confidences(fields)
      case None => None
      case Some(cs) => Some(Mean(cs))
  }

  // ---------------------------------------------------------------------
  // validate_output
  // ---------------------------------------------------------------------

  /** Why validate_output fell back to {"error": str(e), "raw": raw_json}. */
  datatype Failure =
    | NotJson              // json.loads raised
    | NotAnObject          // data["fields"] on a value that is not a dict
    | MissingFields        // no "fields" key
    | FieldsNotIterable    // "fields" is a number, a bool or null
    | FieldNotObject       // a field is not a dict, so f["name"] raises
    | MissingName          // a field has no "name"
    | NameNotString        // f["name"].lower() on a value that is not a string
    | MissingValue         // an amount field has no "value"
    | MissingConfidence    // a discounted field has no "confidence"
    | ConfidenceNotNumber  // a confidence that `*=` or sum() cannot use

  datatype Result<+T> = Ok(value: T) | Err(error: Failure)

  /** What validate_output returns. */
  datatype Outcome = Accepted(data: Json) | Rejected(failure: Failure, raw: string)

  const AmountDiscount: real := 0.7

  predicate IsAmountName(name: string) {
    Contains(Lower(name), "amount")
  }

  /** The field is a dict with a string "name", so the loop can read it. */
  predicate HasNameText(f: Json) {
    f.Object? && "name" in f.members && f.members["name"].Str?
  }

  /** The loop discounts this field: its name contains "amount" in any
      case, and its "value" fails validate_amount. */
  predicate NeedsDiscount(f: Json, floatStr: real -> string) {
    HasNameText(f) && IsAmountName(f.members["name"].s) &&
    "value" in f.members && !AmountOk(f.members["value"], floatStr)
  }

  predicate HasNumericConfidence(f: Json) {
    f.Object? && "confidence" in f.members && NumberValue(f.members["confidence"]).Some?
  }

  /** The field with its confidence multiplied by 0.7 and nothing else changed. */
  function Discounted(f: Json): (r: Json)
    requires HasNumericConfidence(f)
    ensures r.Object? && r.members.Keys == f.members.Keys
    ensures forall k :: k in f.members && k != "confidence" ==> r.members[k] == f.members[k]
    ensures r.members["confidence"] == Float(AmountDiscount * NumberValue(f.members["confidence"]).value)
  {
    Object(f.members["confidence" := Float(AmountDiscount * NumberValue(f.members["confidence"]).value)])
  }

  /** One pass of the loop body on one field. */
  function CheckField(f: Json, floatStr: real -> string): (r: Result<Json>)
    ensures r.Ok? <==> HasNameText(f) &&
                       (IsAmountName(f.members["name"].s) ==> "value" in f.members) &&
                       (NeedsDiscount(f, floatStr) ==> HasNumericConfidence(f))
    ensures r.Ok? && NeedsDiscount(f, floatStr) ==> r.value == Discounted(f)
    ensures r.Ok? && !NeedsDiscount(f, floatStr) ==> r.value == f
  {
    if !f.Object? then Err(FieldNotObject)
    else if "name" !in f.members then Err(MissingName)
    else if !f.members["name"].Str? then Err(NameNotString)
    else if !IsAmountName(f.members["name"].s) then Ok(f)
    else if "value" !in f.members then Err(MissingValue)
    else if AmountOk(f.members["value"], floatStr) then Ok(f)
    else if "confidence" !in f.members then Err(MissingConfidence)
    else if NumberValue(f.members["confidence"]).None? then Err(ConfidenceNotNumber)
    else Ok(Discounted(f))
  }

  /** The outcomes of the loop body on each field, in order. */
  function FieldResults(fs: seq<Json>, floatStr: real -> string): (rs: seq<Result<Json>>)
    ensures |rs| == |fs| && forall i :: 0 <= i < |fs| ==> rs[i] == CheckField(fs[i], floatStr)
  {
    seq(|fs|, i requires 0 <= i < |fs| => CheckField(fs[i], floatStr))
  }

  /** The first failure among `rs`, or every value when none failed. */
  function FirstError(rs: seq<Result<Json>>): (r: Result<seq<Json>>)
    ensures r.Ok? <==> forall i :: 0 <= i < |rs| ==> rs[i].Ok?
    ensures r.Ok? ==> |r.value| == |rs| && forall i :: 0 <= i < |rs| ==> r.value[i] == rs[i].value
    ensures r.Err? ==> exists i :: 0 <= i < |rs| && rs[i] == Err(r.error) &&
                                   forall j :: 0 <= j < i ==> rs[j].Ok?
  {
    if rs == [] then Ok([])
    else
      var init := rs[..|rs| - 1];
      assert forall i :: 0 <= i < |init| ==> init[i] == rs[i];
      match FirstError(init)
      case Err(e) => Err(e)
      case Ok(done) =>
        match rs[|rs| - 1]
        case Err(e) => Err(e)
        case Ok(g) =>
          assert forall i :: 0 <= i < |init| ==> (done + [g])[i] == done[i];
          Ok(done + [g])
  }

  /** The loop over all fields; the first field that raises ends it. */
  function CheckFields(fs: seq<Json>, floatStr: real -> string): (r: Result<seq<Json>>)
    ensures r.Ok? <==> forall i :: 0 <= i < |fs| ==> CheckField(fs[i], floatStr).Ok?
    ensures r.Ok? ==> |r.value| == |fs| &&
                      forall i :: 0 <= i < |fs| ==> r.value[i] == CheckField(fs[i], floatStr).value
    ensures r.Err? ==> exists i :: 0 <= i < |fs| && CheckField(fs[i], floatStr) == Err(r.error) &&
                                   forall j :: 0 <= j < i ==> CheckField(fs[j], floatStr).Ok?
  {
    FirstError(FieldResults(fs, floatStr))
  }

  /** Once every field before index i passed and field i raises, the
      loop ends with field i's failure. */
  lemma CheckFieldsStopsAt(fs: seq<Json>, i: nat, floatStr: real -> string)
    requires i < |fs| && CheckField(fs[i], floatStr).Err?
    requires forall j :: 0 <= j < i ==> CheckField(fs[j], floatStr).Ok?
    ensures CheckFields(fs, floatStr) == Err(CheckField(fs[i], floatStr).error)
  {
    var r := CheckFields(fs, floatStr);
    var k :| 0 <= k < |fs| && CheckField(fs[k], floatStr) == Err(r.error) &&
             forall j :: 0 <= j < k ==> CheckField(fs[j], floatStr).Ok?;
    assert !(k < i) && !(i < k);
  }

  /** Iterating data["fields"]: a list yields its items; an empty dict or
      string yields nothing; a non-empty dict or string yields strings,
      on which f["name"] raises; anything else is not iterable. */
  function FieldList(v: Json): Result<seq<Json>> {
    match v
    case Array(items) => Ok(items)
    case Object(m) => if m == map[] then Ok([]) else Err(FieldNotObject)
    case Str(s) => if s == "" then Ok([]) else Err(FieldNotObject)
    case _ => Err(FieldsNotIterable)
  }

  /** The "fields" entry after the loop: the fields of a list are updated
      in place; an empty dict or string is left as it was. */
  function Replaced(v: Json, fields: seq<Json>): Json {
    if v.Array? then Array(fields) else v
  }

  /** The body of the try block on a decoded value. */
  function ValidateData(data: Json, floatStr: real -> string): Result<Json> {
    if !data.Object? then Err(NotAnObject)
    else if "fields" !in data.members then Err(MissingFields)
    else
      match FieldList(data.members["fields"])
      case Err(e) => Err(e)
      case Ok(fs) =>
        match CheckFields(fs, floatStr)
        case Err(e) => Err(e)
        case Ok(checked) =>
          match ComputeOverallConfidence(checked)
          case None => Err(ConfidenceNotNumber)
          case Some(c) =>
            Ok(Object(data.members["fields" := Replaced(data.members["fields"], checked)]
                                  ["overall_confidence" := Float(c)]))
  }

  /** validate_output as a function of the reply. */
  function Validated(raw: string, loads: Decoder, floatStr: real -> string): (r: Outcome)
    ensures r.Rejected? ==> r.raw == raw
    ensures loads(raw).None? ==> r == Rejected(NotJson, raw)
    ensures r.Accepted? <==> loads(raw).Some? && ValidateData(loads(raw).value, floatStr).Ok?
    ensures r.Accepted? ==> r.data == ValidateData(loads(raw).value, floatStr).value
    ensures r.Rejected? && loads(raw).Some? ==> r.failure == ValidateData(loads(raw).value, floatStr).error
  {
    match loads(raw)
    case None => Rejected(NotJson, raw)
    case Some(data) =>
      match ValidateData(data, floatStr)
      case Err(e) => Rejected(e, raw)
      case Ok(d) => Accepted(d)
  }

  /** validate_output: the loop rewrites the fields one by one, then the
      overall confidence is stored; any exception yields the error value. */
  method ValidateOutput(raw: string, loads: Decoder, floatStr: real -> string) returns (out: Outcome)
    ensures out == Validated(raw, loads, floatStr)
  {
    var parsed := loads(raw);
    if parsed.None? {
      return Rejected(NotJson, raw);
    }
    var data := parsed.value;
    if !data.Object? {
      return Rejected(NotAnObject, raw);
    }
    if "fields" !in data.members {
      return Rejected(MissingFields, raw);
    }
    var listed := FieldList(data.members["fields"]);
    if listed.Err? {
      return Rejected(listed.error, raw);
    }
    var original := listed.value;
    var fields := original;
    var i := 0;
    while i < |fields|
      invariant 0 <= i <= |fields| == |original|
      invariant forall j :: 0 <= j < i ==>
                  CheckField(original[j], floatStr).Ok? && fields[j] == CheckField(original[j], floatStr).value
      invariant forall j :: i <= j < |fields| ==> fields[j] == original[j]
    {
      var checked := CheckField(fields[i], floatStr);
      if checked.Err? {
        CheckFieldsStopsAt(original, i, floatStr);
        return Rejected(checked.error, raw);
      }
      fields := fields[i := checked.value];
      i := i + 1;
    }
    assert CheckFields(original, floatStr).value == fields;
    var overall := ComputeOverallConfidence(fields);
    if overall.None? {
      return Rejected(ConfidenceNotNumber, raw);
    }
    var members := data.members["fields" := Replaced(data.members["fields"], fields)];
    out := Accepted(Object(members["overall_confidence" := Float(overall.value)]));
  }

  // ---------------------------------------------------------------------
  // What validate_output promises
  // ---------------------------------------------------------------------

  /** The field passes the loop and its final confidence is a number. */
  predicate WellFormedField(f: Json, floatStr: real -> string) {
    && HasNameText(f)
    && (IsAmountName(f.members["name"].s) ==> "value" in f.members)
    && (NeedsDiscount(f, floatStr) ==> "confidence" in f.members)
    && ("confidence" in f.members ==> NumberValue(f.members["confidence"]).Some?)
  }

  /** A field is well formed exactly when it passes the loop body and
      its confidence afterwards can be summed. */
  lemma WellFormedIffPasses(f: Json, floatStr: real -> string)
    ensures WellFormedField(f, floatStr) <==>
            CheckField(f, floatStr).Ok? && ConfidenceOf(CheckField(f, floatStr).value).Some?
  {
    var c := CheckField(f, floatStr);
    if c.Ok? && NeedsDiscount(f, floatStr) {
      assert c.value.members["confidence"].Float?;
    }
  }

  /** A decoded reply is accepted exactly when it is a dict with an
      iterable "fields" entry all of whose fields are well formed. */
  lemma {:induction false} AcceptedIffWellFormed(data: Json, floatStr: real -> string)
    ensures ValidateData(data, floatStr).Ok? <==>
      data.Object? && "fields" in data.members && FieldList(data.members["fields"]).Ok? &&
      forall i :: 0 <= i < |FieldList(data.members["fields"]).value| ==>
        WellFormedField(FieldList(data.members["fields"]).value[i], floatStr)
  {
    if data.Object? && "fields" in data.members && FieldList(data.members["fields"]).Ok? {
      var fs := FieldList(data.members["fields"]).value;
      var r := CheckFields(fs, floatStr);
      forall i | 0 <= i < |fs|
        ensures WellFormedField(fs[i], floatStr) <==>
                CheckField(fs[i], floatStr).Ok? && ConfidenceOf(CheckField(fs[i], floatStr).value).Some?
      {
        WellFormedIffPasses(fs[i], floatStr);
      }
      if r.Ok? {
        assert forall i :: 0 <= i < |fs| ==> r.value[i] == CheckField(fs[i], floatStr).value;
      }
    }
  }

  /** A field that passes the loop is discounted by 0.7 when its name
      mentions "amount" and its value fails the amount check, and is
      otherwise returned unchanged. */
  lemma CheckedFieldsDiscountedOnce(fs: seq<Json>, floatStr: real -> string)
    requires CheckFields(fs, floatStr).Ok?
    ensures var after := CheckFields(fs, floatStr).value;
            && |after| == |fs|
            && (forall i :: 0 <= i < |fs| && NeedsDiscount(fs[i], floatStr) ==>
                  HasNumericConfidence(fs[i]) && after[i] == Discounted(fs[i]))
            && (forall i :: 0 <= i < |fs| && !NeedsDiscount(fs[i], floatStr) ==> after[i] == fs[i])
  {
    var after := CheckFields(fs, floatStr).value;
    forall i | 0 <= i < |fs|
      ensures NeedsDiscount(fs[i], floatStr) ==> HasNumericConfidence(fs[i]) && after[i] == Discounted(fs[i])
      ensures !NeedsDiscount(fs[i], floatStr) ==> after[i] == fs[i]
    {
      assert CheckField(fs[i], floatStr).Ok? && after[i] == CheckField(fs[i], floatStr).value;
    }
  }

  /** What an accepted record is made of: its iterable "fields" entry
      passed the loop, the confidences after the loop are numbers, and
      the result is the record with "fields" replaced and
      "overall_confidence" stored. */
  lemma AcceptedShape(data: Json, floatStr: real -> string)
    requires ValidateData(data, floatStr).Ok?
    ensures data.Object? && "fields" in data.members && FieldList(data.members["fields"]).Ok?
    ensures var checked := CheckFields(FieldList(data.members["fields"]).value, floatStr);
            && checked.Ok?
            && ComputeOverallConfidence(checked.value).Some?
            && ValidateData(data, floatStr).value ==
               Object(data.members["fields" := Replaced(data.members["fields"], checked.value)]
                                  ["overall_confidence" := Float(ComputeOverallConfidence(checked.value).value)])
  {
  }

  /** On success every field keeps its place; a field is discounted by 0.7
      exactly once when its name mentions "amount" and its value fails
      the amount check, and is otherwise untouched; the overall
      confidence is the mean of the confidences after the discount. */
  lemma {:induction false} AcceptedFieldsDiscountedOnce(data: Json, floatStr: real -> string)
    requires ValidateData(data, floatStr).Ok?
    ensures data.Object? && "fields" in data.members && FieldList(data.members["fields"]).Ok?
    ensures var out := ValidateData(data, floatStr).value;
            out.Object? && "fields" in out.members && FieldList(out.members["fields"]).Ok?
    ensures var before := FieldList(data.members["fields"]).value;
            var after := FieldList(ValidateData(data, floatStr).value.members["fields"]).value;
            && |after| == |before|
            && (forall i :: 0 <= i < |before| && NeedsDiscount(before[i], floatStr) ==>
                  HasNumericConfidence(before[i]) && after[i] == Discounted(before[i]))
            && (forall i :: 0 <= i < |before| && !NeedsDiscount(before[i], floatStr) ==> after[i] == before[i])
            && Confidences(after).Some?
            && ValidateData(data, floatStr).value.members["overall_confidence"] == Float(Mean(Confidences(after).value))
  {
    AcceptedShape(data, floatStr);
    var fs := FieldList(data.members["fields"]).value;
    var checked := CheckFields(fs, floatStr).value;
    var out := ValidateData(data, floatStr).value;
    assert out.members["fields"] == Replaced(data.members["fields"], checked);
    assert FieldList(out.members["fields"]) == Ok(checked) by {
      if !data.members["fields"].Array? { assert fs == [] && checked == []; }
    }
    CheckedFieldsDiscountedOnce(fs, floatStr);
    var cs := Confidences(checked);
    if checked == [] {
      assert cs == Some([]);
    }
  }

  /** An accepted record keeps every key it had, gains
      "overall_confidence", and changes no entry besides those two. */
  lemma AcceptedKeepsOtherKeys(data: Json, floatStr: real -> string)
    requires ValidateData(data, floatStr).Ok?
    ensures data.Object?
    ensures var out := ValidateData(data, floatStr).value;
            out.Object? && out.members.Keys == data.members.Keys + {"overall_confidence"} &&
            forall k :: k in data.members && k != "fields" && k != "overall_confidence" ==> out.members[k] == data.members[k]
  {
    AcceptedShape(data, floatStr);
    var m := data.members;
    var checked := CheckFields(FieldList(m["fields"]).value, floatStr).value;
    var stored := m["fields" := Replaced(m["fields"], checked)]
                   ["overall_confidence" := Float(ComputeOverallConfidence(checked).value)];
    assert ValidateData(data, floatStr).value.members == stored;
    assert stored.Keys == m.Keys + {"overall_confidence"};
  }

  /** A reply that is not JSON, or whose record lacks "fields", or one of
      whose fields lacks a "name", is rejected with the reply verbatim. */
  lemma RejectionExamples(raw: string, loads: Decoder, floatStr: real -> string)
    ensures loads(raw).None? ==> Validated(raw, loads, floatStr) == Rejected(NotJson, raw)
    ensures loads(raw).Some? && loads(raw).value.Object? && "fields" !in loads(raw).value.members ==>
            Validated(raw, loads, floatStr) == Rejected(MissingFields, raw)
    ensures loads(raw) == Some(Object(map["fields" := Array([Object(map[])])])) ==>
            Validated(raw, loads, floatStr) == Rejected(MissingName, raw)
  {
    if loads(raw) == Some(Object(map["fields" := Array([Object(map[])])])) {
      var fs := [Object(map[])];
      assert CheckField(fs[0], floatStr) == Err(MissingName);
      CheckFieldsStopsAt(fs, 0, floatStr);
    }
  }

  lemma AmountNameAt(name: string, i: nat)
    requires i + 6 <= |name| && Lower(name)[i..i + 6] == "amount"
    ensures IsAmountName(name)
  {
    assert OccursAt(Lower(name), "amount", i);
  }

  lemma TotalAmountIsAmountName(name: string)
    requires name == "Total Amount"
    ensures IsAmountName(name)
  {
    var low := Lower(name);
    assert low[6] == 'a' && low[7] == 'm' && low[8] == 'o' && low[9] == 'u' && low[10] == 'n' && low[11] == 't';
    assert low[6..12] == "amount";
    AmountNameAt(name, 6);
  }

  /** An amount field whose value fails the check and whose confidence
      is a number comes out of the loop body discounted. */
  lemma DiscountApplies(f: Json, floatStr: real -> string)
    requires HasNameText(f) && IsAmountName(f.members["name"].s) && "value" in f.members
    requires !AmountOk(f.members["value"], floatStr) && HasNumericConfidence(f)
    ensures CheckField(f, floatStr) == Ok(Discounted(f))
  {
  }

  /** A total with three decimals loses 30% of its confidence once. */
  lemma TotalAmountDiscounted(f: Json, floatStr: real -> string)
    requires f.Object? && "name" in f.members && "value" in f.members && "confidence" in f.members
    requires f.members["name"] == Str("Total Amount") && f.members["value"] == Str("12.500")
    requires f.members["confidence"] == Float(0.9)
    ensures CheckField(f, floatStr) == Ok(Object(f.members["confidence" := Float(0.63)]))
  {
    assert IsAmountName(f.members["name"].s) by { TotalAmountIsAmountName(f.members["name"].s); }
    ThreeDecimalsFail(f.members["value"], floatStr);
    DiscountApplies(f, floatStr);
    assert NumberValue(f.members["confidence"]) == Some(0.9);
    SeventyPercentOfNinety();
  }

  /** The text "12.500" fails the amount check. */
  lemma ThreeDecimalsFail(v: Json, floatStr: real -> string)
    requires v == Str("12.500")
    ensures !AmountOk(v, floatStr)
  {
    RejectedAmounts();
  }

  lemma SeventyPercentOfNinety()
    ensures AmountDiscount * 0.9 == 0.63
  {
  }

  /** A total with two decimals is left as it is. */
  lemma TotalAmountKept(f: Json, floatStr: real -> string)
    requires f.Object? && "name" in f.members && "value" in f.members
    requires f.members["name"] == Str("Total Amount") && f.members["value"] == Str("12.50")
    ensures CheckField(f, floatStr) == Ok(f)
  {
    TotalAmountIsAmountName(f.members["name"].s);
    assert ValidateAmount("12.50") by { AcceptedAmounts(); }
    assert AmountOk(f.members["value"], floatStr);
  }
}
