/**
  The composite confidence score: up to five weighted components, each
  present only when the data it needs exists, averaged with weights
  renormalised over the components present and clamped to [0, 1].
 */
module Confidence {
  import opened Json
  import opened Text

  datatype ScoreComponent = ScoreComponent(name: string, weight: real, value: real, description: string := "")

  /** One row of get_score_breakdown. */
  datatype BreakdownEntry = BreakdownEntry(name: string, weight: real, value: real, weightedValue: real, description: string)

  /** The parts of an extraction result that calculate_score reads. */
  datatype ExtractionResult = ExtractionResult(
    ocrConfidence: Option<real>,        // metadata["ocr_confidence"], if present
    requiredFields: seq<string>,        // metadata["required_fields"], [] if absent
    extractedFields: set<string>,       // the keys of extracted_data
    validationErrors: seq<seq<string>>) // the error lists of validation["errors"], in order

  const OcrConfidence := "ocr_confidence"
  const FieldPresence := "field_presence"
  const Validation := "validation"
  const DataType := "data_type"
  const PatternMatch := "pattern_match"

  /** The weight table has an entry for each of the five components. */
  predicate HasAllWeights(weights: map<string, real>) {
    OcrConfidence in weights && FieldPresence in weights && Validation in weights &&
    DataType in weights && PatternMatch in weights
  }

  const DefaultWeights: map<string, real> :=
    map[OcrConfidence := 0.3, FieldPresence := 0.2, Validation := 0.3, DataType := 0.1, PatternMatch := 0.1]

  /** The OCR confidence assumed when the metadata gives none. */
  const DefaultOcrConfidence: real := 0.8

  const OcrDescription := "Confidence of the OCR text extraction"
  const PresenceDescription := "Proportion of required fields that were extracted"
  const ValidationDescription := "Proportion of fields that passed validation"
  const DataTypeDescription := "Proportion of fields with correct data types"
  const PatternDescription := "Proportion of fields that matched expected patterns"

  /** The value clamped into [0, 1]. */
  function Clamp01(x: real): (r: real)
    ensures 0.0 <= r <= 1.0
    ensures 0.0 <= x <= 1.0 ==> r == x
    ensures x < 0.0 ==> r == 0.0
    ensures x > 1.0 ==> r == 1.0
  {
    var upper := if 1.0 < x then 1.0 else x;
    if 0.0 < upper then upper else 0.0
  }

  /** The total weight of the components. */
  function TotalWeight(cs: seq<ScoreComponent>): real {
    if cs == [] then 0.0 else cs[0].weight + TotalWeight(cs[1..])
  }

  /** The sum over the components of weight times value. */
  function WeightedSum(cs: seq<ScoreComponent>): real {
    if cs == [] then 0.0 else cs[0].weight * cs[0].value + WeightedSum(cs[1..])
  }

  /** The weighted average before clamping; 0.0 when no weight is present. */
  function Composite(cs: seq<ScoreComponent>): real {
    var total := TotalWeight(cs);
    if total > 0.0 then WeightedSum(cs) / total else 0.0
  }

  /** How many entries of `required` name an extracted field (duplicates count each time). */
  function CountPresent(required: seq<string>, present: set<string>): (n: nat)
    ensures n <= |required|
  {
    if required == [] then 0
    else (if required[0] in present then 1 else 0) + CountPresent(required[1..], present)
  }

  /** How many error lists have an entry that `isKind` recognises. */
  function CountLists(errors: seq<seq<string>>, isKind: string -> bool): (n: nat)
    ensures n <= |errors|
  {
    if errors == [] then 0
    else (if exists i :: 0 <= i < |errors[0]| && isKind(errors[0][i]) then 1 else 0)
         + CountLists(errors[1..], isKind)
  }

  predicate IsTypeError(err: string) {
    Contains(err, "Expected type")
  }

  predicate IsPatternError(err: string) {
    Contains(Lower(err), "pattern")
  }

  function OcrValue(er: ExtractionResult): real {
    er.ocrConfidence.GetOr(DefaultOcrConfidence)
  }

  function PresenceValue(er: ExtractionResult): real
    requires |er.requiredFields| > 0
  {
    CountPresent(er.requiredFields, er.extractedFields) as real / |er.requiredFields| as real
  }

  function ValidationValue(er: ExtractionResult): real
    requires |er.extractedFields| > 0
  {
    (|er.extractedFields| - |er.validationErrors|) as real / |er.extractedFields| as real
  }

  function DataTypeValue(er: ExtractionResult): real
    requires |er.extractedFields| > 0
  {
    1.0 - CountLists(er.validationErrors, IsTypeError) as real / |er.extractedFields| as real
  }

  function PatternValue(er: ExtractionResult): real
    requires |er.extractedFields| > 0
  {
    1.0 - CountLists(er.validationErrors, IsPatternError) as real / |er.extractedFields| as real
  }

  /** Position of a component name in the fixed order. */
  function Rank(name: string): nat {
    if name == OcrConfidence then 0
    else if name == FieldPresence then 1
    else if name == Validation then 2
    else if name == DataType then 3
    else if name == PatternMatch then 4
    else 5
  }

  predicate HasComponent(cs: seq<ScoreComponent>, name: string) {
    exists i :: 0 <= i < |cs| && cs[i].name == name
  }

  /** The OCR component, always present. */
  function OcrPart(weights: map<string, real>, er: ExtractionResult): seq<ScoreComponent>
    requires OcrConfidence in weights
  {
    [ScoreComponent(OcrConfidence, weights[OcrConfidence], OcrValue(er), OcrDescription)]
  }

  /** The field-presence component, present when required fields are listed. */
  function PresencePart(weights: map<string, real>, er: ExtractionResult): seq<ScoreComponent>
    requires FieldPresence in weights
  {
    if |er.requiredFields| > 0 then
      [ScoreComponent(FieldPresence, weights[FieldPresence], PresenceValue(er), PresenceDescription)]
    else []
  }

  /** The three per-field components, present when any field was extracted. */
  function PerFieldPart(weights: map<string, real>, er: ExtractionResult): seq<ScoreComponent>
    requires Validation in weights && DataType in weights && PatternMatch in weights
  {
    if |er.extractedFields| > 0 then
      [ScoreComponent(Validation, weights[Validation], ValidationValue(er), ValidationDescription),
       ScoreComponent(DataType, weights[DataType], DataTypeValue(er), DataTypeDescription),
       ScoreComponent(PatternMatch, weights[PatternMatch], PatternValue(er), PatternDescription)]
    else []
  }

  /** The components calculate_score builds for one extraction result. */
  function ScoreComponents(weights: map<string, real>, er: ExtractionResult): seq<ScoreComponent>
    requires HasAllWeights(weights)
  {
    OcrPart(weights, er) + PresencePart(weights, er) + PerFieldPart(weights, er)
  }

  /** The OCR component comes first; the others follow in the fixed order,
      each present exactly when the data it needs exists, each with the
      table's weight and the value its data gives. */
  lemma ScoreComponentsShape(weights: map<string, real>, er: ExtractionResult)
    requires HasAllWeights(weights)
    ensures var cs := ScoreComponents(weights, er);
            && 1 <= |cs| <= 5 && cs[0].name == OcrConfidence && cs[0].value == OcrValue(er)
            && (forall i, j :: 0 <= i < j < |cs| ==> Rank(cs[i].name) < Rank(cs[j].name))
            && (forall i :: 0 <= i < |cs| ==> Rank(cs[i].name) < 5 && cs[i].weight == weights[cs[i].name])
            && (HasComponent(cs, FieldPresence) <==> |er.requiredFields| > 0)
            && (HasComponent(cs, Validation) <==> |er.extractedFields| > 0)
            && (HasComponent(cs, DataType) <==> |er.extractedFields| > 0)
            && (HasComponent(cs, PatternMatch) <==> |er.extractedFields| > 0)
    ensures var cs := ScoreComponents(weights, er);
            forall i :: 0 <= i < |cs| ==>
              && (cs[i].name == FieldPresence ==> |er.requiredFields| > 0 && cs[i].value == PresenceValue(er))
              && (cs[i].name == Validation ==> |er.extractedFields| > 0 && cs[i].value == ValidationValue(er))
              && (cs[i].name == DataType ==> |er.extractedFields| > 0 && cs[i].value == DataTypeValue(er))
              && (cs[i].name == PatternMatch ==> |er.extractedFields| > 0 && cs[i].value == PatternValue(er))
  {
    var cs := ScoreComponents(weights, er);
    assert |er.requiredFields| > 0 ==> cs[1].name == FieldPresence;
    assert |er.extractedFields| > 0 ==> cs[|cs| - 3].name == Validation && cs[|cs| - 2].name == DataType &&
                                        cs[|cs| - 1].name == PatternMatch;
  }

  /** The row of one component, with its weight times its value. */
  function Row(c: ScoreComponent): BreakdownEntry {
    BreakdownEntry(c.name, c.weight, c.value, c.weight * c.value, c.description)
  }

  /** One row per component, in order. */
  function Breakdown(cs: seq<ScoreComponent>): (rows: seq<BreakdownEntry>)
    ensures |rows| == |cs|
    ensures forall i :: 0 <= i < |cs| ==>
              rows[i].name == cs[i].name && rows[i].weight == cs[i].weight && rows[i].value == cs[i].value &&
              rows[i].weightedValue == cs[i].weight * cs[i].value && rows[i].description == cs[i].description
  {
    seq(|cs|, i requires 0 <= i < |cs| => Row(cs[i]))
  }

  function SumWeightedValues(rows: seq<BreakdownEntry>): real {
    if rows == [] then 0.0 else rows[0].weightedValue + SumWeightedValues(rows[1..])
  }

  /** The breakdown accounts for the score: its weighted values add up to
      the numerator of the weighted average. */
  lemma {:induction false} BreakdownExplainsScore(cs: seq<ScoreComponent>)
    ensures SumWeightedValues(Breakdown(cs)) == WeightedSum(cs)
  {
    if cs != [] {
      BreakdownExplainsScore(cs[1..]);
      assert Breakdown(cs)[1..] == Breakdown(cs[1..]);
    }
  }

  // ---------------------------------------------------------------------
  // The scorer object
  // ---------------------------------------------------------------------

  class ConfidenceScorer {
    var components: seq<ScoreComponent>
    var weights: map<string, real>

    /** The weight table has exactly the five component names, each weight in [0, 1]. */
    ghost predicate Valid()
      reads this`weights
    {
      && HasAllWeights(weights) && (forall n :: n in weights ==> Rank(n) < 5)
      && (forall n :: n in weights ==> 0.0 <= weights[n] <= 1.0)
    }

    constructor ()
      ensures Valid()
      ensures components == [] && weights == DefaultWeights
    {
      components := [];
      weights := DefaultWeights;
    }

    /** calculate_score: rebuilds the components from this result alone
        and returns their clamped weighted average. */
    method CalculateScore(er: ExtractionResult) returns (score: real)
      requires Valid()
      modifies this`components
      ensures Valid()
      ensures components == ScoreComponents(weights, er)
      ensures score == Clamp01(Composite(components))
    {
      components := [];
      AddOcrComponent(er);
      AddPresenceComponent(er);
      AddPerFieldComponents(er);

      var totalWeight := TotalWeight(components);
      var finalScore := 0.0;
      if totalWeight > 0.0 {
        finalScore := WeightedSum(components) / totalWeight;
      }
      score := Clamp01(finalScore);
    }

    /** The OCR section of calculate_score: always adds one component,
        with 0.8 when the metadata gives no OCR confidence. */
    method AddOcrComponent(er: ExtractionResult)
      requires Valid()
      modifies this`components
      ensures components == old(components) + OcrPart(weights, er)
    {
      AddComponent(OcrConfidence, weights[OcrConfidence], er.ocrConfidence.GetOr(DefaultOcrConfidence),
                   OcrDescription);
    }

    /** The field-presence section: the share of required names that were
        extracted, added only when required names are listed. */
    method AddPresenceComponent(er: ExtractionResult)
      requires Valid()
      modifies this`components
      ensures components == old(components) + PresencePart(weights, er)
    {
      var required := er.requiredFields;
      if |required| > 0 {
        var presentFields := CountPresent(required, er.extractedFields);
        var presence := presentFields as real / |required| as real;
        AddComponent(FieldPresence, weights[FieldPresence], presence, PresenceDescription);
      }
    }

    /** The validation, data-type and pattern sections: three components,
        added only when some field was extracted. The error counts are
        taken either way. */
    method AddPerFieldComponents(er: ExtractionResult)
      requires Valid()
      modifies this`components
      ensures components == old(components) + PerFieldPart(weights, er)
    {
      var validationErrors := er.validationErrors;
      var totalFields := |er.extractedFields|;
      if totalFields > 0 {
        var validatedFields := totalFields - |validationErrors|;
        var validationScore := validatedFields as real / totalFields as real;
        AddComponent(Validation, weights[Validation], validationScore, ValidationDescription);
      }

      var typeErrors := CountLists(validationErrors, IsTypeError);
      if totalFields > 0 {
        var typeConsistency := 1.0 - typeErrors as real / totalFields as real;
        AddComponent(DataType, weights[DataType], typeConsistency, DataTypeDescription);
      }

      var patternErrors := CountLists(validationErrors, IsPatternError);
      if totalFields > 0 {
        var patternScore := 1.0 - patternErrors as real / totalFields as real;
        AddComponent(PatternMatch, weights[PatternMatch], patternScore, PatternDescription);
      }
    }

    /** get_score_breakdown: one row per current component, in order. */
    function GetScoreBreakdown(): (rows: seq<BreakdownEntry>)
      reads this
      ensures |rows| == |components|
      ensures forall i :: 0 <= i < |rows| ==>
                rows[i].name == components[i].name && rows[i].weight == components[i].weight &&
                rows[i].value == components[i].value &&
                rows[i].weightedValue == components[i].weight * components[i].value &&
                rows[i].description == components[i].description
      ensures SumWeightedValues(rows) == WeightedSum(components)
    {
      BreakdownExplainsScore(components);
      Breakdown(components)
    }

    /** _add_component */
    method AddComponent(name: string, weight: real, value: real, description: string := "")
      modifies this`components
      ensures components == old(components) + [ScoreComponent(name, weight, value, description)]
    {
      components := components + [ScoreComponent(name, weight, value, description)];
    }

    /** adjust_weights: each known name gets its new weight clamped to
        [0, 1]; unknown names are ignored; other weights stay. */
    method AdjustWeights(newWeights: map<string, real>)
      requires Valid()
      modifies this`weights
      ensures Valid()
      ensures weights.Keys == old(weights).Keys
      ensures forall n :: n in weights && n in newWeights ==> weights[n] == Clamp01(newWeights[n])
      ensures forall n :: n in weights && n !in newWeights ==> weights[n] == old(weights)[n]
    {
      var pending := newWeights.Keys;
      while pending != {}
        invariant pending <= newWeights.Keys
        invariant Valid()
        invariant weights.Keys == old(weights).Keys
        invariant forall n :: n in weights && n in newWeights && n !in pending ==> weights[n] == Clamp01(newWeights[n])
        invariant forall n :: n in weights && (n !in newWeights || n in pending) ==> weights[n] == old(weights)[n]
        decreases pending
      {
        var component :| component in pending;
        if component in weights {
          weights := weights[component := Clamp01(newWeights[component])];
        }
        pending := pending - {component};
      }
    }
  }

  // ---------------------------------------------------------------------
  // What the score promises
  // ---------------------------------------------------------------------

  /** A ratio of a part to a positive whole lies in [0, 1]. */
  lemma RatioInUnitRange(a: real, b: real)
    requires 0.0 <= a <= b && b > 0.0
    ensures 0.0 <= a / b <= 1.0
  {
    var q := a / b;
    assert q * b == a;
  }

  /** Scaling both sides of a ratio by a positive factor changes neither
      its value nor which side of 0 the denominator lies on. */
  lemma QuotientScale(s: real, t: real, c: real)
    requires c > 0.0
    ensures t > 0.0 ==> c * t > 0.0 && (c * s) / (c * t) == s / t
    ensures t <= 0.0 ==> c * t <= 0.0
  {
    if t > 0.0 {
      var q := s / t;
      assert q * t == s;
      assert q * (c * t) == c * s;
    }
  }

  lemma ProductInRange(w: real, v: real)
    requires 0.0 <= w && 0.0 <= v <= 1.0
    ensures 0.0 <= w * v <= w
  {
    assert w * (1.0 - v) >= 0.0;
  }

  lemma StepBounds(w: real, v: real, s: real, t: real)
    requires 0.0 <= w && 0.0 <= v <= 1.0 && 0.0 <= s <= t
    ensures 0.0 <= w * v + s <= w + t
  {
    ProductInRange(w, v);
  }

  /** With non-negative weights and values in [0, 1], the weighted sum
      lies between 0 and the total weight. */
  lemma {:induction false} WeightedSumBounds(cs: seq<ScoreComponent>)
    requires forall i :: 0 <= i < |cs| ==> 0.0 <= cs[i].weight && 0.0 <= cs[i].value <= 1.0
    ensures 0.0 <= WeightedSum(cs) <= TotalWeight(cs)
  {
    if cs != [] {
      assert forall i :: 0 <= i < |cs| - 1 ==> cs[1..][i] == cs[i + 1];
      WeightedSumBounds(cs[1..]);
      assert TotalWeight(cs) == cs[0].weight + TotalWeight(cs[1..]);
      assert WeightedSum(cs) == cs[0].weight * cs[0].value + WeightedSum(cs[1..]);
      StepBounds(cs[0].weight, cs[0].value, WeightedSum(cs[1..]), TotalWeight(cs[1..]));
    }
  }

  /** Hence the weighted average of such components lies in [0, 1]. */
  lemma CompositeInUnitRange(cs: seq<ScoreComponent>)
    requires forall i :: 0 <= i < |cs| ==> 0.0 <= cs[i].weight && 0.0 <= cs[i].value <= 1.0
    ensures 0.0 <= Composite(cs) <= 1.0
  {
    WeightedSumBounds(cs);
    if TotalWeight(cs) > 0.0 {
      RatioInUnitRange(WeightedSum(cs), TotalWeight(cs));
    }
  }

  /** The components with every weight multiplied by `c`. */
  function Scaled(cs: seq<ScoreComponent>, c: real): seq<ScoreComponent> {
    if cs == [] then [] else [cs[0].(weight := c * cs[0].weight)] + Scaled(cs[1..], c)
  }

  /** Scaling every weight scales the total weight by the same factor. */
  lemma {:induction false} ScaledTotalWeight(cs: seq<ScoreComponent>, c: real)
    ensures TotalWeight(Scaled(cs, c)) == c * TotalWeight(cs)
  {
    if cs != [] {
      var sc, w, tt := Scaled(cs, c), cs[0].weight, TotalWeight(cs[1..]);
      ScaledTotalWeight(cs[1..], c);
      assert sc[1..] == Scaled(cs[1..], c) && sc[0].weight == c * w;
      assert TotalWeight(sc) == c * w + c * tt;
      Distributes(c, w, tt);
    }
  }

  /** Scaling every weight scales the weighted sum by the same factor. */
  lemma {:induction false} ScaledWeightedSum(cs: seq<ScoreComponent>, c: real)
    ensures WeightedSum(Scaled(cs, c)) == c * WeightedSum(cs)
  {
    if cs != [] {
      var sc, w, v, ts := Scaled(cs, c), cs[0].weight, cs[0].value, WeightedSum(cs[1..]);
      ScaledWeightedSum(cs[1..], c);
      assert sc[1..] == Scaled(cs[1..], c) && sc[0].weight == c * w && sc[0].value == v;
      assert WeightedSum(sc) == (c * w) * v + c * ts;
      Associates(c, w, v);
      Distributes(c, w * v, ts);
    }
  }

  lemma Distributes(c: real, a: real, b: real)
    ensures c * a + c * b == c * (a + b)
  {
  }

  lemma Associates(c: real, w: real, v: real)
    ensures (c * w) * v == c * (w * v)
  {
  }

  /** Scaling numerator and denominator by the same positive factor keeps
      the guarded ratio. */
  lemma RatioScale(s: real, t: real, c: real, s2: real, t2: real)
    requires c > 0.0 && s2 == c * s && t2 == c * t
    ensures (if t2 > 0.0 then s2 / t2 else 0.0) == (if t > 0.0 then s / t else 0.0)
  {
    QuotientScale(s, t, c);
  }

  /** Only the ratios of the weights matter: scaling every weight by the
      same positive factor leaves the score unchanged, so the weights need
      not add up to 1. */
  lemma CompositeScaleInvariant(cs: seq<ScoreComponent>, c: real)
    requires c > 0.0
    ensures Composite(Scaled(cs, c)) == Composite(cs)
  {
    var sc := Scaled(cs, c);
    ScaledTotalWeight(cs, c);
    ScaledWeightedSum(cs, c);
    RatioScale(WeightedSum(cs), TotalWeight(cs), c, WeightedSum(sc), TotalWeight(sc));
  }

  /** Every component value lies in [0, 1] when the OCR confidence does
      and there are no more error lists than extracted fields. */
  lemma ComponentValuesInUnitRange(weights: map<string, real>, er: ExtractionResult)
    requires HasAllWeights(weights)
    requires 0.0 <= OcrValue(er) <= 1.0
    requires |er.validationErrors| <= |er.extractedFields|
    ensures forall i :: 0 <= i < |ScoreComponents(weights, er)| ==>
              0.0 <= ScoreComponents(weights, er)[i].value <= 1.0
  {
    var required, n := er.requiredFields, |er.extractedFields|;
    if |required| > 0 {
      RatioInUnitRange(CountPresent(required, er.extractedFields) as real, |required| as real);
    }
    if n > 0 {
      RatioInUnitRange(CountLists(er.validationErrors, IsTypeError) as real, n as real);
      RatioInUnitRange(CountLists(er.validationErrors, IsPatternError) as real, n as real);
      RatioInUnitRange((n - |er.validationErrors|) as real, n as real);
    }
  }

  /** Under those conditions the clamp never acts: the score is exactly
      the renormalised weighted average. */
  lemma ClampIsInactive(weights: map<string, real>, er: ExtractionResult)
    requires HasAllWeights(weights) && forall n :: n in weights ==> 0.0 <= weights[n]
    requires 0.0 <= OcrValue(er) <= 1.0
    requires |er.validationErrors| <= |er.extractedFields|
    ensures Clamp01(Composite(ScoreComponents(weights, er))) == Composite(ScoreComponents(weights, er))
  {
    var cs := ScoreComponents(weights, er);
    ComponentValuesInUnitRange(weights, er);
    CompositeInUnitRange(cs);
  }

  /** Two components of weights 0.3 and 0.2 with values 0.8 and 1.0 give (0.24 + 0.2) / 0.5 = 0.88. */
  lemma TwoComponentExample()
    ensures Composite([ScoreComponent(OcrConfidence, 0.3, 0.8), ScoreComponent(FieldPresence, 0.2, 1.0)]) == 0.88
  {
    var cs := [ScoreComponent(OcrConfidence, 0.3, 0.8), ScoreComponent(FieldPresence, 0.2, 1.0)];
    var tail := cs[1..];
    assert tail == [cs[1]] && tail[1..] == [];
    assert TotalWeight(tail) == 0.2 && WeightedSum(tail) == 0.2;
    assert TotalWeight(cs) == 0.3 + 0.2;
    assert WeightedSum(cs) == 0.3 * 0.8 + 0.2;
    assert 0.44 / 0.5 == 0.88;
  }

  /** Two extracted fields without errors, no OCR confidence and no
      required-field list: field presence drops out and the other four
      components blend to (0.3*0.8 + 0.3 + 0.1 + 0.1) / 0.8. */
  lemma NoRequiredFieldsExample()
    ensures var er := ExtractionResult(None, [], {"Total Amount", "Date"}, []);
            var cs := ScoreComponents(DefaultWeights, er);
            && !HasComponent(cs, FieldPresence)
            && Clamp01(Composite(cs)) == 0.925
  {
    var er := ExtractionResult(None, [], {"Total Amount", "Date"}, []);
    assert |er.extractedFields| == 2;
    assert CountLists(er.validationErrors, IsTypeError) == 0;
    assert CountLists(er.validationErrors, IsPatternError) == 0;
    assert ValidationValue(er) == 1.0 && DataTypeValue(er) == 1.0 && PatternValue(er) == 1.0;
    var cs := ScoreComponents(DefaultWeights, er);
    assert cs == [ScoreComponent(OcrConfidence, 0.3, 0.8, OcrDescription),
                  ScoreComponent(Validation, 0.3, 1.0, ValidationDescription),
                  ScoreComponent(DataType, 0.1, 1.0, DataTypeDescription),
                  ScoreComponent(PatternMatch, 0.1, 1.0, PatternDescription)];
    assert cs[1..][1..][1..][1..] == [];
    assert TotalWeight(cs[1..][1..][1..]) == 0.1 && WeightedSum(cs[1..][1..][1..]) == 0.1;
    assert TotalWeight(cs[1..][1..]) == 0.2 && WeightedSum(cs[1..][1..]) == 0.2;
    assert TotalWeight(cs[1..]) == 0.5 && WeightedSum(cs[1..]) == 0.5;
    assert TotalWeight(cs) == 0.8 && WeightedSum(cs) == 0.74;
    assert 0.74 / 0.8 == 0.925;
  }
}
