# Document-Extractor post-extraction engine, modelled in Dafny

Document-Extractor reads a document (image or PDF) and runs OCR on it. It
then asks a language model for the document's fields as JSON. This project
models what happens after the model has answered:

- **Parsing** (`parsing.dfy`). The reply is decoded defensively: first the
  whole text is tried, then the stretch from the first `{` to the last `}`.
  If neither decodes, the text comes back under the key `"raw"`.
- **Validator** (`validator.dfy`). This is the validation pass:
  - an amount field whose value is not a plain decimal amount loses 30% of
    its confidence;
  - the overall confidence becomes the mean of the field confidences;
  - every failure turns into an error value that keeps the reply verbatim.

  `validate_output` is a method with a loop over the fields. It is proved
  equal to the function `Validated`. The lemmas about what an accepted
  reply holds are stated about `ValidateData`, the body of the try block,
  and `Validated`'s contract ties its outcome to `ValidateData`.
- **Confidence** (`confidence.dfy`). `ConfidenceScorer` is a class with
  mutable fields. `weights` is the weight table and `components` is
  rebuilt on each call. The score is a weighted average of up to five
  components, each present only when its data exists. The weights are
  renormalised over the components that are present, and the result is
  clamped to [0, 1].
- **ExtractionModels** (`models.dfy`). These are the output records, with
  their defaults.
- **Router** (`router.dfy`). The document router tries an ordered table of
  detectors and returns the first match, or `"unknown"` if none matches.

`json.dfy` holds the shared definitions:

- the decoded-JSON datatype;
- the decoder type;
- ASCII lower-casing;
- substring search.

Two things are parameters rather than definitions:

- `json.loads` is the parameter `loads: string -> Option<Json>`.
- CPython's `str()` of a float is the parameter `floatStr`.

Integers and floats are kept apart, because `str()` renders them
differently. Arithmetic is on `real`.

## Model

| member | source | states |
|---|---|---|
| Json.NumberValue | validator.py:10-17 | ints, floats and bools read as numbers; bools read as 1 and 0, because Python's bool is an int; any other value makes `*=` and `sum` raise |
| Text.Lower | validator.py:16 | lower-casing keeps the length and maps each character by itself |
| Text.Contains | validator.py:16 | `sub in s` holds exactly when `sub` occurs at some index of `s` |
| Parsing.Find | utils/parsing.py:9 | `find` returns -1 exactly when the character is absent; otherwise it returns the index of its first occurrence |
| Parsing.RFind | utils/parsing.py:9 | `rfind` returns -1 exactly when the character is absent; otherwise it returns the index of its last occurrence |
| Parsing.BraceSlice | utils/parsing.py:9-12 | a slice is taken exactly when some `{` precedes some `}`; it starts with `{`, ends with `}`, is a substring of the text, and has no `{` before it and no `}` after it |
| Parsing.ParseJsonSafely | utils/parsing.py:4-15 | a whole-text decode wins; otherwise a decode of the slice; otherwise `{"raw": text}` with the text verbatim; every path returns a value |
| Parsing.FindAt | utils/parsing.py:9 | `find` returns an index holding the character when no earlier index holds it |
| Parsing.RFindAt | utils/parsing.py:9 | `rfind` returns an index holding the character when no later index holds it |
| Parsing.WrappedObjectIsTheSlice | utils/parsing.py:9-12 | an object with prose around it that holds no `{` before it and no `}` after it is exactly the slice that is tried |
| Parsing.RecoversWrappedObject | utils/parsing.py:4-15 | such a reply decodes to the wrapped object when the whole reply does not decode |
| Parsing.NoBracesKeepsText | utils/parsing.py:10-15 | a reply with no `{` before a `}` that does not decode comes back verbatim under `"raw"` |
| Validator.LeadingDigits | validator.py:5 | the length of the longest run of digits at the start of the text |
| Validator.MatchesAmount | validator.py:5 | the hand-written recogniser for `^\d+(\.\d{1,2})?`: leading digits, then either the end or a point followed by one or two digits that end the text (stated by MatchesAmountIsAmountText) |
| Validator.MatchesAmountIsAmountText | validator.py:5 | the character-by-character recogniser accepts exactly the language digits+ (`.` digit{1,2})? |
| Validator.ValidateAmount | validator.py:4-5 | accepts exactly an amount, or an amount followed by one final newline (`$` matches before it) |
| Validator.AmountOk | validator.py:4-5 | `validate_amount(value)` on `str(value)`: a string is checked as it is, an int passes exactly when it is not negative, `None`, `True`, `False`, lists and dicts never pass (stated by IntAmountOk and NonStringAmounts) |
| Validator.AcceptedAmounts | validator.py:4-5 | "12", "12.5", "12.50" and "12\n" pass the amount check |
| Validator.RejectedAmounts | validator.py:4-5 | "12.500", "abc", "", ".5" and "12." fail the amount check |
| Validator.Digits | validator.py:5 | `str()` of a natural number is a non-empty string of digits |
| Validator.IntText | validator.py:5 | `str()` of an int: its digits, after a "-" when negative (stated by IntAmountOk) |
| Validator.IntAmountOk | validator.py:5 | an int value passes the amount check exactly when it is not negative |
| Validator.NonStringAmounts | validator.py:5 | `None`, `True` and `False` never pass the amount check |
| Validator.Sum | validator.py:10 | Python's `sum` over the confidences (stated by SumBounds and Mean) |
| Validator.SumBounds | validator.py:10 | a sum of values in [0, 1] lies between 0 and their count |
| Validator.Mean | validator.py:8-10 | 0.0 for no values; otherwise mean × count = sum; values in [0, 1] give a mean in [0, 1] |
| Validator.ConfidenceOf | validator.py:10 | `f.get("confidence", 0)` as a number: 0 when the key is missing, nothing when `f` is not a dict or the confidence cannot be summed (stated by Confidences and ComputeOverallConfidence) |
| Validator.Confidences | validator.py:10 | the confidences are defined exactly when every field yields a number, with a missing key counting as 0; they keep the fields' order |
| Validator.ComputeOverallConfidence | validator.py:7-10 | 0.0 for an empty list; otherwise the mean of the confidences; fails exactly when some confidence is not a number; lies in [0, 1] when every confidence does |
| Validator.Discounted | validator.py:17 | the field's confidence is multiplied by 0.7 and every other key is kept unchanged |
| Validator.IsAmountName | validator.py:16 | the lower-cased name contains "amount" (stated by AmountNameAt and TotalAmountIsAmountName) |
| Validator.NeedsDiscount | validator.py:16 | the loop's condition: the name contains "amount" in any case and the value fails `validate_amount` (stated by CheckField and AcceptedFieldsDiscountedOnce) |
| Validator.CheckField | validator.py:15-17 | the loop body succeeds exactly when the field has a string name, an amount field has a value, and a field to be discounted has a numeric confidence; a field is discounted exactly when its name contains "amount" in any case and its value fails the check; otherwise it is kept |
| Validator.FirstError | validator.py:13-20 | the first failure in order ends the run, otherwise every value is kept in order |
| Validator.CheckFields | validator.py:15-17 | all fields pass, in order and with the same count; otherwise the failure is the first failing field's |
| Validator.CheckFieldsStopsAt | validator.py:15-17 | the first field that raises ends the loop with its failure |
| Validator.FieldList | validator.py:15 | iterating `data["fields"]`: a list yields its items, an empty dict or string yields nothing, anything else raises (stated by AcceptedIffWellFormed) |
| Validator.Replaced | validator.py:15-18 | the "fields" entry after the loop: a list holds the rewritten fields, an empty dict or string stays as it was (stated by AcceptedShape and AcceptedFieldsDiscountedOnce) |
| Validator.ValidateData | validator.py:14-19 | the try body on a decoded value: accepted exactly when it is a dict whose "fields" holds only well-formed fields, and then the record with the fields rewritten and `overall_confidence` stored (stated by AcceptedIffWellFormed and AcceptedShape) |
| Validator.Validated | validator.py:12-21 | a reply that does not decode is rejected with the raw text; any rejection keeps the raw text verbatim; acceptance happens exactly when the reply decodes and validates |
| Validator.ValidateOutput | validator.py:12-21 | the loop that rewrites the fields one by one computes `Validated` |
| Validator.WellFormedIffPasses | validator.py:15-18 | a field is well formed exactly when it passes the loop body and its resulting confidence can be summed |
| Validator.AcceptedIffWellFormed | validator.py:12-21 | a decoded reply is accepted exactly when it is a dict whose iterable "fields" holds only well-formed fields |
| Validator.CheckedFieldsDiscountedOnce | validator.py:15-17 | after a successful loop a field is discounted by 0.7 once, exactly when it needs it, and is otherwise untouched |
| Validator.AcceptedShape | validator.py:14-19 | an accepted record is the input with "fields" rewritten by the loop and `overall_confidence` stored |
| Validator.AcceptedFieldsDiscountedOnce | validator.py:15-19 | on success the count and order of fields are kept; a field is discounted by 0.7 once, exactly when it needs it, and is otherwise untouched; `overall_confidence` is the mean after the discount |
| Validator.AcceptedKeepsOtherKeys | validator.py:14-19 | an accepted record keeps its keys, gains `overall_confidence` and changes no entry besides "fields" and that one |
| Validator.RejectionExamples | validator.py:12-21 | text that is not JSON, a missing "fields" and a nameless field are each rejected with the reply verbatim |
| Validator.AmountNameAt | validator.py:16 | "amount" in the lower-cased name at any index makes it an amount name |
| Validator.TotalAmountIsAmountName | validator.py:16 | "Total Amount" is an amount name |
| Validator.DiscountApplies | validator.py:16-17 | an amount field whose value fails the check and whose confidence is a number is discounted by 0.7 |
| Validator.TotalAmountDiscounted | validator.py:15-17 | a "Total Amount" field with value "12.500" and confidence 0.9 comes out with confidence 0.63 |
| Validator.TotalAmountKept | validator.py:15-17 | a "Total Amount" field with value "12.50" is left unchanged |
| Confidence.Clamp01 | confidence.py:101 | the result lies in [0, 1] and equals the input when the input already does |
| Confidence.CountPresent | confidence.py:56 | the number of required names present is at most the number required |
| Confidence.CountLists | confidence.py:72-86 | the number of error lists with a matching entry is at most the number of lists |
| Confidence.IsTypeError | confidence.py:74 | an error mentions "Expected type" (used by ScoreComponentsShape through DataTypeValue) |
| Confidence.IsPatternError | confidence.py:85 | an error mentions "pattern" in any case (used by ScoreComponentsShape through PatternValue) |
| Confidence.OcrValue | confidence.py:47 | the OCR confidence from the metadata, 0.8 when absent (stated by ScoreComponentsShape) |
| Confidence.PresenceValue | confidence.py:56-57 | present / required: the share of required names that were extracted, duplicates counted each time (stated by ScoreComponentsShape and ComponentValuesInUnitRange) |
| Confidence.ValidationValue | confidence.py:66-67 | (fields − error lists) / fields (stated by ScoreComponentsShape and ComponentValuesInUnitRange) |
| Confidence.DataTypeValue | confidence.py:72-78 | 1 − (error lists with an "Expected type" entry) / fields (stated by ScoreComponentsShape and ComponentValuesInUnitRange) |
| Confidence.PatternValue | confidence.py:83-89 | 1 − (error lists with a "pattern" entry in any case) / fields (stated by ScoreComponentsShape and ComponentValuesInUnitRange) |
| Confidence.TotalWeight | confidence.py:94 | the total weight of the components (stated by WeightedSumBounds and ScaledTotalWeight) |
| Confidence.WeightedSum | confidence.py:96 | the sum of weight times value (stated by WeightedSumBounds, ScaledWeightedSum and BreakdownExplainsScore) |
| Confidence.Composite | confidence.py:94-99 | the renormalised weighted average, 0.0 when no weight is present; it lies in [0, 1] and does not change when all weights are scaled (stated by CompositeInUnitRange and CompositeScaleInvariant) |
| Confidence.OcrPart | confidence.py:46-49 | the OCR component, always present (stated by ScoreComponentsShape) |
| Confidence.PresencePart | confidence.py:51-59 | the field_presence component, present exactly when required fields are listed (stated by ScoreComponentsShape) |
| Confidence.PerFieldPart | confidence.py:61-91 | the validation, data_type and pattern_match components, present exactly when some field was extracted (stated by ScoreComponentsShape) |
| Confidence.ScoreComponents | confidence.py:44-91 | the components `calculate_score` builds, in order (stated by ScoreComponentsShape) |
| Confidence.ScoreComponentsShape | confidence.py:44-91 | OCR comes first, with value defaulting to 0.8; components appear in the fixed order; each weight is the table's; field_presence is present exactly when required fields are listed; validation, data_type and pattern_match are present exactly when any field was extracted |
| Confidence.Row | confidence.py:106-112 | one row of the breakdown: name, weight, value, weight × value and description (stated by Breakdown) |
| Confidence.Breakdown | confidence.py:103-114 | one row per component, in order; weighted value = weight × value |
| Confidence.BreakdownExplainsScore | confidence.py:94-110 | the breakdown's weighted values add up to the weighted sum behind the score |
| Confidence.ConfidenceScorer.constructor | confidence.py:24-32 | no components; the default weights 0.3, 0.2, 0.3, 0.1, 0.1 |
| Confidence.ConfidenceScorer.CalculateScore | confidence.py:34-101 | earlier components are discarded and rebuilt from this result alone; the score is the clamped Σw·v / Σw, or 0.0 when Σw is 0 |
| Confidence.ConfidenceScorer.AddOcrComponent | confidence.py:46-49 | appends the OCR component, with 0.8 when no OCR confidence is given |
| Confidence.ConfidenceScorer.AddPresenceComponent | confidence.py:51-59 | appends the field_presence component exactly when required fields are listed |
| Confidence.ConfidenceScorer.AddPerFieldComponents | confidence.py:61-91 | appends validation, data_type and pattern_match exactly when some field was extracted |
| Confidence.ConfidenceScorer.GetScoreBreakdown | confidence.py:103-114 | the breakdown of the current components: same length and order; it adds up to their weighted sum |
| Confidence.ConfidenceScorer.AddComponent | confidence.py:116-125 | appends one component and changes nothing else |
| Confidence.ConfidenceScorer.AdjustWeights | confidence.py:127-136 | a known name gets its new weight clamped to [0, 1]; unknown names are ignored; other weights stay; the weight table stays valid |
| Confidence.WeightedSumBounds | confidence.py:94-96 | with non-negative weights and values in [0, 1], the weighted sum lies between 0 and Σw |
| Confidence.CompositeInUnitRange | confidence.py:94-99 | the renormalised average of such components lies in [0, 1] |
| Confidence.ScaledTotalWeight | confidence.py:94 | scaling every weight by c scales Σw by c |
| Confidence.ScaledWeightedSum | confidence.py:96 | scaling every weight by c scales Σw·v by c |
| Confidence.CompositeScaleInvariant | confidence.py:94-99 | scaling all weights by a positive factor leaves the score unchanged, so the weights need not add up to 1 |
| Confidence.ComponentValuesInUnitRange | confidence.py:47-91 | every component value lies in [0, 1] when the OCR confidence does and there are no more error lists than fields |
| Confidence.ClampIsInactive | confidence.py:94-101 | under those conditions the clamp never changes the score |
| Confidence.TwoComponentExample | confidence.py:94-97 | weights 0.3 and 0.2 with values 0.8 and 1.0 give 0.88 |
| Confidence.NoRequiredFieldsExample | confidence.py:44-101 | with no required fields there is no field_presence component, and two clean fields without OCR confidence score 0.925 |
| ExtractionModels.DefaultSource | schemas/extraction_models.py:4-6 | page 1 and a zeroed bounding box of four coordinates |
| ExtractionModels.NewKVField | schemas/extraction_models.py:8-12 | only the name is given; the value is None, the confidence is 0.0 and the source is the default one |
| ExtractionModels.NewQAReport | schemas/extraction_models.py:14-17 | no passed rules, no failed rules, empty notes |
| Router.FirstMatch | router.py:14-19 | the first type in table order whose detector accepts the document; "unknown" when none does; the result is always a table type or "unknown" |
| Router.DocumentRouter.GetDocumentType | router.py:14-19 | the loop with early return computes `FirstMatch` |
| Router.NewDocumentRouter | router.py:6-12 | the table lists invoice, receipt, contract and id, in that order |
| Router.IsInvoice | router.py:21-23 | the invoice detector answers false for every document (stated by EveryDocumentIsUnknown) |
| Router.IsReceipt | router.py:25-27 | the receipt detector answers false for every document (stated by EveryDocumentIsUnknown) |
| Router.IsContract | router.py:29-31 | the contract detector answers false for every document (stated by EveryDocumentIsUnknown) |
| Router.IsIdDocument | router.py:33-35 | the ID-document detector answers false for every document (stated by EveryDocumentIsUnknown) |
| Router.UnknownIffNoneAccepts | router.py:14-19 | when no table type is "unknown", the answer is "unknown" exactly when no detector accepts |
| Router.RouterAnswersUnknownIffNoneAccepts | router.py:6-19 | the router's own table satisfies that condition |
| Router.EveryDocumentIsUnknown | router.py:21-35 | every detector currently answers false, so every document is "unknown" |

`ExtractionOutput` (schemas/extraction_models.py:19-23) is a datatype with
four fields and no defaults.

## Left out

- Not modelled: the Streamlit UI, OCR, PDF handling, image drawing, the
  language-model client and file writing. They are I/O or calls into
  libraries.
- The JSON grammar is not modelled: `json.loads` is a parameter.
- CPython's float-to-text conversion is not modelled. `str()` of a float is
  the parameter `floatStr`, so whether a float amount passes depends on it.
- Real arithmetic replaces IEEE doubles. Rounding, NaN and infinities are
  not modelled.
- Validator.ValidateAmount: `\d` is ASCII digits only. Python also accepts
  other Unicode decimal digits.
- Validator.IsAmountName, Confidence.IsPatternError: lower-casing is ASCII
  only. No other character lower-cases to a letter of "amount" or
  "pattern", so the containment tests agree with Python's.
- Validator.Validated: the exception message `str(e)` is not modelled. A
  `Failure` value names the cause, and the raw reply is kept verbatim.
- Re-validating an accepted output is not idempotent, because the 0.7
  discount is applied again on every call. No idempotence is claimed.
- Confidence.ConfidenceScorer.CalculateScore: the input is a typed record.
  The record holds:
  - the OCR confidence as an optional real;
  - the required names;
  - the key set of `extracted_data`;
  - the value lists of `validation.errors`, in dictionary order.

  Not covered:
  - a non-numeric OCR confidence;
  - error entries that are not strings, for which `str(err)` is taken;
  - a `validation.errors` that is not a dictionary, where `.values()`
    raises.
- Confidence.ComponentValuesInUnitRange: it requires no more error lists
  than extracted fields. With more error lists than fields, the validation
  component is negative, as the code computes it. Only the final clamp
  bounds the score.
- The code has no rule registry, raises no "missing required" issue and
  never fills in the QA report; none of these is modelled.
- ExtractionModels: pydantic's run-time type coercion is not modelled. Nor
  is its validation of constructor arguments. `bbox` has four coordinates
  by default, but nothing constrains its length afterwards.
