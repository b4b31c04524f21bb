/**
  The output records of an extraction: where a field was read, the field
  itself, the quality-assurance report and the whole output. Fields with
  a default in the record declarations have the same default here as a
  constructor default; a list default is a fresh empty or zeroed list on
  every construction, which value semantics give for free.
 */
module ExtractionModels {
  import opened Json

  /** Page number and bounding box of the text a field was read from. */
  datatype Source = Source(page: int := 1, bbox: seq<real> := [0.0, 0.0, 0.0, 0.0])

  /** One extracted key/value pair; only the name has no default. */
  datatype KVField = KVField(
    name: string,
    value: Option<string> := None,
    confidence: real := 0.0,
    source: Source := Source())

  datatype QAReport = QAReport(
    passedRules: seq<string> := [],
    failedRules: seq<string> := [],
    notes: string := "")

  /** The whole output; none of its four fields has a default. */
  datatype ExtractionOutput = ExtractionOutput(
    docType: string,
    fields: seq<KVField>,
    overallConfidence: real,
    qa: QAReport)

  /** Source(): page 1 and a zeroed box of four coordinates. */
  function DefaultSource(): (s: Source)
    ensures s.page == 1
    ensures |s.bbox| == 4 && forall i :: 0 <= i < 4 ==> s.bbox[i] == 0.0
  {
    Source()
  }

  /** KVField(name=...): no value, zero confidence, the default source. */
  function NewKVField(name: string): (f: KVField)
    ensures f.name == name
    ensures f.value.None?
    ensures f.confidence == 0.0
    ensures f.source.page == 1 && |f.source.bbox| == 4
    ensures forall i :: 0 <= i < 4 ==> f.source.bbox[i] == 0.0
  {
    KVField(name)
  }

  /** QAReport(): no passed rules, no failed rules, no notes. */
  function NewQAReport(): (r: QAReport)
    ensures |r.passedRules| == 0 && |r.failedRules| == 0 && |r.notes| == 0
  {
    QAReport()
  }
}
