/**
  Routing a document to a pipeline by its type: an ordered table of
  detectors is tried front to back and the first one that recognises the
  document names its type; when none does the type is "unknown".
 */
module Router {
  import opened Json

  /** A document as the router receives it: a dictionary of values. */
  type Document = map<string, Json>

  /** One row of the table: a type name and its detector. */
  datatype Detector = Detector(docType: string, check: Document -> bool)

  const Unknown := "unknown"

  // The four detectors have no detection logic yet: each answers false.
  function IsInvoice(document: Document): bool { false }
  function IsReceipt(document: Document): bool { false }
  function IsContract(document: Document): bool { false }
  function IsIdDocument(document: Document): bool { false }

  /** Detector `i` accepts the document and none before it does. */
  ghost predicate FirstAccepting(table: seq<Detector>, document: Document, i: int) {
    0 <= i < |table| && table[i].check(document) && forall j :: 0 <= j < i ==> !table[j].check(document)
  }

  /** The type of the first detector in `table` that accepts `document`,
      or "unknown" when none does; the result is always "unknown" or a
      type name of the table. */
  function FirstMatch(table: seq<Detector>, document: Document): (docType: string)
    ensures (forall i :: 0 <= i < |table| ==> !table[i].check(document)) ==> docType == Unknown
    ensures forall i :: FirstAccepting(table, document, i) ==> docType == table[i].docType
    ensures docType == Unknown || exists i :: 0 <= i < |table| && table[i].docType == docType
  {
    if table == [] then
      Unknown
    else if table[0].check(document) then
      table[0].docType
    else
      var rest := FirstMatch(table[1..], document);
      assert forall i :: 1 <= i < |table| ==> table[1..][i - 1] == table[i];
      rest
  }

  datatype DocumentRouter = DocumentRouter(documentTypes: seq<Detector>) {

    /** get_document_type: tries the detectors in table order and returns
        at the first that accepts the document. */
    method GetDocumentType(document: Document) returns (docType: string)
      ensures docType == FirstMatch(documentTypes, document)
    {
      var i := 0;
      while i < |documentTypes|
        invariant 0 <= i <= |documentTypes|
        invariant FirstMatch(documentTypes, document) == FirstMatch(documentTypes[i..], document)
      {
        var detector := documentTypes[i];
        if detector.check(document) {
          return detector.docType;
        }
        assert documentTypes[i..][1..] == documentTypes[i + 1..];
        i := i + 1;
      }
      return Unknown;
    }
  }

  /** The router's table, in insertion order. */
  function NewDocumentRouter(): (r: DocumentRouter)
    ensures |r.documentTypes| == 4
    ensures r.documentTypes[0].docType == "invoice" && r.documentTypes[1].docType == "receipt"
    ensures r.documentTypes[2].docType == "contract" && r.documentTypes[3].docType == "id"
  {
    DocumentRouter([
      Detector("invoice", IsInvoice),
      Detector("receipt", IsReceipt),
      Detector("contract", IsContract),
      Detector("id", IsIdDocument)])
  }

  /** When no type name of the table is "unknown", the answer is
      "unknown" exactly when no detector accepts the document. */
  lemma {:induction false} UnknownIffNoneAccepts(table: seq<Detector>, document: Document)
    requires forall i :: 0 <= i < |table| ==> table[i].docType != Unknown
    ensures FirstMatch(table, document) == Unknown <==> forall i :: 0 <= i < |table| ==> !table[i].check(document)
  {
    if table != [] && !table[0].check(document) {
      assert forall i :: 1 <= i < |table| ==> table[1..][i - 1] == table[i];
      UnknownIffNoneAccepts(table[1..], document);
    }
  }

  /** The router's own table names four types, none of them "unknown". */
  lemma RouterAnswersUnknownIffNoneAccepts(document: Document)
    ensures var table := NewDocumentRouter().documentTypes;
            FirstMatch(table, document) == Unknown <==> forall i :: 0 <= i < |table| ==> !table[i].check(document)
  {
    UnknownIffNoneAccepts(NewDocumentRouter().documentTypes, document);
  }

  /** With the detectors as they stand, every document is "unknown". */
  lemma {:induction false} EveryDocumentIsUnknown(document: Document)
    ensures FirstMatch(NewDocumentRouter().documentTypes, document) == Unknown
  {
    var table := NewDocumentRouter().documentTypes;
    assert forall i :: 0 <= i < |table| ==> !table[i].check(document) by {
      assert table[0].check == IsInvoice && table[1].check == IsReceipt;
      assert table[2].check == IsContract && table[3].check == IsIdDocument;
    }
  }
}
