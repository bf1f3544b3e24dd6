/** The document tools: updating one requested document, summarising a case's
    documents, and listing the cases that need reminders. Backend calls are
    parameters; a document is the dictionary the backend returns for it. */
module DocumentManager {
  import opened Wrappers
  import opened Text
  import opened Json

  type Document = map<string, Value>

  /** The fields an update may carry. */
  const UpdateFields: set<string> := {"document_name", "description", "is_completed", "is_flagged_for_review", "notes"}

  /** The update the tool sends: the allowed fields of the input, as given. */
  function Updates(data: map<string, Value>): (u: map<string, Value>)
    ensures u.Keys == data.Keys * UpdateFields
    ensures forall k :: k in u ==> u[k] == data[k]
    ensures "requested_doc_id" !in u
  {
    map k | k in data && k in UpdateFields :: data[k]
  }

  /** An input holding only allowed fields is sent whole. */
  lemma UpdatesWhole(data: map<string, Value>)
    requires data.Keys <= UpdateFields
    ensures Updates(data) == data
  {
  }

  datatype Updated = Updated(requestedDocId: Value, updatedFields: map<string, Value>, result: Value)

  /** `UpdateDocumentStatusTool._arun`; `update` is the backend call. */
  function UpdateDocumentStatus(data: map<string, Value>,
                                update: (Value, map<string, Value>) -> Result<Value>): (r: Result<Updated>)
    ensures "requested_doc_id" !in data ==> r == Failure("Document update failed: 'requested_doc_id'")
    ensures r.Failure? ==> StartsWith(r.error, "Document update failed: ")
    ensures r.Success? ==>
      && "requested_doc_id" in data && r.value.requestedDocId == data["requested_doc_id"]
      && r.value.updatedFields == Updates(data)
      && update(data["requested_doc_id"], Updates(data)) == Success(r.value.result)
    ensures "requested_doc_id" in data && update(data["requested_doc_id"], Updates(data)).Success? ==> r.Success?
    ensures "requested_doc_id" in data && update(data["requested_doc_id"], Updates(data)).Failure? ==>
      r == Failure("Document update failed: " + update(data["requested_doc_id"], Updates(data)).error)
  {
    assert "Document update failed: " + "'requested_doc_id'" == "Document update failed: 'requested_doc_id'";
    if "requested_doc_id" !in data then Failure("Document update failed: 'requested_doc_id'")
    else
      var docId := data["requested_doc_id"];
      match update(docId, Updates(data))
      case Failure(e) => Failure("Document update failed: " + e)
      case Success(result) => Success(Updated(docId, Updates(data), result))
  }

  // ---------------------------------------------------------------------------
  // Counting
  // ---------------------------------------------------------------------------

  /** `sum(1 for doc in docs if doc.get(key, False))` */
  function CountFlag(docs: seq<Document>, key: string): (n: nat)
    ensures n <= |docs|
  {
    if |docs| == 0 then 0 else (if FlagSet(docs[0], key) then 1 else 0) + CountFlag(docs[1..], key)
  }

  /** The positions whose flag is set. */
  function FlaggedAt(docs: seq<Document>, key: string): set<nat> {
    set i: nat | i < |docs| && FlagSet(docs[i], key)
  }

  /** The count is the number of documents whose flag is set. */
  lemma {:induction false} CountFlagCardinality(docs: seq<Document>, key: string)
    ensures CountFlag(docs, key) == |FlaggedAt(docs, key)|
  {
    if |docs| > 0 {
      CountFlagCardinality(docs[1..], key);
      var shifted := Shift(FlaggedAt(docs[1..], key));
      ShiftCardinality(FlaggedAt(docs[1..], key));
      FlaggedAtCons(docs, key);
      if FlagSet(docs[0], key) {
        assert 0 !in shifted;
        assert |{0} + shifted| == 1 + |shifted|;
      }
    } else {
      assert FlaggedAt(docs, key) == {};
    }
  }

  /** The flagged positions of a non-empty sequence: the head's, then the
      tail's one higher. */
  lemma FlaggedAtCons(docs: seq<Document>, key: string)
    requires |docs| > 0
    ensures FlaggedAt(docs, key) == (if FlagSet(docs[0], key) then {0} else {}) + Shift(FlaggedAt(docs[1..], key))
  {
    var tail := FlaggedAt(docs[1..], key);
    var shifted := Shift(tail);
    forall i | i in FlaggedAt(docs, key) && i > 0
      ensures i in shifted
    {
      assert docs[1..][i - 1] == docs[i];
      assert i - 1 in tail;
    }
    forall i | i in shifted
      ensures i in FlaggedAt(docs, key)
    {
      var j :| j in tail && i == j + 1;
      assert docs[1..][j] == docs[i];
    }
  }

  /** Every element one higher. */
  function Shift(s: set<nat>): set<nat> {
    set i | i in s :: i + 1
  }

  /** Shifting a set of naturals by one keeps its size. */
  lemma {:induction false} ShiftCardinality(s: set<nat>)
    ensures |Shift(s)| == |s|
    decreases |s|
  {
    if s != {} {
      var x :| x in s;
      var rest := s - {x};
      ShiftCardinality(rest);
      var whole := Shift(s);
      var part := Shift(rest);
      assert whole == part + {x + 1} by {
        forall y | y in whole
          ensures y in part + {x + 1}
        {
          var j :| j in s && y == j + 1;
          if j != x {
            assert j in rest;
          }
        }
      }
      assert x + 1 !in part;
    } else {
      assert Shift(s) == {};
    }
  }

  /** Changing one document's other flag leaves a count alone: the completed and
      flagged counts are independent. */
  lemma {:induction false} CountFlagIndependent(docs: seq<Document>, key: string, i: nat, other: string, v: Value)
    requires i < |docs| && other != key
    ensures CountFlag(docs[i := docs[i][other := v]], key) == CountFlag(docs, key)
  {
    var changed := docs[i := docs[i][other := v]];
    if i == 0 {
      assert changed[1..] == docs[1..];
    } else {
      assert changed[1..] == docs[1..][i - 1 := docs[i][other := v]];
      CountFlagIndependent(docs[1..], key, i - 1, other, v);
    }
  }

  // ---------------------------------------------------------------------------
  // Document status
  // ---------------------------------------------------------------------------

  datatype DocumentSummary = DocumentSummary(total: nat, completed: nat, pending: nat, flagged: nat)

  /** The `document_summary` of a case. */
  function Summarize(docs: seq<Document>): (s: DocumentSummary)
    ensures s.total == |docs|
    ensures s.completed == |FlaggedAt(docs, "is_completed")|
    ensures s.flagged == |FlaggedAt(docs, "is_flagged_for_review")|
    ensures s.completed <= s.total && s.flagged <= s.total
    ensures s.pending == s.total - s.completed
  {
    CountFlagCardinality(docs, "is_completed");
    CountFlagCardinality(docs, "is_flagged_for_review");
    var completed := CountFlag(docs, "is_completed");
    DocumentSummary(|docs|, completed, |docs| - completed, CountFlag(docs, "is_flagged_for_review"))
  }

  /** A case as the backend returns it. `requested_documents` absent reads as
      `Some([])`; present but `null` is `None`. */
  datatype CaseDocuments = CaseDocuments(clientName: Value, clientEmail: Value, documents: Option<seq<Document>>)

  /** What `len(None)` raises. */
  const NoLength := "object of type 'NoneType' has no len()"

  datatype DocumentStatus = DocumentStatus(
    caseId: string,
    clientName: Value,
    clientEmail: Value,
    summary: DocumentSummary,
    requestedDocuments: seq<Document>)

  /** `GetDocumentStatusTool._arun`; `fetch` reads the case with its documents. */
  function GetDocumentStatus(caseId: string, fetch: string -> Result<CaseDocuments>): (r: Result<DocumentStatus>)
    ensures r.Success? <==> fetch(caseId).Success? && fetch(caseId).value.documents.Some?
    ensures fetch(caseId).Failure? ==> r == Failure("Document status retrieval failed: " + fetch(caseId).error)
    ensures fetch(caseId).Success? && fetch(caseId).value.documents.None? ==>
      r == Failure("Document status retrieval failed: " + NoLength)
    ensures r.Success? ==>
      && r.value.caseId == caseId
      && r.value.clientName == fetch(caseId).value.clientName
      && r.value.clientEmail == fetch(caseId).value.clientEmail
      && r.value.requestedDocuments == fetch(caseId).value.documents.value
      && r.value.summary == Summarize(fetch(caseId).value.documents.value)
  {
    match fetch(caseId)
    case Failure(e) => Failure("Document status retrieval failed: " + e)
    case Success(c) =>
      match c.documents
      case None => Failure("Document status retrieval failed: " + NoLength)
      case Some(docs) => Success(DocumentStatus(caseId, c.clientName, c.clientEmail, Summarize(docs), docs))
  }

  datatype Reminders = Reminders(totalCasesNeedingReminders: nat, pendingCases: seq<Value>)

  /** `GetPendingRemindersTool._arun`; `pending` is the backend's reply. */
  function GetPendingReminders(pending: Result<seq<Value>>): (r: Result<Reminders>)
    ensures r.Success? <==> pending.Success?
    ensures r.Success? ==> r.value.pendingCases == pending.value && r.value.totalCasesNeedingReminders == |pending.value|
    ensures r.Failure? ==> r.error == "Pending reminders retrieval failed: " + pending.error
  {
    match pending
    case Failure(e) => Failure("Pending reminders retrieval failed: " + e)
    case Success(cases) => Success(Reminders(|cases|, cases))
  }
}
