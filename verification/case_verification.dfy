/** Confirming a case before acting on it, and asking the user to clarify. The
    case read is a parameter; a failure is reported in the result instead of
    being raised. */
module CaseVerification {
  import opened Wrappers
  import opened Json
  import DocumentManager

  /** A case as the backend returns it. `documents` is `None` when the
      `requested_documents` key holds `null` (so `len` fails) and `[]` when the
      key is absent. */
  datatype CaseRecord = CaseRecord(
    clientName: Value,
    clientEmail: Value,
    clientPhone: Value,
    status: Value,
    createdAt: Value,
    lastCommunicationDate: Value,
    documents: Option<seq<DocumentManager.Document>>)

  /** `x or default` */
  function OrDefault(v: Value, default: string): (r: Value)
    ensures v.Truthy() ==> r == v
    ensures !v.Truthy() ==> r == Str(default)
  {
    if v.Truthy() then v else Str(default)
  }

  /** The `completion_rate` text: "0%" without documents; otherwise the
      percentage with one decimal (its float rendering is not modelled). */
  datatype CompletionRate = NoDocumentsRate | Percentage(completed: nat, total: nat) {
    function Shown(): Option<string> {
      match this
      case NoDocumentsRate => Some("0%")
      case Percentage(_, _) => None
    }
  }

  datatype DocumentCounts = DocumentCounts(total: nat, completed: nat, pending: int, completionRate: CompletionRate)

  datatype CaseDetails = CaseDetails(clientName: Value, email: Value, phone: Value, caseStatus: Value, created: Value)

  datatype Verification =
    | Confirmed(details: CaseDetails, counts: DocumentCounts, lastCommunication: Value, message: string)
    | VerificationFailed(error: string, message: string)
  {
    /** The `verification_status` field. */
    function Status(): string {
      if Confirmed? then "confirmed" else "failed"
    }
  }

  /** The document summary of a case. */
  function Counts(docs: seq<DocumentManager.Document>): (c: DocumentCounts)
    ensures c.total == |docs| && c.completed == DocumentManager.Summarize(docs).completed
    ensures c.completed <= c.total && c.pending == c.total - c.completed && c.pending >= 0
    ensures c.total == 0 <==> c.completionRate == NoDocumentsRate
    ensures c.total > 0 ==> c.completionRate == Percentage(c.completed, c.total)
    ensures c.total == 0 ==> c.completionRate.Shown() == Some("0%")
  {
    var total := |docs|;
    var completed := DocumentManager.CountFlag(docs, "is_completed");
    DocumentManager.CountFlagCardinality(docs, "is_completed");
    DocumentCounts(total, completed, total - completed, if total > 0 then Percentage(completed, total) else NoDocumentsRate)
  }

  /** `VerifyCaseDetailsTool._arun`: every failure is reported, never raised. */
  function VerifyCase(caseId: string, fetch: string -> Result<CaseRecord>): (v: Verification)
    ensures v.Status() == "failed" <==> fetch(caseId).Failure? || fetch(caseId).value.documents.None?
    ensures v.VerificationFailed? ==>
      v.message == "❌ Could not verify case " + caseId + ". Please check the case ID and try again."
    ensures v.Confirmed? ==>
      var c := fetch(caseId).value;
      && v.details.phone == OrDefault(c.clientPhone, "Not provided")
      && v.lastCommunication == OrDefault(c.lastCommunicationDate, "No previous communications")
      && v.counts == Counts(c.documents.value)
      && v.details.clientName == c.clientName && v.details.email == c.clientEmail
  {
    var failed := "❌ Could not verify case " + caseId + ". Please check the case ID and try again.";
    match fetch(caseId)
    case Failure(e) => VerificationFailed(e, failed)
    case Success(c) =>
      if c.documents.None? then VerificationFailed("object of type 'NoneType' has no len()", failed)
      else
        Confirmed(
          CaseDetails(c.clientName, c.clientEmail, OrDefault(c.clientPhone, "Not provided"), c.status, c.createdAt),
          Counts(c.documents.value),
          OrDefault(c.lastCommunicationDate, "No previous communications"),
          "✅ Case verified for " + c.clientName.ToText() + " (" + c.clientEmail.ToText()
            + "). Ready to proceed with communications.")
  }

  datatype Clarification = Clarification(action: string, question: string, status: string, message: string)

  /** `RequestClarificationTool._arun`: the question is passed on unchanged. */
  function RequestClarification(question: string): (c: Clarification)
    ensures c.question == question
    ensures c.action == "request_clarification" && c.status == "waiting_for_user_input"
  {
    Clarification("request_clarification", question, "waiting_for_user_input",
      "🤔 I need additional information to proceed. Please provide clarification.")
  }
}
