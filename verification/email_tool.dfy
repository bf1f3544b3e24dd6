/** The compose-and-send e-mail tool: e-mail type aliases, the template check,
    and the document list that goes into the e-mail. The case record, the
    template file, `str.format` and the send request are parameters. */
module EmailTool {
  import opened Wrappers
  import opened Text
  import opened Json
  import PromptLoader

  const InitialReminder := "initial_reminder"
  const FollowUpReminder := "follow_up_reminder"
  const UrgentReminder := "urgent_reminder"

  const InitialAliases := ["initial_document_request", "initial_contact", "initial"]
  const FollowUpAliases := ["followup", "follow_up", "reminder"]
  const UrgentAliases := ["urgent", "urgent_request"]

  /** The requested e-mail type with its aliases resolved; no type at all means
      the initial reminder, and an unknown type is kept as it is. */
  function NormalizeEmailType(requested: Option<string>): (t: string)
    ensures requested.None? ==> t == InitialReminder
    ensures requested.Some? && requested.value in InitialAliases ==> t == InitialReminder
    ensures requested.Some? && requested.value in FollowUpAliases ==> t == FollowUpReminder
    ensures requested.Some? && requested.value in UrgentAliases ==> t == UrgentReminder
    ensures requested.Some? && requested.value !in InitialAliases + FollowUpAliases + UrgentAliases ==>
      t == requested.value
  {
    match requested
    case None => InitialReminder
    case Some(s) =>
      if s in InitialAliases then InitialReminder
      else if s in FollowUpAliases then FollowUpReminder
      else if s in UrgentAliases then UrgentReminder
      else s
  }

  /** No canonical type is itself an alias. */
  lemma CanonicalNotAlias()
    ensures InitialReminder !in InitialAliases + FollowUpAliases + UrgentAliases
    ensures FollowUpReminder !in InitialAliases + FollowUpAliases + UrgentAliases
    ensures UrgentReminder !in InitialAliases + FollowUpAliases + UrgentAliases
  {
    assert InitialAliases + FollowUpAliases + UrgentAliases ==
      ["initial_document_request", "initial_contact", "initial", "followup", "follow_up", "reminder", "urgent", "urgent_request"];
    // every alias differs in length from every canonical type
    assert |InitialReminder| == 16 && |FollowUpReminder| == 18 && |UrgentReminder| == 15;
  }

  /** Resolving a resolved type changes nothing. */
  lemma NormalizeIdempotent(requested: Option<string>)
    ensures NormalizeEmailType(Some(NormalizeEmailType(requested))) == NormalizeEmailType(requested)
  {
    CanonicalNotAlias();
  }

  // ---------------------------------------------------------------------------
  // Documents
  // ---------------------------------------------------------------------------

  /** One element of a case's `requested_documents`: a dictionary (with its
      Python `str()` rendering) or any other value. */
  datatype DocItem = DocRecord(fields: map<string, Value>, repr: string) | DocPlain(v: Value)

  /** `doc.get('document_name', 'Unknown Document')` */
  function DocNameValue(fields: map<string, Value>): Value {
    if "document_name" in fields then fields["document_name"] else Str("Unknown Document")
  }

  /** The document name as an f-string prints it. */
  function DocName(fields: map<string, Value>): string {
    DocNameValue(fields).ToText()
  }

  /** `doc.get('description', '')` */
  function Description(fields: map<string, Value>): Value {
    if "description" in fields then fields["description"] else Str("")
  }

  /** A description worth showing: non-empty and not the generated default. */
  predicate Described(fields: map<string, Value>) {
    Description(fields).Truthy() && Description(fields) != Str("Required document: " + DocName(fields))
  }

  predicate Completed(d: DocItem) {
    d.DocRecord? && FlagSet(d.fields, "is_completed")
  }

  /** The name a document is listed under. */
  function ItemName(d: DocItem): string {
    match d
    case DocRecord(fields, _) => DocName(fields)
    case DocPlain(v) => v.ToText()
  }

  /** The bullet line of a pending document. */
  function Bullet(d: DocItem): (b: string)
    ensures StartsWith(b, "• " + ItemName(d))
    ensures d.DocRecord? && Described(d.fields) ==> b == "• " + ItemName(d) + " - " + Description(d.fields).ToText()
    ensures !(d.DocRecord? && Described(d.fields)) ==> b == "• " + ItemName(d)
  {
    var head := "• " + ItemName(d);
    if d.DocRecord? && Described(d.fields) then
      var b := head + " - " + Description(d.fields).ToText();
      assert b[..|head|] == head;
      b
    else head
  }

  /** The documents still pending, in order. */
  function Pending(docs: seq<DocItem>): (ps: seq<DocItem>)
    ensures |ps| <= |docs|
    ensures forall i :: 0 <= i < |ps| ==> !Completed(ps[i]) && ps[i] in docs
    ensures forall i :: 0 <= i < |docs| && !Completed(docs[i]) ==> docs[i] in ps
  {
    if |docs| == 0 then []
    else if Completed(docs[0]) then Pending(docs[1..])
    else [docs[0]] + Pending(docs[1..])
  }

  /** A single document is pending exactly when it is not completed. */
  lemma PendingSingle(d: DocItem)
    ensures Pending([d]) == if Completed(d) then [] else [d]
  {
  }

  /** Filtering distributes over concatenation, so `Pending` keeps the
      documents' order and keeps each one exactly once. */
  lemma {:induction false} PendingAppend(a: seq<DocItem>, b: seq<DocItem>)
    ensures Pending(a + b) == Pending(a) + Pending(b)
    decreases |a|
  {
    if |a| > 0 {
      assert (a + b)[0] == a[0];
      assert (a + b)[1..] == a[1..] + b;
      PendingAppend(a[1..], b);
    } else {
      assert a + b == b;
    }
  }

  /** The names of the completed documents, in order, as the records hold them
      (not necessarily strings). */
  function CompletedNames(docs: seq<DocItem>): (ns: seq<Value>)
    ensures |ns| <= |docs|
  {
    if |docs| == 0 then []
    else if Completed(docs[0]) then [DocNameValue(docs[0].fields)] + CompletedNames(docs[1..])
    else CompletedNames(docs[1..])
  }

  /** A value is among the completed names exactly when some completed document
      carries it as its name. */
  lemma {:induction false} CompletedNamesMembers(docs: seq<DocItem>)
    ensures forall v :: v in CompletedNames(docs) <==>
      exists k :: 0 <= k < |docs| && Completed(docs[k]) && DocNameValue(docs[k].fields) == v
  {
    if |docs| > 0 {
      CompletedNamesMembers(docs[1..]);
      forall v
        ensures v in CompletedNames(docs) <==>
          exists k :: 0 <= k < |docs| && Completed(docs[k]) && DocNameValue(docs[k].fields) == v
      {
        if v in CompletedNames(docs[1..]) {
          var k :| 0 <= k < |docs[1..]| && Completed(docs[1..][k]) && DocNameValue(docs[1..][k].fields) == v;
          assert docs[1..][k] == docs[k + 1];
        }
        if exists k :: 0 <= k < |docs| && Completed(docs[k]) && DocNameValue(docs[k].fields) == v {
          var k :| 0 <= k < |docs| && Completed(docs[k]) && DocNameValue(docs[k].fields) == v;
          if k > 0 {
            assert docs[1..][k - 1] == docs[k];
          }
        }
      }
    }
  }

  /** Every completed document contributes its name. */
  lemma CompletedNamesCover(docs: seq<DocItem>)
    ensures forall k :: 0 <= k < |docs| && Completed(docs[k]) ==> DocNameValue(docs[k].fields) in CompletedNames(docs)
  {
    CompletedNamesMembers(docs);
  }

  /** Every document is either pending or completed. */
  lemma {:induction false} PendingCompletedPartition(docs: seq<DocItem>)
    ensures |Pending(docs)| + |CompletedNames(docs)| == |docs|
  {
    if |docs| > 0 {
      PendingCompletedPartition(docs[1..]);
    }
  }

  /** A list with no completed document is all pending. */
  lemma {:induction false} NoneCompletedAllPending(docs: seq<DocItem>)
    requires forall i :: 0 <= i < |docs| ==> !Completed(docs[i])
    ensures Pending(docs) == docs && CompletedNames(docs) == []
  {
    if |docs| > 0 {
      NoneCompletedAllPending(docs[1..]);
      assert [docs[0]] + docs[1..] == docs;
    }
  }

  /** One bullet per pending document, in order; completed documents have none. */
  function Lines(docs: seq<DocItem>): (lines: seq<string>)
    ensures |lines| == |Pending(docs)|
    ensures forall i :: 0 <= i < |lines| ==> StartsWith(lines[i], "• " + ItemName(Pending(docs)[i]))
    ensures forall i :: 0 <= i < |lines| ==> lines[i] == Bullet(Pending(docs)[i])
  {
    var ps := Pending(docs);
    seq(|ps|, i requires 0 <= i < |ps| => Bullet(ps[i]))
  }

  const NoDocuments := "No specific documents listed"
  const ThankYouPrefix := "\n\nThank you for already providing: "

  /** Types whose e-mail thanks the client for what they already sent. */
  predicate FollowUpLike(emailType: string) {
    emailType == FollowUpReminder || emailType == UrgentReminder
  }

  /** The document list of the compose-and-send tool. Joining the completed
      names fails when one of them is not a string. */
  function ToolDocList(emailType: string, docs: seq<DocItem>): (r: Result<string>)
    ensures |docs| == 0 ==> r == Success(NoDocuments)
    ensures |docs| > 0 && r.Success? ==> r.value != NoDocuments
    ensures |docs| > 0 && FollowUpLike(emailType) && |CompletedNames(docs)| > 0 ==>
      match StrJoin(CompletedNames(docs), ", ")
      case Failure(e) => r == Failure(e)
      case Success(names) => r == Success(Join(Lines(docs), "\n") + ThankYouPrefix + names)
    ensures |docs| > 0 && !(FollowUpLike(emailType) && |CompletedNames(docs)| > 0) ==>
      r == Success(Join(Lines(docs), "\n"))
  {
    if |docs| == 0 then Success(NoDocuments)
    else
      var lines := Lines(docs);
      var completed := CompletedNames(docs);
      if FollowUpLike(emailType) && |completed| > 0 then
        var names :- StrJoin(completed, ", ");
        var r := Join(lines, "\n") + ThankYouPrefix + names;
        NotNoDocuments(emailType, docs, r);
        Success(r)
      else
        var r := if |lines| > 0 then Join(lines, "\n")
                 else Join(seq(|Pending(docs)|, i requires 0 <= i < |Pending(docs)| => "• " + ItemName(Pending(docs)[i])), "\n");
        NotNoDocuments(emailType, docs, r);
        Success(r)
  }

  /** A non-empty list never renders as the no-documents text: it begins with a
      bullet, a blank line, or nothing at all. */
  lemma NotNoDocuments(emailType: string, docs: seq<DocItem>, r: string)
    requires |docs| > 0
    requires (FollowUpLike(emailType) && |CompletedNames(docs)| > 0 && exists names :: r == Join(Lines(docs), "\n") + ThankYouPrefix + names)
             || r == Join(Lines(docs), "\n")
    ensures r != NoDocuments
  {
    var lines := Lines(docs);
    if r == Join(lines, "\n") {
      if |lines| > 0 {
        JoinStarts(lines, "\n");
        assert r[0] == lines[0][0] == '•';
      } else {
        assert r == [];
      }
    } else if |lines| > 0 {
      JoinStarts(lines, "\n");
      assert r[0] == lines[0][0] == '•';
    } else {
      assert r[0] == '\n';
    }
  }

  /** The thank-you suffix appears exactly for follow-up and urgent e-mails about a
      case with at least one completed document; it lists the completed names
      when they are all strings, and the list fails otherwise. */
  lemma ThankYouIff(emailType: string, docs: seq<DocItem>)
    requires |docs| > 0
    ensures var r := ToolDocList(emailType, docs);
      (r.Success? && exists names :: r.value == Join(Lines(docs), "\n") + ThankYouPrefix + names)
      <==> FollowUpLike(emailType) && |CompletedNames(docs)| > 0 && StrJoin(CompletedNames(docs), ", ").Success?
  {
    var joined := Join(Lines(docs), "\n");
    var r := ToolDocList(emailType, docs);
    var completed := CompletedNames(docs);
    if FollowUpLike(emailType) && |completed| > 0 && StrJoin(completed, ", ").Success? {
      var names := StrJoin(completed, ", ").value;
      assert r.Success? && r.value == joined + ThankYouPrefix + names;
      assert exists names :: r.value == Join(Lines(docs), "\n") + ThankYouPrefix + names;
    } else if FollowUpLike(emailType) && |completed| > 0 {
      assert r.Failure?;
    } else {
      assert r == Success(joined);
      forall names
        ensures r.value != joined + ThankYouPrefix + names
      {
        assert |joined + ThankYouPrefix + names| > |joined|;
      }
    }
  }

  /** The document list fails exactly for a follow-up or urgent e-mail whose
      completed documents include a name that is not a string. */
  lemma ToolDocListFails(emailType: string, docs: seq<DocItem>)
    ensures ToolDocList(emailType, docs).Failure? <==>
      FollowUpLike(emailType) && exists i :: 0 <= i < |CompletedNames(docs)| && !CompletedNames(docs)[i].Str?
  {
    var completed := CompletedNames(docs);
    if FollowUpLike(emailType) && |docs| > 0 && |completed| > 0 {
      FollowUpJoin(emailType, docs);
      StrJoinFails(completed, ", ");
    } else if FollowUpLike(emailType) {
      assert |completed| == 0;
    } else {
      NotFollowUpSucceeds(emailType, docs);
    }
  }

  lemma FollowUpJoin(emailType: string, docs: seq<DocItem>)
    requires FollowUpLike(emailType) && |docs| > 0 && |CompletedNames(docs)| > 0
    ensures ToolDocList(emailType, docs).Failure? <==> StrJoin(CompletedNames(docs), ", ").Failure?
  {
  }

  lemma NotFollowUpSucceeds(emailType: string, docs: seq<DocItem>)
    requires !FollowUpLike(emailType)
    ensures ToolDocList(emailType, docs).Success?
  {
  }

  /** With every document completed, an initial e-mail lists nothing: the
      fallback list over pending names is then empty too. */
  lemma AllCompletedInitialEmpty(docs: seq<DocItem>)
    requires |docs| > 0 && forall i :: 0 <= i < |docs| ==> Completed(docs[i])
    ensures ToolDocList(InitialReminder, docs) == Success("")
  {
    AllCompletedNonePending(docs);
  }

  lemma {:induction false} AllCompletedNonePending(docs: seq<DocItem>)
    requires forall i :: 0 <= i < |docs| ==> Completed(docs[i])
    ensures Pending(docs) == []
  {
    if |docs| > 0 {
      AllCompletedNonePending(docs[1..]);
    }
  }

  // ---------------------------------------------------------------------------
  // The tool
  // ---------------------------------------------------------------------------

  /** The tool input; `None` is a key the JSON object lacks. */
  datatype EmailRequest = EmailRequest(caseId: Option<Value>, emailType: Option<string>)

  /** The case record the backend returns, with `requested_documents` absent or
      `null` read as the empty list. */
  datatype CaseDocuments = CaseDocuments(clientName: Option<Value>, clientEmail: Option<Value>, documents: seq<DocItem>)

  datatype EmailPayload = EmailPayload(
    recipientEmail: Value,
    subject: string,
    body: string,
    caseId: Value,
    emailType: string)

  /** The send endpoint's reply. */
  datatype Delivery = Delivery(messageId: Option<Value>, recipient: Option<Value>)

  datatype Sent = Sent(messageId: Value, recipient: Value, subject: string, emailType: string, caseId: Value)

  /** The e-mail the tool composes for a case, once the type is resolved. */
  function ComposeEmail(caseId: Value, emailType: string, c: CaseDocuments,
                        ts: map<string, PromptLoader.Template>,
                        format: (string, map<string, string>) -> Result<string>): (r: Result<EmailPayload>)
    ensures emailType !in ts ==> r.Failure?
    ensures emailType in ts && ToolDocList(emailType, c.documents).Failure? ==>
      r == Failure(ToolDocList(emailType, c.documents).error)
    ensures r.Success? ==>
      && emailType in ts && ts[emailType].subject.Some? && ts[emailType].body.Some?
      && c.clientName.Some? && c.clientEmail.Some?
      && r.value.emailType == emailType && r.value.caseId == caseId
      && r.value.recipientEmail == c.clientEmail.value
      && ToolDocList(emailType, c.documents).Success?
      && format(ts[emailType].subject.value, map["client_name" := c.clientName.value.ToText()])
         == Success(r.value.subject)
      && format(ts[emailType].body.value, map["client_name" := c.clientName.value.ToText(),
                                              "requested_documents" := ToolDocList(emailType, c.documents).value])
         == Success(r.value.body)
    ensures (&& emailType in ts && ts[emailType].subject.Some? && ts[emailType].body.Some?
             && c.clientName.Some? && c.clientEmail.Some? && ToolDocList(emailType, c.documents).Success?
             && format(ts[emailType].subject.value, map["client_name" := c.clientName.value.ToText()]).Success?
             && format(ts[emailType].body.value, map["client_name" := c.clientName.value.ToText(),
                                                     "requested_documents" := ToolDocList(emailType, c.documents).value]).Success?)
            ==> r.Success?
  {
    if emailType !in ts then
      Failure("Email template '" + emailType + "' not found in prompts/email_templates.md")
    else
      var template := ts[emailType];
      var docList :- ToolDocList(emailType, c.documents);
      var subjectTemplate :- Need(template.subject, "subject_template");
      var name :- Need(c.clientName, "client_name");
      var subject :- format(subjectTemplate, map["client_name" := name.ToText()]);
      var bodyTemplate :- Need(template.body, "body_template");
      var body :- format(bodyTemplate, map["client_name" := name.ToText(), "requested_documents" := docList]);
      var email :- Need(c.clientEmail, "client_email");
      Success(EmailPayload(email, subject, body, caseId, emailType))
  }

  /** `EmailTool._arun`: `fetch` reads the case with its documents, `send` posts
      the e-mail; every failure becomes an error prefixed with the tool's text. */
  function ComposeAndSend(req: EmailRequest,
                          fetch: Value -> Result<CaseDocuments>,
                          templates: Result<map<string, PromptLoader.Template>>,
                          format: (string, map<string, string>) -> Result<string>,
                          send: EmailPayload -> Result<Delivery>): (r: Result<Sent>)
    ensures r.Failure? ==> StartsWith(r.error, "Email composition and sending failed: ")
    ensures req.caseId.None? ==> r == Failure("Email composition and sending failed: 'case_id'")
    ensures (req.caseId.Some? && fetch(req.caseId.value).Success? && templates.Success?
             && NormalizeEmailType(req.emailType) !in templates.value) ==> r.Failure?
    ensures r.Success? ==>
      && req.caseId.Some? && r.value.caseId == req.caseId.value
      && r.value.emailType == NormalizeEmailType(req.emailType)
      && templates.Success? && r.value.emailType in templates.value
    ensures r.Success? ==>
      && req.caseId.Some? && fetch(req.caseId.value).Success? && templates.Success?
      && var e := ComposeEmail(req.caseId.value, NormalizeEmailType(req.emailType), fetch(req.caseId.value).value,
                               templates.value, format);
      && e.Success? && send(e.value).Success?
      && send(e.value).value.messageId == Some(r.value.messageId)
      && send(e.value).value.recipient == Some(r.value.recipient)
      && r.value.subject == e.value.subject
    ensures (&& req.caseId.Some? && fetch(req.caseId.value).Success? && templates.Success?
             && var e := ComposeEmail(req.caseId.value, NormalizeEmailType(req.emailType), fetch(req.caseId.value).value,
                                      templates.value, format);
             && e.Success? && send(e.value).Success?
             && send(e.value).value.messageId.Some? && send(e.value).value.recipient.Some?)
            ==> r.Success?
  {
    var attempt := SendSteps(req, fetch, templates, format, send);
    assert "Email composition and sending failed: " + "'case_id'" == "Email composition and sending failed: 'case_id'";
    if attempt.Failure? then Failure("Email composition and sending failed: " + attempt.error) else attempt
  }

  /** The steps of the tool before its errors are wrapped. */
  function SendSteps(req: EmailRequest,
                     fetch: Value -> Result<CaseDocuments>,
                     templates: Result<map<string, PromptLoader.Template>>,
                     format: (string, map<string, string>) -> Result<string>,
                     send: EmailPayload -> Result<Delivery>): (r: Result<Sent>)
    ensures req.caseId.None? ==> r == Failure("'case_id'")
    ensures (req.caseId.Some? && fetch(req.caseId.value).Success? && templates.Success?
             && NormalizeEmailType(req.emailType) !in templates.value) ==> r.Failure?
    ensures r.Success? ==>
      && req.caseId.Some? && r.value.caseId == req.caseId.value
      && r.value.emailType == NormalizeEmailType(req.emailType)
      && templates.Success? && r.value.emailType in templates.value
    ensures r.Success? ==>
      && req.caseId.Some? && fetch(req.caseId.value).Success? && templates.Success?
      && var e := ComposeEmail(req.caseId.value, NormalizeEmailType(req.emailType), fetch(req.caseId.value).value,
                               templates.value, format);
      && e.Success? && send(e.value).Success?
      && send(e.value).value.messageId == Some(r.value.messageId)
      && send(e.value).value.recipient == Some(r.value.recipient)
      && r.value.subject == e.value.subject
    ensures (&& req.caseId.Some? && fetch(req.caseId.value).Success? && templates.Success?
             && var e := ComposeEmail(req.caseId.value, NormalizeEmailType(req.emailType), fetch(req.caseId.value).value,
                                      templates.value, format);
             && e.Success? && send(e.value).Success?
             && send(e.value).value.messageId.Some? && send(e.value).value.recipient.Some?)
            ==> r.Success?
  {
    var caseId :- Need(req.caseId, "case_id");
    var emailType := NormalizeEmailType(req.emailType);
    var c :- fetch(caseId);
    var ts :- templates;
    var payload :- ComposeEmail(caseId, emailType, c, ts, format);
    var delivery :- send(payload);
    var messageId :- Need(delivery.messageId, "message_id");
    var recipient :- Need(delivery.recipient, "recipient");
    Success(Sent(messageId, recipient, payload.subject, emailType, caseId))
  }
}
