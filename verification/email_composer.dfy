/** The compose-only e-mail tool: it resolves the e-mail type like the
    compose-and-send tool but falls back to the initial reminder when the type
    has no template, and it returns the composed e-mail with an HTML body
    instead of sending it. */
module EmailComposer {
  import opened Wrappers
  import opened Text
  import opened Json
  import PromptLoader
  import CaseCreator
  import opened EmailTool

  /** `str(doc)` of a document entry. */
  function Rendered(d: DocItem): string {
    match d
    case DocRecord(_, repr) => repr
    case DocPlain(v) => v.ToText()
  }

  /** `doc['document_name']` for every entry, as text. */
  function RecordNames(docs: seq<DocItem>): (r: Result<seq<string>>)
    ensures r.Success? <==> forall i :: 0 <= i < |docs| ==> docs[i].DocRecord? && "document_name" in docs[i].fields
    ensures r.Success? ==> |r.value| == |docs|
    ensures r.Success? ==> forall i :: 0 <= i < |docs| ==> r.value[i] == docs[i].fields["document_name"].ToText()
  {
    if |docs| == 0 then Success([])
    else
      var d := docs[0];
      if d.DocPlain? then Failure("document entry is not a dictionary")
      else if "document_name" !in d.fields then Failure("'document_name'")
      else
        var rest :- RecordNames(docs[1..]);
        Success([d.fields["document_name"].ToText()] + rest)
  }

  /** The bullet lines when the entries are not dictionaries. */
  function PlainLines(docs: seq<DocItem>): (lines: seq<string>)
    ensures |lines| == |docs|
    ensures forall i :: 0 <= i < |docs| ==> lines[i] == "• " + Rendered(docs[i])
  {
    seq(|docs|, i requires 0 <= i < |docs| => "• " + Rendered(docs[i]))
  }

  /** The document list of the compose-only tool: the first entry decides
      whether entries are read as dictionaries. */
  function ComposerDocList(docs: seq<DocItem>): (r: Result<string>)
    ensures |docs| == 0 ==> r == Success(NoDocuments)
    ensures |docs| > 0 && docs[0].DocRecord? ==>
      && (r.Success? <==> RecordNames(docs).Success?)
      && (r.Success? ==> r.value == CaseCreator.DocListText(RecordNames(docs).value))
    ensures |docs| > 0 && docs[0].DocPlain? ==> r == Success(Join(PlainLines(docs), "\n"))
  {
    if |docs| == 0 then Success(NoDocuments)
    else if docs[0].DocRecord? then
      var names :- RecordNames(docs);
      Success(CaseCreator.DocListText(names))
    else Success(Join(PlainLines(docs), "\n"))
  }

  /** One line per document, in order, when no rendered entry has a newline. */
  lemma PlainDocListLines(docs: seq<DocItem>)
    requires |docs| > 0 && docs[0].DocPlain?
    requires forall i :: 0 <= i < |docs| ==> '\n' !in Rendered(docs[i])
    ensures SplitOn(ComposerDocList(docs).value, '\n') == PlainLines(docs)
  {
    var lines := PlainLines(docs);
    forall k, j | 0 <= k < |lines| && 0 <= j < |lines[k]|
      ensures lines[k][j] != '\n'
    {
      if j >= 2 {
        assert lines[k][j] == Rendered(docs[k])[j - 2];
      }
    }
    SplitOnJoin(lines, '\n');
  }

  /** One bullet per document, in order, for dictionary entries whose names
      have no newline. */
  lemma RecordDocListLines(docs: seq<DocItem>)
    requires |docs| > 0 && docs[0].DocRecord? && RecordNames(docs).Success?
    requires forall i :: 0 <= i < |docs| ==> '\n' !in RecordNames(docs).value[i]
    ensures SplitOn(ComposerDocList(docs).value, '\n') == CaseCreator.Bullets(RecordNames(docs).value)
  {
    CaseCreator.DocListLines(RecordNames(docs).value);
  }

  /** `body.replace("\n", "<br>")` */
  function HtmlBody(body: string): (html: string)
    ensures '\n' !in html
    ensures html == Join(SplitOn(body, '\n'), "<br>")
  {
    ReplaceAllRemoves(body, '\n', "<br>");
    ReplaceAllSplitJoin(body, '\n', "<br>");
    ReplaceAll(body, "\n", "<br>")
  }

  /** The type whose template is used: the resolved type when it has one,
      otherwise the initial reminder. */
  function ResolvedType(requested: Option<string>, ts: map<string, PromptLoader.Template>): (t: string)
    ensures NormalizeEmailType(requested) in ts ==> t == NormalizeEmailType(requested)
    ensures NormalizeEmailType(requested) !in ts ==> t == InitialReminder
  {
    var t := NormalizeEmailType(requested);
    if t in ts then t else InitialReminder
  }

  /** A template exists for the resolved type whenever the initial reminder has one. */
  lemma ResolvedTypeAvailable(requested: Option<string>, ts: map<string, PromptLoader.Template>)
    requires InitialReminder in ts
    ensures ResolvedType(requested, ts) in ts
  {
  }

  /** What the tool returns. */
  datatype Composed = Composed(
    subject: string,
    body: string,
    htmlBody: string,
    recipient: Value,
    caseId: Value,
    emailType: string)

  /** `ComposeEmailTool._arun`: `fetch` reads the case; every failure becomes an
      error prefixed with the tool's text. */
  function ComposeEmail(req: EmailRequest,
                        fetch: Value -> Result<CaseDocuments>,
                        templates: Result<map<string, PromptLoader.Template>>,
                        format: (string, map<string, string>) -> Result<string>): (r: Result<Composed>)
    ensures r.Failure? ==> StartsWith(r.error, "Email composition failed: ")
    ensures req.caseId.None? ==> r == Failure("Email composition failed: 'case_id'")
    ensures r.Success? ==>
      && req.caseId.Some? && r.value.caseId == req.caseId.value
      && templates.Success? && r.value.emailType == ResolvedType(req.emailType, templates.value)
      && r.value.emailType in templates.value
      && '\n' !in r.value.htmlBody && r.value.htmlBody == Join(SplitOn(r.value.body, '\n'), "<br>")
    ensures r.Success? ==>
      && req.caseId.Some? && fetch(req.caseId.value).Success? && templates.Success?
      && r.value.emailType in templates.value
      && var c := fetch(req.caseId.value).value;
      && var t := templates.value[r.value.emailType];
      && c.clientName.Some? && c.clientEmail.Some? && r.value.recipient == c.clientEmail.value
      && t.subject.Some? && t.body.Some? && ComposerDocList(c.documents).Success?
      && format(t.subject.value, map["client_name" := c.clientName.value.ToText()]) == Success(r.value.subject)
      && format(t.body.value, map["client_name" := c.clientName.value.ToText(),
                                  "documents_requested" := ComposerDocList(c.documents).value])
         == Success(r.value.body)
    ensures (&& req.caseId.Some? && fetch(req.caseId.value).Success? && templates.Success?
             && var c := fetch(req.caseId.value).value;
             && var ty := ResolvedType(req.emailType, templates.value);
             && ty in templates.value
             && var t := templates.value[ty];
             && ComposerDocList(c.documents).Success? && t.subject.Some? && t.body.Some?
             && c.clientName.Some? && c.clientEmail.Some?
             && format(t.subject.value, map["client_name" := c.clientName.value.ToText()]).Success?
             && format(t.body.value, map["client_name" := c.clientName.value.ToText(),
                                         "documents_requested" := ComposerDocList(c.documents).value]).Success?)
            ==> r.Success?
  {
    var attempt := ComposeSteps(req, fetch, templates, format);
    assert "Email composition failed: " + "'case_id'" == "Email composition failed: 'case_id'";
    if attempt.Failure? then Failure("Email composition failed: " + attempt.error) else attempt
  }

  /** The steps of the tool before its errors are wrapped. */
  function ComposeSteps(req: EmailRequest,
                        fetch: Value -> Result<CaseDocuments>,
                        templates: Result<map<string, PromptLoader.Template>>,
                        format: (string, map<string, string>) -> Result<string>): (r: Result<Composed>)
    ensures req.caseId.None? ==> r == Failure("'case_id'")
    ensures r.Success? ==>
      && req.caseId.Some? && r.value.caseId == req.caseId.value
      && templates.Success? && r.value.emailType == ResolvedType(req.emailType, templates.value)
      && r.value.emailType in templates.value
      && '\n' !in r.value.htmlBody && r.value.htmlBody == Join(SplitOn(r.value.body, '\n'), "<br>")
    ensures r.Success? ==>
      && req.caseId.Some? && fetch(req.caseId.value).Success? && templates.Success?
      && r.value.emailType in templates.value
      && var c := fetch(req.caseId.value).value;
      && var t := templates.value[r.value.emailType];
      && c.clientName.Some? && c.clientEmail.Some? && r.value.recipient == c.clientEmail.value
      && t.subject.Some? && t.body.Some? && ComposerDocList(c.documents).Success?
      && format(t.subject.value, map["client_name" := c.clientName.value.ToText()]) == Success(r.value.subject)
      && format(t.body.value, map["client_name" := c.clientName.value.ToText(),
                                  "documents_requested" := ComposerDocList(c.documents).value])
         == Success(r.value.body)
    ensures (&& req.caseId.Some? && fetch(req.caseId.value).Success? && templates.Success?
             && var c := fetch(req.caseId.value).value;
             && var ty := ResolvedType(req.emailType, templates.value);
             && ty in templates.value
             && var t := templates.value[ty];
             && ComposerDocList(c.documents).Success? && t.subject.Some? && t.body.Some?
             && c.clientName.Some? && c.clientEmail.Some?
             && format(t.subject.value, map["client_name" := c.clientName.value.ToText()]).Success?
             && format(t.body.value, map["client_name" := c.clientName.value.ToText(),
                                         "documents_requested" := ComposerDocList(c.documents).value]).Success?)
            ==> r.Success?
  {
    var caseId :- Need(req.caseId, "case_id");
    var c :- fetch(caseId);
    var ts :- templates;
    var emailType := ResolvedType(req.emailType, ts);
    var template :- Need(if emailType in ts then Some(ts[emailType]) else None, emailType);
    var docList :- ComposerDocList(c.documents);
    var subjectTemplate :- Need(template.subject, "subject_template");
    var name :- Need(c.clientName, "client_name");
    var subject :- format(subjectTemplate, map["client_name" := name.ToText()]);
    var bodyTemplate :- Need(template.body, "body_template");
    var body :- format(bodyTemplate, map["client_name" := name.ToText(), "documents_requested" := docList]);
    var recipient :- Need(c.clientEmail, "client_email");
    Success(Composed(subject, body, HtmlBody(body), recipient, caseId, emailType))
  }
}
