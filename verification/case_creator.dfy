/** The case-creation tool: validating its input, turning `documents_requested`
    into the list of requested documents, and the initial e-mail that follows a
    created case. The backend calls, the template file and `str.format` are
    parameters. */
module CaseCreator {
  import opened Wrappers
  import opened Text
  import opened Json
  import PromptLoader

  /** The shapes `documents_requested` can take: a string, a list (each element
      known by its `str()`), or any other JSON value. */
  datatype Documents = DocText(s: string) | DocList(items: seq<Value>) | DocOther(v: Value)

  /** The parsed tool input; `None` is a key the JSON object lacks. */
  datatype CaseData = CaseData(
    clientName: Option<Value>,
    clientEmail: Option<Value>,
    documents: Option<Documents>,
    clientPhone: Option<Value>)

  /** A name as stripping leaves it: non-empty, with no outer whitespace. */
  predicate Tidy(s: string) {
    |s| > 0 && Unpadded(s)
  }

  /** Strips every piece and drops the blank ones, keeping their order. */
  function StripNonBlank(xs: seq<string>): (r: seq<string>)
    ensures |r| <= |xs|
    ensures forall i :: 0 <= i < |r| ==> Tidy(r[i])
  {
    if |xs| == 0 then []
    else
      var head := Strip(xs[0]);
      var rest := StripNonBlank(xs[1..]);
      if head == [] then rest
      else
        assert forall i :: 0 < i <= |rest| ==> ([head] + rest)[i] == rest[i - 1];
        [head] + rest
  }

  /** A name is kept exactly when it is what stripping makes of some piece and is
      not empty. */
  lemma {:induction false} StripNonBlankMembers(xs: seq<string>)
    ensures forall n :: n in StripNonBlank(xs) <==> n != [] && exists i :: 0 <= i < |xs| && Strip(xs[i]) == n
  {
    if |xs| > 0 {
      StripNonBlankMembers(xs[1..]);
      var head := Strip(xs[0]);
      var rest := StripNonBlank(xs[1..]);
      forall n
        ensures n in StripNonBlank(xs) <==> n != [] && exists i :: 0 <= i < |xs| && Strip(xs[i]) == n
      {
        if n in rest {
          var i :| 0 <= i < |xs[1..]| && Strip(xs[1..][i]) == n;
          assert Strip(xs[i + 1]) == n;
        }
        if n != [] && exists i :: 0 <= i < |xs| && Strip(xs[i]) == n {
          var i :| 0 <= i < |xs| && Strip(xs[i]) == n;
          if i > 0 {
            assert Strip(xs[1..][i - 1]) == n;
          }
        }
      }
    }
  }

  /** Pieces are handled one at a time: the result for a concatenation is the
      concatenation of the results, so the kept names keep their order. */
  lemma {:induction false} StripNonBlankAppend(xs: seq<string>, ys: seq<string>)
    ensures StripNonBlank(xs + ys) == StripNonBlank(xs) + StripNonBlank(ys)
  {
    if |xs| > 0 {
      assert (xs + ys)[1..] == xs[1..] + ys;
      StripNonBlankAppend(xs[1..], ys);
    } else {
      assert xs + ys == ys;
    }
  }

  /** One piece gives its stripped text, or nothing when that is empty. */
  lemma StripNonBlankSingle(x: string)
    ensures StripNonBlank([x]) == (if Strip(x) == [] then [] else [Strip(x)])
  {
    assert [x][1..] == [];
  }

  /** Clean pieces come through unchanged, so stripping twice is stripping once. */
  lemma {:induction false} StripNonBlankFixed(xs: seq<string>)
    requires forall i :: 0 <= i < |xs| ==> Tidy(xs[i])
    ensures StripNonBlank(xs) == xs
  {
    if |xs| > 0 {
      StripUnpadded(xs[0]);
      StripNonBlankCons(xs);
      StripNonBlankFixed(xs[1..]);
      HeadTail(xs);
    }
  }

  lemma StripNonBlankIdempotent(xs: seq<string>)
    ensures StripNonBlank(StripNonBlank(xs)) == StripNonBlank(xs)
  {
    StripNonBlankFixed(StripNonBlank(xs));
  }

  /** Stripping adds no character: a character absent from every piece is absent
      from every result. */
  lemma {:induction false} StripNonBlankAvoids(xs: seq<string>, c: char)
    requires forall i :: 0 <= i < |xs| ==> c !in xs[i]
    ensures forall i :: 0 <= i < |StripNonBlank(xs)| ==> c !in StripNonBlank(xs)[i]
  {
    if |xs| > 0 {
      StripNonBlankAvoids(xs[1..], c);
      StripAvoids(xs[0], c);
      var head := Strip(xs[0]);
      var rest := StripNonBlank(xs[1..]);
      if head != [] {
        forall i | 0 < i <= |rest|
          ensures c !in ([head] + rest)[i]
        {
          assert ([head] + rest)[i] == rest[i - 1];
        }
      }
    }
  }

  /** Stripping one piece adds no character. */
  lemma StripAvoids(s: string, c: char)
    requires c !in s
    ensures c !in Strip(s)
  {
    StripTrimmed(s);
    var t := Strip(s);
    var a: nat :| TrimmedAt(s, t, a);
    assert forall k :: 0 <= k < |t| ==> t[k] == s[a + k];
  }

  /** The pieces of a document string: commas and semicolons act as newlines. */
  function Pieces(s: string): seq<string> {
    SplitOn(ReplaceChar(ReplaceChar(s, ',', '\n'), ';', '\n'), '\n')
  }

  /** No piece contains a delimiter. */
  lemma PiecesFree(s: string)
    ensures forall i :: 0 <= i < |Pieces(s)| ==> ',' !in Pieces(s)[i] && ';' !in Pieces(s)[i] && '\n' !in Pieces(s)[i]
  {
    var t := ReplaceChar(ReplaceChar(s, ',', '\n'), ';', '\n');
    SplitOnPiecesFree(t, '\n');
    forall i | 0 <= i < |Pieces(s)|
      ensures ',' !in Pieces(s)[i] && ';' !in Pieces(s)[i]
    {
      forall k | 0 <= k < |Pieces(s)[i]|
        ensures Pieces(s)[i][k] in t
      {
        PieceChar(t, '\n', i, k);
      }
    }
  }

  /** Every character of a piece is a character of the split string. */
  lemma {:induction false} PieceChar(t: string, c: char, i: nat, k: nat)
    requires i < |SplitOn(t, c)| && k < |SplitOn(t, c)[i]|
    ensures SplitOn(t, c)[i][k] in t
    decreases |t|
  {
    if |t| > 0 {
      var rest := SplitOn(t[1..], c);
      if t[0] == c {
        PieceChar(t[1..], c, i - 1, k);
      } else if i == 0 && k == 0 {
      } else if i == 0 {
        PieceChar(t[1..], c, 0, k - 1);
      } else {
        PieceChar(t[1..], c, i, k);
      }
    }
  }

  /** The names in a document string: its stripped, non-blank pieces. */
  function TextNames(s: string): (names: seq<string>)
    ensures forall i :: 0 <= i < |names| ==> Tidy(names[i])
    ensures forall i :: 0 <= i < |names| ==> ',' !in names[i] && ';' !in names[i] && '\n' !in names[i]
    ensures |names| <= |Pieces(s)|
    ensures forall n :: n in names <==> n != [] && exists i :: 0 <= i < |Pieces(s)| && Strip(Pieces(s)[i]) == n
  {
    PiecesFree(s);
    StripNonBlankAvoids(Pieces(s), ',');
    StripNonBlankAvoids(Pieces(s), ';');
    StripNonBlankAvoids(Pieces(s), '\n');
    StripNonBlankMembers(Pieces(s));
    StripNonBlank(Pieces(s))
  }

  /** The names in a document list: the stripped, non-blank texts of its elements. */
  function ListNames(items: seq<Value>): (names: seq<string>)
    ensures forall i :: 0 <= i < |names| ==> Tidy(names[i])
    ensures |names| <= |items|
    ensures forall n :: n in names <==> n != [] && exists i :: 0 <= i < |items| && Strip(items[i].ToText()) == n
  {
    var texts := seq(|items|, i requires 0 <= i < |items| => items[i].ToText());
    StripNonBlankMembers(texts);
    assert forall i :: 0 <= i < |items| ==> texts[i] == items[i].ToText();
    StripNonBlank(texts)
  }

  /** The document names parsed from `documents_requested`. */
  function ParseDocuments(d: Documents): (names: seq<string>)
    ensures forall i :: 0 <= i < |names| ==> Tidy(names[i])
    ensures d.DocText? ==> forall i :: 0 <= i < |names| ==> ',' !in names[i] && ';' !in names[i] && '\n' !in names[i]
    ensures d.DocText? ==> |names| <= |Pieces(d.s)|
    ensures d.DocList? ==> |names| <= |d.items|
    ensures d.DocOther? ==> |names| <= 1 && (|names| == 0 <==> !NonBlank(d.v.ToText()))
    ensures d.DocText? ==> forall n :: n in names <==> n != [] && exists i :: 0 <= i < |Pieces(d.s)| && Strip(Pieces(d.s)[i]) == n
    ensures d.DocList? ==> forall n :: n in names <==> n != [] && exists i :: 0 <= i < |d.items| && Strip(d.items[i].ToText()) == n
    ensures d.DocOther? ==> forall n :: n in names <==> n != [] && n == Strip(d.v.ToText())
  {
    match d
    case DocText(s) => TextNames(s)
    case DocList(items) => ListNames(items)
    case DocOther(v) =>
      StripNonBlankSingle(v.ToText());
      StripNonBlank([v.ToText()])
  }

  /** A name that survives parsing as it is. */
  predicate CleanName(n: string) {
    Tidy(n) && ',' !in n && ';' !in n && '\n' !in n
  }

  /** The names after the first, each with the space that follows ", ". */
  function Spaced(names: seq<string>): (parts: seq<string>)
    ensures |parts| == |names|
    ensures |names| > 0 ==> parts[0] == names[0]
    ensures forall i :: 0 < i < |names| ==> parts[i] == " " + names[i]
  {
    if |names| == 0 then [] else [names[0]] + seq(|names| - 1, i requires 0 <= i < |names| - 1 => " " + names[i + 1])
  }

  lemma {:induction false} JoinSpaced(names: seq<string>)
    ensures Join(names, "\n ") == Join(Spaced(names), "\n")
  {
    if |names| > 1 {
      var tail := names[1..];
      JoinSpaced(tail);
      var sp := Spaced(names);
      var st := Spaced(tail);
      assert sp[1..] == [" " + tail[0]] + st[1..];
      JoinCons(sp[0], sp[1..], "\n");
      if |tail| > 1 {
        JoinCons(" " + tail[0], st[1..], "\n");
        JoinCons(tail[0], st[1..], "\n");
        assert [tail[0]] + st[1..] == st;
      } else {
        assert Join(sp[1..], "\n") == " " + tail[0];
      }
    } else if |names| == 1 {
      assert Spaced(names) == names;
    }
  }

  /** Stripping recovers the names from the spaced pieces. */
  lemma {:induction false} StripSpaced(names: seq<string>)
    requires forall i :: 0 <= i < |names| ==> CleanName(names[i])
    ensures StripNonBlank(Spaced(names)) == names
  {
    var sp := Spaced(names);
    var stripped := names;
    forall i | 0 <= i < |names|
      ensures Tidy(names[i])
    {
    }
    if |names| > 0 {
      StripUnpadded(names[0]);
      assert NonBlank(names[0]) by { assert !IsSpace(names[0][0]); }
      var rest := seq(|names| - 1, i requires 0 <= i < |names| - 1 => " " + names[i + 1]);
      assert sp[1..] == rest;
      StripRest(names[1..], rest);
      assert [names[0]] + names[1..] == names;
    }
  }

  lemma {:induction false} StripRest(names: seq<string>, rest: seq<string>)
    requires forall i :: 0 <= i < |names| ==> CleanName(names[i])
    requires |rest| == |names| && forall i :: 0 <= i < |rest| ==> rest[i] == " " + names[i]
    ensures StripNonBlank(rest) == names
  {
    if |names| > 0 {
      StripSpaceFirst(names[0]);
      StripNonBlankCons(rest);
      StripRest(names[1..], rest[1..]);
      HeadTail(names);
    }
  }

  lemma StripNonBlankCons(xs: seq<string>)
    requires |xs| > 0 && Strip(xs[0]) != []
    ensures StripNonBlank(xs) == [Strip(xs[0])] + StripNonBlank(xs[1..])
  {
  }

  lemma HeadTail(s: seq<string>)
    requires |s| > 0
    ensures [s[0]] + s[1..] == s
  {
  }

  lemma SpacedFree(names: seq<string>)
    requires forall i :: 0 <= i < |names| ==> CleanName(names[i])
    ensures forall k, j :: 0 <= k < |Spaced(names)| && 0 <= j < |Spaced(names)[k]| ==> Spaced(names)[k][j] != '\n'
  {
    var sp := Spaced(names);
    forall k, j | 0 <= k < |sp| && 0 <= j < |sp[k]|
      ensures sp[k][j] != '\n'
    {
      if k > 0 && j > 0 {
        assert sp[k][j] == names[k][j - 1];
      } else if k == 0 {
        assert sp[k][j] == names[0][j];
      }
    }
  }

  /** Splitting `a, b, c` gives the names with their leading spaces. */
  lemma PiecesOfJoin(names: seq<string>)
    requires |names| > 0
    requires forall i :: 0 <= i < |names| ==> CleanName(names[i])
    ensures Pieces(Join(names, ", ")) == Spaced(names)
  {
    CommasBecomeNewlines(names);
    SemicolonsAbsent(names);
    JoinSpaced(names);
    SpacedFree(names);
    SplitOnJoin(Spaced(names), '\n');
  }

  lemma CommasBecomeNewlines(names: seq<string>)
    requires forall i :: 0 <= i < |names| ==> CleanName(names[i])
    ensures ReplaceChar(Join(names, ", "), ',', '\n') == Join(names, "\n ")
  {
    ReplaceCharJoin(names, ", ", ',', '\n');
    assert ReplaceChar(", ", ',', '\n') == "\n ";
  }

  lemma SemicolonsAbsent(names: seq<string>)
    requires forall i :: 0 <= i < |names| ==> CleanName(names[i])
    ensures ReplaceChar(Join(names, "\n "), ';', '\n') == Join(names, "\n ")
  {
    ReplaceCharJoin(names, "\n ", ';', '\n');
    assert ReplaceChar("\n ", ';', '\n') == "\n ";
  }

  /** Parsing names written as `a, b, c` gives the names back. */
  lemma ParseJoinRoundTrip(names: seq<string>)
    requires forall i :: 0 <= i < |names| ==> CleanName(names[i])
    ensures ParseDocuments(DocText(Join(names, ", "))) == names
  {
    ParseText(Join(names, ", "));
    JoinedPiecesKept(names);
  }

  /** The pieces of `a, b, c` strip back to the names. */
  lemma JoinedPiecesKept(names: seq<string>)
    requires forall i :: 0 <= i < |names| ==> CleanName(names[i])
    ensures StripNonBlank(Pieces(Join(names, ", "))) == names
  {
    if |names| == 0 {
      assert Pieces([]) == [""];
      assert Strip("") == [];
    } else {
      PiecesOfJoin(names);
      StripSpaced(names);
    }
  }

  /** A document string is parsed piece by piece. */
  lemma ParseText(s: string)
    ensures ParseDocuments(DocText(s)) == StripNonBlank(Pieces(s))
  {
  }

  /** `"W2, Tax Return, Bank Statement"` parses to its three names. */
  lemma ParseExample()
    ensures ParseDocuments(DocText(Join(["W2", "Tax Return", "Bank Statement"], ", "))) == ["W2", "Tax Return", "Bank Statement"]
  {
    var names := ["W2", "Tax Return", "Bank Statement"];
    forall i | 0 <= i < |names|
      ensures CleanName(names[i])
    {
    }
    ParseJoinRoundTrip(names);
  }

  /** Stripping one leading space from an unpadded string. */
  lemma StripSpaceFirst(s: string)
    requires |s| > 0 && Unpadded(s)
    ensures Strip(" " + s) == s && NonBlank(" " + s)
  {
    assert (" " + s)[1..] == s;
    assert LStrip(" " + s) == LStrip(s);
    assert (" " + s)[1] == s[0];
  }

  // ---------------------------------------------------------------------------
  // Payloads
  // ---------------------------------------------------------------------------

  datatype RequestedDocument = RequestedDocument(documentName: string, description: string)

  /** The backend's `requested_documents` array. */
  function Requested(names: seq<string>): (docs: seq<RequestedDocument>)
    ensures |docs| == |names|
    ensures forall i :: 0 <= i < |docs| ==> docs[i].description == "Required document: " + docs[i].documentName
  {
    seq(|names|, i requires 0 <= i < |names| => RequestedDocument(names[i], "Required document: " + names[i]))
  }

  /** The requested documents name exactly the parsed documents, in order. */
  lemma RequestedNames(names: seq<string>)
    ensures seq(|Requested(names)|, i requires 0 <= i < |Requested(names)| => Requested(names)[i].documentName) == names
  {
  }

  /** One bullet per document. */
  function Bullets(names: seq<string>): (lines: seq<string>)
    ensures |lines| == |names|
    ensures forall i :: 0 <= i < |lines| ==> lines[i] == "• " + names[i]
  {
    seq(|names|, i requires 0 <= i < |names| => "• " + names[i])
  }

  /** The document list placed in the initial e-mail. */
  function DocListText(names: seq<string>): string {
    Join(Bullets(names), "\n")
  }

  /** The document list has exactly one line per document, each its bullet. */
  lemma DocListLines(names: seq<string>)
    requires |names| > 0
    requires forall i :: 0 <= i < |names| ==> '\n' !in names[i]
    ensures SplitOn(DocListText(names), '\n') == Bullets(names)
  {
    var lines := Bullets(names);
    forall k, j | 0 <= k < |lines| && 0 <= j < |lines[k]|
      ensures lines[k][j] != '\n'
    {
      assert lines[k] == "• " + names[k];
      if j >= 2 {
        assert lines[k][j] == names[k][j - 2];
      }
    }
    SplitOnJoin(lines, '\n');
  }

  /** The body of the create-case request. */
  datatype CasePayload = CasePayload(
    clientName: Value,
    clientEmail: Value,
    clientPhone: Value,
    requestedDocuments: seq<RequestedDocument>)

  /** The validated input. */
  datatype ValidCase = ValidCase(clientName: Value, clientEmail: Value, names: seq<string>, clientPhone: Value)

  /** The input checks, in the order the tool makes them; a missing key fails with
      Python's `KeyError` text. */
  function Validate(data: CaseData): (r: Result<ValidCase>)
    ensures data.clientName.None? ==> r == Failure("'client_name'")
    ensures data.clientName.Some? && data.clientEmail.None? ==> r == Failure("'client_email'")
    ensures data.clientName.Some? && data.clientEmail.Some? && data.documents.None? ==>
      r == Failure("documents_requested is required - this is a document collection platform!")
    ensures r.Success? <==>
      data.clientName.Some? && data.clientEmail.Some? && data.documents.Some? && |ParseDocuments(data.documents.value)| > 0
    ensures r.Success? ==>
      && r.value.names == ParseDocuments(data.documents.value)
      && r.value.clientName == data.clientName.value && r.value.clientEmail == data.clientEmail.value
      && r.value.clientPhone == data.clientPhone.GetOr(Null)
  {
    if data.clientName.None? then Failure("'client_name'")
    else if data.clientEmail.None? then Failure("'client_email'")
    else if data.documents.None? then
      Failure("documents_requested is required - this is a document collection platform!")
    else
      var names := ParseDocuments(data.documents.value);
      if |names| == 0 then
        Failure("At least one document must be requested - this is a document collection platform!")
      else Success(ValidCase(data.clientName.value, data.clientEmail.value, names, data.clientPhone.GetOr(Null)))
  }

  /** An empty document string is rejected. */
  lemma EmptyDocumentsRejected(name: Value, email: Value)
    ensures Validate(CaseData(Some(name), Some(email), Some(DocText("")), None)) ==
      Failure("At least one document must be requested - this is a document collection platform!")
  {
    assert Pieces("") == [""];
  }

  // ---------------------------------------------------------------------------
  // The initial e-mail
  // ---------------------------------------------------------------------------

  /** `templates.get("initial_reminder", templates.get("initial_contact"))`,
      kept only when it is a non-empty dictionary. */
  function ChooseTemplate(ts: map<string, PromptLoader.Template>): (t: Option<PromptLoader.Template>)
    ensures "initial_reminder" in ts ==> t == (if ts["initial_reminder"] == PromptLoader.EmptyTemplate then None else Some(ts["initial_reminder"]))
    ensures "initial_reminder" !in ts && "initial_contact" in ts ==>
      t == (if ts["initial_contact"] == PromptLoader.EmptyTemplate then None else Some(ts["initial_contact"]))
    ensures "initial_reminder" !in ts && "initial_contact" !in ts ==> t.None?
  {
    var chosen :=
      if "initial_reminder" in ts then Some(ts["initial_reminder"])
      else if "initial_contact" in ts then Some(ts["initial_contact"])
      else None;
    if chosen.Some? && chosen.value != PromptLoader.EmptyTemplate then chosen else None
  }

  /** The e-mail request sent after the case exists. */
  datatype EmailPayload = EmailPayload(
    recipientEmail: Value,
    subject: string,
    body: string,
    caseId: string,
    emailType: string)

  /** The result the tool reports. */
  datatype CaseCreated = CaseCreated(
    caseId: string,
    clientName: Value,
    clientEmail: Value,
    clientPhone: Value,
    requestedDocuments: seq<RequestedDocument>,
    emailSent: bool,
    emailMessageId: Value)

  /** Fills a template. `format(template, fields)` stands for `str.format`. */
  function InitialEmail(t: PromptLoader.Template, c: ValidCase, caseId: string,
                        format: (string, map<string, string>) -> Result<string>): (r: Result<EmailPayload>)
    ensures t.subject.None? ==> r == Failure("'subject_template'")
    ensures r.Success? ==>
      && t.subject.Some? && t.body.Some?
      && r.value.recipientEmail == c.clientEmail && r.value.caseId == caseId
      && r.value.emailType == "initial_contact"
      && Success(r.value.subject) == format(t.subject.value, map["client_name" := c.clientName.ToText()])
      && Success(r.value.body) == format(t.body.value, map["client_name" := c.clientName.ToText(),
                                                          "documents_requested" := DocListText(c.names)])
    ensures (&& t.subject.Some? && t.body.Some?
             && format(t.subject.value, map["client_name" := c.clientName.ToText()]).Success?
             && format(t.body.value, map["client_name" := c.clientName.ToText(),
                                         "documents_requested" := DocListText(c.names)]).Success?)
            ==> r.Success?
  {
    if t.subject.None? then Failure("'subject_template'")
    else
      var subject :- format(t.subject.value, map["client_name" := c.clientName.ToText()]);
      if t.body.None? then Failure("'body_template'")
      else
        var body :- format(t.body.value, map["client_name" := c.clientName.ToText(),
                                             "documents_requested" := DocListText(c.names)]);
        Success(EmailPayload(c.clientEmail, subject, body, caseId, "initial_contact"))
  }

  /** `CreateCaseTool._arun`. `create` posts the case and yields its id, `send`
      posts the e-mail and yields its message id (`Null` when absent); every
      failure becomes an error prefixed "Case creation failed: ". */
  function CreateCase(data: CaseData,
                      create: CasePayload -> Result<string>,
                      templates: Result<map<string, PromptLoader.Template>>,
                      format: (string, map<string, string>) -> Result<string>,
                      send: EmailPayload -> Result<Value>): (r: Result<CaseCreated>)
    ensures r.Failure? ==> StartsWith(r.error, "Case creation failed: ")
    ensures Validate(data).Failure? ==> r == Failure("Case creation failed: " + Validate(data).error)
    ensures r.Success? ==>
      var c := Validate(data).value;
      && Validate(data).Success?
      && r.value.requestedDocuments == Requested(c.names) && |r.value.requestedDocuments| > 0
      && create(CasePayload(c.clientName, c.clientEmail, c.clientPhone, Requested(c.names))) == Success(r.value.caseId)
      && r.value.clientName == c.clientName && r.value.clientPhone == c.clientPhone
    ensures r.Success? ==> templates.Success? && (r.value.emailSent <==> ChooseTemplate(templates.value).Some?)
    ensures r.Success? && !r.value.emailSent ==> r.value.emailMessageId == Null
    ensures r.Success? && r.value.emailSent ==>
      && Validate(data).Success? && templates.Success? && ChooseTemplate(templates.value).Some?
      && var e := InitialEmail(ChooseTemplate(templates.value).value, Validate(data).value, r.value.caseId, format);
      && e.Success? && send(e.value) == Success(r.value.emailMessageId)
    ensures (&& Validate(data).Success? && templates.Success?
             && var c := Validate(data).value;
             && create(CasePayload(c.clientName, c.clientEmail, c.clientPhone, Requested(c.names))).Success?
             && var t := ChooseTemplate(templates.value);
             && (t.Some? ==>
                   var e := InitialEmail(t.value, c, create(CasePayload(c.clientName, c.clientEmail, c.clientPhone,
                                                                        Requested(c.names))).value, format);
                   e.Success? && send(e.value).Success?))
            ==> r.Success?
  {
    var attempt := CreateAndNotify(data, create, templates, format, send);
    if attempt.Failure? then Failure("Case creation failed: " + attempt.error) else attempt
  }

  /** The steps of the tool before its errors are wrapped. */
  function CreateAndNotify(data: CaseData,
                           create: CasePayload -> Result<string>,
                           templates: Result<map<string, PromptLoader.Template>>,
                           format: (string, map<string, string>) -> Result<string>,
                           send: EmailPayload -> Result<Value>): (r: Result<CaseCreated>)
    ensures Validate(data).Failure? ==> r == Validate(data).PropagateFailure()
    ensures r.Success? ==>
      var c := Validate(data).value;
      && Validate(data).Success?
      && r.value.requestedDocuments == Requested(c.names)
      && create(CasePayload(c.clientName, c.clientEmail, c.clientPhone, Requested(c.names))) == Success(r.value.caseId)
      && r.value.clientName == c.clientName && r.value.clientEmail == c.clientEmail && r.value.clientPhone == c.clientPhone
      && templates.Success? && (r.value.emailSent <==> ChooseTemplate(templates.value).Some?)
      && (!r.value.emailSent ==> r.value.emailMessageId == Null)
    ensures r.Success? && r.value.emailSent ==>
      && Validate(data).Success? && templates.Success? && ChooseTemplate(templates.value).Some?
      && var e := InitialEmail(ChooseTemplate(templates.value).value, Validate(data).value, r.value.caseId, format);
      && e.Success? && send(e.value) == Success(r.value.emailMessageId)
    ensures (&& Validate(data).Success? && templates.Success?
             && var c := Validate(data).value;
             && create(CasePayload(c.clientName, c.clientEmail, c.clientPhone, Requested(c.names))).Success?
             && var t := ChooseTemplate(templates.value);
             && (t.Some? ==>
                   var e := InitialEmail(t.value, c, create(CasePayload(c.clientName, c.clientEmail, c.clientPhone,
                                                                        Requested(c.names))).value, format);
                   e.Success? && send(e.value).Success?))
            ==> r.Success?
  {
    var c :- Validate(data);
    var requested := Requested(c.names);
    var caseId :- create(CasePayload(c.clientName, c.clientEmail, c.clientPhone, requested));
    var ts :- templates;
    match ChooseTemplate(ts)
    case None =>
      Success(CaseCreated(caseId, c.clientName, c.clientEmail, c.clientPhone, requested, false, Null))
    case Some(t) =>
      var email :- InitialEmail(t, c, caseId, format);
      var messageId :- send(email);
      Success(CaseCreated(caseId, c.clientName, c.clientEmail, c.clientPhone, requested, true, messageId))
  }
}
