/** Loading prompt files and parsing the e-mail template file. The file system
    is the parameter `read`: what opening and reading a path yields. */
module PromptLoader {
  import opened Wrappers
  import opened Text

  /** The outcome of opening and reading a file as UTF-8. A decoding error is a
      `ValueError` in Python, so it is passed on unchanged; every other failure
      is wrapped in a `RuntimeError`. */
  datatype FileRead =
    | Missing
    | DecodeFailed(message: string)
    | ReadFailed(message: string)
    | Contents(text: string)

  /** `load_prompt`: the stripped contents, or the exception it raises. */
  datatype Prompt =
    | Loaded(content: string)
    | NotFound(path: string)
    | EmptyPrompt(filename: string)
    | Undecodable(message: string)
    | Unreadable(path: string, message: string)
  {
    function Message(): string {
      match this
      case Loaded(_) => ""
      case NotFound(path) => "Prompt file not found: " + path + ". No fallback available."
      case EmptyPrompt(filename) => "Prompt file '" + filename + "' is empty. No fallback available."
      case Undecodable(message) => message
      case Unreadable(path, message) => "Failed to load prompt from '" + path + "': " + message + ". No fallback available."
    }
  }

  /** `os.path.join("prompts", filename)`: an absolute name replaces the directory. */
  function PromptPath(filename: string): string {
    if |filename| > 0 && filename[0] == '/' then filename else "prompts/" + filename
  }

  /** `load_prompt(filename)` */
  function LoadPrompt(filename: string, read: string -> FileRead): (r: Prompt)
    ensures var f := read(PromptPath(filename));
      && (r.Loaded? <==> f.Contents? && NonBlank(f.text))
      && (r.EmptyPrompt? <==> f.Contents? && !NonBlank(f.text))
      && (r.NotFound? <==> f.Missing?)
      && (r.Undecodable? <==> f.DecodeFailed?)
      && (r.Unreadable? <==> f.ReadFailed?)
    ensures r.Loaded? ==> |r.content| > 0 && Unpadded(r.content)
    ensures r.Loaded? ==> Trimmed(read(PromptPath(filename)).text, r.content)
    ensures r.EmptyPrompt? ==> r.filename == filename
  {
    var path := PromptPath(filename);
    match read(path)
    case Missing => NotFound(path)
    case DecodeFailed(message) => Undecodable(message)
    case ReadFailed(message) => Unreadable(path, message)
    case Contents(text) =>
      var content := Strip(text);
      StripTrimmed(text);
      if content == [] then EmptyPrompt(filename) else Loaded(content)
  }

  // ---------------------------------------------------------------------------
  // The template file
  // ---------------------------------------------------------------------------

  /** One template: the `subject_template`, `body_template` and `tone` keys, each
      possibly absent. */
  datatype Template = Template(subject: Option<string>, body: Option<string>, tone: Option<string>)

  const EmptyTemplate := Template(None, None, None)

  /** The parser's variables between lines. */
  datatype Parser = Parser(
    templates: map<string, Template>,
    current: Option<string>,
    body: seq<string>,
    inBody: bool)

  const Start := Parser(map[], None, [], false)

  /** The current template exists. */
  predicate Wf(p: Parser) {
    p.current.Some? ==> p.current.value in p.templates
  }

  /** Python truthiness of the current template name: an empty name is falsy. */
  predicate Named(p: Parser) {
    p.current.Some? && |p.current.value| > 0
  }

  /** A template header line. */
  predicate IsHeader(line: string) {
    StartsWith(line, "## ") && Contains(line, "Template")
  }

  /** The key a header line introduces. */
  function HeaderName(line: string): (name: string)
    ensures forall i :: 0 <= i < |name| ==> name[i] != ' ' && name[i] != '-' && !IsUpper(name[i])
  {
    var bare := ReplaceAll(ReplaceAll(line, "## ", ""), " Template", "");
    ReplaceChar(ReplaceChar(Lower(bare), ' ', '_'), '-', '_')
  }

  /** The stripped remainder of a `**Label**:` line. */
  function FieldValue(line: string, marker: string): (v: string)
    requires |marker| > 0
    ensures Unpadded(v)
  {
    Strip(ReplaceAll(line, marker, ""))
  }

  /** A line the body collects. */
  predicate Collected(line: string) {
    NonBlank(line) && !StartsWith(line, "```")
  }

  /** No two consecutive newlines: the text has no empty line inside it. */
  predicate NoEmptyLine(s: string) {
    forall i :: 0 <= i < |s| - 1 ==> !(s[i] == '\n' && s[i + 1] == '\n')
  }

  /** What the parser promises about a template: the stored fields are stripped,
      and a stored body is non-empty with no empty line. */
  predicate CleanTemplate(t: Template) {
    && (t.subject.Some? ==> Unpadded(t.subject.value))
    && (t.tone.Some? ==> Unpadded(t.tone.value))
    && (t.body.Some? ==> |t.body.value| > 0 && Unpadded(t.body.value) && NoEmptyLine(t.body.value))
  }

  predicate CleanTemplates(ts: map<string, Template>) {
    forall k :: k in ts ==> CleanTemplate(ts[k])
  }

  /** The parser's invariant over lines that came from splitting on newlines. */
  predicate Clean(p: Parser) {
    && CleanTemplates(p.templates)
    && (forall i :: 0 <= i < |p.body| ==> Collected(p.body[i]) && '\n' !in p.body[i])
  }

  /** The collected body text. */
  function BodyText(lines: seq<string>): string {
    Strip(Join(lines, "\n"))
  }

  /** Stores the collected body in the current template when there is one and at
      least one line was collected; the template's other fields are kept. */
  function SaveBody(p: Parser): (ts: map<string, Template>)
    requires Wf(p)
    ensures ts.Keys == p.templates.Keys
    ensures Named(p) && |p.body| > 0 ==>
      var name := p.current.value;
      && ts[name].body == Some(BodyText(p.body))
      && ts[name].subject == p.templates[name].subject && ts[name].tone == p.templates[name].tone
    ensures forall k :: k in ts && ts[k] != p.templates[k] ==> Named(p) && k == p.current.value && |p.body| > 0
  {
    if Named(p) && |p.body| > 0 then
      var name := p.current.value;
      p.templates[name := p.templates[name].(body := Some(BodyText(p.body)))]
    else p.templates
  }

  /** The body text of clean lines is clean. */
  lemma BodyTextClean(lines: seq<string>)
    requires |lines| > 0
    requires forall i :: 0 <= i < |lines| ==> Collected(lines[i]) && '\n' !in lines[i]
    ensures var b := BodyText(lines); |b| > 0 && Unpadded(b) && NoEmptyLine(b)
  {
    var j := Join(lines, "\n");
    JoinNonBlank(lines);
    CollectedLinesNonEmpty(lines);
    JoinNoEmptyLine(lines);
    StripNoEmptyLine(j);
  }

  /** Stripping text with no empty line leaves none. */
  lemma StripNoEmptyLine(s: string)
    requires NoEmptyLine(s)
    ensures NoEmptyLine(Strip(s))
  {
    StripTrimmed(s);
    var a: nat :| TrimmedAt(s, Strip(s), a);
    SliceNoEmptyLine(s, a, a + |Strip(s)|);
  }

  lemma CollectedLinesNonEmpty(lines: seq<string>)
    requires forall i :: 0 <= i < |lines| ==> Collected(lines[i]) && '\n' !in lines[i]
    ensures forall i :: 0 <= i < |lines| ==> |lines[i]| > 0 && '\n' !in lines[i]
  {
    forall i | 0 <= i < |lines|
      ensures |lines[i]| > 0
    {
      CollectedNonEmpty(lines[i]);
    }
  }

  /** A join whose first line is nonblank is nonblank. */
  lemma JoinNonBlank(lines: seq<string>)
    requires |lines| > 0 && NonBlank(lines[0])
    ensures NonBlank(Join(lines, "\n"))
  {
    var j := Join(lines, "\n");
    JoinStarts(lines, "\n");
    var w :| 0 <= w < |lines[0]| && !IsSpace(lines[0][w]);
    assert j[w] == lines[0][w];
  }

  /** A slice of text with no empty line has none either. */
  lemma SliceNoEmptyLine(s: string, a: nat, b: nat)
    requires a <= b <= |s| && NoEmptyLine(s)
    ensures NoEmptyLine(s[a..b])
  {
    var t := s[a..b];
    forall i | 0 <= i < |t| - 1
      ensures !(t[i] == '\n' && t[i + 1] == '\n')
    {
      assert t[i] == s[a + i] && t[i + 1] == s[a + i + 1];
    }
  }

  /** Joining non-empty lines without newlines puts no empty line in between. */
  lemma {:induction false} JoinNoEmptyLine(lines: seq<string>)
    requires |lines| > 0
    requires forall i :: 0 <= i < |lines| ==> |lines[i]| > 0 && '\n' !in lines[i]
    ensures NoEmptyLine(Join(lines, "\n"))
  {
    if |lines| > 1 {
      var head := lines[0];
      var rest := Join(lines[1..], "\n");
      var s := Join(lines, "\n");
      assert s == head + "\n" + rest;
      JoinNoEmptyLine(lines[1..]);
      JoinStarts(lines[1..], "\n");
      assert rest[0] == lines[1][0];
      forall i | 0 <= i < |s| - 1
        ensures !(s[i] == '\n' && s[i + 1] == '\n')
      {
        if i < |head| {
          assert s[i] == head[i];
        } else if i > |head| {
          assert s[i] == rest[i - |head| - 1] && s[i + 1] == rest[i - |head|];
        }
      }
    } else {
      assert Join(lines, "\n") == lines[0];
    }
  }

  /** A nonblank line is non-empty. */
  lemma CollectedNonEmpty(line: string)
    requires Collected(line)
    ensures |line| > 0
  {
  }

  /** The line sets the current template's subject. */
  predicate SubjectLine(p: Parser, line: string) {
    !IsHeader(line) && StartsWith(line, "**Subject**:") && Named(p)
  }

  /** The line starts the current template's body. */
  predicate BodyMarker(p: Parser, line: string) {
    !IsHeader(line) && !StartsWith(line, "**Subject**:") && StartsWith(line, "**Body**:") && Named(p)
  }

  /** The line sets the current template's tone. */
  predicate ToneLine(p: Parser, line: string) {
    && !IsHeader(line) && !StartsWith(line, "**Subject**:") && !StartsWith(line, "**Body**:")
    && StartsWith(line, "**Tone**:") && Named(p)
  }

  /** The effect of one line of the template file. */
  function Step(p: Parser, line: string): (r: Parser)
    requires Wf(p)
    ensures Wf(r)
    ensures IsHeader(line) ==>
      && r.current == Some(HeaderName(line)) && r.templates[HeaderName(line)] == EmptyTemplate
      && r.templates.Keys == p.templates.Keys + {HeaderName(line)}
      && r.body == [] && !r.inBody
    ensures !IsHeader(line) ==> r.templates.Keys == p.templates.Keys && r.current == p.current
  {
    if IsHeader(line) then
      var name := HeaderName(line);
      Parser(SaveBody(p)[name := EmptyTemplate], Some(name), [], false)
    else FieldLine(p, line)
  }

  /** The effect of a line that is not a header. */
  function FieldLine(p: Parser, line: string): (r: Parser)
    requires Wf(p)
    ensures Wf(r) && r.templates.Keys == p.templates.Keys && r.current == p.current
  {
    if StartsWith(line, "**Subject**:") && Named(p) then
      var name := p.current.value;
      p.(templates := p.templates[name := p.templates[name].(subject := Some(FieldValue(line, "**Subject**:")))])
    else if StartsWith(line, "**Body**:") && Named(p) then
      p.(inBody := true, body := [])
    else if StartsWith(line, "**Tone**:") && Named(p) then
      var name := p.current.value;
      p.(templates := p.templates[name := p.templates[name].(tone := Some(FieldValue(line, "**Tone**:")))],
         inBody := false)
    else if p.inBody && Collected(line) then
      p.(body := p.body + [line])
    else p
  }

  // What one line records, case by case. Each lemma restates one branch of
  // `Step` in closed form; they are the steps `BlockParsed` and
  // `TemplateFileParsed` chain together over a whole template block.

  /** A header saves the pending body, then starts an empty template under its
      key; every other stored template is kept. */
  lemma HeaderStep(p: Parser, line: string)
    requires Wf(p) && IsHeader(line)
    ensures Step(p, line) == Parser(SaveBody(p)[HeaderName(line) := EmptyTemplate], Some(HeaderName(line)), [], false)
  {
  }

  /** A subject line sets the current template's subject and nothing else. */
  lemma SubjectStep(p: Parser, line: string)
    requires Wf(p) && SubjectLine(p, line)
    ensures Step(p, line) == p.(templates := p.templates[p.current.value :=
                                  p.templates[p.current.value].(subject := Some(FieldValue(line, "**Subject**:")))])
  {
  }

  /** The body marker opens an empty body and records nothing. */
  lemma MarkerStep(p: Parser, line: string)
    requires Wf(p) && BodyMarker(p, line)
    ensures Step(p, line) == p.(inBody := true, body := [])
  {
  }

  /** A tone line sets the current template's tone and closes the body, which
      stays collected until the next save. */
  lemma ToneStep(p: Parser, line: string)
    requires Wf(p) && ToneLine(p, line)
    ensures Step(p, line) == p.(templates := p.templates[p.current.value :=
                                  p.templates[p.current.value].(tone := Some(FieldValue(line, "**Tone**:")))],
                                inBody := false)
  {
  }

  /** Any other line records nothing: inside a body a collected line is
      appended, and otherwise the line is ignored. */
  lemma OtherStep(p: Parser, line: string)
    requires Wf(p) && !IsHeader(line) && !SubjectLine(p, line) && !BodyMarker(p, line) && !ToneLine(p, line)
    ensures Step(p, line) == if p.inBody && Collected(line) then p.(body := p.body + [line]) else p
  {
  }

  /** Saving a clean parser's body keeps its templates clean. */
  lemma SaveBodyClean(p: Parser)
    requires Wf(p) && Clean(p)
    ensures CleanTemplates(SaveBody(p))
  {
    if Named(p) && |p.body| > 0 {
      BodyTextClean(p.body);
    }
  }

  /** One line without a newline keeps the parser clean. */
  lemma StepClean(p: Parser, line: string)
    requires Wf(p) && Clean(p) && '\n' !in line
    ensures Clean(Step(p, line))
  {
    var r := Step(p, line);
    if IsHeader(line) {
      SaveBodyClean(p);
      StoreClean(SaveBody(p), HeaderName(line), EmptyTemplate);
    } else if StartsWith(line, "**Subject**:") && Named(p) {
      var name := p.current.value;
      StoreClean(p.templates, name, p.templates[name].(subject := Some(FieldValue(line, "**Subject**:"))));
    } else if StartsWith(line, "**Body**:") && Named(p) {
    } else if StartsWith(line, "**Tone**:") && Named(p) {
      var name := p.current.value;
      StoreClean(p.templates, name, p.templates[name].(tone := Some(FieldValue(line, "**Tone**:"))));
    } else if p.inBody && Collected(line) {
      BodyLineClean(p.body, line);
    }
  }

  /** Storing a clean template keeps the templates clean. */
  lemma StoreClean(ts: map<string, Template>, name: string, t: Template)
    requires CleanTemplates(ts) && CleanTemplate(t)
    ensures CleanTemplates(ts[name := t])
  {
  }

  /** Collecting a clean line keeps the collected lines clean. */
  lemma BodyLineClean(body: seq<string>, line: string)
    requires forall i :: 0 <= i < |body| ==> Collected(body[i]) && '\n' !in body[i]
    requires Collected(line) && '\n' !in line
    ensures forall i :: 0 <= i < |body + [line]| ==> Collected((body + [line])[i]) && '\n' !in (body + [line])[i]
  {
  }

  /** The parser over a sequence of lines. */
  function Run(p: Parser, lines: seq<string>): (r: Parser)
    requires Wf(p)
    ensures Wf(r)
    decreases |lines|
  {
    if |lines| == 0 then p else Run(Step(p, lines[0]), lines[1..])
  }

  /** The names the header lines among `lines` introduce. */
  function HeaderNames(lines: seq<string>): set<string> {
    set i | 0 <= i < |lines| && IsHeader(lines[i]) :: HeaderName(lines[i])
  }

  /** The templates after a run are those before it plus one per header line. */
  lemma {:induction false} RunKeys(p: Parser, lines: seq<string>)
    requires Wf(p)
    ensures Run(p, lines).templates.Keys == p.templates.Keys + HeaderNames(lines)
    decreases |lines|
  {
    if |lines| > 0 {
      RunKeys(Step(p, lines[0]), lines[1..]);
      HeaderNamesCons(lines);
    } else {
      assert HeaderNames(lines) == {};
    }
  }

  /** The header names of lines are those of the first line and of the rest. */
  lemma HeaderNamesCons(lines: seq<string>)
    requires |lines| > 0
    ensures HeaderNames(lines) == (if IsHeader(lines[0]) then {HeaderName(lines[0])} else {}) + HeaderNames(lines[1..])
  {
    var tail := lines[1..];
    forall n | n in HeaderNames(lines)
      ensures n in (if IsHeader(lines[0]) then {HeaderName(lines[0])} else {}) + HeaderNames(tail)
    {
      var i :| 0 <= i < |lines| && IsHeader(lines[i]) && HeaderName(lines[i]) == n;
      if i > 0 {
        assert tail[i - 1] == lines[i];
      }
    }
    forall n | n in HeaderNames(tail)
      ensures n in HeaderNames(lines)
    {
      var i :| 0 <= i < |tail| && IsHeader(tail[i]) && HeaderName(tail[i]) == n;
      assert lines[i + 1] == tail[i];
    }
  }

  /** A run over lines without newlines keeps the parser clean. */
  lemma {:induction false} RunClean(p: Parser, lines: seq<string>)
    requires Wf(p) && Clean(p)
    requires forall i :: 0 <= i < |lines| ==> '\n' !in lines[i]
    ensures Clean(Run(p, lines))
    decreases |lines|
  {
    if |lines| > 0 {
      StepClean(p, lines[0]);
      RunClean(Step(p, lines[0]), lines[1..]);
    }
  }

  /** The key whose template the aliases share. */
  const Primary := "initial_reminder"
  const Aliases := {"initial_document_request", "initial_contact"}

  /** Saves the last body and binds the aliases. */
  function Finish(p: Parser): (ts: map<string, Template>)
    requires Wf(p)
    ensures ts.Keys == p.templates.Keys + (if Primary in p.templates then Aliases else {})
    ensures Primary in ts ==> forall k :: k in Aliases ==> ts[k] == ts[Primary]
    ensures Primary in ts ==> ts[Primary] == SaveBody(p)[Primary]
    ensures forall k :: k in ts && k != Primary && k !in Aliases ==> ts[k] == SaveBody(p)[k]
  {
    var ts := SaveBody(p);
    if Primary in ts then
      ts["initial_document_request" := ts[Primary]]["initial_contact" := ts[Primary]]
    else ts
  }

  /** `load_email_templates` after the file has been read. */
  function ParseTemplates(content: string): (ts: map<string, Template>)
    ensures var names := HeaderNames(SplitOn(content, '\n'));
      ts.Keys == names + (if Primary in names then Aliases else {})
    ensures Primary in ts ==> forall k :: k in Aliases ==> ts[k] == ts[Primary]
    ensures CleanTemplates(ts)
  {
    var lines := SplitOn(content, '\n');
    var p := Run(Start, lines);
    RunKeys(Start, lines);
    SplitOnPiecesFree(content, '\n');
    RunClean(Start, lines);
    SaveBodyClean(p);
    Finish(p)
  }

  /** `load_email_templates`: the template file must load before it is parsed. */
  function LoadEmailTemplates(read: string -> FileRead): (r: Result<map<string, Template>>)
    ensures r.Success? <==> LoadPrompt("email_templates.md", read).Loaded?
    ensures r.Success? ==> r.value == ParseTemplates(LoadPrompt("email_templates.md", read).content)
    ensures r.Failure? ==> r.error == LoadPrompt("email_templates.md", read).Message()
  {
    var prompt := LoadPrompt("email_templates.md", read);
    if prompt.Loaded? then Success(ParseTemplates(prompt.content)) else Failure(prompt.Message())
  }

  /** Parsing `a` then `b` is parsing `a + b`. */
  lemma {:induction false} RunAppend(p: Parser, a: seq<string>, b: seq<string>)
    requires Wf(p)
    ensures Run(p, a + b) == Run(Run(p, a), b)
    decreases |a|
  {
    if |a| > 0 {
      assert (a + b)[0] == a[0];
      assert (a + b)[1..] == a[1..] + b;
      RunAppend(Step(p, a[0]), a[1..], b);
    } else {
      assert a + b == b;
    }
  }

  /** A line of body text: collected, and neither a header nor a field line. */
  predicate BodyLine(line: string) {
    && Collected(line) && !IsHeader(line)
    && !StartsWith(line, "**Subject**:") && !StartsWith(line, "**Body**:") && !StartsWith(line, "**Tone**:")
  }

  /** Inside a body, body-text lines are collected in order and nothing else
      changes. */
  lemma {:induction false} RunBody(p: Parser, lines: seq<string>)
    requires Wf(p) && p.inBody
    requires forall i :: 0 <= i < |lines| ==> BodyLine(lines[i])
    ensures Run(p, lines) == p.(body := p.body + lines)
    decreases |lines|
  {
    if |lines| > 0 {
      var p1 := Step(p, lines[0]);
      assert p1 == p.(body := p.body + [lines[0]]);
      RunBody(p1, lines[1..]);
      assert p.body + [lines[0]] + lines[1..] == p.body + lines;
    } else {
      assert p.body + lines == p.body;
    }
  }

  /** The marker lines differ in their third character, so none is another. */
  lemma MarkersDistinct(subject: string, marker: string, tone: string)
    requires StartsWith(subject, "**Subject**:") && StartsWith(marker, "**Body**:") && StartsWith(tone, "**Tone**:")
    ensures !IsHeader(subject) && !IsHeader(marker) && !IsHeader(tone)
    ensures !StartsWith(marker, "**Subject**:")
    ensures !StartsWith(tone, "**Subject**:") && !StartsWith(tone, "**Body**:")
  {
    assert subject[0] == '*' && marker[0] == '*' && tone[0] == '*';
    assert marker[2] == 'B' && tone[2] == 'T';
  }

  /** One complete block (a header, its subject line, the body marker, the body
      lines and its tone line) stores the subject and the tone under the header's
      key and leaves the body lines collected, so that the next save stores all
      three fields. */
  lemma BlockParsed(p: Parser, header: string, subject: string, marker: string, bodyLines: seq<string>, tone: string)
    requires Wf(p) && IsHeader(header) && |HeaderName(header)| > 0
    requires StartsWith(subject, "**Subject**:") && StartsWith(marker, "**Body**:") && StartsWith(tone, "**Tone**:")
    requires forall i :: 0 <= i < |bodyLines| ==> BodyLine(bodyLines[i])
    ensures var r := Run(p, [header, subject, marker] + bodyLines + [tone]);
      var name := HeaderName(header);
      && r.current == Some(name) && r.body == bodyLines && !r.inBody
      && r.templates == SaveBody(p)[name := Template(Some(FieldValue(subject, "**Subject**:")), None,
                                                      Some(FieldValue(tone, "**Tone**:")))]
  {
    MarkersDistinct(subject, marker, tone);
    var name := HeaderName(header);
    var sv := FieldValue(subject, "**Subject**:");
    var tv := FieldValue(tone, "**Tone**:");
    var head := [header, subject, marker];
    var p3 := RunHead(p, header, subject, marker);
    assert p3 == Parser(SaveBody(p)[name := Template(Some(sv), None, None)], Some(name), [], true);
    RunBody(p3, bodyLines);
    var p4 := p3.(body := bodyLines);
    assert Step(p4, tone) == p4.(templates := p4.templates[name := Template(Some(sv), None, Some(tv))], inBody := false) by {
      assert ToneLine(p4, tone);
    }
    assert Run(p4, [tone]) == Step(p4, tone);
    RunAppend(p, head + bodyLines, [tone]);
    RunAppend(p, head, bodyLines);
  }

  /** The header, subject and body-marker lines of a block. */
  lemma RunHead(p: Parser, header: string, subject: string, marker: string) returns (p3: Parser)
    requires Wf(p) && IsHeader(header) && |HeaderName(header)| > 0
    requires StartsWith(subject, "**Subject**:") && StartsWith(marker, "**Body**:")
    ensures p3 == Run(p, [header, subject, marker])
    ensures p3 == Parser(SaveBody(p)[HeaderName(header) := Template(Some(FieldValue(subject, "**Subject**:")), None, None)],
                         Some(HeaderName(header)), [], true)
  {
    var name := HeaderName(header);
    assert !IsHeader(subject) && !IsHeader(marker) && !StartsWith(marker, "**Subject**:") by {
      assert subject[0] == '*' && marker[0] == '*' && marker[2] == 'B';
    }
    var sv := FieldValue(subject, "**Subject**:");
    var q1 := Step(p, header);
    HeaderStep(p, header);
    var q2 := Step(q1, subject);
    SubjectStep(q1, subject);
    var q3 := Step(q2, marker);
    MarkerStep(q2, marker);
    RunThree(p, header, subject, marker);
    p3 := q3;
    StoreSubject(SaveBody(p), name, sv);
  }

  /** Setting the subject of a freshly stored empty template. */
  lemma StoreSubject(base: map<string, Template>, name: string, sv: string)
    ensures var m := base[name := EmptyTemplate];
      m[name := m[name].(subject := Some(sv))] == base[name := Template(Some(sv), None, None)]
  {
  }

  lemma RunThree(p: Parser, a: string, b: string, c: string)
    requires Wf(p)
    ensures Run(p, [a, b, c]) == Step(Step(Step(p, a), b), c)
  {
    var p1 := Step(p, a);
    var p2 := Step(p1, b);
    assert [a, b, c][1..] == [b, c] && [b, c][1..] == [c] && [c][1..] == [];
    assert Run(p, [a, b, c]) == Run(p1, [b, c]);
    assert Run(p1, [b, c]) == Run(p2, [c]);
    assert Run(p2, [c]) == Run(Step(p2, c), []);
  }

  /** A template file holding one complete block parses to that block's template,
      with subject, body and tone, under the header's key; under the key
      "initial_reminder" the two aliases carry it as well. */
  lemma TemplateFileParsed(header: string, subject: string, marker: string, bodyLines: seq<string>, tone: string)
    requires IsHeader(header) && |HeaderName(header)| > 0
    requires StartsWith(subject, "**Subject**:") && StartsWith(marker, "**Body**:") && StartsWith(tone, "**Tone**:")
    requires |bodyLines| > 0 && forall i :: 0 <= i < |bodyLines| ==> BodyLine(bodyLines[i])
    requires '\n' !in header && '\n' !in subject && '\n' !in marker && '\n' !in tone
    requires forall i :: 0 <= i < |bodyLines| ==> '\n' !in bodyLines[i]
    ensures var ts := ParseTemplates(Join([header, subject, marker] + bodyLines + [tone], "\n"));
      var name := HeaderName(header);
      var t := Template(Some(FieldValue(subject, "**Subject**:")), Some(BodyText(bodyLines)), Some(FieldValue(tone, "**Tone**:")));
      && ts.Keys == {name} + (if name == Primary then Aliases else {})
      && forall k :: k in ts ==> ts[k] == t
  {
    var lines := [header, subject, marker] + bodyLines + [tone];
    var content := Join(lines, "\n");
    LinesFree(header, subject, marker, bodyLines, tone);
    SplitOnJoin(lines, '\n');
    ParseLines(content, lines);
    BlockFinished(header, subject, marker, bodyLines, tone);
  }

  /** `ParseTemplates` runs the parser over the text's lines and finishes. */
  lemma ParseLines(content: string, lines: seq<string>)
    requires SplitOn(content, '\n') == lines
    ensures ParseTemplates(content) == Finish(Run(Start, lines))
  {
  }

  lemma BlockFinished(header: string, subject: string, marker: string, bodyLines: seq<string>, tone: string)
    requires IsHeader(header) && |HeaderName(header)| > 0
    requires StartsWith(subject, "**Subject**:") && StartsWith(marker, "**Body**:") && StartsWith(tone, "**Tone**:")
    requires |bodyLines| > 0 && forall i :: 0 <= i < |bodyLines| ==> BodyLine(bodyLines[i])
    ensures var ts := Finish(Run(Start, [header, subject, marker] + bodyLines + [tone]));
      var name := HeaderName(header);
      var t := Template(Some(FieldValue(subject, "**Subject**:")), Some(BodyText(bodyLines)), Some(FieldValue(tone, "**Tone**:")));
      && ts.Keys == {name} + (if name == Primary then Aliases else {})
      && forall k :: k in ts ==> ts[k] == t
  {
    BlockParsed(Start, header, subject, marker, bodyLines, tone);
    assert SaveBody(Start) == map[];
    FinishBlock(Run(Start, [header, subject, marker] + bodyLines + [tone]), HeaderName(header),
                FieldValue(subject, "**Subject**:"), bodyLines, FieldValue(tone, "**Tone**:"));
  }

  lemma LinesFree(header: string, subject: string, marker: string, bodyLines: seq<string>, tone: string)
    requires '\n' !in header && '\n' !in subject && '\n' !in marker && '\n' !in tone
    requires forall i :: 0 <= i < |bodyLines| ==> '\n' !in bodyLines[i]
    ensures var lines := [header, subject, marker] + bodyLines + [tone];
      forall k, j :: 0 <= k < |lines| && 0 <= j < |lines[k]| ==> lines[k][j] != '\n'
  {
    var lines := [header, subject, marker] + bodyLines + [tone];
    forall k | 0 <= k < |lines|
      ensures '\n' !in lines[k]
    {
      if 3 <= k < 3 + |bodyLines| {
        assert lines[k] == bodyLines[k - 3];
      }
    }
  }

  /** Finishing after one complete block. */
  lemma FinishBlock(r: Parser, name: string, sv: string, bodyLines: seq<string>, tv: string)
    requires r.current == Some(name) && |name| > 0 && r.body == bodyLines && |bodyLines| > 0
    requires r.templates == map[name := Template(Some(sv), None, Some(tv))]
    ensures var ts := Finish(r);
      && ts.Keys == {name} + (if name == Primary then Aliases else {})
      && forall k :: k in ts ==> ts[k] == Template(Some(sv), Some(BodyText(bodyLines)), Some(tv))
  {
    var s := SaveBody(r);
    assert s.Keys == {name};
    assert s[name] == Template(Some(sv), Some(BodyText(bodyLines)), Some(tv));
  }

  /** A one-word header `## W Template` is a header, and its key is `W` in lower
      case with hyphens turned into underscores (`Follow-Up` gives `follow_up`). */
  lemma HeaderNameOfWord(w: string)
    requires '#' !in w && ' ' !in w
    ensures IsHeader("## " + w + " Template")
    ensures var name := HeaderName("## " + w + " Template");
      && |name| == |w|
      && forall i :: 0 <= i < |w| ==> name[i] == (if w[i] == '-' then '_' else LowerChar(w[i]))
  {
    var tail := " Template";
    var line := "## " + w + tail;
    assert StartsWith(line, "## ");
    assert line[3 + |w| + 1..] == "Template";
    ContainsAt(line, "Template", 3 + |w| + 1);
    assert line[3..] == w + tail;
    ReplaceAllSkip(w, tail, "## ", "");
    ReplaceAllSkip(tail, [], "## ", "");
    assert tail + [] == tail;
    assert ReplaceAll(line, "## ", "") == w + tail;
    ReplaceAllSkip(w, tail, tail, "");
    assert StartsWith(tail, tail) && tail[|tail|..] == [];
    assert ReplaceAll(w + tail, tail, "") == w;
  }

  /** The header `## Initial-Reminder Template` introduces the key the aliases
      share, so the alias case of `TemplateFileParsed` is reachable. */
  lemma PrimaryHeader(w: string)
    requires w == "Initial-Reminder"
    ensures IsHeader("## " + w + " Template")
    ensures HeaderName("## " + w + " Template") == Primary
  {
    HeaderNameOfWord(w);
    var name := HeaderName("## " + w + " Template");
    assert |name| == |Primary|;
    forall i | 0 <= i < |w|
      ensures name[i] == Primary[i]
    {
    }
  }
}
