/** Context budgeting for agent conversations: when to fold old messages into a
    summary, how each recent message's content is compressed before it is handed
    to the agent, the heuristic token estimate and the 0-10 health score.
    Every backend read (message count, latest summary, history, the summary the
    backend creates) is a parameter; a read that raised is a `Failure`. */
module TokenManager {
  import opened Wrappers
  import opened Text
  import opened Json

  datatype Config = Config(maxContextMessages: nat, summaryThreshold: nat)

  /** `TokenManager()` with its default arguments. */
  const DefaultConfig := Config(20, 15)

  const BaseTokensPerMessage: nat := 150
  const DefaultSummaryTokens: nat := 600

  // ---------------------------------------------------------------------------
  // Summarisation trigger
  // ---------------------------------------------------------------------------

  /** How many recent messages stay verbatim and how many oldest messages the
      summary covers, for a conversation of `n` messages. */
  function SummaryPlan(cfg: Config, n: nat): (plan: (nat, nat))
    ensures var (keep, summarize) := plan;
      && keep <= 10 && 3 * keep <= n
      && (keep == 10 || keep == n / 3)
      && summarize >= cfg.summaryThreshold
      && keep + summarize >= n
      && (summarize == cfg.summaryThreshold || keep + summarize == n)
      && (n >= cfg.summaryThreshold ==> summarize <= n)
      && (n < cfg.summaryThreshold ==> summarize > n)
  {
    var keep := if 10 <= n / 3 then 10 else n / 3;
    var summarize := if cfg.summaryThreshold >= n - keep then cfg.summaryThreshold else n - keep;
    (keep, summarize)
  }

  /** What the backend reports after materialising a summary. */
  datatype SummaryReceipt = SummaryReceipt(summaryId: Option<string>, tokensSaved: Option<int>)

  datatype Optimization =
    | NotNeeded(messageCount: nat)
    | Summarized(messageCount: nat, messagesSummarized: nat, messagesKept: nat,
                 summaryId: Option<string>, tokensSaved: int)
    | OptimizationFailed(error: string)
  {
    function ActionTaken(): string {
      match this
      case NotNeeded(_) => "none"
      case Summarized(_, _, _, _, _) => "summarized"
      case OptimizationFailed(_) => "error"
    }

    predicate SummaryCreated() {
      Summarized?
    }

    function TokensSaved(): int {
      if Summarized? then tokensSaved else 0
    }
  }

  /** `optimize_conversation_context`: `createSummary(k)` is the backend's answer
      to a request to summarise the `k` oldest messages. */
  function OptimizeConversationContext(cfg: Config, count: Result<nat>, forceSummary: bool,
                                       createSummary: nat -> Result<SummaryReceipt>): (r: Optimization)
    ensures count.Failure? ==> r == OptimizationFailed(count.error)
    ensures count.Success? && !forceSummary && count.value <= cfg.maxContextMessages ==>
      r == NotNeeded(count.value)
    ensures r.NotNeeded? ==> r.ActionTaken() == "none" && r.TokensSaved() == 0 && !r.SummaryCreated()
    ensures count.Success? && (forceSummary || count.value > cfg.maxContextMessages) ==>
      var (keep, summarize) := SummaryPlan(cfg, count.value);
      match createSummary(summarize)
      case Failure(e) => r == OptimizationFailed(e)
      case Success(receipt) =>
        && r.Summarized? && r.SummaryCreated() && r.messageCount == count.value
        && r.messagesKept == keep && r.messagesSummarized == summarize
        && r.summaryId == receipt.summaryId
        && r.tokensSaved == receipt.tokensSaved.GetOr(0)
  {
    match count
    case Failure(e) => OptimizationFailed(e)
    case Success(n) =>
      if forceSummary || n > cfg.maxContextMessages then
        var (keep, summarize) := SummaryPlan(cfg, n);
        match createSummary(summarize)
        case Failure(e) => OptimizationFailed(e)
        case Success(receipt) =>
          Summarized(n, summarize, keep, receipt.summaryId, receipt.tokensSaved.GetOr(0))
      else
        NotNeeded(n)
  }

  /** Summarisation happens exactly when it is forced or the conversation is
      longer than the configured window. */
  lemma SummarizesIff(cfg: Config, n: nat, forceSummary: bool, createSummary: nat -> Result<SummaryReceipt>)
    requires forall k :: createSummary(k).Success?
    ensures OptimizeConversationContext(cfg, Success(n), forceSummary, createSummary).Summarized?
      <==> forceSummary || n > cfg.maxContextMessages
  {
  }

  /** With the default configuration a forced summary of a short conversation asks
      the backend for more messages than the conversation has. */
  lemma ForcedSummaryOverreaches(n: nat)
    requires n < 15
    ensures SummaryPlan(DefaultConfig, n).1 > n
  {
  }

  // ---------------------------------------------------------------------------
  // Message-content compression
  // ---------------------------------------------------------------------------

  /** Metadata keys copied verbatim by compression. */
  const PreservedKeys: set<string> :=
    {"stage", "message_type", "reasoning", "planned_action", "execution_time_ms", "success", "error_message"}

  /** A message's content: a dict, or any other value given by its `str()`. */
  datatype Content = Mapping(fields: map<string, Value>) | Other(text: string)

  /** The `"text"` entry: strings longer than 300 characters are cut to 300 plus an
      ellipsis; a container short enough is kept as it is; `len()` of a scalar, or
      slicing a long container and adding a string to it, raises. */
  function CompressText(v: Value): (r: Result<Value>)
    ensures v.Str? ==> r.Success? && r.value.Str? && |r.value.s| <= 303
    ensures v.Str? && |v.s| <= 300 ==> r == Success(v)
    ensures v.Str? && |v.s| > 300 ==> r == Success(Str(v.s[..300] + "..."))
    ensures v.Nested? ==> (r.Success? <==> v.size <= 300) && (r.Success? ==> r.value == v)
    ensures v.Null? || v.Bool? || v.Int? ==> r.Failure?
  {
    match v
    case Str(t) => Success(Str(Truncate(t, 300)))
    case Nested(_, size) =>
      if size > 300 then Failure("TypeError: slice of a container cannot be concatenated with str")
      else Success(v)
    case _ => Failure("TypeError: object has no len()")
  }

  /** Any other entry: long containers become their truncated `str()`, short ones
      are dropped, scalars pass. */
  function CompressOther(v: Value): (r: Option<Value>)
    ensures !v.Nested? ==> r == Some(v)
    ensures v.Nested? && |v.repr| > 100 ==> r == Some(Str(v.repr[..100] + "..."))
    ensures v.Nested? && |v.repr| <= 100 ==> r == None
    ensures r.Some? ==> !r.value.Nested?
  {
    match v
    case Nested(repr, _) => if |repr| > 100 then Some(Str(repr[..100] + "...")) else None
    case _ => Some(v)
  }

  /** The non-"text" entries that survive compression. */
  function CompressFields(m: map<string, Value>): (r: map<string, Value>)
    ensures "text" !in r
    ensures forall k :: k in r ==> k in m
    ensures forall k :: k in m && k in PreservedKeys ==> k in r && r[k] == m[k]
    ensures forall k :: k in m && k != "text" && k !in PreservedKeys ==>
      if CompressOther(m[k]).Some? then k in r && r[k] == CompressOther(m[k]).value else k !in r
  {
    map k | k in m && k != "text" && (k in PreservedKeys || CompressOther(m[k]).Some?) ::
      if k in PreservedKeys then m[k] else CompressOther(m[k]).value
  }

  /** `_compress_message_content` */
  function CompressMessageContent(c: Content): (r: Result<map<string, Value>>)
    ensures c.Other? ==>
      && r.Success? && r.value.Keys == {"text"} && r.value["text"].Str?
      && |r.value["text"].s| <= 203
      && (|c.text| <= 200 ==> r.value["text"].s == c.text)
      && (|c.text| > 200 ==> r.value["text"].s == c.text[..200] + "...")
    ensures c.Mapping? ==>
      && (r.Failure? <==> "text" in c.fields && CompressText(c.fields["text"]).Failure?)
      && (r.Success? ==>
            && r.value.Keys <= c.fields.Keys
            && ("text" in r.value <==> "text" in c.fields)
            && ("text" in c.fields ==> r.value["text"] == CompressText(c.fields["text"]).value)
            && (forall k :: k in r.value && k != "text" ==> k in CompressFields(c.fields) && r.value[k] == CompressFields(c.fields)[k])
            && (forall k :: k in CompressFields(c.fields) ==> k in r.value))
  {
    match c
    case Other(t) => Success(map["text" := Str(Truncate(t, 200))])
    case Mapping(m) =>
      var rest := CompressFields(m);
      if "text" in m then
        match CompressText(m["text"])
        case Failure(e) => Failure(e)
        case Success(t) => Success(rest["text" := t])
      else
        Success(rest)
  }

  lemma CompressTextIdempotent(v: Value)
    requires CompressText(v).Success?
    ensures CompressText(CompressText(v).value) == CompressText(v)
  {
    if v.Str? && |v.s| > 300 {
      var u := v.s[..300] + "...";
      assert u[..300] == v.s[..300];
    }
  }

  lemma {:induction false} CompressFieldsIdempotent(m: map<string, Value>)
    ensures CompressFields(CompressFields(m)) == CompressFields(m)
  {
    var once := CompressFields(m);
    var twice := CompressFields(once);
    forall k | k in once
      ensures k in twice && twice[k] == once[k]
    {
      if k !in PreservedKeys {
        assert CompressOther(m[k]).Some?;
        assert !once[k].Nested?;
      }
    }
    assert twice.Keys == once.Keys;
  }

  /** Compressing already compressed content changes nothing. */
  lemma {:induction false} CompressIdempotent(c: Content)
    requires CompressMessageContent(c).Success?
    ensures CompressMessageContent(Mapping(CompressMessageContent(c).value)) == CompressMessageContent(c)
  {
    var once := CompressMessageContent(c).value;
    match c
    case Other(t) =>
      var u := Truncate(t, 200);
      assert CompressFields(once) == map[];
      assert CompressText(Str(u)) == Success(Str(u));
      assert map[]["text" := Str(u)] == once;
    case Mapping(m) =>
      var rest := CompressFields(m);
      CompressFieldsIdempotent(m);
      if "text" in m {
        var t := CompressText(m["text"]).value;
        CompressTextIdempotent(m["text"]);
        assert once == rest["text" := t];
        assert CompressFields(once) == CompressFields(rest) by {
          assert forall k :: k in once && k != "text" ==> k in rest && once[k] == rest[k];
          assert forall k :: k in rest ==> k in once && once[k] == rest[k];
        }
      } else {
        assert once == rest;
      }
  }

  // ---------------------------------------------------------------------------
  // Context preparation
  // ---------------------------------------------------------------------------

  /** The backend's latest-summary read: nothing (`None`), the empty record `{}`, a
      non-empty record whose fields may be missing, or a raised error. */
  datatype SummaryRead =
    | NoSummary
    | EmptyRecord
    | Summary(content: Option<string>, messagesSummarized: Option<nat>, createdAt: Option<string>)
    | ReadFailed

  datatype SummaryInfo = SummaryInfo(content: string, messagesSummarized: nat, createdAt: Option<string>)

  datatype HistoryMessage = HistoryMessage(role: string, content: Content, createdAt: Option<string>, functionName: Option<string>)

  datatype CompressedMessage = CompressedMessage(role: string, content: map<string, Value>, timestamp: Option<string>, hasFunctionCall: bool)

  datatype PreparedContext = PreparedContext(conversationId: string, summary: Option<SummaryInfo>, recentMessages: Option<seq<CompressedMessage>>)

  function CompressMessage(msg: HistoryMessage): Result<CompressedMessage> {
    match CompressMessageContent(msg.content)
    case Failure(e) => Failure(e)
    case Success(c) =>
      Success(CompressedMessage(msg.role, c, msg.createdAt, msg.functionName.Some? && msg.functionName.value != ""))
  }

  /** Compresses each message in order; the first failure aborts the whole list. */
  function CompressMessages(msgs: seq<HistoryMessage>): (r: Result<seq<CompressedMessage>>)
    ensures r.Success? <==> forall i :: 0 <= i < |msgs| ==> CompressMessage(msgs[i]).Success?
    ensures r.Success? ==>
      && |r.value| == |msgs|
      && forall i :: 0 <= i < |msgs| ==> r.value[i] == CompressMessage(msgs[i]).value
  {
    if |msgs| == 0 then Success([])
    else
      match CompressMessage(msgs[0])
      case Failure(e) => Failure(e)
      case Success(m) =>
        match CompressMessages(msgs[1..])
        case Failure(e) => Failure(e)
        case Success(rest) =>
          assert forall i :: 1 <= i < |msgs| ==> msgs[i] == msgs[1..][i - 1];
          Success([m] + rest)
  }

  /** `prepare_context_for_agent`: `history` is the backend's answer to the request
      for the latest messages (the limit is passed to the backend and not
      re-applied here). */
  function PrepareContextForAgent(conversationId: string, summary: SummaryRead,
                                  history: Result<seq<HistoryMessage>>): (r: PreparedContext)
    ensures r.conversationId == conversationId
    ensures r.summary.Some? <==> summary.Summary? && summary.content.Some? && summary.messagesSummarized.Some?
    ensures r.summary.Some? ==> r.summary.value == SummaryInfo(summary.content.value, summary.messagesSummarized.value, summary.createdAt)
    ensures r.recentMessages.Some? <==>
      history.Success? && |history.value| > 0 && CompressMessages(history.value).Success?
    ensures r.recentMessages.Some? ==>
      && |r.recentMessages.value| == |history.value|
      && forall i :: 0 <= i < |history.value| ==>
           r.recentMessages.value[i].role == history.value[i].role
           && Success(r.recentMessages.value[i].content) == CompressMessageContent(history.value[i].content)
  {
    var info :=
      match summary
      case Summary(Some(content), Some(count), createdAt) => Some(SummaryInfo(content, count, createdAt))
      case _ => None;
    var recent :=
      match history
      case Success(msgs) =>
        if |msgs| > 0 && CompressMessages(msgs).Success? then Some(CompressMessages(msgs).value) else None
      case Failure(_) => None;
    PreparedContext(conversationId, info, recent)
  }

  // ---------------------------------------------------------------------------
  // Token estimate
  // ---------------------------------------------------------------------------

  datatype Estimate = Estimate(messageCount: nat, estimatedTokens: nat, contextType: string,
                               includesSummary: Option<bool>, optimizationPotential: nat)

  /** `summary is not None` after a read that did not raise. */
  predicate HasSummary(summary: SummaryRead) {
    summary.EmptyRecord? || summary.Summary?
  }

  /** About one token per three characters of summary text; 600 when the text
      could not be read. */
  function SummaryTokens(summary: SummaryRead): nat {
    if summary.Summary? && summary.content.Some? then |summary.content.value| / 3 else DefaultSummaryTokens
  }

  function Min(a: nat, b: nat): nat { if a <= b then a else b }

  /** `estimate_token_usage` */
  function EstimateTokenUsage(count: Result<nat>, summary: SummaryRead, includeContext: bool): (r: Result<Estimate>)
    ensures r.Success? <==> count.Success?
    ensures r.Success? ==> r.value.messageCount == count.value
    ensures r.Success? && !includeContext ==> r.value.estimatedTokens == 0 && r.value.contextType == "none"
    ensures r.Success? && includeContext && HasSummary(summary) ==>
      r.value.estimatedTokens == Min(10, count.value) * BaseTokensPerMessage + SummaryTokens(summary)
      && r.value.includesSummary == Some(true)
    ensures r.Success? && includeContext && !HasSummary(summary) ==>
      r.value.estimatedTokens == Min(count.value, 20) * BaseTokensPerMessage
      && r.value.estimatedTokens <= 3000
      && r.value.includesSummary == Some(false)
    ensures r.Success? ==>
      var full := count.value * BaseTokensPerMessage;
      if full > r.value.estimatedTokens then r.value.estimatedTokens + r.value.optimizationPotential == full
      else r.value.optimizationPotential == 0
  {
    match count
    case Failure(e) => Failure(e)
    case Success(n) =>
      var (tokens, contextType, includes) :=
        if !includeContext then (0, "none", None)
        else if HasSummary(summary) then (Min(10, n) * BaseTokensPerMessage + SummaryTokens(summary), "summary + recent", Some(true))
        else (Min(n, 20) * BaseTokensPerMessage, "full history", Some(false));
      var full := n * BaseTokensPerMessage;
      Success(Estimate(n, tokens, contextType, includes, if full > tokens then full - tokens else 0))
  }

  // ---------------------------------------------------------------------------
  // Health score
  // ---------------------------------------------------------------------------

  /** Points deducted for the conversation's length. */
  function LengthPenalty(cfg: Config, n: nat): nat {
    if n > 50 then 4 else if n > 30 then 2 else if n > cfg.maxContextMessages then 1 else 0
  }

  /** Adjustment for long conversations: -1 without a summary, +1 with one, 0 when
      the read raised. */
  function SummaryAdjustment(n: nat, summary: SummaryRead): int {
    if n <= 20 then 0
    else match summary
      case NoSummary => -1
      case EmptyRecord => -1
      case Summary(_, _, _) => 1
      case ReadFailed => 0
  }

  function HealthScore(cfg: Config, n: nat, summary: SummaryRead, estimatedTokens: int): (score: int)
    ensures 3 <= score <= 11
    ensures cfg.maxContextMessages <= 20 ==> score <= 10
  {
    10 - LengthPenalty(cfg, n) + SummaryAdjustment(n, summary) - (if estimatedTokens > 3000 then 2 else 0)
  }

  function HealthStatus(score: int): (status: string)
    ensures status == "healthy" <==> score >= 8
    ensures status == "warning" <==> 6 <= score < 8
    ensures status == "needs_attention" <==> score < 6
  {
    if score >= 8 then "healthy" else if score >= 6 then "warning" else "needs_attention"
  }

  /** With the default window, a longer conversation never scores better. */
  lemma HealthScoreMonotone(cfg: Config, n1: nat, n2: nat, summary: SummaryRead, estimatedTokens: int)
    requires cfg.maxContextMessages == 20
    requires n1 <= n2
    ensures HealthScore(cfg, n2, summary, estimatedTokens) <= HealthScore(cfg, n1, summary, estimatedTokens)
  {
  }

  datatype Health = Health(messageCount: nat, score: int, recommendations: seq<string>, status: string,
                           hasSummary: bool, tokenEstimates: Result<Estimate>)

  function Recommendations(cfg: Config, n: nat, summary: SummaryRead, estimatedTokens: int): seq<string> {
    (if n > 50 then ["Consider archiving old conversation"]
     else if n > 30 then ["Create summary to optimize token usage"]
     else if n > cfg.maxContextMessages then ["Consider summarization"]
     else [])
    + (if n > 20 && (summary.NoSummary? || summary.EmptyRecord?) then ["Create conversation summary"] else [])
    + (if estimatedTokens > 3000 then ["High token usage - optimize context"] else [])
  }

  /** `check_conversation_health`: the same count and summary reads feed the
      embedded token estimate. */
  function CheckConversationHealth(cfg: Config, count: Result<nat>, summary: SummaryRead): (r: Result<Health>)
    ensures r.Success? <==> count.Success?
    ensures r.Success? ==>
      var tokens := if r.value.tokenEstimates.Success? then r.value.tokenEstimates.value.estimatedTokens else 0;
      && r.value.score == HealthScore(cfg, count.value, summary, tokens)
      && r.value.status == HealthStatus(r.value.score)
      && (r.value.hasSummary <==> count.value > 20 && summary.Summary?)
      && (tokens > 3000 ==> HasSummary(summary))
      && |r.value.recommendations| <= 3
  {
    match count
    case Failure(e) => Failure(e)
    case Success(n) =>
      var estimate := EstimateTokenUsage(count, summary, true);
      var tokens := if estimate.Success? then estimate.value.estimatedTokens else 0;
      var score := HealthScore(cfg, n, summary, tokens);
      Success(Health(n, score, Recommendations(cfg, n, summary, tokens), HealthStatus(score),
                     n > 20 && summary.Summary?, estimate))
  }
}
