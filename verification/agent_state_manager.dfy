/** Per-turn bookkeeping of the communications agent: opening a session on a
    conversation, assembling the context handed to the agent, and extracting the
    findings worth persisting from the agent's final reply by fixed lexical
    triggers. Backend calls are parameters; the current time is the ISO string
    `now`. */
module AgentStateManager {
  import opened Wrappers
  import opened Text
  import opened Json
  import TokenManager

  const CommunicationsAgent := "CommunicationsAgent"

  /** The case key used when no case is given. */
  const GeneralCase := "general"

  const ModelUsed := "claude-3-5-sonnet-20241022"

  /** Python truthiness of an optional case id. */
  predicate Present(caseId: Option<string>) {
    caseId.Some? && caseId.value != ""
  }

  // ---------------------------------------------------------------------------
  // Session start
  // ---------------------------------------------------------------------------

  /** One stored entry of a case's agent context: a dict, or any other JSON value. */
  datatype ContextEntry = Record(fields: map<string, Value>) | Scalar(value: Value)

  datatype NewMessage = NewMessage(role: string, text: string, messageType: string, sessionStart: bool, modelUsed: string)

  datatype Session = Session(
    conversationId: string,
    /** The case key the conversation was resolved for. */
    conversationCase: string,
    /** The messages appended to the conversation, in order. */
    appended: seq<NewMessage>,
    /** The case whose stored context was requested, if any. */
    contextCase: Option<string>,
    existingContext: map<string, ContextEntry>)

  /** `start_agent_session`: `conversation(case)` is the backend's get-or-create
      answer, `appendError` the failure of adding the message (if it failed) and
      `loadContext(case)` the stored context read. Conversation and append
      failures propagate; a failed context read means an empty context. */
  function StartAgentSession(userMessage: string, caseId: Option<string>,
                             conversation: string -> Result<string>, appendError: Option<string>,
                             loadContext: string -> Result<map<string, ContextEntry>>): (r: Result<Session>)
    ensures var key := if Present(caseId) then caseId.value else GeneralCase;
      && (r.Failure? <==> conversation(key).Failure? || appendError.Some?)
      && (r.Success? ==>
            && r.value.conversationCase == key
            && r.value.conversationId == conversation(key).value)
    ensures !Present(caseId) ==> r.Success? ==> r.value.conversationCase == "general"
    ensures r.Success? ==>
      && |r.value.appended| == 1
      && r.value.appended[0] == NewMessage("user", userMessage, "user_input", true, ModelUsed)
    ensures r.Success? ==>
      && (r.value.contextCase.Some? <==> Present(caseId))
      && (!Present(caseId) ==> r.value.existingContext == map[])
      && (Present(caseId) ==>
            r.value.existingContext == (if loadContext(caseId.value).Success? then loadContext(caseId.value).value else map[]))
  {
    var key := if Present(caseId) then caseId.value else GeneralCase;
    match conversation(key)
    case Failure(e) => Failure(e)
    case Success(conversationId) =>
      if appendError.Some? then Failure(appendError.value)
      else
        var message := NewMessage("user", userMessage, "user_input", true, ModelUsed);
        var context :=
          if !Present(caseId) then map[]
          else match loadContext(caseId.value)
            case Success(c) => c
            case Failure(_) => map[];
        Success(Session(conversationId, key, [message], if Present(caseId) then Some(caseId.value) else None, context))
  }

  // ---------------------------------------------------------------------------
  // Context preparation
  // ---------------------------------------------------------------------------

  datatype EmailActivity = EmailActivity(lastEmail: Value, emailCount: Value)

  datatype TokenInfo = TokenInfo(estimatedTokens: nat, contextType: string, optimizationPotential: nat)

  datatype AgentContext =
    | FullContext(
        conversationId: string,
        agentType: string,
        caseContext: Option<map<string, ContextEntry>>,
        communicationStyle: Option<Value>,
        recentEmailActivity: Option<EmailActivity>,
        conversationSummary: Option<TokenManager.SummaryInfo>,
        recentConversation: Option<seq<TokenManager.CompressedMessage>>,
        tokenInfo: TokenInfo)
      /** What is left when assembling the context raised. */
    | MinimalContext(conversationId: string, agentType: string)

  /** `d.get(key, default)` on a dict entry. */
  function Get(fields: map<string, Value>, key: string, default: Value): Value {
    if key in fields then fields[key] else default
  }

  /** Whether `.get` would be called on a stored entry that is not a dict. */
  predicate MalformedEntry(existing: map<string, ContextEntry>, key: string) {
    key in existing && existing[key].Scalar?
  }

  /** `prepare_agent_context`: merges the stored case context, the token manager's
      prepared context and its estimate. */
  function PrepareAgentContext(conversationId: string, agentType: string,
                               existing: map<string, ContextEntry>,
                               optimized: TokenManager.PreparedContext,
                               estimate: Result<TokenManager.Estimate>): (r: AgentContext)
    ensures r.conversationId == conversationId && r.agentType == agentType
    ensures r.MinimalContext? <==>
      MalformedEntry(existing, "client_preferences") || MalformedEntry(existing, "email_history")
    ensures r.FullContext? ==>
      && (r.caseContext.Some? <==> |existing| > 0)
      && (r.caseContext.Some? ==> r.caseContext.value == existing)
      && (r.communicationStyle.Some? <==> "client_preferences" in existing)
      && (r.communicationStyle.Some? ==>
            var prefs := existing["client_preferences"].fields;
            r.communicationStyle.value == if "communication_style" in prefs then prefs["communication_style"] else Str("professional"))
      && (r.recentEmailActivity.Some? <==> "email_history" in existing)
      && (r.recentEmailActivity.Some? ==>
            var hist := existing["email_history"].fields;
            && r.recentEmailActivity.value.emailCount == (if "email_count" in hist then hist["email_count"] else Int(0))
            && r.recentEmailActivity.value.lastEmail == (if "last_email_sent" in hist then hist["last_email_sent"] else Null))
      && r.conversationSummary == optimized.summary
      && r.recentConversation == optimized.recentMessages
      && (estimate.Failure? ==> r.tokenInfo == TokenInfo(0, "unknown", 0))
      && (estimate.Success? ==> r.tokenInfo.estimatedTokens == estimate.value.estimatedTokens)
  {
    if MalformedEntry(existing, "client_preferences") || MalformedEntry(existing, "email_history") then
      MinimalContext(conversationId, agentType)
    else
      var style :=
        if "client_preferences" in existing
        then Some(Get(existing["client_preferences"].fields, "communication_style", Str("professional")))
        else None;
      var activity :=
        if "email_history" in existing
        then
          var hist := existing["email_history"].fields;
          Some(EmailActivity(Get(hist, "last_email_sent", Null), Get(hist, "email_count", Int(0))))
        else None;
      var info :=
        match estimate
        case Success(e) => TokenInfo(e.estimatedTokens, e.contextType, e.optimizationPotential)
        case Failure(_) => TokenInfo(0, "unknown", 0);
      FullContext(conversationId, agentType, if |existing| > 0 then Some(existing) else None,
                  style, activity, optimized.summary, optimized.recentMessages, info)
  }

  /** The context prepared from a started session is about that session's
      conversation; it carries the case's stored context when one was read, and
      no case context when no case was given or the read failed. */
  lemma SessionThenContext(userMessage: string, caseId: Option<string>,
                           conversation: string -> Result<string>, appendError: Option<string>,
                           loadContext: string -> Result<map<string, ContextEntry>>,
                           agentType: string, optimized: TokenManager.PreparedContext,
                           estimate: Result<TokenManager.Estimate>)
    requires StartAgentSession(userMessage, caseId, conversation, appendError, loadContext).Success?
    ensures var s := StartAgentSession(userMessage, caseId, conversation, appendError, loadContext).value;
      var ctx := PrepareAgentContext(s.conversationId, agentType, s.existingContext, optimized, estimate);
      var key := if Present(caseId) then caseId.value else GeneralCase;
      && ctx.conversationId == conversation(key).value && ctx.agentType == agentType
      && (!Present(caseId) || loadContext(caseId.value).Failure? ==>
            ctx.FullContext? && ctx.caseContext.None? && ctx.communicationStyle.None? && ctx.recentEmailActivity.None?)
      && (Present(caseId) && loadContext(caseId.value).Success? ==>
            var stored := loadContext(caseId.value).value;
            (ctx.MinimalContext? <==> MalformedEntry(stored, "client_preferences") || MalformedEntry(stored, "email_history"))
            && (ctx.FullContext? && |stored| > 0 ==> ctx.caseContext == Some(stored)))
  {
    var s := StartAgentSession(userMessage, caseId, conversation, appendError, loadContext).value;
    if !Present(caseId) || loadContext(caseId.value).Failure? {
      assert s.existingContext == map[];
    } else {
      assert s.existingContext == loadContext(caseId.value).value;
    }
  }

  // ---------------------------------------------------------------------------
  // Interaction analysis
  // ---------------------------------------------------------------------------

  const StyleWords := ["formal", "professional", "casual", "friendly"]
  const FormalWords := ["formal", "professional"]
  const EmailIndicators := ["email sent", "reminder sent", "emailed", "contacted"]
  const CaseActivities := ["case created", "documents requested", "client contacted"]
  const FeedbackPhrases := ["client said", "client mentioned"]

  /** `any(w in text for w in words)` */
  predicate MentionsAny(text: string, words: seq<string>) {
    exists w :: w in words && Contains(text, w)
  }

  datatype ClientPreferences = ClientPreferences(communicationStyle: string, detectedAt: string, confidence: string, source: string)
  datatype EmailHistory = EmailHistory(lastEmailSent: string, emailCount: nat, lastEmailType: string, effectiveness: string)
  datatype CaseProgress = CaseProgress(lastActivity: string, activityType: string, description: string, agentAction: bool)
  datatype ClientFeedback = ClientFeedback(timestamp: string, feedbackSource: string, content: string, requiresFollowUp: bool)

  datatype ContextUpdates = ContextUpdates(
    clientPreferences: Option<ClientPreferences>,
    emailHistory: Option<EmailHistory>,
    caseProgress: Option<CaseProgress>,
    clientFeedback: Option<ClientFeedback>)

  /** `_analyze_interaction_for_context` */
  function AnalyzeInteraction(finalResponse: string, now: string): (u: ContextUpdates)
    ensures var lower := Lower(finalResponse);
      && (u.clientPreferences.Some? <==> MentionsAny(lower, StyleWords))
      && (u.emailHistory.Some? <==> MentionsAny(lower, EmailIndicators))
      && (u.caseProgress.Some? <==> MentionsAny(lower, CaseActivities))
      && (u.clientFeedback.Some? <==> MentionsAny(lower, FeedbackPhrases))
    ensures u.clientPreferences.Some? ==>
      var p := u.clientPreferences.value;
      && (p.communicationStyle == "formal" <==> MentionsAny(Lower(finalResponse), FormalWords))
      && (p.communicationStyle != "formal" ==> p.communicationStyle == "casual")
      && p.confidence == "inferred"
    ensures u.emailHistory.Some? ==>
      var h := u.emailHistory.value;
      && h.emailCount == 1
      && (h.lastEmailType == "reminder" <==> Contains(Lower(finalResponse), "reminder"))
      && (h.lastEmailType != "reminder" ==> h.lastEmailType == "general")
    ensures u.caseProgress.Some? ==>
      var d := u.caseProgress.value.description;
      && |d| <= 203
      && (|finalResponse| <= 200 ==> d == finalResponse)
      && (|finalResponse| > 200 ==> d == finalResponse[..200] + "...")
    ensures u.clientFeedback.Some? ==>
      var f := u.clientFeedback.value;
      && f.content == finalResponse[..if |finalResponse| <= 300 then |finalResponse| else 300]
      && (f.requiresFollowUp <==> Contains(Lower(finalResponse), "follow up"))
  {
    var lower := Lower(finalResponse);
    var prefs :=
      if MentionsAny(lower, StyleWords)
      then Some(ClientPreferences(if MentionsAny(lower, FormalWords) then "formal" else "casual",
                                  now, "inferred", "agent_response_analysis"))
      else None;
    var history :=
      if MentionsAny(lower, EmailIndicators)
      then Some(EmailHistory(now, 1, if Contains(lower, "reminder") then "reminder" else "general", "sent"))
      else None;
    var progress :=
      if MentionsAny(lower, CaseActivities)
      then Some(CaseProgress(now, "case_management", Truncate(finalResponse, 200), true))
      else None;
    var feedback :=
      if MentionsAny(lower, FeedbackPhrases)
      then Some(ClientFeedback(now, "agent_interaction", Prefix(finalResponse, 300), Contains(lower, "follow up")))
      else None;
    ContextUpdates(prefs, history, progress, feedback)
  }

  /** "client contacted" is a case-management trigger that contains the email
      indicator "contacted", so it always records email history as well. */
  lemma ClientContactedRecordsEmail(finalResponse: string, now: string)
    requires Contains(Lower(finalResponse), "client contacted")
    ensures AnalyzeInteraction(finalResponse, now).caseProgress.Some?
    ensures AnalyzeInteraction(finalResponse, now).emailHistory.Some?
  {
    var lower := Lower(finalResponse);
    assert "client contacted"[7..][..|"contacted"|] == "contacted";
    ContainsAt("client contacted", "contacted", 7);
    ContainsTransitive(lower, "client contacted", "contacted");
    assert "contacted" in EmailIndicators;
    assert "client contacted" in CaseActivities;
  }

  // ---------------------------------------------------------------------------
  // Persisting the findings
  // ---------------------------------------------------------------------------

  datatype ContextValue =
    | PreferencesValue(preferences: ClientPreferences)
    | HistoryValue(history: EmailHistory)
    | ProgressValue(progress: CaseProgress)
    | FeedbackValue(feedback: ClientFeedback)

  const ContextKeys := ["client_preferences", "email_history", "case_progress", "client_feedback"]

  /** The extracted entries in the order they were inserted. */
  function Entries(u: ContextUpdates): (es: seq<(string, ContextValue)>)
    ensures |es| <= 4
    ensures forall i :: 0 <= i < |es| ==> es[i].0 in ContextKeys
    ensures forall i, j :: 0 <= i < j < |es| ==> es[i].0 != es[j].0
  {
    (if u.clientPreferences.Some? then [("client_preferences", PreferencesValue(u.clientPreferences.value))] else [])
    + (if u.emailHistory.Some? then [("email_history", HistoryValue(u.emailHistory.value))] else [])
    + (if u.caseProgress.Some? then [("case_progress", ProgressValue(u.caseProgress.value))] else [])
    + (if u.clientFeedback.Some? then [("client_feedback", FeedbackValue(u.clientFeedback.value))] else [])
  }

  /** The keys of the entries. */
  function KeysOf(es: seq<(string, ContextValue)>): set<string> {
    set e | e in es :: e.0
  }

  /** Each context key is stored exactly when the matching finding exists. */
  lemma EntriesPresent(u: ContextUpdates)
    ensures "client_preferences" in KeysOf(Entries(u)) <==> u.clientPreferences.Some?
    ensures "email_history" in KeysOf(Entries(u)) <==> u.emailHistory.Some?
    ensures "case_progress" in KeysOf(Entries(u)) <==> u.caseProgress.Some?
    ensures "client_feedback" in KeysOf(Entries(u)) <==> u.clientFeedback.Some?
  {
  }

  datatype StoreRequest = StoreRequest(caseId: string, agentType: string, key: string, value: ContextValue)

  /** Issues one store per entry in order; a store that fails ends the loop (the
      error is logged and swallowed). */
  function AttemptStores(caseId: string, agentType: string, entries: seq<(string, ContextValue)>,
                         storeFails: string -> bool): (attempted: seq<StoreRequest>)
    ensures |attempted| <= |entries|
    ensures forall i :: 0 <= i < |attempted| ==>
      attempted[i] == StoreRequest(caseId, agentType, entries[i].0, entries[i].1)
    ensures forall i :: 0 <= i < |attempted| - 1 ==> !storeFails(entries[i].0)
    ensures (forall i :: 0 <= i < |entries| ==> !storeFails(entries[i].0)) ==> |attempted| == |entries|
    ensures |attempted| == |entries| || (|attempted| > 0 && storeFails(entries[|attempted| - 1].0))
  {
    if |entries| == 0 then []
    else
      var request := StoreRequest(caseId, agentType, entries[0].0, entries[0].1);
      if storeFails(entries[0].0) then [request]
      else [request] + AttemptStores(caseId, agentType, entries[1..], storeFails)
  }

  /** `store_interaction_results`: the stores issued for one finished turn. */
  function StoreInteractionResults(agentType: string, caseId: Option<string>, finalResponse: string, now: string,
                                   storeFails: string -> bool): (attempted: seq<StoreRequest>)
    ensures !Present(caseId) || caseId.value == GeneralCase ==> attempted == []
    ensures Present(caseId) && caseId.value != GeneralCase ==>
      var entries := Entries(AnalyzeInteraction(finalResponse, now));
      && |attempted| <= |entries|
      && (forall i :: 0 <= i < |attempted| ==> attempted[i].caseId == caseId.value && attempted[i].key == entries[i].0)
      && ((forall k :: !storeFails(k)) ==> |attempted| == |entries|)
      && (forall i :: 0 <= i < |attempted| ==> attempted[i] == StoreRequest(caseId.value, agentType, entries[i].0, entries[i].1))
      && (forall i :: 0 <= i < |attempted| - 1 ==> !storeFails(entries[i].0))
      && (|attempted| == |entries| || (|attempted| > 0 && storeFails(entries[|attempted| - 1].0)))
  {
    if !Present(caseId) || caseId.value == GeneralCase then []
    else AttemptStores(caseId.value, agentType, Entries(AnalyzeInteraction(finalResponse, now)), storeFails)
  }
}
