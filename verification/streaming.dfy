/** The events streamed to the frontend during a workflow, and the per-workflow
    bookkeeping record. Times are integers on one clock (seconds); the moment
    `datetime.now()` is read becomes the parameter `now`. */
module Streaming {
  import opened Wrappers
  import opened Json

  type Time = int

  /** The closed set of event kinds. */
  datatype EventType =
    | WorkflowStartedType
    | ReasoningStepType
    | ToolStartType
    | ToolEndType
    | AgentThinkingType
    | WorkflowCompletedType
    | WorkflowErrorType
    | HeartbeatType
  {
    /** The wire value of the kind. */
    function Tag(): string {
      match this
      case WorkflowStartedType => "workflow_started"
      case ReasoningStepType => "reasoning_step"
      case ToolStartType => "tool_start"
      case ToolEndType => "tool_end"
      case AgentThinkingType => "agent_thinking"
      case WorkflowCompletedType => "workflow_completed"
      case WorkflowErrorType => "workflow_error"
      case HeartbeatType => "heartbeat"
    }
  }

  /** `StreamEventType(s)`: the kind with wire value `s`, if any. */
  function ParseTag(s: string): (t: Option<EventType>)
    ensures t.Some? ==> t.value.Tag() == s
  {
    if s == "workflow_started" then Some(WorkflowStartedType)
    else if s == "reasoning_step" then Some(ReasoningStepType)
    else if s == "tool_start" then Some(ToolStartType)
    else if s == "tool_end" then Some(ToolEndType)
    else if s == "agent_thinking" then Some(AgentThinkingType)
    else if s == "workflow_completed" then Some(WorkflowCompletedType)
    else if s == "workflow_error" then Some(WorkflowErrorType)
    else if s == "heartbeat" then Some(HeartbeatType)
    else None
  }

  /** Every kind's wire value parses back to it, so distinct kinds have distinct
      wire values. */
  lemma ParseTagRoundTrip(t: EventType)
    ensures ParseTag(t.Tag()) == Some(t)
  {
    var s := t.Tag();
    // the wire values differ at these positions
    assert "workflow_started"[9] != "workflow_completed"[9] && "workflow_started"[9] != "workflow_error"[9];
    assert "workflow_completed"[9] != "workflow_error"[9];
    assert "tool_start"[5] != "tool_end"[5];
    assert "workflow_started"[0] != "reasoning_step"[0];
  }

  lemma TagInjective(t1: EventType, t2: EventType)
    requires t1.Tag() == t2.Tag()
    ensures t1 == t2
  {
    ParseTagRoundTrip(t1);
    ParseTagRoundTrip(t2);
  }

  datatype Event =
    | WorkflowStarted(workflowId: string, timestamp: Time, initialPrompt: string, agentType: string)
    | ReasoningStep(workflowId: string, timestamp: Time, stepId: string, thought: string,
                    action: Option<string>, actionInput: Option<map<string, Value>>, stepNumber: int)
    | ToolStart(workflowId: string, timestamp: Time, toolName: string, toolInput: map<string, Value>,
                description: Option<string>)
    | ToolEnd(workflowId: string, timestamp: Time, toolName: string, toolOutput: Option<string>,
              success: bool, toolError: Option<string>, toolTimeMs: Option<int>)
    | AgentThinking(workflowId: string, timestamp: Time, thinking: string, planningStage: string)
    | WorkflowCompleted(workflowId: string, timestamp: Time, finalResponse: string, totalSteps: int,
                        executionTimeMs: int, toolsUsed: seq<string>)
    | WorkflowError(workflowId: string, timestamp: Time, errorMessage: string, errorType: string,
                    recoverySuggestion: Option<string>, partialResponse: Option<string>)
    | Heartbeat(workflowId: string, timestamp: Time, status: string)
  {
    /** The fixed `type` field of each variant. */
    function Type(): EventType {
      match this
      case WorkflowStarted(_, _, _, _) => WorkflowStartedType
      case ReasoningStep(_, _, _, _, _, _, _) => ReasoningStepType
      case ToolStart(_, _, _, _, _) => ToolStartType
      case ToolEnd(_, _, _, _, _, _, _) => ToolEndType
      case AgentThinking(_, _, _, _) => AgentThinkingType
      case WorkflowCompleted(_, _, _, _, _, _) => WorkflowCompletedType
      case WorkflowError(_, _, _, _, _, _) => WorkflowErrorType
      case Heartbeat(_, _, _) => HeartbeatType
    }
  }

  /** The variant is determined by its type tag. */
  lemma TypeTagIdentifiesVariant(e1: Event, e2: Event)
    requires e1.Type().Tag() == e2.Type().Tag()
    ensures e1.WorkflowStarted? <==> e2.WorkflowStarted?
    ensures e1.WorkflowCompleted? <==> e2.WorkflowCompleted?
    ensures e1.WorkflowError? <==> e2.WorkflowError?
    ensures e1.ToolEnd? <==> e2.ToolEnd?
  {
    TagInjective(e1.Type(), e2.Type());
  }

  /** `WorkflowStartedEvent` with the default agent type. */
  function NewWorkflowStarted(workflowId: string, now: Time, initialPrompt: string): (e: Event)
    ensures e.WorkflowStarted? && e.Type().Tag() == "workflow_started"
    ensures e.workflowId == workflowId && e.initialPrompt == initialPrompt
    ensures e.agentType == "CommunicationsAgent"
  {
    WorkflowStarted(workflowId, now, initialPrompt, "CommunicationsAgent")
  }

  /** `ToolEndEvent` with only the required fields given. */
  function NewToolEnd(workflowId: string, now: Time, toolName: string): (e: Event)
    ensures e.ToolEnd? && e.Type().Tag() == "tool_end"
    ensures e.success
    ensures e.toolOutput.None? && e.toolError.None? && e.toolTimeMs.None?
  {
    ToolEnd(workflowId, now, toolName, None, true, None, None)
  }

  /** `HeartbeatEvent` with the default status. */
  function NewHeartbeat(workflowId: string, now: Time): (e: Event)
    ensures e.Heartbeat? && e.Type().Tag() == "heartbeat"
    ensures e.workflowId == workflowId && e.status == "processing"
  {
    Heartbeat(workflowId, now, "processing")
  }

  // ---------------------------------------------------------------------------
  // Per-workflow state
  // ---------------------------------------------------------------------------

  datatype StreamingState = StreamingState(
    workflowId: string,
    isActive: bool,
    startTime: Time,
    lastActivity: Time,
    eventCount: nat,
    stepCounter: nat,
    toolsUsed: seq<string>)

  predicate NoDuplicates(s: seq<string>) {
    forall i, j :: 0 <= i < j < |s| ==> s[i] != s[j]
  }

  /** A freshly registered workflow. */
  function NewState(workflowId: string, now: Time): (st: StreamingState)
    ensures st.workflowId == workflowId && st.isActive
    ensures st.startTime == now && st.lastActivity == now
    ensures st.eventCount == 0 && st.stepCounter == 0 && st.toolsUsed == []
  {
    StreamingState(workflowId, true, now, now, 0, 0, [])
  }

  /** `increment_step`: the new state and the counter it returns. */
  function IncrementStep(st: StreamingState, now: Time): (r: (StreamingState, nat))
    ensures r.1 == st.stepCounter + 1 && r.0.stepCounter == r.1
    ensures r.0.lastActivity == now
    ensures r.0 == st.(stepCounter := r.1, lastActivity := now)
  {
    var n := st.stepCounter + 1;
    (st.(stepCounter := n, lastActivity := now), n)
  }

  /** `add_tool`: records a tool name the first time it is used. */
  function AddTool(st: StreamingState, toolName: string): (r: StreamingState)
    ensures toolName in r.toolsUsed
    ensures toolName in st.toolsUsed ==> r == st
    ensures toolName !in st.toolsUsed ==> r == st.(toolsUsed := st.toolsUsed + [toolName])
    ensures NoDuplicates(st.toolsUsed) ==> NoDuplicates(r.toolsUsed)
  {
    if toolName in st.toolsUsed then st else st.(toolsUsed := st.toolsUsed + [toolName])
  }

  lemma AddToolIdempotent(st: StreamingState, toolName: string)
    ensures AddTool(AddTool(st, toolName), toolName) == AddTool(st, toolName)
  {
  }

  /** Recording a sequence of tool uses in order. */
  function AddTools(st: StreamingState, names: seq<string>): StreamingState
    decreases |names|
  {
    if |names| == 0 then st else AddTools(AddTool(st, names[0]), names[1..])
  }

  /** Recording tool uses keeps the earlier list as a prefix (first-use order),
      adds exactly the new names, and never duplicates one. */
  lemma {:induction false} AddToolsFirstUse(st: StreamingState, names: seq<string>)
    ensures var r := AddTools(st, names);
      && st.toolsUsed <= r.toolsUsed
      && (set t | t in r.toolsUsed) == (set t | t in st.toolsUsed) + (set t | t in names)
      && (NoDuplicates(st.toolsUsed) ==> NoDuplicates(r.toolsUsed))
      && r.stepCounter == st.stepCounter && r.eventCount == st.eventCount
    decreases |names|
  {
    if |names| > 0 {
      var mid := AddTool(st, names[0]);
      AddToolsFirstUse(mid, names[1..]);
      assert names == [names[0]] + names[1..];
      assert (set t | t in names) == {names[0]} + (set t | t in names[1..]);
    }
  }

  /** `mark_activity` */
  function MarkActivity(st: StreamingState, now: Time): (r: StreamingState)
    ensures r.eventCount == st.eventCount + 1 && r.lastActivity == now
    ensures r.(eventCount := st.eventCount, lastActivity := st.lastActivity) == st
  {
    st.(lastActivity := now, eventCount := st.eventCount + 1)
  }
}
